/**
 * Sharing the main axis of a stack among its entries
 * (packages/tui/src/components/stack.ts).  Sizes are whole cells.
 */
module StackSizes {
  import opened Base

  /** An entry's options with their defaults filled in; no basis means "auto". */
  datatype SizeEntry = SizeEntry(basis: Option<int>, grow: nat, shrink: nat, minSize: nat, maxSize: nat)

  function Sum(s: seq<int>): int {
    if s == [] then 0 else Sum(s[..|s|-1]) + s[|s|-1]
  }

  lemma {:induction false} SumUpdate(s: seq<int>, i: nat, v: int)
    requires i < |s|
    ensures Sum(s[i := v]) == Sum(s) - s[i] + v
  {
    var last := |s| - 1;
    if i == last {
      assert s[i := v][..last] == s[..last];
    } else {
      SumUpdate(s[..last], i, v);
      assert s[i := v][..last] == s[..last][i := v];
    }
  }

  function ClampSize(size: int, entry: SizeEntry): int {
    Max(entry.minSize, Min(Max(entry.minSize, entry.maxSize), Max(0, size)))
  }

  predicate SizeOk(size: int, entry: SizeEntry) {
    entry.minSize <= size <= Max(entry.minSize, entry.maxSize)
  }

  ghost predicate SizesOk(sizes: seq<int>, entries: seq<SizeEntry>) {
    |sizes| == |entries| && forall i :: 0 <= i < |sizes| ==> SizeOk(sizes[i], entries[i])
  }

  datatype Mode = Grow | Shrink

  /** An entry that may still give or take a cell. */
  predicate Candidate(size: int, entry: SizeEntry, mode: Mode) {
    match mode
    case Grow => entry.grow > 0 && size < entry.maxSize
    case Shrink => entry.shrink > 0 && size > entry.minSize
  }

  function Weight(size: int, entry: SizeEntry, mode: Mode): int {
    match mode
    case Grow => entry.grow
    case Shrink => entry.shrink * Max(1, size)
  }

  lemma CandidateWeight(size: int, entry: SizeEntry, mode: Mode)
    requires Candidate(size, entry, mode)
    ensures Weight(size, entry, mode) > 0
  {
  }

  function TotalWeight(sizes: seq<int>, entries: seq<SizeEntry>, mode: Mode): (r: int)
    requires |sizes| == |entries|
    ensures r >= 0
  {
    if sizes == [] then 0
    else
      var n := |sizes| - 1;
      TotalWeight(sizes[..n], entries[..n], mode) +
      (if Candidate(sizes[n], entries[n], mode) then Max(0, Weight(sizes[n], entries[n], mode)) else 0)
  }

  lemma {:induction false} TotalWeightPositive(sizes: seq<int>, entries: seq<SizeEntry>, mode: Mode, i: nat)
    requires |sizes| == |entries| && i < |sizes| && Candidate(sizes[i], entries[i], mode)
    ensures TotalWeight(sizes, entries, mode) > 0
  {
    CandidateWeight(sizes[i], entries[i], mode);
    var n := |sizes| - 1;
    if i < n {
      TotalWeightPositive(sizes[..n], entries[..n], mode, i);
    }
  }

  /** How far the sum has moved, in the direction of the mode. */
  function Moved(before: int, after: int, mode: Mode): int {
    if mode.Grow? then after - before else before - after
  }

  predicate Saturated(sizes: seq<int>, entries: seq<SizeEntry>, mode: Mode)
    requires |sizes| == |entries|
  {
    forall i :: 0 <= i < |sizes| ==> !Candidate(sizes[i], entries[i], mode)
  }

  /** The part of an amount that an entry's weight entitles it to in one round, at least a cell. */
  function Entitled(size: int, entry: SizeEntry, mode: Mode, amount: int, totalWeight: int): (r: int)
    requires totalWeight > 0
    ensures r >= 1
  {
    Max(1, amount * Weight(size, entry, mode) / totalWeight)
  }

  lemma EntitledMonotone(size: int, entry: SizeEntry, mode: Mode, less: int, more: int, totalWeight: int)
    requires 0 <= less <= more && totalWeight > 0
    ensures Entitled(size, entry, mode, less, totalWeight) <= Entitled(size, entry, mode, more, totalWeight)
  {
    var w := Weight(size, entry, mode);
    assert less * w <= more * w by { assert more * w - less * w == (more - less) * w; }
    DivMonotone(less * w, more * w, totalWeight);
  }

  lemma DivMonotone(a: int, b: int, d: int)
    requires a <= b && d > 0
    ensures a / d <= b / d
  {
    var p, q := a / d, b / d;
    assert d * p <= a && b < d * q + d;
    if p > q {
      MulMonotone(d, q + 1, p);
      assert false;
    }
  }

  /** What a candidate takes or gives in one round. */
  function Share(size: int, entry: SizeEntry, mode: Mode, remaining: int, totalWeight: int): (delta: int)
    requires remaining > 0 && totalWeight > 0 && Candidate(size, entry, mode)
    ensures 1 <= delta <= remaining && delta <= Entitled(size, entry, mode, remaining, totalWeight)
    ensures if mode.Grow? then size + delta <= entry.maxSize else size - delta >= entry.minSize
  {
    var proposed := Entitled(size, entry, mode, remaining, totalWeight);
    var capacity := if mode.Grow? then entry.maxSize - size else size - entry.minSize;
    Min(remaining, Min(proposed, capacity))
  }

  function Resize(size: int, delta: int, mode: Mode): int {
    if mode.Grow? then size + delta else size - delta
  }

  /** No entry but a candidate moves in a round, and none by more than its weight entitles it to. */
  ghost predicate WithinShares(before: seq<int>, after: seq<int>, entries: seq<SizeEntry>, mode: Mode, amount: int) {
    && |before| == |after| == |entries|
    && forall i :: 0 <= i < |after| ==>
          if Candidate(before[i], entries[i], mode) then
            var total := TotalWeight(before, entries, mode);
            total > 0 && 0 <= Moved(before[i], after[i], mode) <= Entitled(before[i], entries[i], mode, amount, total)
          else after[i] == before[i]
  }

  /** An entry's weight, if it can still move. */
  function WeightIn(size: int, entry: SizeEntry, mode: Mode): int {
    match mode
    case Grow => if entry.grow > 0 && size < entry.maxSize then entry.grow else 0
    case Shrink => if entry.shrink > 0 && size > entry.minSize then entry.shrink * Max(1, size) else 0
  }

  function WeightsIn(sizes: seq<int>, entries: seq<SizeEntry>, mode: Mode): seq<int>
    requires |sizes| == |entries|
  {
    seq(|sizes|, i requires 0 <= i < |sizes| => WeightIn(sizes[i], entries[i], mode))
  }

  lemma {:induction false} TotalIsSum(sizes: seq<int>, entries: seq<SizeEntry>, mode: Mode)
    requires |sizes| == |entries|
    ensures TotalWeight(sizes, entries, mode) == Sum(WeightsIn(sizes, entries, mode))
  {
    if sizes != [] {
      var n := |sizes| - 1;
      TotalIsSum(sizes[..n], entries[..n], mode);
      assert WeightsIn(sizes, entries, mode)[..n] == WeightsIn(sizes[..n], entries[..n], mode);
      WeightInIs(sizes[n], entries[n], mode);
    }
  }

  lemma WeightInIs(size: int, entry: SizeEntry, mode: Mode)
    ensures WeightIn(size, entry, mode) == if Candidate(size, entry, mode) then Weight(size, entry, mode) else 0
    ensures WeightIn(size, entry, mode) > 0 <==> Candidate(size, entry, mode)
  {
    if mode.Shrink? && entry.shrink > 0 { assert entry.shrink * Max(1, size) >= 1; }
  }

  /** Room up to an entry's limit. */
  function Room(size: int, entry: SizeEntry, mode: Mode): int {
    if mode.Grow? then entry.maxSize - size else size - entry.minSize
  }

  /**
   * What a round does: in their order, entries that can still move take (give) the part
   * of what is left that their weight has in the total, at least a cell, as far as there
   * is room; the others stay.
   */
  ghost predicate RoundShares(before: seq<int>, after: seq<int>, entries: seq<SizeEntry>, mode: Mode, amount: int,
      n: nat)
  {
    && |before| == |after| == |entries| && n <= |after|
    && var total := Sum(WeightsIn(before, entries, mode));
      forall i :: 0 <= i < n ==>
          var left := amount - Moved(Sum(before[..i]), Sum(after[..i]), mode);
          var weight := WeightIn(before[i], entries[i], mode);
          Moved(before[i], after[i], mode) ==
            if weight > 0 && left > 0 && total > 0 then
              Min(left, Min(Max(1, left * weight / total), Room(before[i], entries[i], mode)))
            else 0
  }

  lemma SharesFrame(before: seq<int>, now: seq<int>, after: seq<int>, entries: seq<SizeEntry>, mode: Mode, amount: int,
      n: nat)
    requires RoundShares(before, now, entries, mode, amount, n) && |after| == |now| && after[..n] == now[..n]
    ensures RoundShares(before, after, entries, mode, amount, n)
  {
    hide Sum, WeightsIn, WeightIn, Room;
    forall i | 0 <= i < n ensures after[i] == now[i] && after[..i] == now[..i] {
      assert after[..n][i] == now[..n][i];
      assert after[..i] == after[..n][..i] && now[..i] == now[..n][..i];
    }
  }

  lemma SharesMore(before: seq<int>, after: seq<int>, entries: seq<SizeEntry>, mode: Mode, amount: int, n: nat,
      delta: int, left: int)
    requires RoundShares(before, after, entries, mode, amount, n) && n < |after|
    requires Moved(before[n], after[n], mode) == delta
    requires left == amount - Moved(Sum(before[..n]), Sum(after[..n]), mode)
    requires var total := Sum(WeightsIn(before, entries, mode));
      var weight := WeightIn(before[n], entries[n], mode);
      delta == if weight > 0 && left > 0 && total > 0 then
                 Min(left, Min(Max(1, left * weight / total), Room(before[n], entries[n], mode)))
               else 0
    ensures RoundShares(before, after, entries, mode, amount, n + 1)
  {
    hide Sum, WeightsIn, WeightIn, Room, Moved;
  }

  lemma LeftMore(before: seq<int>, after: seq<int>, mode: Mode, amount: int, n: nat, left: int)
    requires n < |before| == |after| && left == amount - Moved(Sum(before[..n]), Sum(after[..n]), mode)
    ensures left - Moved(before[n], after[n], mode) == amount - Moved(Sum(before[..n+1]), Sum(after[..n+1]), mode)
  {
    assert before[..n+1][..n] == before[..n] && after[..n+1][..n] == after[..n];
  }

  /** One entry's turn in a round. */
  method GiveShare(sizes: array<int>, entries: seq<SizeEntry>, index: nat, mode: Mode, left: int, totalWeight: int)
    returns (delta: int)
    requires SizesOk(sizes[..], entries) && index < sizes.Length && left >= 0
    requires Candidate(sizes[index], entries[index], mode) ==> totalWeight > 0
    modifies sizes
    ensures SizesOk(sizes[..], entries) && 0 <= delta <= left
    ensures sizes[..] == old(sizes[..])[index := Resize(old(sizes[index]), delta, mode)]
    ensures var size, entry := old(sizes[index]), entries[index];
      && (left > 0 && Candidate(size, entry, mode) ==> delta >= 1)
      && var weight := WeightIn(size, entry, mode);
        delta == if weight > 0 && left > 0 && totalWeight > 0 then
                   Min(left, Min(Max(1, left * weight / totalWeight), Room(size, entry, mode)))
                 else 0
  {
    hide WeightIn;
    WeightInIs(sizes[index], entries[index], mode);
    ghost var now := sizes[..];
    delta := 0;
    if left > 0 && Candidate(sizes[index], entries[index], mode) {
      delta := Share(sizes[index], entries[index], mode, left, totalWeight);
      sizes[index] := Resize(sizes[index], delta, mode);
    }
    assert sizes[..] == now[index := sizes[index]];
  }

  lemma RoundShared(before: seq<int>, after: seq<int>, entries: seq<SizeEntry>, mode: Mode, amount: int)
    requires RoundShares(before, after, entries, mode, amount, |before|) && SizesOk(before, entries) && amount > 0
    requires forall i :: 0 <= i < |before| ==> 0 <= Moved(before[i], after[i], mode)
    requires forall i :: 0 <= i <= |before| ==> 0 <= amount - Moved(Sum(before[..i]), Sum(after[..i]), mode) <= amount
    ensures WithinShares(before, after, entries, mode, amount)
  {
    hide WeightIn, Sum;
    TotalIsSum(before, entries, mode);
    var total := TotalWeight(before, entries, mode);
    forall i | 0 <= i < |before|
      ensures if Candidate(before[i], entries[i], mode) then
                total > 0 && Moved(before[i], after[i], mode) <= Entitled(before[i], entries[i], mode, amount, total)
              else after[i] == before[i]
    {
      WeightInIs(before[i], entries[i], mode);
      if Candidate(before[i], entries[i], mode) {
        TotalWeightPositive(before, entries, mode, i);
        EntitledMonotone(before[i], entries[i], mode, amount - Moved(Sum(before[..i]), Sum(after[..i]), mode), amount,
            total);
      }
    }
  }

  /** How much of a round's amount is left after each entry. */
  ghost predicate Leaves(before: seq<int>, after: seq<int>, mode: Mode, amount: int, n: nat) {
    && |before| == |after| && n <= |after|
    && (forall i :: 0 <= i < n ==> 0 <= Moved(before[i], after[i], mode))
    && (forall i :: 0 <= i <= n ==> 0 <= amount - Moved(Sum(before[..i]), Sum(after[..i]), mode) <= amount)
  }

  lemma LeavesMore(before: seq<int>, now: seq<int>, after: seq<int>, mode: Mode, amount: int, n: nat)
    requires Leaves(before, now, mode, amount, n) && n < |now| && |after| == |now| && after[..n] == now[..n]
    requires 0 <= Moved(before[n], after[n], mode) <= amount - Moved(Sum(before[..n]), Sum(after[..n]), mode)
    ensures Leaves(before, after, mode, amount, n + 1)
  {
    assert before[..n+1][..n] == before[..n] && after[..n+1][..n] == after[..n];
    forall i | 0 <= i <= n ensures after[..i] == now[..i] {
      assert after[..i] == after[..n][..i] && now[..i] == now[..n][..i];
    }
    forall i | 0 <= i < n ensures after[i] == now[i] { assert after[..n][i] == now[..n][i]; }
  }

  /** One round over the candidates: sizes stay in their bounds and shares, and something moves. */
  method DistributeRound(sizes: array<int>, entries: seq<SizeEntry>, amount: int, mode: Mode, ghost chosen: nat)
    returns (remaining: int)
    requires SizesOk(sizes[..], entries) && amount > 0
    requires chosen < |entries| && Candidate(sizes[chosen], entries[chosen], mode)
    modifies sizes
    ensures SizesOk(sizes[..], entries) && 0 <= remaining < amount
    ensures Moved(old(Sum(sizes[..])), Sum(sizes[..]), mode) == amount - remaining
    ensures WithinShares(old(sizes[..]), sizes[..], entries, mode, amount)
    ensures RoundShares(old(sizes[..]), sizes[..], entries, mode, amount, sizes.Length)
  {
    hide TotalWeight, Sum, Entitled, WeightIn, WeightsIn, Room, Candidate, RoundShares, Leaves, WithinShares;
    var totalWeight := TotalWeight(sizes[..], entries, mode);
    TotalIsSum(sizes[..], entries, mode);
    remaining := amount;
    ghost var before := sizes[..];
    NothingShared(before, entries, mode, amount);
    for index := 0 to sizes.Length
      invariant SizesOk(sizes[..], entries) && 0 <= remaining <= amount
      invariant remaining == amount - Moved(Sum(before[..index]), Sum(sizes[..index]), mode)
      invariant RoundShares(before, sizes[..], entries, mode, amount, index)
      invariant Leaves(before, sizes[..], mode, amount, index)
      invariant forall i :: index <= i < sizes.Length ==> sizes[i] == before[i]
      invariant chosen < index ==> remaining < amount
    {
      ghost var now := sizes[..];
      if Candidate(sizes[index], entries[index], mode) { TotalWeightPositive(before, entries, mode, index); }
      var delta := GiveShare(sizes, entries, index, mode, remaining, totalWeight);
      assert sizes[..][..index] == now[..index] && sizes[..][index] == sizes[index];
      assert now[..index] == sizes[..index];
      SharesFrame(before, now, sizes[..], entries, mode, amount, index);
      SharesMore(before, sizes[..], entries, mode, amount, index, delta, remaining);
      LeftMore(before, sizes[..], mode, amount, index, remaining);
      LeavesMore(before, now, sizes[..], mode, amount, index);
      assert sizes[..][..index+1] == sizes[..index+1];
      remaining := remaining - delta;
    }
    assert before[..sizes.Length] == before && sizes[..sizes.Length] == sizes[..];
    LeavesAll(before, sizes[..], mode, amount);
    RoundShared(before, sizes[..], entries, mode, amount);
  }

  lemma NothingShared(before: seq<int>, entries: seq<SizeEntry>, mode: Mode, amount: int)
    requires |before| == |entries| && amount > 0
    ensures RoundShares(before, before, entries, mode, amount, 0) && Leaves(before, before, mode, amount, 0)
    ensures Moved(Sum(before[..0]), Sum(before[..0]), mode) == 0
  {
  }

  lemma LeavesAll(before: seq<int>, after: seq<int>, mode: Mode, amount: int)
    requires Leaves(before, after, mode, amount, |after|)
    ensures forall i :: 0 <= i < |before| ==> 0 <= Moved(before[i], after[i], mode)
    ensures forall i :: 0 <= i <= |before| ==> 0 <= amount - Moved(Sum(before[..i]), Sum(after[..i]), mode) <= amount
  {
    hide Sum;
  }

  /** A natural size is the basis, or else what rendering measured, as far as the bounds allow. */
  lemma NaturalIs(entries: seq<SizeEntry>, intrinsic: seq<int>, i: nat)
    requires |intrinsic| == |entries| && i < |entries|
    ensures var wanted := if entries[i].basis.Some? then entries[i].basis.value else intrinsic[i];
      var natural, least, most := Natural(entries, intrinsic)[i], entries[i].minSize, entries[i].maxSize;
      && (wanted <= least ==> natural == least)
      && (least <= wanted <= most ==> natural == wanted)
      && (least <= most <= wanted ==> natural == most)
      && (most <= least ==> natural == least)
  {
  }

  /** Sizes have moved only in one direction, and only those of entries that may grow (shrink). */
  ghost predicate OneWay(before: seq<int>, after: seq<int>, entries: seq<SizeEntry>, mode: Mode) {
    && |before| == |after| == |entries|
    && forall i :: 0 <= i < |after| ==>
          && Moved(before[i], after[i], mode) >= 0
          && ((if mode.Grow? then entries[i].grow else entries[i].shrink) == 0 ==> after[i] == before[i])
  }

  ghost predicate NoWeight(sizes: seq<int>, entries: seq<SizeEntry>, mode: Mode) {
    |sizes| == |entries| && forall i :: 0 <= i < |sizes| ==> WeightIn(sizes[i], entries[i], mode) == 0
  }

  /** Rounds on what the rounds before them left, until nothing is left or no entry has a weight. */
  ghost predicate Rounds(before: seq<int>, after: seq<int>, entries: seq<SizeEntry>, mode: Mode, amount: int)
    decreases amount
  {
    && |before| == |entries|
    && if amount <= 0 || NoWeight(before, entries, mode) then after == before
       else exists next: seq<int> ::
         && RoundShares(before, next, entries, mode, amount, |before|)
         && 0 < Moved(Sum(before), Sum(next), mode)
         && Rounds(next, after, entries, mode, amount - Moved(Sum(before), Sum(next), mode))
  }

  lemma {:induction false} RoundsMore(before: seq<int>, next: seq<int>, after: seq<int>, entries: seq<SizeEntry>,
      mode: Mode, amount: int)
    requires RoundShares(before, next, entries, mode, amount, |before|) && amount > 0
    requires !NoWeight(before, entries, mode)
    requires 0 < Moved(Sum(before), Sum(next), mode)
    requires Rounds(next, after, entries, mode, amount - Moved(Sum(before), Sum(next), mode))
    ensures Rounds(before, after, entries, mode, amount)
  {
    SameLength(before, next, entries, mode, amount);
    hide RoundShares, Sum, NoWeight, Moved;
  }

  lemma RoundsEnd(sizes: seq<int>, entries: seq<SizeEntry>, mode: Mode, amount: int)
    requires SizesOk(sizes, entries)
    requires amount <= 0 || forall i :: 0 <= i < |sizes| ==> !Candidate(sizes[i], entries[i], mode)
    ensures Rounds(sizes, sizes, entries, mode, amount)
  {
  }

  lemma RoundThenRounds(before: seq<int>, next: seq<int>, entries: seq<SizeEntry>, mode: Mode, amount: int, chosen: nat)
    requires RoundShares(before, next, entries, mode, amount, |before|) && amount > 0
    requires SizesOk(before, entries) && chosen < |before| && Candidate(before[chosen], entries[chosen], mode)
    requires 0 < Moved(Sum(before), Sum(next), mode)
    ensures forall after: seq<int> ::
      Rounds(next, after, entries, mode, amount - Moved(Sum(before), Sum(next), mode)) ==>
        Rounds(before, after, entries, mode, amount)
  {
    WeightInIs(before[chosen], entries[chosen], mode);
    assert !NoWeight(before, entries, mode);
    hide Sum, RoundShares, Rounds, WeightIn, WeightsIn, Candidate, SizesOk, Moved, NoWeight;
    forall after: seq<int> | Rounds(next, after, entries, mode, amount - Moved(Sum(before), Sum(next), mode))
      ensures Rounds(before, after, entries, mode, amount)
    {
      RoundsMore(before, next, after, entries, mode, amount);
    }
  }

  lemma RoundMovesOneWay(first: seq<int>, before: seq<int>, after: seq<int>, entries: seq<SizeEntry>, mode: Mode,
      amount: int)
    requires OneWay(first, before, entries, mode) && WithinShares(before, after, entries, mode, amount)
    ensures OneWay(first, after, entries, mode)
  {
  }

  /** A round's sizes are determined by the sizes before it. */
  lemma {:induction false} RoundIsUnique(before: seq<int>, a: seq<int>, b: seq<int>, entries: seq<SizeEntry>,
      mode: Mode, amount: int, n: nat)
    requires RoundShares(before, a, entries, mode, amount, n) && RoundShares(before, b, entries, mode, amount, n)
    ensures a[..n] == b[..n]
  {
    hide WeightIn, WeightsIn, Room, Sum;
    if n > 0 {
      RoundIsUnique(before, a, b, entries, mode, amount, n - 1);
      assert a[n-1] == b[n-1];
      assert a[..n] == a[..n-1] + [a[n-1]] && b[..n] == b[..n-1] + [b[n-1]];
    }
  }

  /** The rounds give every entry exactly one possible size. */
  lemma {:induction false} RoundsAreUnique(before: seq<int>, a: seq<int>, b: seq<int>, entries: seq<SizeEntry>,
      mode: Mode, amount: int)
    requires Rounds(before, a, entries, mode, amount) && Rounds(before, b, entries, mode, amount)
    ensures a == b
    decreases amount
  {
    hide RoundShares, Sum, NoWeight;
    if amount > 0 && !NoWeight(before, entries, mode) {
      var x: seq<int> :| RoundShares(before, x, entries, mode, amount, |before|)
                         && 0 < Moved(Sum(before), Sum(x), mode)
                         && Rounds(x, a, entries, mode, amount - Moved(Sum(before), Sum(x), mode));
      var y: seq<int> :| RoundShares(before, y, entries, mode, amount, |before|)
                         && 0 < Moved(Sum(before), Sum(y), mode)
                         && Rounds(y, b, entries, mode, amount - Moved(Sum(before), Sum(y), mode));
      RoundIsUnique(before, x, y, entries, mode, amount, |before|);
      SameLength(before, x, entries, mode, amount);
      SameLength(before, y, entries, mode, amount);
      assert x == x[..|before|] && y == y[..|before|];
      RoundsAreUnique(x, a, b, entries, mode, amount - Moved(Sum(before), Sum(x), mode));
    }
  }

  lemma SameLength(before: seq<int>, after: seq<int>, entries: seq<SizeEntry>, mode: Mode, amount: int)
    requires RoundShares(before, after, entries, mode, amount, |before|)
    ensures |after| == |before| == |entries|
  {
  }

  /** Rounds until the amount is used up or no candidate is left. */
  method Distribute(sizes: array<int>, entries: seq<SizeEntry>, amount: int, mode: Mode)
    requires SizesOk(sizes[..], entries) && amount >= 0
    modifies sizes
    ensures SizesOk(sizes[..], entries)
    ensures var moved := Moved(old(Sum(sizes[..])), Sum(sizes[..]), mode);
      0 <= moved <= amount && (moved == amount || Saturated(sizes[..], entries, mode))
    ensures OneWay(old(sizes[..]), sizes[..], entries, mode)
    ensures Rounds(old(sizes[..]), sizes[..], entries, mode, amount)
  {
    hide Sum, WeightIn, RoundShares, Rounds, WithinShares, Candidate;
    var remaining := amount;
    ghost var before := sizes[..];
    while remaining > 0
      invariant 0 <= remaining <= amount && SizesOk(sizes[..], entries)
      invariant Moved(Sum(before), Sum(sizes[..]), mode) == amount - remaining
      invariant OneWay(before, sizes[..], entries, mode)
      invariant forall after: seq<int> ::
          Rounds(sizes[..], after, entries, mode, remaining) ==> Rounds(before, after, entries, mode, amount)
      decreases remaining
    {
      var now := sizes[..];
      if forall i :: 0 <= i < |now| ==> !Candidate(now[i], entries[i], mode) {
        RoundsEnd(now, entries, mode, remaining);
        return;
      }
      ghost var chosen: nat :| chosen < |now| && Candidate(now[chosen], entries[chosen], mode);
      ghost var amountNow := remaining;
      remaining := DistributeRound(sizes, entries, remaining, mode, chosen);
      RoundMovesOneWay(before, now, sizes[..], entries, mode, amountNow);
      RoundThenRounds(now, sizes[..], entries, mode, amountNow, chosen);
    }
    RoundsEnd(sizes[..], entries, mode, remaining);
  }

  function ContentSize(available: int, entries: nat, gap: nat): int {
    Max(0, available - Max(0, entries - 1) * gap)
  }

  function Natural(entries: seq<SizeEntry>, intrinsic: seq<int>): (r: seq<int>)
    requires |intrinsic| == |entries|
    ensures |r| == |entries| && forall i :: 0 <= i < |r| ==> SizeOk(r[i], entries[i])
  {
    seq(|entries|, i requires 0 <= i < |entries| =>
      ClampSize(if entries[i].basis.Some? then entries[i].basis.value else intrinsic[i], entries[i]))
  }

  /** Sizes grown by what is missing, or shrunk by what is too much. */
  ghost predicate Adjusted(natural: seq<int>, sizes: seq<int>, entries: seq<SizeEntry>, missing: int) {
    if missing > 0 then
      OneWay(natural, sizes, entries, Grow) && Rounds(natural, sizes, entries, Grow, missing)
    else OneWay(natural, sizes, entries, Shrink) && Rounds(natural, sizes, entries, Shrink, -missing)
  }

  lemma AdjustedIsUnique(natural: seq<int>, a: seq<int>, b: seq<int>, entries: seq<SizeEntry>, missing: int)
    requires Adjusted(natural, a, entries, missing) && Adjusted(natural, b, entries, missing)
    ensures a == b
  {
    hide Rounds, OneWay;
    if missing > 0 {
      RoundsAreUnique(natural, a, b, entries, Grow, missing);
    } else {
      RoundsAreUnique(natural, a, b, entries, Shrink, -missing);
    }
  }

  lemma NothingMissing(natural: seq<int>, entries: seq<SizeEntry>)
    requires SizesOk(natural, entries)
    ensures Adjusted(natural, natural, entries, 0)
  {
    RoundsEnd(natural, entries, Shrink, 0);
  }

  /**
   * An allocation: natural sizes without a limit; otherwise sizes within their bounds
   * that fill the available cells, or leave every growing (shrinking) entry at its limit,
   * and that differ from the natural ones exactly by the rounds of what is missing or too much.
   */
  ghost predicate Allocated(sizes: seq<int>, entries: seq<SizeEntry>, intrinsic: seq<int>, available: Option<int>,
      gap: nat) {
    && |intrinsic| == |entries| && SizesOk(sizes, entries)
    && (available.None? ==> sizes == Natural(entries, intrinsic))
    && (available.Some? ==>
          var content, total := Max(0, available.value - Max(0, |entries| - 1) * gap), Sum(sizes);
          || total == content
          || (total < content && forall i :: 0 <= i < |sizes| && entries[i].grow > 0 ==> sizes[i] >= entries[i].maxSize)
          || (total > content
              && forall i :: 0 <= i < |sizes| && entries[i].shrink > 0 ==> sizes[i] <= entries[i].minSize))
    && (available.Some? ==>
          var natural := Natural(entries, intrinsic);
          Adjusted(natural, sizes, entries, Max(0, available.value - Max(0, |entries| - 1) * gap) - Sum(natural)))
  }

  /** There is only one allocation. */
  lemma AllocationIsUnique(a: seq<int>, b: seq<int>, entries: seq<SizeEntry>, intrinsic: seq<int>,
      available: Option<int>, gap: nat)
    requires Allocated(a, entries, intrinsic, available, gap) && Allocated(b, entries, intrinsic, available, gap)
    ensures a == b
  {
    hide Adjusted, SizesOk, Sum, Natural;
    if available.Some? {
      var natural := Natural(entries, intrinsic);
      AdjustedIsUnique(natural, a, b, entries,
          Max(0, available.value - Max(0, |entries| - 1) * gap) - Sum(natural));
    }
  }

  /**
   * One size per entry, each within its bounds; together exactly the available cells,
   * unless every growing entry is at its maximum or every shrinking one at its minimum.
   */
  method AllocateStackSizes(entries: seq<SizeEntry>, intrinsic: seq<int>, available: Option<int>, gap: nat)
    returns (sizes: array<int>)
    requires |intrinsic| == |entries|
    ensures fresh(sizes) && Allocated(sizes[..], entries, intrinsic, available, gap)
  {
    hide Rounds, OneWay, Sum;
    var natural := Natural(entries, intrinsic);
    sizes := new int[|entries|](i requires 0 <= i < |natural| => natural[i]);
    assert sizes[..] == natural;
    if available.None? { return; }
    var content := ContentSize(available.value, |entries|, gap);
    var total := Sum(sizes[..]);
    if total < content {
      Distribute(sizes, entries, content - total, Grow);
    } else if total > content {
      Distribute(sizes, entries, total - content, Shrink);
    } else {
      NothingMissing(natural, entries);
    }
  }
}
