/**
 * Incremental JSONL framing (packages/pi-gui-adapter/src/rpc-parser.ts), on decoded
 * text.  Whether a line is valid JSON is a parameter.
 */
module RpcParser {

  const LF: char := '\n'
  const CR: char := '\r'

  // ------------------------------------------------------------------
  // Reference definition: cut the whole text at LF
  // ------------------------------------------------------------------

  /** The segments between line feeds; there is always a last, perhaps empty, one. */
  function Segments(text: string): (r: seq<string>)
    ensures r != []
  {
    if text == "" then [""]
    else
      var before := Segments(text[..|text|-1]);
      var c := text[|text|-1];
      if c == LF then before + [""]
      else before[..|before|-1] + [before[|before|-1] + [c]]
  }

  /** The segments that a line feed has closed, and the open one. */
  function Closed(text: string): seq<string> {
    Segments(text)[..|Segments(text)|-1]
  }

  function Open(text: string): string {
    Segments(text)[|Segments(text)|-1]
  }

  /** Drops one trailing carriage return. */
  function Strip(raw: string): string {
    if raw != "" && raw[|raw|-1] == CR then raw[..|raw|-1] else raw
  }

  function Emitted(raw: string): seq<string> {
    if Strip(raw) == "" then [] else [Strip(raw)]
  }

  function EmittedAll(segments: seq<string>): seq<string> {
    if segments == [] then []
    else EmittedAll(segments[..|segments|-1]) + Emitted(segments[|segments|-1])
  }

  /** The lines of a whole text: cut at LF, one trailing CR dropped, empty lines skipped. */
  function Lines(text: string): seq<string> {
    EmittedAll(Segments(text))
  }

  // ------------------------------------------------------------------
  // Segments of concatenations
  // ------------------------------------------------------------------

  lemma AppendOne(text: string, c: char)
    requires c != LF
    ensures Closed(text + [c]) == Closed(text) && Open(text + [c]) == Open(text) + [c]
  {
    assert (text + [c])[..|text|] == text;
  }

  lemma {:induction false} AppendPlain(text: string, plain: string)
    requires LF !in plain
    ensures Closed(text + plain) == Closed(text) && Open(text + plain) == Open(text) + plain
  {
    if plain == "" {
      assert text + plain == text;
    } else {
      var init := plain[..|plain|-1];
      var c := plain[|plain|-1];
      AppendPlain(text, init);
      AppendOne(text + init, c);
      hide Segments, Open, Closed;
      assert plain == init + [c];
      assert text + plain == text + init + [c];
      assert Open(text) + init + [c] == Open(text) + plain;
    }
  }

  lemma AppendFeed(text: string)
    ensures Closed(text + [LF]) == Closed(text) + [Open(text)] && Open(text + [LF]) == ""
  {
    assert (text + [LF])[..|text|] == text;
    assert Segments(text) == Closed(text) + [Open(text)];
  }

  lemma EmittedSnoc(segments: seq<string>, last: string)
    ensures EmittedAll(segments + [last]) == EmittedAll(segments) + Emitted(last)
  {
    assert (segments + [last])[..|segments|] == segments;
  }

  lemma LinesOfOpen(text: string)
    ensures Lines(text) == EmittedAll(Closed(text)) + Emitted(Open(text))
  {
    assert Segments(text) == Closed(text) + [Open(text)];
    EmittedSnoc(Closed(text), Open(text));
  }

  /** The lines delivered once `text` has been fed. */
  function LinesSoFar(earlier: seq<string>, text: string): seq<string> {
    earlier + EmittedAll(Closed(text))
  }

  lemma FlushedLines(earlier: seq<string>, text: string)
    ensures LinesSoFar(earlier, text) + Emitted(Open(text)) == earlier + Lines(text)
    ensures Open(text) == "" ==> LinesSoFar(earlier, text) == earlier + Lines(text)
    ensures LinesSoFar(earlier + Lines(text), "") == earlier + Lines(text)
  {
    LinesOfOpen(text);
  }

  /** A completed line is delivered, and the open segment starts afresh. */
  lemma LineCompletes(earlier: seq<string>, done: string, plain: string)
    requires LF !in plain
    ensures var done' := done + plain + [LF];
      && Open(done') == ""
      && LinesSoFar(earlier, done') == LinesSoFar(earlier, done) + Emitted(Open(done) + plain)
  {
    AppendPlain(done, plain);
    AppendFeed(done + plain);
    EmittedSnoc(Closed(done), Open(done) + plain);
  }

  /** The first line feed of a buffer lies beyond its open segment. */
  lemma FeedBeyondOpen(done: string, rest: string, index: nat) returns (cut: nat)
    requires index < |Open(done) + rest| && (Open(done) + rest)[index] == LF && LF !in (Open(done) + rest)[..index]
    ensures cut < |rest| && rest[cut] == LF && LF !in rest[..cut] && index == |Open(done)| + cut
    ensures (Open(done) + rest)[..index] == Open(done) + rest[..cut]
    ensures (Open(done) + rest)[index + 1..] == rest[cut + 1..]
  {
    OpenIsPlain(done);
    assert forall k :: 0 <= k < |Open(done)| ==> (Open(done) + rest)[k] in Open(done);
    cut := index - |Open(done)|;
    assert forall k :: 0 <= k < cut ==> rest[..cut][k] == (Open(done) + rest)[..index][|Open(done)| + k];
  }

  /** Cutting the first line off a buffer that holds the open segment of `done` and `rest`. */
  lemma CutLine(earlier: seq<string>, done: string, rest: string, index: nat) returns (done': string, rest': string)
    requires index < |Open(done) + rest| && (Open(done) + rest)[index] == LF && LF !in (Open(done) + rest)[..index]
    ensures done' + rest' == done + rest && |rest'| < |rest|
    ensures Open(done') == "" && (Open(done) + rest)[index + 1..] == rest'
    ensures LinesSoFar(earlier, done') == LinesSoFar(earlier, done) + Emitted((Open(done) + rest)[..index])
  {
    hide Segments, Open, Closed, LinesSoFar, Emitted;
    var cut := FeedBeyondOpen(done, rest, index);
    LineCompletes(earlier, done, rest[..cut]);
    done', rest' := done + rest[..cut] + [LF], rest[cut + 1..];
    assert rest == rest[..cut] + [LF] + rest';
    assert done' + rest' == done + (rest[..cut] + [LF] + rest');
  }

  // ------------------------------------------------------------------
  // The parser object
  // ------------------------------------------------------------------

  /** What a callback received: a record, or a malformed line. */
  datatype Delivery = Record(line: string) | Malformed(line: string)

  function Deliveries(wellFormed: string -> bool, lines: seq<string>): (r: seq<Delivery>)
    ensures |r| == |lines|
    ensures forall k :: 0 <= k < |lines| ==> r[k].line == lines[k] && (r[k].Record? <==> wellFormed(lines[k]))
  {
    seq(|lines|, i requires 0 <= i < |lines| => if wellFormed(lines[i]) then Record(lines[i]) else Malformed(lines[i]))
  }

  lemma DeliveriesAppend(wellFormed: string -> bool, a: seq<string>, b: seq<string>)
    ensures Deliveries(wellFormed, a + b) == Deliveries(wellFormed, a) + Deliveries(wellFormed, b)
  {
  }

  class JsonlParser {
    var buffer: string
    var delivered: seq<Delivery>
    const wellFormed: string -> bool
    ghost var fed: string          // text fed since the last flush
    ghost var earlier: seq<string> // lines delivered before that

    ghost predicate Valid()
      reads this
    {
      buffer == Open(fed) && delivered == Deliveries(wellFormed, LinesSoFar(earlier, fed))
    }

    constructor (wellFormed: string -> bool)
      ensures Valid() && fed == "" && earlier == [] && this.wellFormed == wellFormed
    {
      this.wellFormed := wellFormed;
      buffer, delivered, fed, earlier := "", [], "", [];
    }

    /** Appends a chunk and delivers every line it completes. */
    method Push(chunk: string)
      requires Valid()
      modifies this
      ensures Valid() && fed == old(fed) + chunk && earlier == old(earlier)
    {
      buffer := buffer + chunk;
      Drain(fed, chunk);
    }

    /** Cuts complete lines off the front of the buffer. */
    method Drain(ghost text: string, ghost chunk: string)
      requires buffer == Open(text) + chunk && delivered == Deliveries(wellFormed, LinesSoFar(earlier, text))
      modifies this
      ensures Valid() && fed == text + chunk && earlier == old(earlier)
    {
      fed := text + chunk;
      ghost var done, rest := text, chunk;
      while true
        invariant earlier == old(earlier) && fed == text + chunk == done + rest
        invariant buffer == Open(done) + rest
        invariant delivered == Deliveries(wellFormed, LinesSoFar(earlier, done))
        decreases |rest|
      {
        var newlineIndex := IndexOfFeed(buffer);
        if newlineIndex == -1 {
          assert forall k :: 0 <= k < |rest| ==> rest[k] == buffer[|Open(done)| + k];
          AppendPlain(done, rest);
          return;
        }
        var line := buffer[..newlineIndex];
        ghost var before := LinesSoFar(earlier, done);
        done, rest := CutLine(earlier, done, rest, newlineIndex);
        buffer := buffer[newlineIndex + 1..];
        EmitLine(line);
        DeliveriesAppend(wellFormed, before, Emitted(line));
      }
    }

    /** Ends the stream: an unterminated last line is still delivered. */
    method Flush()
      requires Valid()
      modifies this
      ensures Valid() && buffer == "" && fed == "" && earlier == old(earlier) + Lines(old(fed))
      ensures delivered == Deliveries(wellFormed, earlier)
    {
      FlushedLines(earlier, fed);
      if |buffer| > 0 {
        EmitLine(buffer);
        DeliveriesAppend(wellFormed, LinesSoFar(earlier, fed), Emitted(buffer));
        buffer := "";
      }
      earlier := earlier + Lines(fed);
      fed := "";
    }

    method EmitLine(rawLine: string)
      modifies this`delivered
      ensures delivered == old(delivered) + Deliveries(wellFormed, Emitted(rawLine))
    {
      var line := if |rawLine| > 0 && rawLine[|rawLine|-1] == CR then rawLine[..|rawLine|-1] else rawLine;
      if |line| == 0 { return; }
      delivered := delivered + [if wellFormed(line) then Record(line) else Malformed(line)];
    }
  }

  /** The first line feed, or -1. */
  method IndexOfFeed(s: string) returns (index: int)
    ensures -1 <= index < |s|
    ensures index == -1 ==> LF !in s
    ensures index >= 0 ==> s[index] == LF && LF !in s[..index]
  {
    index := 0;
    while index < |s|
      invariant 0 <= index <= |s| && LF !in s[..index]
    {
      if s[index] == LF { return; }
      index := index + 1;
    }
    return -1;
  }

  lemma {:induction false} OpenIsPlain(text: string)
    ensures LF !in Open(text)
  {
    if text != "" { OpenIsPlain(text[..|text|-1]); }
  }

  function Concat(chunks: seq<string>): string {
    if chunks == [] then "" else Concat(chunks[..|chunks|-1]) + chunks[|chunks|-1]
  }

  /**
   * Chunk invariance: however a text is cut, pushing the chunks and flushing delivers
   * exactly the lines of the whole text.
   */
  method FeedAll(wellFormed: string -> bool, chunks: seq<string>) returns (delivered: seq<Delivery>)
    ensures delivered == Deliveries(wellFormed, Lines(Concat(chunks)))
  {
    var parser := new JsonlParser(wellFormed);
    for i := 0 to |chunks|
      invariant parser.Valid() && parser.wellFormed == wellFormed
      invariant parser.fed == Concat(chunks[..i]) && parser.earlier == []
    {
      assert chunks[..i + 1][..i] == chunks[..i];
      parser.Push(chunks[i]);
    }
    assert chunks[..|chunks|] == chunks;
    parser.Flush();
    assert [] + Lines(Concat(chunks)) == Lines(Concat(chunks));
    delivered := parser.delivered;
  }

  // ------------------------------------------------------------------
  // Framing round trip
  // ------------------------------------------------------------------

  /** Every record terminated by LF, as the sender writes them. */
  function Encode(records: seq<string>): string {
    if records == [] then "" else Encode(records[..|records|-1]) + records[|records|-1] + [LF]
  }

  /** A record survives framing. */
  predicate Framable(record: string) {
    record != "" && LF !in record && record[|record|-1] != CR
  }

  lemma {:induction false} EncodedPlain(records: seq<string>)
    requires forall k :: 0 <= k < |records| ==> LF !in records[k]
    ensures Closed(Encode(records)) == records && Open(Encode(records)) == ""
  {
    if records != [] {
      var init, last := records[..|records|-1], records[|records|-1];
      EncodedPlain(init);
      AppendPlain(Encode(init), last);
      AppendFeed(Encode(init) + last);
      assert Closed(Encode(records)) == init + ["" + last];
      assert "" + last == last && records == init + [last];
    }
  }

  /** A delivered line is never empty and never contains a line feed. */
  lemma {:induction false} EmittedIsPlain(segments: seq<string>, k: nat)
    requires forall i :: 0 <= i < |segments| ==> LF !in segments[i]
    requires k < |EmittedAll(segments)|
    ensures EmittedAll(segments)[k] != "" && LF !in EmittedAll(segments)[k]
  {
    var init := segments[..|segments|-1];
    if k < |EmittedAll(init)| { EmittedIsPlain(init, k); }
  }

  lemma {:induction false} SegmentsArePlain(text: string, k: nat)
    requires k < |Segments(text)|
    ensures LF !in Segments(text)[k]
  {
    if text != "" {
      var before := Segments(text[..|text|-1]);
      if k < |before| { SegmentsArePlain(text[..|text|-1], k); }
    }
  }

  lemma SameStep<T>(whole: seq<T>, init: seq<T>, last: T, front: seq<T>, back: seq<T>)
    requires whole == init + [last] && |front| <= |init| && |back| <= 1
    ensures front + back == whole <==> front == init && back == [last]
  {
    if front + back == whole {
      assert front == whole[..|init|] && back == whole[|init|..];
    }
  }

  predicate AllKept(segments: seq<string>) {
    forall k :: 0 <= k < |segments| ==> Emitted(segments[k]) == [segments[k]]
  }

  lemma AllKeptSnoc(init: seq<string>, last: string)
    ensures AllKept(init + [last]) <==> AllKept(init) && Emitted(last) == [last]
  {
    hide Emitted;
    var segments := init + [last];
    assert segments[|init|] == last && forall k :: 0 <= k < |init| ==> segments[k] == init[k];
  }

  lemma NothingEmitted()
    ensures EmittedAll([]) == [] && AllKept([])
  {
  }

  lemma EmittedAtMostOnce(raw: string)
    ensures |Emitted(raw)| <= 1
  {
  }

  /** As many lines as segments means none was changed. */
  lemma {:induction false} EmittedUnchanged(segments: seq<string>)
    ensures |EmittedAll(segments)| <= |segments|
    ensures EmittedAll(segments) == segments <==> AllKept(segments)
  {
    hide Emitted, AllKept, EmittedAll;
    NothingEmitted();
    if segments != [] {
      var init, last := segments[..|segments|-1], segments[|segments|-1];
      assert segments == init + [last];
      EmittedUnchanged(init);
      EmittedSnoc(init, last);
      EmittedAtMostOnce(last);
      AllKeptSnoc(init, last);
      SameStep(segments, init, last, EmittedAll(init), Emitted(last));
    }
  }

  lemma ReturnedArePlain(records: seq<string>, k: nat)
    requires Lines(Encode(records)) == records && k < |records|
    ensures LF !in records[k]
  {
    var segments := Segments(Encode(records));
    forall i | 0 <= i < |segments| ensures LF !in segments[i] { SegmentsArePlain(Encode(records), i); }
    hide Segments, Encode;
    EmittedIsPlain(segments, k);
  }

  lemma PlainReturned(records: seq<string>)
    requires forall k :: 0 <= k < |records| ==> LF !in records[k]
    ensures Lines(Encode(records)) == records <==> forall k :: 0 <= k < |records| ==>
        Emitted(records[k]) == [records[k]]
  {
    EncodedPlain(records);
    LinesOfOpen(Encode(records));
    hide Segments, Encode, Emitted, Lines;
    EmittedUnchanged(records);
  }

  lemma EmittedFramable(record: string)
    requires LF !in record
    ensures Emitted(record) == [record] <==> Framable(record)
  {
  }

  /**
   * Records come back unchanged from their encoding exactly when every one is
   * non-empty, free of LF, and does not end in CR.
   */
  lemma RoundTrip(records: seq<string>)
    ensures Lines(Encode(records)) == records <==> forall k :: 0 <= k < |records| ==> Framable(records[k])
  {
    hide Lines, Encode, Emitted;
    if Lines(Encode(records)) == records {
      forall k | 0 <= k < |records| ensures LF !in records[k] { ReturnedArePlain(records, k); }
    }
    if forall k :: 0 <= k < |records| ==> LF !in records[k] {
      PlainReturned(records);
      forall k | 0 <= k < |records| ensures Emitted(records[k]) == [records[k]] <==> Framable(records[k]) {
        EmittedFramable(records[k]);
      }
    }
  }

  function WithReturns(records: seq<string>): seq<string> {
    seq(|records|, k requires 0 <= k < |records| => records[k] + [CR])
  }

  lemma ReturnStripped(record: string)
    ensures record != "" ==> Emitted(record + [CR]) == [record]
    ensures Emitted("") == []
  {
    assert (record + [CR])[..|record|] == record;
  }

  lemma ReturnsSnoc(init: seq<string>, last: string)
    ensures WithReturns(init + [last]) == WithReturns(init) + [last + [CR]]
    ensures WithReturns([]) == []
  {
  }

  lemma {:induction false} ReturnsDropped(records: seq<string>)
    requires forall k :: 0 <= k < |records| ==> records[k] != ""
    ensures EmittedAll(WithReturns(records)) == records
  {
    hide Emitted, EmittedAll, WithReturns;
    NothingEmitted();
    ReturnsSnoc([], "");
    if records != [] {
      var init, last := records[..|records|-1], records[|records|-1];
      assert records == init + [last];
      ReturnsDropped(init);
      ReturnsSnoc(init, last);
      EmittedSnoc(WithReturns(init), last + [CR]);
      ReturnStripped(last);
    }
  }

  /** Terminated by CR and LF, every non-empty record without LF comes back, whatever else it ends in. */
  lemma CrLfRoundTrip(records: seq<string>)
    requires forall k :: 0 <= k < |records| ==> records[k] != "" && LF !in records[k]
    ensures Lines(Encode(WithReturns(records))) == records
  {
    var sent := WithReturns(records);
    forall k | 0 <= k < |sent| ensures LF !in sent[k] { assert sent[k] == records[k] + [CR]; }
    hide Emitted, EmittedAll, WithReturns, Lines, Encode, Segments, Open, Closed;
    EncodedPlain(sent);
    LinesOfOpen(Encode(sent));
    ReturnsDropped(records);
    ReturnStripped("");
    assert records + [] == records;
  }

  /** A last record without LF is a line too. */
  lemma UnterminatedLine(records: seq<string>, last: string)
    requires forall k :: 0 <= k < |records| ==> Framable(records[k])
    requires Framable(last)
    ensures Lines(Encode(records) + last) == records + [last]
  {
    hide Emitted, EmittedAll, Lines, Encode, Segments, Open, Closed;
    RoundTrip(records);
    EncodedPlain(records);
    AppendPlain(Encode(records), last);
    LinesOfOpen(Encode(records));
    LinesOfOpen(Encode(records) + last);
    EmittedFramable(last);
    ReturnStripped("");
    assert "" + last == last && EmittedAll(records) + [] == EmittedAll(records);
  }

  /** Encoded records come back from any chunking of their encoding. */
  method DecodeChunks(records: seq<string>, chunks: seq<string>) returns (delivered: seq<Delivery>)
    requires Concat(chunks) == Encode(records)
    requires forall k :: 0 <= k < |records| ==> Framable(records[k])
    ensures |delivered| == |records| && forall k :: 0 <= k < |records| ==> delivered[k] == Record(records[k])
  {
    RoundTrip(records);
    delivered := FeedAll(_ => true, chunks);
  }
}
