/**
 * Parsing Kitty keyboard sequences (packages/tui/src/keys.ts, `parseKittySequence`).
 * The regular expressions are matched by reading their groups greedily from the left,
 * which is how they match: no later group can use what an earlier one could.
 */
module KittySequences {
  import opened Base
  import opened Strings

  const ESC: char := 0x1B as char

  datatype EventType = Press | Repeat | Release

  datatype Kitty = Kitty(codepoint: int, shiftedKey: Option<nat>, baseLayoutKey: Option<nat>, modifier: int,
      eventType: EventType)

  const ARROW_UP := -1
  const ARROW_DOWN := -2
  const ARROW_RIGHT := -3
  const ARROW_LEFT := -4
  const KEY_DELETE := -10
  const KEY_INSERT := -11
  const KEY_PAGE_UP := -12
  const KEY_PAGE_DOWN := -13
  const KEY_HOME := -14
  const KEY_END := -15

  // ------------------------------------------------------------------
  // Groups
  // ------------------------------------------------------------------

  /** A number, and what follows it; no digits is no number. */
  function Number(s: string): (Option<nat>, string) {
    var n := Leading(IsDigit, s);
    (if n == 0 then None else Some(Value(s[..n])), s[n..])
  }

  /** An optional group: a separator and at least one digit. */
  function Group(s: string, separator: char): (Option<nat>, string) {
    if s != "" && s[0] == separator && Leading(IsDigit, s[1..]) > 0 then Number(s[1..]) else (None, s)
  }

  /** The optional group of the shifted key: a colon and perhaps no digits. */
  function ShiftedGroup(s: string): (Option<nat>, string) {
    if s != "" && s[0] == ':' then Number(s[1..]) else (None, s)
  }

  function EventOf(event: Option<nat>): EventType {
    if event == Some(2) then Repeat else if event == Some(3) then Release else Press
  }

  function OrOne(modifier: Option<nat>): nat {
    if modifier.Some? then modifier.value else 1
  }

  function AfterIntroducer(data: string): Option<string> {
    if |data| >= 2 && data[0] == ESC && data[1] == '[' then Some(data[2..]) else None
  }

  // ------------------------------------------------------------------
  // The four forms
  // ------------------------------------------------------------------

  /** Code point, optional shifted and base-layout keys, optional modifier, optional event, `u`. */
  function ParseCsiU(data: string): Option<Kitty> {
    match AfterIntroducer(data)
    case None => None
    case Some(s) =>
      var (codepoint, s1) := Number(s);
      var (shifted, s2) := ShiftedGroup(s1);
      var (base, s3) := Group(s2, ':');
      var (modifier, s4) := Group(s3, ';');
      var (event, s5) := Group(s4, ':');
      if codepoint.Some? && s5 == "u" then
        Some(Kitty(codepoint.value, shifted, base, OrOne(modifier) - 1, EventOf(event)))
      else None
  }

  /** `1;` modifier, optional event, and one of the final letters. */
  function ParseOneSemicolon(data: string): Option<(int, EventType, char)> {
    match AfterIntroducer(data)
    case None => None
    case Some(s) =>
      if |s| < 2 || s[0] != '1' || s[1] != ';' then None
      else
        var (modifier, s1) := Number(s[2..]);
        var (event, s2) := Group(s1, ':');
        if modifier.Some? && |s2| == 1 then Some((modifier.value - 1, EventOf(event), s2[0])) else None
  }

  function ArrowCode(final: char): Option<int> {
    match final
    case 'A' => Some(ARROW_UP)
    case 'B' => Some(ARROW_DOWN)
    case 'C' => Some(ARROW_RIGHT)
    case 'D' => Some(ARROW_LEFT)
    case _ => None
  }

  function HomeEndCode(final: char): Option<int> {
    match final
    case 'H' => Some(KEY_HOME)
    case 'F' => Some(KEY_END)
    case _ => None
  }

  function FunctionalCode(number: nat): Option<int> {
    match number
    case 2 => Some(KEY_INSERT)
    case 3 => Some(KEY_DELETE)
    case 5 => Some(KEY_PAGE_UP)
    case 6 => Some(KEY_PAGE_DOWN)
    case 7 => Some(KEY_HOME)
    case 8 => Some(KEY_END)
    case _ => None
  }

  /** Number, optional modifier, optional event, `~`. */
  function ParseTilde(data: string): Option<(nat, int, EventType)> {
    match AfterIntroducer(data)
    case None => None
    case Some(s) =>
      var (number, s1) := Number(s);
      var (modifier, s2) := Group(s1, ';');
      var (event, s3) := Group(s2, ':');
      if number.Some? && s3 == "~" then Some((number.value, OrOne(modifier) - 1, EventOf(event))) else None
  }

  function FinalForm(data: string, code: char -> Option<int>): Option<Kitty> {
    match ParseOneSemicolon(data)
    case None => None
    case Some((modifier, eventType, final)) =>
      match code(final)
      case None => None
      case Some(codepoint) => Some(Kitty(codepoint, None, None, modifier, eventType))
  }

  function TildeForm(data: string): Option<Kitty> {
    match ParseTilde(data)
    case None => None
    case Some((number, modifier, eventType)) =>
      match FunctionalCode(number)
      case None => None
      case Some(codepoint) => Some(Kitty(codepoint, None, None, modifier, eventType))
  }

  function ParseKitty(data: string): Option<Kitty> {
    if ParseCsiU(data).Some? then ParseCsiU(data)
    else if FinalForm(data, ArrowCode).Some? then FinalForm(data, ArrowCode)
    else if TildeForm(data).Some? then TildeForm(data)
    else FinalForm(data, HomeEndCode)
  }

  /** xterm's modifyOtherKeys: `27;` modifier `;` code point `~`. */
  function ParseModifyOtherKeys(data: string): Option<(int, nat)> {
    match AfterIntroducer(data)
    case None => None
    case Some(s) =>
      if |s| < 3 || s[0] != '2' || s[1] != '7' || s[2] != ';' then None
      else
        var (modifier, s1) := Number(s[3..]);
        var (codepoint, s2) := Group(s1, ';');
        if modifier.Some? && codepoint.Some? && s2 == "~" then Some((modifier.value - 1, codepoint.value)) else None
  }

  // ------------------------------------------------------------------
  // Which data the forms accept
  // ------------------------------------------------------------------

  predicate IsSuffix(t: string, s: string) {
    |t| <= |s| && t == s[|s| - |t|..]
  }

  lemma SuffixLast(t: string, s: string)
    requires IsSuffix(t, s) && t != ""
    ensures s != "" && s[|s|-1] == t[|t|-1]
  {
  }

  lemma SuffixTransitive(r: string, t: string, s: string)
    requires IsSuffix(r, t) && IsSuffix(t, s)
    ensures IsSuffix(r, s)
  {
  }

  lemma GroupsTake(s: string, separator: char)
    ensures IsSuffix(Number(s).1, s) && (Number(s).0.Some? ==> |Number(s).1| < |s|)
    ensures IsSuffix(Group(s, separator).1, s) && IsSuffix(ShiftedGroup(s).1, s)
  {
  }

  lemma CsiUShape(data: string)
    requires ParseCsiU(data).Some?
    ensures |data| >= 4 && data[0] == ESC && data[1] == '[' && data[|data|-1] == 'u'
  {
    hide Number, Group, ShiftedGroup, IsSuffix;
    var s := data[2..];
    GroupsTake(s, ':');
    var s1 := Number(s).1;
    GroupsTake(s1, ':');
    var s2 := ShiftedGroup(s1).1;
    GroupsTake(s2, ':');
    var s3 := Group(s2, ':').1;
    GroupsTake(s3, ';');
    var s4 := Group(s3, ';').1;
    GroupsTake(s4, ':');
    SuffixTransitive("u", s4, s3);
    SuffixTransitive("u", s3, s2);
    SuffixTransitive("u", s2, s1);
    SuffixTransitive("u", s1, s);
    SuffixLast("u", s1);
    SuffixLast("u", s);
  }

  lemma TildeShape(data: string)
    requires ParseTilde(data).Some?
    ensures |data| >= 4 && data[0] == ESC && data[1] == '[' && data[|data|-1] == '~'
  {
    hide Number, Group, IsSuffix;
    var s := data[2..];
    GroupsTake(s, ':');
    var s1 := Number(s).1;
    GroupsTake(s1, ';');
    var s2 := Group(s1, ';').1;
    GroupsTake(s2, ':');
    SuffixTransitive("~", s2, s1);
    SuffixTransitive("~", s1, s);
    SuffixLast("~", s1);
    SuffixLast("~", s);
  }

  lemma OneSemicolonShape(data: string)
    requires ParseOneSemicolon(data).Some?
    ensures |data| >= 4 && data[0] == ESC && data[1] == '[' && data[|data|-1] == ParseOneSemicolon(data).value.2
  {
    hide Number, Group, IsSuffix;
    var s := data[4..];
    GroupsTake(s, ':');
    var s1 := Number(s).1;
    GroupsTake(s1, ':');
    var s2 := Group(s1, ':').1;
    assert data[2..][2..] == s;
    SuffixTransitive(s2, s1, s);
    SuffixLast(s2, s);
  }

  lemma ModifyOtherKeysShape(data: string)
    requires ParseModifyOtherKeys(data).Some?
    ensures data[|data|-1] == '~'
  {
    hide Number, Group, IsSuffix;
    var s := data[5..];
    assert data[2..][3..] == s;
    GroupsTake(s, ':');
    var s1 := Number(s).1;
    GroupsTake(s1, ';');
    SuffixTransitive("~", s1, s);
    SuffixLast("~", s);
  }

  /** Every accepted sequence is longer than the legacy two-character ones. */
  lemma KittyIsLong(data: string)
    requires ParseKitty(data).Some?
    ensures |data| >= 4 && data[0] == ESC && data[1] == '['
  {
    hide ParseCsiU, ParseTilde, ParseOneSemicolon;
    if ParseCsiU(data).Some? { CsiUShape(data); }
    else if ParseTilde(data).Some? { TildeShape(data); }
    else { OneSemicolonShape(data); }
  }

  lemma TildeIsNotModifyOtherKeys(data: string)
    requires ParseModifyOtherKeys(data).Some?
    ensures ParseTilde(data).None?
  {
    var s := data[2..];
    assert s[..2] == "27" && s[2..][1..] == s[3..];
    LeadingIs(IsDigit, s, 2);
    assert Number(s).1 == s[2..];
    hide Leading;
  }

  /** No sequence is both. */
  lemma KittyIsNotModifyOtherKeys(data: string)
    requires ParseKitty(data).Some?
    ensures ParseModifyOtherKeys(data).None?
  {
    hide ParseCsiU, ParseTilde, ParseOneSemicolon, ParseModifyOtherKeys;
    if ParseModifyOtherKeys(data).Some? {
      ModifyOtherKeysShape(data);
      TildeIsNotModifyOtherKeys(data);
      if ParseCsiU(data).Some? { CsiUShape(data); }
      if ParseOneSemicolon(data).Some? { OneSemicolonShape(data); }
    }
  }

  // ------------------------------------------------------------------
  // Round trip of the CSI u form
  // ------------------------------------------------------------------

  /** The fields of a CSI u sequence; the base-layout key needs the shifted group, the event the modifier. */
  datatype Fields = Fields(codepoint: nat, shiftedGroup: Option<Option<nat>>, base: Option<nat>, modifier: Option<nat>,
      event: Option<nat>)

  predicate WellFormed(f: Fields) {
    (f.base.Some? ==> f.shiftedGroup.Some?) && (f.event.Some? ==> f.modifier.Some?)
  }

  function EncodeGroup(separator: char, n: Option<nat>): string {
    match n
    case None => ""
    case Some(v) => [separator] + Numeral(v)
  }

  function EncodeShifted(g: Option<Option<nat>>): string {
    match g
    case None => ""
    case Some(None) => ":"
    case Some(Some(v)) => ":" + Numeral(v)
  }

  function Encode(f: Fields): string {
    [ESC, '['] + (Numeral(f.codepoint) + (EncodeShifted(f.shiftedGroup) + (EncodeGroup(':', f.base) +
    (EncodeGroup(';', f.modifier) + (EncodeGroup(':', f.event) + "u")))))
  }

  predicate NoDigitFirst(s: string) {
    s == "" || !IsDigit(s[0])
  }

  lemma NumberReads(n: nat, rest: string)
    requires NoDigitFirst(rest)
    ensures Number(Numeral(n) + rest) == (Some(n), rest)
  {
    var digits := Numeral(n);
    var s := digits + rest;
    assert s[..|digits|] == digits && s[|digits|..] == rest;
    LeadingIs(IsDigit, s, |digits|);
  }

  lemma NoNumber(rest: string)
    requires NoDigitFirst(rest)
    ensures Number(rest) == (None, rest)
  {
    assert rest[..0] == "" && rest[0..] == rest;
    LeadingIs(IsDigit, rest, 0);
  }

  lemma GroupReads(separator: char, n: Option<nat>, rest: string)
    requires NoDigitFirst(rest) && !IsDigit(separator) && (n.None? ==> rest == "" || rest[0] != separator)
    ensures Group(EncodeGroup(separator, n) + rest, separator) == (n, rest)
    ensures NoDigitFirst(EncodeGroup(separator, n) + rest)
  {
    match n
    case None => assert EncodeGroup(separator, n) + rest == rest;
    case Some(v) =>
      var s := [separator] + Numeral(v) + rest;
      assert s[1..] == Numeral(v) + rest;
      NumberReads(v, rest);
  }

  lemma ShiftedReads(g: Option<Option<nat>>, rest: string)
    requires NoDigitFirst(rest) && (g.None? ==> rest == "" || rest[0] != ':')
    ensures ShiftedGroup(EncodeShifted(g) + rest) == (if g.None? then None else g.value, rest)
    ensures NoDigitFirst(EncodeShifted(g) + rest)
  {
    match g
    case None => assert EncodeShifted(g) + rest == rest;
    case Some(None) =>
      assert (":" + rest)[1..] == rest;
      NoNumber(rest);
    case Some(Some(v)) =>
      assert (":" + Numeral(v) + rest)[1..] == Numeral(v) + rest;
      NumberReads(v, rest);
  }

  /** A well-formed CSI u sequence is parsed into exactly its fields. */
  lemma CsiURoundTrip(f: Fields)
    requires WellFormed(f)
    ensures ParseKitty(Encode(f)) ==
            Some(Kitty(f.codepoint, if f.shiftedGroup.None? then None else f.shiftedGroup.value, f.base,
                       OrOne(f.modifier) - 1, EventOf(f.event)))
  {
    hide Number, Group, ShiftedGroup, EncodeGroup, EncodeShifted;
    var s5 := "u";
    var s4 := EncodeGroup(':', f.event) + s5;
    var s3 := EncodeGroup(';', f.modifier) + s4;
    var s2 := EncodeGroup(':', f.base) + s3;
    var s1 := EncodeShifted(f.shiftedGroup) + s2;
    GroupReads(':', f.event, s5);
    FirstOf(':', f.event, s5);
    GroupReads(';', f.modifier, s4);
    FirstOf(';', f.modifier, s4);
    GroupReads(':', f.base, s3);
    FirstOf(':', f.base, s3);
    ShiftedReads(f.shiftedGroup, s2);
    NumberReads(f.codepoint, s1);
    assert Encode(f)[2..] == Numeral(f.codepoint) + s1;
  }

  lemma FirstOf(separator: char, n: Option<nat>, rest: string)
    requires rest != ""
    ensures var s := EncodeGroup(separator, n) + rest; s != "" && s[0] == if n.Some? then separator else rest[0]
  {
  }

  /** What the numbers of an event group mean; everything else is a press. */
  lemma EventMeans(n: nat)
    ensures EventOf(None) == EventOf(Some(1)) == Press && EventOf(Some(2)) == Repeat && EventOf(Some(3)) == Release
    ensures n != 2 && n != 3 ==> EventOf(Some(n)) == Press
    ensures OrOne(None) == 1 && OrOne(Some(n)) == n
  {
  }

  // ------------------------------------------------------------------
  // Round trips of the other forms
  // ------------------------------------------------------------------

  function EncodeFinal(modifier: nat, event: Option<nat>, final: char): string {
    [ESC, '['] + ("1;" + (Numeral(modifier) + (EncodeGroup(':', event) + [final])))
  }

  lemma OneSemicolonReads(modifier: nat, event: Option<nat>, final: char)
    requires !IsDigit(final) && final != ':'
    ensures ParseOneSemicolon(EncodeFinal(modifier, event, final)) == Some((modifier - 1, EventOf(event), final))
  {
    hide Number, Group, EncodeGroup, EventOf;
    var s2 := [final];
    var s1 := EncodeGroup(':', event) + s2;
    GroupReads(':', event, s2);
    NumberReads(modifier, s1);
    var s := EncodeFinal(modifier, event, final)[2..];
    assert s == "1;" + (Numeral(modifier) + s1) && s[2..] == Numeral(modifier) + s1;
  }

  /** The letters of the final-letter form. */
  function FinalKey(final: char): Option<int> {
    match final
    case 'A' => Some(-1)
    case 'B' => Some(-2)
    case 'C' => Some(-3)
    case 'D' => Some(-4)
    case 'H' => Some(-14)
    case 'F' => Some(-15)
    case _ => None
  }

  /** Arrows, home and end in their `1;` form are parsed into the key, the modifier and the event. */
  lemma FinalRoundTrip(modifier: nat, event: Option<nat>, final: char)
    requires !IsDigit(final) && final != ':' && final != 'u' && final != '~'
    ensures ParseKitty(EncodeFinal(modifier, event, final)) ==
            match FinalKey(final)
            case None => None
            case Some(key) => Some(Kitty(key, None, None, modifier - 1, EventOf(event)))
  {
    hide ParseCsiU, ParseTilde, ParseOneSemicolon, EventOf;
    var data := EncodeFinal(modifier, event, final);
    OneSemicolonReads(modifier, event, final);
    assert data[|data|-1] == final;
    if ParseCsiU(data).Some? { CsiUShape(data); }
    if ParseTilde(data).Some? { TildeShape(data); }
  }

  function EncodeTilde(number: nat, modifier: Option<nat>, event: Option<nat>): string {
    [ESC, '['] + (Numeral(number) + (EncodeGroup(';', modifier) + (EncodeGroup(':', event) + "~")))
  }

  /** The numbers of the tilde form. */
  function TildeKey(number: nat): Option<int> {
    match number
    case 2 => Some(-11)
    case 3 => Some(-10)
    case 5 => Some(-12)
    case 6 => Some(-13)
    case 7 => Some(-14)
    case 8 => Some(-15)
    case _ => None
  }

  lemma TildeReads(number: nat, modifier: Option<nat>, event: Option<nat>)
    requires event.Some? ==> modifier.Some?
    ensures ParseTilde(EncodeTilde(number, modifier, event)) == Some((number, OrOne(modifier) - 1, EventOf(event)))
  {
    hide Number, Group, EncodeGroup, EventOf, OrOne;
    var s3 := "~";
    var s2 := EncodeGroup(':', event) + s3;
    var s1 := EncodeGroup(';', modifier) + s2;
    GroupReads(':', event, s3);
    FirstOf(':', event, s3);
    GroupReads(';', modifier, s2);
    NumberReads(number, s1);
    assert EncodeTilde(number, modifier, event)[2..] == Numeral(number) + s1;
  }

  /** Editing and paging keys in their tilde form are parsed into the key, the modifier and the event. */
  lemma TildeRoundTrip(number: nat, modifier: Option<nat>, event: Option<nat>)
    requires event.Some? ==> modifier.Some?
    ensures ParseKitty(EncodeTilde(number, modifier, event)) ==
            match TildeKey(number)
            case None => None
            case Some(key) => Some(Kitty(key, None, None, OrOne(modifier) - 1, EventOf(event)))
  {
    hide ParseCsiU, ParseTilde, ParseOneSemicolon, EventOf, OrOne;
    var data := EncodeTilde(number, modifier, event);
    TildeReads(number, modifier, event);
    assert data[|data|-1] == '~';
    if ParseCsiU(data).Some? { CsiUShape(data); }
    if ParseOneSemicolon(data).Some? { OneSemicolonShape(data); }
  }

  /** A modifyOtherKeys sequence is parsed into its modifier and code point. */
  lemma ModifyOtherKeysRoundTrip(modifier: nat, codepoint: nat)
    ensures ParseModifyOtherKeys([ESC, '['] + ("27;" + (Numeral(modifier) + (EncodeGroup(';', Some(codepoint)) + "~"))))
            == Some((modifier - 1, codepoint))
  {
    hide Number, Group, EncodeGroup;
    var s2 := "~";
    var s1 := EncodeGroup(';', Some(codepoint)) + s2;
    GroupReads(';', Some(codepoint), s2);
    NumberReads(modifier, s1);
    var s := ([ESC, '['] + ("27;" + (Numeral(modifier) + s1)))[2..];
    assert s == "27;" + (Numeral(modifier) + s1) && s[3..] == Numeral(modifier) + s1;
  }
}
