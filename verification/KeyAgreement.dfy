/**
 * `parseKey` and `matchesKey` on Kitty sequences: exactly when data matches the
 * identifier it is parsed into (packages/tui/src/keys.ts).
 */
module KeyAgreement {
  import opened Base
  import opened Strings
  import opened KittySequences
  import opened Keys

  // ------------------------------------------------------------------
  // Identifiers are parsed back
  // ------------------------------------------------------------------

  predicate PlusFree(s: string) {
    All(NotPlus, s)
  }

  lemma {:induction false} SplitJoin(parts: seq<string>)
    requires parts != [] && forall i :: 0 <= i < |parts| ==> PlusFree(parts[i])
    ensures Split(Join(parts)) == parts
  {
    var first := parts[0];
    if |parts| == 1 {
      assert first[..|first|] == first;
      LeadingIs(NotPlus, first, |first|);
      assert parts == [first];
    } else {
      var rest := Join(parts[1..]);
      var s := first + "+" + rest;
      assert s[..|first|] == first && s[|first|] == '+' && s[|first|+1..] == rest;
      LeadingIs(NotPlus, s, |first|);
      SplitJoin(parts[1..]);
      assert parts == [first] + parts[1..];
    }
  }

  lemma {:induction false} JoinSnoc(parts: seq<string>, last: string)
    requires parts != []
    ensures Join(parts + [last]) == Join(parts) + "+" + last
  {
    if |parts| == 1 {
      assert (parts + [last])[1..] == [last];
    } else {
      assert (parts + [last])[1..] == parts[1..] + [last];
      JoinSnoc(parts[1..], last);
    }
  }

  /** An identifier that ends in a plus has an empty last part. */
  lemma {:induction false} EndsEmpty(s: string)
    requires s != "" && s[|s|-1] == '+'
    ensures Split(s) != [] && Split(s)[|Split(s)|-1] == ""
    decreases |s|
  {
    var n := Leading(NotPlus, s);
    assert All(NotPlus, s) ==> NotPlus(s[|s|-1]);
    assert s[..|s|] == s;
    if n + 1 < |s| {
      EndsEmpty(s[n+1..]);
    } else if n + 1 == |s| {
      assert s[n+1..] == "";
    }
  }

  lemma LowerAppend(a: string, b: string)
    ensures Lower(a + b) == Lower(a) + Lower(b)
  {
  }

  function LowerAll(parts: seq<string>): seq<string> {
    seq(|parts|, i requires 0 <= i < |parts| => Lower(parts[i]))
  }

  lemma {:induction false} LowerJoin(parts: seq<string>)
    ensures Lower(Join(parts)) == Join(LowerAll(parts))
  {
    if |parts| > 1 {
      LowerJoin(parts[1..]);
      LowerAppend(parts[0], "+");
      LowerAppend(parts[0] + "+", Join(parts[1..]));
      assert LowerAll(parts)[1..] == LowerAll(parts[1..]);
    } else if |parts| == 1 {
      assert LowerAll(parts) == [Lower(parts[0])];
    }
  }

  /** The names that Kitty sequences are formatted by. */
  predicate Formatted(name: KeyName) {
    !name.Clear? && !name.FunctionKey? && (name.Char? ==> IsLetter(name.c) || IsDigit(name.c) || IsSymbol(name.c))
  }

  lemma NamesAreFormatted(codepoint: int)
    requires NameOf(codepoint).Some?
    ensures Formatted(NameOf(codepoint).value)
  {
  }

  const MOD_NAMES := ["shift", "ctrl", "alt", "super"]

  lemma KeyOfChar(c: char)
    requires (IsLetter(c) || IsDigit(c) || IsSymbol(c)) && c != '+'
    ensures Lower([c]) == [c] && KeyOf([c]) == Some(Char(c)) && PlusFree([c]) && [c] !in MOD_NAMES
  {
    hide FunctionKeyOf;
    assert |[c]| == 1;
  }

  lemma KeyOfControlName(name: KeyName)
    requires name in [Escape, Tab, Enter, Space]
    ensures var key := NameString(name);
      Lower(key) == key && KeyOf(key) == Some(name) && PlusFree(key) && key !in MOD_NAMES
  {
    hide FunctionKeyOf;
  }

  lemma KeyOfEditingName(name: KeyName)
    requires name in [Backspace, Insert, Delete]
    ensures var key := NameString(name);
      Lower(key) == key && KeyOf(key) == Some(name) && PlusFree(key) && key !in MOD_NAMES
  {
    hide FunctionKeyOf;
  }

  lemma KeyOfJumpName(name: KeyName)
    requires name in [Home, End]
    ensures var key := NameString(name);
      Lower(key) == key && KeyOf(key) == Some(name) && PlusFree(key) && key !in MOD_NAMES
  {
    hide FunctionKeyOf;
  }

  lemma KeyOfArrowName(name: KeyName)
    requires name in [Up, Down, Left, Right]
    ensures var key := NameString(name);
      Lower(key) == key && KeyOf(key) == Some(name) && PlusFree(key) && key !in MOD_NAMES
  {
    hide FunctionKeyOf;
  }

  lemma KeyOfPageName(name: KeyName)
    requires name in [PageUp, PageDown]
    ensures var key := Lower(NameString(name));
      key != "" && KeyOf(key) == Some(name) && PlusFree(key) && key !in MOD_NAMES
  {
    hide FunctionKeyOf;
    assert Lower("pageUp") == "pageup" && Lower("pageDown") == "pagedown";
  }

  /** A lower-cased name selects its own switch label, has no plus, and is no modifier. */
  lemma KeyOfName(name: KeyName)
    requires Formatted(name) && name != Char('+')
    ensures var key := Lower(NameString(name));
      key != "" && KeyOf(key) == Some(name) && PlusFree(key) && key !in MOD_NAMES
  {
    hide KeyOf, Lower, PlusFree;
    if name.Char? { KeyOfChar(name.c); }
    else if name.PageUp? || name.PageDown? { KeyOfPageName(name); }
    else if name.Home? || name.End? { KeyOfJumpName(name); }
    else if name.Up? || name.Down? || name.Left? || name.Right? { KeyOfArrowName(name); }
    else if name.Backspace? || name.Insert? || name.Delete? { KeyOfEditingName(name); }
    else { KeyOfControlName(name); }
  }

  lemma ModsAreNames(modifier: int)
    ensures LowerAll(Mods(modifier)) == Mods(modifier)
    ensures forall i :: 0 <= i < |Mods(modifier)| ==> Mods(modifier)[i] in MOD_NAMES && PlusFree(Mods(modifier)[i])
  {
    forall i | 0 <= i < |Mods(modifier)|
      ensures Mods(modifier)[i] in MOD_NAMES && PlusFree(Mods(modifier)[i])
          && Lower(Mods(modifier)[i]) == Mods(modifier)[i]
    {
      var m := Mods(modifier)[i];
      assert m == "shift" || m == "ctrl" || m == "alt" || m == "super";
    }
  }

  lemma ModsMembers(modifier: int, key: string)
    requires key !in MOD_NAMES
    ensures var parts := Mods(modifier) + [key];
      && ("shift" in parts <==> Has(modifier, SHIFT)) && ("ctrl" in parts <==> Has(modifier, CTRL))
      && ("alt" in parts <==> Has(modifier, ALT)) && ("super" in parts <==> Has(modifier, SUPER))
  {
    hide Has;
    assert |"shift"| == 5 && |"ctrl"| == 4 && |"alt"| == 3 && |"super"| == 5 && "shift"[1] == 'h' && "super"[1] == 'u';
  }

  /** Four bits make up a modifier below 16. */
  lemma Bits(modifier: int)
    requires Effective(modifier) / 16 == 0
    ensures Effective(modifier) == BoolBit(Has(modifier, SHIFT), SHIFT) + BoolBit(Has(modifier, ALT), ALT) +
                                   BoolBit(Has(modifier, CTRL), CTRL) + BoolBit(Has(modifier, SUPER), SUPER)
  {
    hide Effective;
  }

  /** An identifier is parsed back into its key and modifier, unless the key is a plus. */
  lemma IdentifierRoundTrip(name: KeyName, modifier: int)
    requires Formatted(name) && FormatKeyName(NameString(name), modifier).Some?
    ensures var id := ParseKeyId(FormatKeyName(NameString(name), modifier).value);
      && (id.None? <==> name == Char('+'))
      && (id.Some? ==> KeyOf(id.value.key) == Some(name) && ModifierOf(id.value) == Effective(modifier))
  {
    hide Effective, Has, Mods, Lower, Split, Join, KeyOf, NameString;
    var mods, key := Mods(modifier), NameString(name);
    var id := FormatKeyName(key, modifier).value;
    if name == Char('+') {
      PlusName(id, mods, key);
    } else {
      assert id == Join(mods + [key]) by { JoinName(mods, key); }
      LowerJoin(mods + [key]);
      ModsAreNames(modifier);
      KeyOfName(name);
      var parts := mods + [Lower(key)];
      assert LowerAll(mods + [key]) == parts;
      SplitJoin(parts);
      ModsMembers(modifier, Lower(key));
      Bits(modifier);
    }
  }

  lemma JoinName(mods: seq<string>, key: string)
    ensures Join(mods + [key]) == if mods != [] then Join(mods) + "+" + key else key
  {
    if mods != [] { JoinSnoc(mods, key); } else { assert mods + [key] == [key]; }
  }

  lemma PlusName(id: string, mods: seq<string>, key: string)
    requires key == NameString(Char('+')) && id == if mods != [] then Join(mods) + "+" + key else key
    ensures ParseKeyId(id).None?
  {
    assert Lower(id) != "" && Lower(id)[|Lower(id)|-1] == '+';
    EndsEmpty(Lower(id));
  }

  // ------------------------------------------------------------------
  // Matching
  // ------------------------------------------------------------------

  /** The code points that a key name is matched by. */
  predicate MatchedBy(name: KeyName, codepoint: int) {
    match name
    case Escape => codepoint == 27
    case Tab => codepoint == 9
    case Enter => codepoint == 13 || codepoint == KP_ENTER
    case Space => codepoint == 32
    case Backspace => codepoint == 127
    case Clear => false
    case FunctionKey(_) => false
    case Char(c) => codepoint == c as int
    case _ => codepoint == FunctionalCodepoint(name)
  }

  /** A key other than a modified escape is matched by any of its code points. */
  lemma MatchesByCode(env: Env, data: string, name: KeyName, modifier: int, codepoint: int)
    requires MatchedBy(name, codepoint) && MatchesKitty(data, codepoint, modifier)
    requires name.Escape? ==> modifier == 0
    ensures MatchesName(env, data, name, modifier)
  {
    hide MatchesKitty, MatchesModifyOtherKeys, MatchesPrintableModifyOtherKeys, LegacyKeys, LegacyShift, LegacyCtrl;
  }

  /** Apart from the Kitty form, data this long matches no character key. */
  lemma LongDataMatchesOnlyKitty(env: Env, data: string, c: char, modifier: int)
    requires |data| >= 4 && ParseModifyOtherKeys(data).None? && !MatchesKitty(data, c as int, modifier)
    ensures !MatchesName(env, data, Char(c), modifier)
  {
    hide MatchesKitty;
  }

  /** A name below 65536 is matched by the code point it was chosen by; one above is not. */
  lemma NameCode(codepoint: int)
    requires NameOf(codepoint).Some? && codepoint >= KEY_END
    ensures MatchedBy(NameOf(codepoint).value, codepoint) <==> codepoint < 0x1_0000
    ensures codepoint >= 0x1_0000 ==> NameOf(codepoint).value.Char? && IsSymbol(NameOf(codepoint).value.c)
  {
  }

  /** Named code points are not keypad codes or capital letters, so normalizing them changes nothing. */
  lemma NamedIsNormal(codepoint: int, modifier: int)
    requires NameOf(codepoint).Some? && KEY_END <= codepoint < 0x1_0000
    ensures NormalizeShiftedLetter(NormalizeFunctional(codepoint), modifier) == codepoint
  {
    hide Has;
  }

  /** Below 65536 the parsed sequence matches the code point its name was chosen by. */
  lemma ParsedMatchesItsCode(k: Kitty, modifier: int)
    requires var cp := EffectiveCodepoint(k.codepoint, k.modifier, k.baseLayoutKey);
      NameOf(cp).Some? && KEY_END <= cp < 0x1_0000
    requires Effective(modifier) == Effective(k.modifier)
    ensures MatchesParsed(k, EffectiveCodepoint(k.codepoint, k.modifier, k.baseLayoutKey), modifier)
  {
    NamedIsNormal(EffectiveCodepoint(k.codepoint, k.modifier, k.baseLayoutKey), modifier);
    hide Effective, NormalizeFunctional, NameOf, NormalizeShiftedLetter;
  }

  /** Above 65535 it does not match the symbol its low 16 bits name. */
  lemma ParsedMissesWrapped(k: Kitty, modifier: int)
    requires var cp := EffectiveCodepoint(k.codepoint, k.modifier, k.baseLayoutKey); NameOf(cp).Some? && cp >= 0x1_0000
    ensures var cp := EffectiveCodepoint(k.codepoint, k.modifier, k.baseLayoutKey);
      !MatchesParsed(k, NameOf(cp).value.c as int, modifier)
  {
  }

  lemma CsiUCodepoint(data: string)
    requires ParseCsiU(data).Some?
    ensures ParseCsiU(data).value.codepoint >= 0
  {
    hide Leading, EventOf, OrOne;
    var number := Number(data[2..]).0;
    assert number.Some? && ParseCsiU(data).value.codepoint == number.value;
  }

  lemma FormCodepoints(data: string)
    ensures FinalForm(data, ArrowCode).Some? ==> FinalForm(data, ArrowCode).value.codepoint >= KEY_END
    ensures FinalForm(data, HomeEndCode).Some? ==> FinalForm(data, HomeEndCode).value.codepoint >= KEY_END
    ensures TildeForm(data).Some? ==> TildeForm(data).value.codepoint >= KEY_END
  {
    hide ParseOneSemicolon, ParseTilde;
  }

  lemma ParsedCodepoint(data: string)
    requires ParseKitty(data).Some?
    ensures ParseKitty(data).value.codepoint >= KEY_END
  {
    hide ParseCsiU, FinalForm, TildeForm;
    if ParseCsiU(data).Some? { CsiUCodepoint(data); }
    FormCodepoints(data);
  }

  lemma EffectiveAtLeast(k: Kitty)
    requires k.codepoint >= KEY_END
    ensures EffectiveCodepoint(k.codepoint, k.modifier, k.baseLayoutKey) >= KEY_END
  {
    hide Has, IsSymbolCode;
  }

  /**
   * Data matches the identifier it is parsed into if and only if the key is not a plus,
   * not an escape with modifiers, and its code point fits 16 bits.
   */
  lemma ParsedKeyMatches(env: Env, data: string)
    requires ParseKittyKey(data).Some?
    ensures var k := ParseKitty(data).value;
      var codepoint := EffectiveCodepoint(k.codepoint, k.modifier, k.baseLayoutKey);
      var name := NameOf(codepoint).value;
      MatchesKey(env, data, ParseKittyKey(data).value) <==>
        name != Char('+') && !(name.Escape? && Effective(k.modifier) != 0) && codepoint < 0x1_0000
  {
    hide ParseKitty, ParseModifyOtherKeys, Effective, NameOf, EffectiveCodepoint, MatchesName, MatchesParsed, KeyOf,
        ParseKeyId, FormatKeyName, NameString;
    var k := ParseKitty(data).value;
    var codepoint := EffectiveCodepoint(k.codepoint, k.modifier, k.baseLayoutKey);
    var name := NameOf(codepoint).value;
    ParsedCodepoint(data);
    EffectiveAtLeast(k);
    NamesAreFormatted(codepoint);
    IdentifierRoundTrip(name, k.modifier);
    NameCode(codepoint);
    if name != Char('+') {
      var modifier: nat := Effective(k.modifier);
      EffectiveTwice(k.modifier);
      if codepoint < 0x1_0000 {
        ParsedMatchesItsCode(k, modifier);
        if !(name.Escape? && modifier != 0) {
          MatchesByCode(env, data, name, modifier, codepoint);
        } else {
          ModifiedEscape(env, data, modifier);
        }
      } else {
        ParsedMissesWrapped(k, modifier);
        KittyIsLong(data);
        KittyIsNotModifyOtherKeys(data);
        LongDataMatchesOnlyKitty(env, data, name.c, modifier);
      }
    }
  }

  lemma EffectiveTwice(modifier: int)
    ensures Effective(Effective(modifier)) == Effective(modifier)
  {
  }

  lemma ModifiedEscape(env: Env, data: string, modifier: int)
    requires modifier != 0
    ensures !MatchesName(env, data, Escape, modifier)
  {
  }

  /** With code point and base-layout key below 65536 only pluses and modified escapes fail. */
  lemma SmallCodesMatch(env: Env, data: string)
    requires ParseKittyKey(data).Some?
    requires var k := ParseKitty(data).value;
      k.codepoint < 0x1_0000 && (k.baseLayoutKey.Some? ==> k.baseLayoutKey.value < 0x1_0000)
    ensures var k := ParseKitty(data).value;
      var name := NameOf(EffectiveCodepoint(k.codepoint, k.modifier, k.baseLayoutKey)).value;
      MatchesKey(env, data, ParseKittyKey(data).value) <==>
        name != Char('+') && !(name.Escape? && Effective(k.modifier) != 0)
  {
    hide ParseKitty, MatchesKey, NameOf, Effective, FormatKeyName, Has;
    ParsedKeyMatches(env, data);
  }

  // ------------------------------------------------------------------
  // The three exceptions happen
  // ------------------------------------------------------------------

  /** The agreement for encoded fields. */
  lemma EncodedKeyMatches(env: Env, f: Fields, id: string)
    requires WellFormed(f) && FormatParsedKey(f.codepoint, OrOne(f.modifier) - 1, f.base) == Some(id)
    ensures ParseKittyKey(Encode(f)) == Some(id)
    ensures var modifier := OrOne(f.modifier) - 1;
      var codepoint := EffectiveCodepoint(f.codepoint, modifier, f.base);
      && NameOf(codepoint).Some?
      && (MatchesKey(env, Encode(f), id) <==>
            && NameOf(codepoint).value != Char('+') && codepoint < 0x1_0000
            && !(NameOf(codepoint).value.Escape? && Effective(modifier) != 0))
  {
    hide Encode, ParseKitty, MatchesKey, NameOf, Effective, FormatKeyName, EffectiveCodepoint;
    CsiURoundTrip(f);
    ParsedKeyMatches(env, Encode(f));
  }

  lemma FormatPlus()
    ensures FormatParsedKey(43, 0, None) == Some("+")
    ensures EffectiveCodepoint(43, 0, None) == 43 && NameOf(43) == Some(Char('+'))
  {
  }

  lemma FormatShiftedEscape()
    ensures FormatParsedKey(27, 1, None) == Some("shift+escape")
    ensures EffectiveCodepoint(27, 1, None) == 27 && NameOf(27) == Some(Escape)
    ensures Effective(1) == 1
  {
    assert Mods(1) == ["shift"];
    assert Join(["shift"]) == "shift" && "shift" + "+" + "escape" == "shift+escape";
  }

  lemma FormatWrappedSlash()
    ensures FormatParsedKey(0x1_002F, 0, None) == Some("/") && EffectiveCodepoint(0x1_002F, 0, None) == 0x1_002F
  {
  }

  /** The plus key is reported by an identifier that its own data does not match. */
  lemma PlusIsNotMatched(env: Env)
    ensures var data := Encode(Fields(43, None, None, None, None));
      ParseKittyKey(data) == Some("+") && !MatchesKey(env, data, "+")
  {
    FormatPlus();
    hide Encode, ParseKittyKey, MatchesKey, FormatParsedKey, NameOf, EffectiveCodepoint, Effective;
    EncodedKeyMatches(env, Fields(43, None, None, None, None), "+");
  }

  /** Escape with shift is reported, and its identifier matches no data. */
  lemma ShiftedEscapeIsNotMatched(env: Env)
    ensures var data := Encode(Fields(27, None, None, Some(2), None));
      ParseKittyKey(data) == Some("shift+escape") && !MatchesKey(env, data, "shift+escape")
  {
    FormatShiftedEscape();
    hide Encode, ParseKittyKey, MatchesKey, FormatParsedKey, NameOf, EffectiveCodepoint, Effective;
    EncodedKeyMatches(env, Fields(27, None, None, Some(2), None), "shift+escape");
  }

  /** A code point above 65535 is reported as the symbol its low 16 bits name. */
  lemma WrappedSlashIsNotMatched(env: Env)
    ensures var data := Encode(Fields(0x1_002F, None, None, None, None));
      ParseKittyKey(data) == Some("/") && !MatchesKey(env, data, "/")
  {
    FormatWrappedSlash();
    hide Encode, ParseKittyKey, MatchesKey, FormatParsedKey, NameOf, EffectiveCodepoint, Effective;
    EncodedKeyMatches(env, Fields(0x1_002F, None, None, None, None), "/");
  }

  // ------------------------------------------------------------------
  // How keys are named
  // ------------------------------------------------------------------

  lemma EffectiveLow(modifier: nat)
    requires modifier < 64
    ensures Effective(modifier) == modifier
  {
  }

  lemma ModsAre(shift: bool, ctrl: bool, alt: bool, super_: bool)
    ensures var modifier := BoolBit(shift, 1) + BoolBit(alt, 2) + BoolBit(ctrl, 4) + BoolBit(super_, 8);
      && Effective(modifier) == modifier < 16
      && Mods(modifier) == (if shift then ["shift"] else []) + (if ctrl then ["ctrl"] else []) +
                           (if alt then ["alt"] else []) + (if super_ then ["super"] else [])
  {
    var modifier := BoolBit(shift, 1) + BoolBit(alt, 2) + BoolBit(ctrl, 4) + BoolBit(super_, 8);
    EffectiveLow(modifier);
    BitsAre(shift, ctrl, alt, super_);
    hide Effective, Has;
  }

  lemma BitsAre(shift: bool, ctrl: bool, alt: bool, super_: bool)
    ensures var modifier := BoolBit(shift, 1) + BoolBit(alt, 2) + BoolBit(ctrl, 4) + BoolBit(super_, 8);
      && (Has(modifier, SHIFT) <==> shift) && (Has(modifier, ALT) <==> alt)
      && (Has(modifier, CTRL) <==> ctrl) && (Has(modifier, SUPER) <==> super_)
  {
    var modifier := BoolBit(shift, 1) + BoolBit(alt, 2) + BoolBit(ctrl, 4) + BoolBit(super_, 8);
    EffectiveLow(modifier);
    hide Effective;
  }

  function Prefix(present: bool, name: string): string {
    if present then name + "+" else ""
  }

  /** A name is prefixed by its modifiers, in the order shift, ctrl, alt, super. */
  lemma FormatSays(name: string, shift: bool, ctrl: bool, alt: bool, super_: bool)
    ensures var modifier := BoolBit(shift, 1) + BoolBit(alt, 2) + BoolBit(ctrl, 4) + BoolBit(super_, 8);
      FormatKeyName(name, modifier) ==
      Some(Prefix(shift, "shift") + (Prefix(ctrl, "ctrl") + (Prefix(alt, "alt") + (Prefix(super_, "super") + name))))
  {
    ModsAre(shift, ctrl, alt, super_);
    var parts := if super_ then ["super"] else [];
    var parts1 := (if alt then ["alt"] else []) + parts;
    var parts2 := (if ctrl then ["ctrl"] else []) + parts1;
    var parts3 := (if shift then ["shift"] else []) + parts2;
    JoinedBefore(super_, "super", [], name);
    assert (if super_ then ["super"] else []) + [] == parts;
    JoinedBefore(alt, "alt", parts, name);
    JoinedBefore(ctrl, "ctrl", parts1, name);
    JoinedBefore(shift, "shift", parts2, name);
    hide Mods, Effective, Join;
    assert (if shift then ["shift"] else []) + (if ctrl then ["ctrl"] else []) +
           (if alt then ["alt"] else []) + (if super_ then ["super"] else []) == parts3;
    JoinName(parts3, name);
  }

  /** Joining with one more modifier in front. */
  lemma JoinedBefore(present: bool, name: string, parts: seq<string>, key: string)
    ensures Join((if present then [name] else []) + parts + [key]) == Prefix(present, name) + Join(parts + [key])
  {
    if present {
      assert ([name] + parts + [key])[1..] == parts + [key];
    } else {
      assert [] + parts + [key] == parts + [key];
      assert "" + Join(parts + [key]) == Join(parts + [key]);
    }
  }

  /** The codes of the keys without a character. */
  lemma SpecialKeysAreNamed()
    ensures Named(27, "escape") && Named(9, "tab") && Named(13, "enter") && Named(57414, "enter")
    ensures Named(32, "space") && Named(127, "backspace")
    ensures Named(-1, "up") && Named(-2, "down") && Named(-3, "right") && Named(-4, "left")
    ensures Named(-10, "delete") && Named(-11, "insert") && Named(-12, "pageUp") && Named(-13, "pageDown")
    ensures Named(-14, "home") && Named(-15, "end")
  {
  }

  predicate Named(codepoint: int, name: string) {
    NameOf(codepoint).Some? && NameString(NameOf(codepoint).value) == name
  }

  /** Letters, digits and symbols name themselves. */
  lemma CharactersNameThemselves(c: char)
    requires 'a' <= c <= 'z' || '0' <= c <= '9' || IsSymbol(c)
    ensures Named(c as int, [c])
  {
  }

  /** Which code point a key is named by: its own for characters, else the base layout's. */
  lemma CodeOfKey(codepoint: int, modifier: int, base: nat)
    ensures 97 <= codepoint <= 122 || 48 <= codepoint <= 57 ==>
              EffectiveCodepoint(codepoint, modifier, Some(base)) == codepoint
    ensures 65 <= codepoint <= 90 && Effective(modifier) % 2 == 1 ==>
              EffectiveCodepoint(codepoint, modifier, Some(base)) == codepoint + 32
    ensures 128 <= codepoint < 57344 ==>
              EffectiveCodepoint(codepoint, modifier, Some(base)) == base
              && EffectiveCodepoint(codepoint, modifier, None) == codepoint
    ensures 57399 <= codepoint <= 57408 ==>
              EffectiveCodepoint(codepoint, modifier, Some(base)) == codepoint - 57399 + 48
  {
  }
}
