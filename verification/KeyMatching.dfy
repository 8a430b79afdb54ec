/**
 * Exactly which identifiers `matchesKey` accepts for a Kitty sequence
 * (packages/tui/src/keys.ts), whatever `parseKey` would name it.
 */
module KeyMatching {
  import opened Base
  import opened Strings
  import opened KittySequences
  import opened Keys
  import opened KeyAgreement

  // ------------------------------------------------------------------
  // What a Kitty sequence looks like
  // ------------------------------------------------------------------

  lemma NumberDigit(s: string)
    requires Number(s).0.Some?
    ensures s != "" && IsDigit(s[0])
  {
    assert s[..Leading(IsDigit, s)][0] == s[0];
  }

  lemma CsiUDigit(data: string)
    requires ParseCsiU(data).Some?
    ensures |data| > 2 && IsDigit(data[2])
  {
    hide Number, ShiftedGroup, Group, EventOf, OrOne;
    NumberDigit(data[2..]);
  }

  lemma TildeDigit(data: string)
    requires ParseTilde(data).Some?
    ensures |data| > 2 && IsDigit(data[2])
  {
    hide Number, Group, EventOf, OrOne;
    NumberDigit(data[2..]);
  }

  lemma OneSemicolonDigit(data: string)
    requires ParseOneSemicolon(data).Some?
    ensures |data| > 2 && IsDigit(data[2])
  {
    hide Number, Group, EventOf;
    assert data[2..][0] == data[2];
  }

  /** Its third character is a digit and its last one of eight. */
  lemma KittyShape(data: string)
    requires ParseKitty(data).Some?
    ensures |data| >= 4 && data[0] == ESC && data[1] == '[' && IsDigit(data[2])
    ensures data[|data|-1] in "u~ABCDHF"
  {
    hide ParseCsiU, ParseTilde, ParseOneSemicolon;
    if ParseCsiU(data).Some? {
      CsiUShape(data);
      CsiUDigit(data);
    } else if TildeForm(data).Some? {
      TildeShape(data);
      TildeDigit(data);
    } else {
      OneSemicolonShape(data);
      OneSemicolonDigit(data);
    }
  }

  // ------------------------------------------------------------------
  // Legacy sequences that are Kitty sequences mean the same
  // ------------------------------------------------------------------

  lemma TildeNumber(number: nat, digits: string)
    requires Numeral(number) == digits
    ensures ParseKitty([ESC] + "[" + digits + "~") ==
            match TildeKey(number) case None => None case Some(key) => Some(Kitty(key, None, None, 0, Press))
  {
    hide ParseKitty, Numeral;
    TildeRoundTrip(number, None, None);
    EventMeans(0);
    assert EncodeTilde(number, None, None) == [ESC] + "[" + digits + "~";
  }

  /** Legacy sequences this long are a digit and a tilde. */
  lemma LegacyShape(data: string, name: KeyName)
    requires |data| >= 4 && data[1] == '[' && IsDigit(data[2])
    requires data in LegacyKeys(name) && !name.FunctionKey?
    ensures data == [ESC] + "[" + [data[2]] + "~"
    ensures TildeKey(data[2] as int - 48).Some? ==> TildeKey(data[2] as int - 48) == Some(FunctionalCodepoint(name))
  {
    match name
    case Up =>
    case Down =>
    case Left =>
    case Right =>
    case Clear =>
    case Home => assert data == [ESC] + "[1~" || data == [ESC] + "[7~";
    case End => assert data == [ESC] + "[4~" || data == [ESC] + "[8~";
    case Insert => assert data == [ESC] + "[2~";
    case Delete => assert data == [ESC] + "[3~";
    case PageUp => assert data == [ESC] + "[5~";
    case PageDown => assert data == [ESC] + "[6~";
    case _ =>
  }

  /** The legacy sequence of an editing or paging key is its Kitty sequence without modifiers. */
  lemma LegacyMeansKey(data: string, name: KeyName)
    requires ParseKitty(data).Some? && data in LegacyKeys(name) && !name.FunctionKey?
    ensures ParseKitty(data) == Some(Kitty(FunctionalCodepoint(name), None, None, 0, Press))
  {
    KittyShape(data);
    LegacyShape(data, name);
    hide ParseKitty, LegacyKeys, TildeKey;
    DigitNumeral(data[2]);
    TildeNumber(data[2] as int - 48, [data[2]]);
  }

  lemma DigitNumeral(c: char)
    requires IsDigit(c)
    ensures Numeral(c as int - 48) == [c]
  {
  }

  lemma NumeralsAre()
    ensures Numeral(1) == "1" && Numeral(2) == "2" && Numeral(3) == "3" && Numeral(4) == "4"
    ensures Numeral(5) == "5" && Numeral(6) == "6" && Numeral(7) == "7" && Numeral(8) == "8"
  {
  }

  lemma TwoDigits(tens: nat, ones: nat)
    requires 0 < tens < 10 && ones < 10
    ensures Numeral(10 * tens + ones) == [(tens + 48) as char, (ones + 48) as char]
  {
    var n := 10 * tens + ones;
    assert n / 10 == tens && n % 10 == ones;
    assert Numeral(tens) == [(tens + 48) as char];
  }

  lemma FunctionNumber(tens: nat, ones: nat, data: string)
    requires 0 < tens < 10 && ones < 10 && data == [ESC] + "[" + [(tens + 48) as char, (ones + 48) as char] + "~"
    ensures ParseKitty(data).None?
  {
    hide ParseKitty, Numeral;
    TwoDigits(tens, ones);
    TildeNumber(10 * tens + ones, [(tens + 48) as char, (ones + 48) as char]);
  }

  /** A function key's sequence of this shape is a number from 11 on and a tilde. */
  lemma FunctionShape(data: string, n: nat)
    requires |data| >= 4 && data[1] == '[' && IsDigit(data[2]) && data in LegacyFunctionKeys(n)
    ensures |data| == 5 && data[2] != '0' && IsDigit(data[3]) && data == [ESC] + "[" + [data[2], data[3]] + "~"
  {
    match n
    case 1 => assert data == [ESC] + "[11~";
    case 2 => assert data == [ESC] + "[12~";
    case 3 => assert data == [ESC] + "[13~";
    case 4 => assert data == [ESC] + "[14~";
    case 5 => assert data == [ESC] + "[15~";
    case 6 => assert data == [ESC] + "[17~";
    case 7 => assert data == [ESC] + "[18~";
    case 8 => assert data == [ESC] + "[19~";
    case 9 => assert data == [ESC] + "[20~";
    case 10 => assert data == [ESC] + "[21~";
    case 11 => assert data == [ESC] + "[23~";
    case 12 => assert data == [ESC] + "[24~";
    case _ =>
  }

  /** Function keys have no Kitty sequence. */
  lemma FunctionKeysAreLegacy(data: string, n: nat)
    requires ParseKitty(data).Some?
    ensures data !in LegacyFunctionKeys(n)
  {
    KittyShape(data);
    hide ParseKitty, LegacyFunctionKeys;
    if data in LegacyFunctionKeys(n) {
      FunctionShape(data, n);
      FunctionNumber(data[2] as int - 48, data[3] as int - 48, data);
    }
  }

  lemma ShiftedShape(data: string, name: KeyName)
    requires data in LegacyShift(name)
    ensures |data| < 4 || data[|data|-1] == '$'
  {
  }

  lemma ControlledShape(data: string, name: KeyName)
    requires data in LegacyCtrl(name)
    ensures |data| < 4 || data[|data|-1] == '^'
  {
  }

  lemma ShiftedAndControlledAreLegacy(data: string, name: KeyName)
    requires ParseKitty(data).Some?
    ensures data !in LegacyShift(name) && data !in LegacyCtrl(name)
  {
    KittyShape(data);
    hide ParseKitty, LegacyShift, LegacyCtrl;
    if data in LegacyShift(name) { ShiftedShape(data, name); }
    if data in LegacyCtrl(name) { ControlledShape(data, name); }
  }

  /** The four arrows with a modifier that both forms share. */
  lemma ModifiedArrow(modifier: nat, digit: char, final: char)
    requires (modifier == 3 && digit == '3') || (modifier == 5 && digit == '5')
    requires final == 'C' || final == 'D'
    ensures ParseKitty([ESC] + "[1;" + [digit, final]) ==
            Some(Kitty(if final == 'C' then ARROW_RIGHT else ARROW_LEFT, None, None, modifier - 1, Press))
  {
    NumeralsAre();
    hide ParseKitty, Numeral;
    FinalRoundTrip(modifier, None, final);
    EventMeans(0);
    assert EncodeFinal(modifier, None, final) == [ESC] + "[1;" + [digit, final];
  }

  // ------------------------------------------------------------------
  // Matching a Kitty sequence
  // ------------------------------------------------------------------

  /** The key of a sequence: its own code point, or the base layout's if its own is neither letter nor symbol. */
  predicate IsKey(k: Kitty, name: KeyName) {
    var code := EffectiveCodepoint(k.codepoint, k.modifier, None);
    || MatchedBy(name, code)
    || (k.baseLayoutKey.Some? && MatchedBy(name, k.baseLayoutKey.value)
        && !(97 <= code <= 122) && !IsSymbolCode(code))
  }

  lemma CodeIsNormal(name: KeyName, code: int, modifier: int)
    requires Formatted(name) && MatchedBy(name, code)
    ensures NormalizeShiftedLetter(NormalizeFunctional(code), modifier) == code
  {
    hide Has;
  }

  /** Comparing with a key's code point. */
  lemma MatchesCode(data: string, name: KeyName, code: int, modifier: nat)
    requires ParseKitty(data).Some? && Formatted(name) && MatchedBy(name, code) && modifier < 16
    ensures var k := ParseKitty(data).value;
      var own := EffectiveCodepoint(k.codepoint, k.modifier, None);
      MatchesKitty(data, code, modifier) <==>
        && Effective(k.modifier) == modifier
        && (own == code || (k.baseLayoutKey == Some(code) && !(97 <= own <= 122) && !IsSymbolCode(own)))
  {
    EffectiveLow(modifier);
    CodeIsNormal(name, code, modifier);
    hide ParseKitty, Effective, NormalizeFunctional, NormalizeShiftedLetter, IsSymbolCode, MatchedBy;
  }

  lemma MatchesItself(data: string, code: int, modifier: int)
    requires ParseKitty(data) == Some(Kitty(code, None, None, modifier, Press))
    ensures MatchesKitty(data, code, modifier)
  {
    hide ParseKitty, Effective, NormalizeFunctional, NormalizeShiftedLetter;
  }

  predicate IsModifiedArrow(data: string, name: KeyName, modifier: nat) {
    || (modifier == ALT && name.Left? && data == [ESC] + "[1;3D")
    || (modifier == ALT && name.Right? && data == [ESC] + "[1;3C")
    || (modifier == CTRL && name.Left? && data == [ESC] + "[1;5D")
    || (modifier == CTRL && name.Right? && data == [ESC] + "[1;5C")
  }

  lemma ArrowMatches(data: string, name: KeyName, modifier: nat)
    requires IsModifiedArrow(data, name, modifier)
    ensures MatchesKitty(data, FunctionalCodepoint(name), modifier)
  {
    hide ParseKitty, MatchesKitty;
    var digit, final := if modifier == ALT then '3' else '5', if name.Left? then 'D' else 'C';
    assert data == [ESC] + "[1;" + [digit, final];
    ModifiedArrow(if modifier == ALT then 3 else 5, digit, final);
    MatchesItself(data, FunctionalCodepoint(name), modifier);
  }

  /** What a functional key is matched by when its data is longer than the shortest legacy forms. */
  lemma FunctionalForms(env: Env, data: string, name: KeyName, modifier: nat)
    requires |data| >= 4 && data !in LegacyShift(name) && data !in LegacyCtrl(name)
    requires MatchesFunctional(env, data, name, modifier)
    ensures || MatchesKitty(data, FunctionalCodepoint(name), modifier)
            || (modifier == 0 && data in LegacyKeys(name)) || IsModifiedArrow(data, name, modifier)
  {
    hide LegacyKeys, LegacyShift, LegacyCtrl, MatchesKitty, FunctionalCodepoint;
  }

  lemma FunctionalMatches(env: Env, data: string, name: KeyName, modifier: nat)
    requires ParseKitty(data).Some? && !name.FunctionKey?
    ensures MatchesFunctional(env, data, name, modifier) ==> MatchesKitty(data, FunctionalCodepoint(name), modifier)
  {
    KittyShape(data);
    ShiftedAndControlledAreLegacy(data, name);
    hide ParseKitty, LegacyKeys, LegacyShift, LegacyCtrl, MatchesKitty, FunctionalCodepoint, MatchesFunctional;
    hide IsModifiedArrow;
    if MatchesFunctional(env, data, name, modifier) {
      FunctionalForms(env, data, name, modifier);
      if modifier == 0 && data in LegacyKeys(name) {
        LegacyMeansKey(data, name);
        MatchesItself(data, FunctionalCodepoint(name), 0);
      } else if IsModifiedArrow(data, name, modifier) {
        ArrowMatches(data, name, modifier);
      }
    }
  }

  lemma CharMatchesExactly(env: Env, data: string, c: char, modifier: nat)
    requires |data| >= 4 && ParseModifyOtherKeys(data).None?
    ensures MatchesChar(env, data, c, modifier) <==> MatchesKitty(data, c as int, modifier)
  {
    hide MatchesKitty, ParseModifyOtherKeys;
  }

  lemma ControlMatchesExactly(env: Env, data: string, modifier: nat)
    requires |data| >= 4 && ParseModifyOtherKeys(data).None?
    ensures MatchesEscape(data, modifier) <==> modifier == 0 && MatchesKitty(data, 27, 0)
    ensures MatchesSpace(env, data, modifier) <==> MatchesKitty(data, 32, modifier)
    ensures MatchesTab(data, modifier) <==> MatchesKitty(data, 9, modifier)
    ensures MatchesEnter(env, data, modifier) <==>
            MatchesKitty(data, 13, modifier) || MatchesKitty(data, KP_ENTER, modifier)
    ensures MatchesBackspace(env, data, modifier) <==> MatchesKitty(data, 127, modifier)
  {
    hide MatchesKitty, ParseModifyOtherKeys;
  }

  /** The code point of a name, if it has exactly one. */
  function CodeFor(name: KeyName): int
    requires Formatted(name) && !name.Enter?
  {
    match name
    case Escape => 27
    case Tab => 9
    case Space => 32
    case Backspace => 127
    case Char(c) => c as int
    case _ => FunctionalCodepoint(name)
  }

  lemma MatchesItsCode(data: string, name: KeyName, modifier: nat)
    requires ParseKitty(data).Some? && modifier < 16 && Formatted(name) && !name.Enter?
    ensures var k := ParseKitty(data).value;
      MatchesKitty(data, CodeFor(name), modifier) <==> Effective(k.modifier) == modifier && IsKey(k, name)
  {
    hide ParseKitty, Effective, EffectiveCodepoint, IsSymbolCode, MatchesKitty;
    MatchesCode(data, name, CodeFor(name), modifier);
  }

  lemma MatchesEnterCodes(data: string, modifier: nat)
    requires ParseKitty(data).Some? && modifier < 16
    ensures var k := ParseKitty(data).value;
      MatchesKitty(data, 13, modifier) || MatchesKitty(data, KP_ENTER, modifier) <==>
        Effective(k.modifier) == modifier && IsKey(k, Enter)
  {
    hide ParseKitty, Effective, EffectiveCodepoint, IsSymbolCode, MatchesKitty;
    MatchesCode(data, Enter, 13, modifier);
    MatchesCode(data, Enter, KP_ENTER, modifier);
  }

  lemma FunctionalMatchesExactly(env: Env, data: string, name: KeyName, modifier: nat)
    requires ParseKitty(data).Some? && !name.FunctionKey?
    ensures MatchesFunctional(env, data, name, modifier) <==> MatchesKitty(data, FunctionalCodepoint(name), modifier)
  {
    FunctionalMatches(env, data, name, modifier);
    hide MatchesKitty, LegacyKeys, LegacyShift, LegacyCtrl;
  }

  /** Whether a key name and modifier match depends on the parsed sequence alone. */
  lemma NameMatchesExactly(env: Env, data: string, name: KeyName, modifier: nat)
    requires ParseKitty(data).Some? && modifier < 16
    requires Formatted(name) || name.Clear? || name.FunctionKey?
    ensures var k := ParseKitty(data).value;
      MatchesName(env, data, name, modifier) <==>
        Effective(k.modifier) == modifier && (name.Escape? ==> modifier == 0) && IsKey(k, name)
  {
    if name.Clear? || name.FunctionKey? { NoOtherKeys(ParseKitty(data).value, name); }
    KittyIsLong(data);
    KittyIsNotModifyOtherKeys(data);
    ControlMatchesExactly(env, data, modifier);
    if Formatted(name) && !name.Enter? { MatchesItsCode(data, name, modifier); }
    hide ParseKitty, ParseModifyOtherKeys, Effective, EffectiveCodepoint, IsSymbolCode, MatchesKitty, MatchesFunctional,
        LegacyKeys, LegacyShift, LegacyCtrl, IsKey;
    hide MatchesEscape, MatchesSpace, MatchesTab, MatchesEnter, MatchesBackspace, MatchesChar;
    match name
    case Escape =>
    case Tab =>
    case Enter => MatchesEnterCodes(data, modifier);
    case Space =>
    case Backspace =>
    case Char(c) => CharMatchesExactly(env, data, c, modifier);
    case Clear =>
      ClearIsShort(data);
      ShiftedAndControlledAreLegacy(data, Clear);
    case FunctionKey(n) =>
      FunctionKeysAreLegacy(data, n);
      FunctionKeysOnly(name);
    case _ => FunctionalMatchesExactly(env, data, name, modifier);
  }

  lemma NoOtherKeys(k: Kitty, name: KeyName)
    requires name.Clear? || name.FunctionKey?
    ensures !IsKey(k, name)
  {
    hide EffectiveCodepoint;
  }

  lemma FunctionKeysOnly(name: KeyName)
    requires name.FunctionKey?
    ensures LegacyKeys(name) == LegacyFunctionKeys(name.n)
  {
  }

  lemma ClearIsShort(data: string)
    requires |data| >= 4
    ensures data !in LegacyKeys(Clear)
  {
  }

  // ------------------------------------------------------------------
  // Main results
  // ------------------------------------------------------------------

  lemma KeysAreFormatted(key: string)
    requires KeyOf(key).Some?
    ensures var name := KeyOf(key).value; Formatted(name) || name.Clear? || name.FunctionKey?
  {
  }

  /**
   * A Kitty sequence matches an identifier if and only if, lock keys aside, its modifiers
   * are exactly the identifier's, its key is the identifier's, and the key is not a
   * modified escape.
   */
  lemma KittyMatchesExactly(env: Env, data: string, keyId: string)
    requires ParseKitty(data).Some?
    ensures var k := ParseKitty(data).value;
      MatchesKey(env, data, keyId) <==>
        && ParseKeyId(keyId).Some?
        && var id := ParseKeyId(keyId).value;
          && Effective(k.modifier) ==
             (if id.shift then 1 else 0) + (if id.alt then 2 else 0) + (if id.ctrl then 4 else 0) +
             (if id.super_ then 8 else 0)
          && KeyOf(id.key).Some? && IsKey(k, KeyOf(id.key).value)
          && (KeyOf(id.key) == Some(Escape) ==> !id.shift && !id.alt && !id.ctrl && !id.super_)
  {
    hide ParseKitty, Effective, KeyOf, ParseKeyId, MatchesName, IsKey;
    if ParseKeyId(keyId).Some? {
      var id := ParseKeyId(keyId).value;
      if KeyOf(id.key).Some? {
        KeysAreFormatted(id.key);
        NameMatchesExactly(env, data, KeyOf(id.key).value, ModifierOf(id));
      }
    }
  }

  /** Without a base-layout key, all identifiers that match have one key and the same modifiers. */
  lemma MatchedIsUnique(env: Env, data: string, a: string, b: string)
    requires ParseKitty(data).Some? && ParseKitty(data).value.baseLayoutKey.None?
    requires MatchesKey(env, data, a) && MatchesKey(env, data, b)
    ensures ParseKeyId(a).Some? && ParseKeyId(b).Some?
    ensures var x, y := ParseKeyId(a).value, ParseKeyId(b).value;
      && KeyOf(x.key) == KeyOf(y.key)
      && x.shift == y.shift && x.alt == y.alt && x.ctrl == y.ctrl && x.super_ == y.super_
  {
    hide ParseKitty, Effective, KeyOf, ParseKeyId, MatchesKey, EffectiveCodepoint, IsSymbolCode;
    KittyMatchesExactly(env, data, a);
    KittyMatchesExactly(env, data, b);
    KeysAreFormatted(ParseKeyId(a).value.key);
    KeysAreFormatted(ParseKeyId(b).value.key);
  }

  /** Caps lock and num lock are cleared whatever the other bits, which are taken modulo 2^32. */
  lemma LocksAreCleared(high: nat, low: nat, capsLock: bool, numLock: bool)
    requires high < 0x100_0000 && low < 64
    ensures var modifier := 256 * high + low + (if capsLock then 64 else 0) + (if numLock then 128 else 0);
      Effective(modifier) == 256 * high + low && Effective(modifier - 0x1_0000_0000) == 256 * high + low
  {
    var locks := (if capsLock then 1 else 0) + (if numLock then 2 else 0);
    BitsOf(high, low, locks);
  }

  lemma BitsOf(high: nat, low: nat, locks: nat)
    requires high < 0x100_0000 && low < 64 && locks < 4
    ensures var modifier := 256 * high + low + 64 * locks;
      Effective(modifier) == 256 * high + low && Effective(modifier - 0x1_0000_0000) == 256 * high + low
  {
    var modifier := 256 * high + low + 64 * locks;
    assert modifier < 0x1_0000_0000;
    assert modifier % 0x1_0000_0000 == modifier && (modifier - 0x1_0000_0000) % 0x1_0000_0000 == modifier;
    assert modifier / 64 == 4 * high + locks;
    assert (4 * high + locks) % 4 == locks;
  }

  /** Keypad keys are the keys they are printed with. */
  lemma KeypadKeysAreNamed(modifier: int)
    ensures forall digit {:trigger 57399 + digit} :: 0 <= digit < 10 ==>
              EffectiveCodepoint(57399 + digit, modifier, None) == '0' as int + digit
    ensures EffectiveCodepoint(57409, modifier, None) == '.' as int
    ensures EffectiveCodepoint(57410, modifier, None) == '/' as int
    ensures EffectiveCodepoint(57411, modifier, None) == '*' as int
    ensures EffectiveCodepoint(57412, modifier, None) == '-' as int
    ensures EffectiveCodepoint(57413, modifier, None) == '+' as int
    ensures EffectiveCodepoint(57415, modifier, None) == '=' as int
    ensures EffectiveCodepoint(57416, modifier, None) == ',' as int
  {
    hide Has;
  }

  /** Those without a character move or edit like the keys of the same name. */
  lemma KeypadMovesAreNamed(modifier: int)
    ensures Named(EffectiveCodepoint(57417, modifier, None), "left")
    ensures Named(EffectiveCodepoint(57418, modifier, None), "right")
    ensures Named(EffectiveCodepoint(57419, modifier, None), "up")
    ensures Named(EffectiveCodepoint(57420, modifier, None), "down")
    ensures Named(EffectiveCodepoint(57421, modifier, None), "pageUp")
    ensures Named(EffectiveCodepoint(57422, modifier, None), "pageDown")
    ensures Named(EffectiveCodepoint(57423, modifier, None), "home")
    ensures Named(EffectiveCodepoint(57424, modifier, None), "end")
    ensures Named(EffectiveCodepoint(57425, modifier, None), "insert")
    ensures Named(EffectiveCodepoint(57426, modifier, None), "delete")
  {
    KeypadMoves(modifier);
    SpecialKeysAreNamed();
    hide Named, EffectiveCodepoint;
  }

  lemma KeypadMoves(modifier: int)
    ensures EffectiveCodepoint(57417, modifier, None) == -4 && EffectiveCodepoint(57418, modifier, None) == -3
    ensures EffectiveCodepoint(57419, modifier, None) == -1 && EffectiveCodepoint(57420, modifier, None) == -2
    ensures EffectiveCodepoint(57421, modifier, None) == -12 && EffectiveCodepoint(57422, modifier, None) == -13
    ensures EffectiveCodepoint(57423, modifier, None) == -14 && EffectiveCodepoint(57424, modifier, None) == -15
    ensures EffectiveCodepoint(57425, modifier, None) == -11 && EffectiveCodepoint(57426, modifier, None) == -10
  {
    hide Has;
  }

  // ------------------------------------------------------------------
  // A single character
  // ------------------------------------------------------------------

  lemma ShortIsNeither(data: string)
    requires |data| < 4
    ensures ParseKitty(data).None? && ParseModifyOtherKeys(data).None?
  {
    hide ParseKitty;
    if ParseKitty(data).Some? { KittyIsLong(data); }
  }

  lemma OneCharacter(env: Env, c: char, d: char, modifier: nat)
    requires ' ' <= c <= '~' && (IsLetter(d) || IsDigit(d) || IsSymbol(d))
    requires ParseKitty([c]).None? && ParseModifyOtherKeys([c]).None?
    ensures MatchesChar(env, [c], d, modifier) <==>
      (modifier == 0 && d == c) || (modifier == SHIFT && 'a' <= d <= 'z' && c as int == d as int - 32)
  {
    hide ParseKitty, ParseModifyOtherKeys;
    assert RawCtrl(d).Some? ==> RawCtrl(d).value < ' ';
  }

  lemma OneIsNoFunctionKey(c: char, n: nat)
    ensures [c] !in LegacyFunctionKeys(n)
  {
  }

  lemma OneIsNotFunctional(env: Env, c: char, name: KeyName, modifier: nat)
    requires ParseKitty([c]).None?
    ensures !MatchesFunctional(env, [c], name, modifier) || name.FunctionKey?
  {
    hide ParseKitty, LegacyFunctionKeys;
  }

  /** A printable character matches only itself, a capital letter its letter with shift. */
  lemma PrintableMatchesExactly(env: Env, c: char, name: KeyName, modifier: nat)
    requires ' ' <= c <= '~' && (Formatted(name) || name.Clear? || name.FunctionKey?)
    ensures MatchesName(env, [c], name, modifier) <==>
      || (modifier == 0 && (name == Char(c) || (name == Space && c == ' ')))
      || (modifier == SHIFT && name.Char? && 'a' <= name.c <= 'z' && c as int == name.c as int - 32)
  {
    ShortIsNeither([c]);
    hide ParseKitty, ParseModifyOtherKeys, MatchesFunctional, LegacyFunctionKeys;
    match name
    case Char(d) => OneCharacter(env, c, d, modifier);
    case FunctionKey(n) => OneIsNoFunctionKey(c, n);
    case Escape =>
    case Space =>
    case Tab =>
    case Enter =>
    case Backspace =>
    case Clear =>
    case _ => OneIsNotFunctional(env, c, name, modifier);
  }

  /** Names that only identifiers written by hand use. */
  lemma OtherNames()
    ensures KeyOf("esc") == Some(Escape) && KeyOf("return") == Some(Enter) && KeyOf("clear") == Some(Clear)
  {
    hide FunctionKeyOf;
  }

  lemma FunctionNames(n: nat)
    requires 1 <= n <= 12
    ensures FunctionKeyOf("f" + Numeral(n)) == Some(FunctionKey(n))
  {
    if n < 10 {
      assert "f" + Numeral(n) == ['f', (n + 48) as char];
    } else {
      TwoDigits(1, n - 10);
      assert "f" + Numeral(n) == ['f', '1', (n + 38) as char];
    }
  }

  /** The keys of any terminal, without modifiers. */
  lemma PlainKeysMatch(env: Env)
    ensures MatchesName(env, [ESC], Escape, 0) && MatchesName(env, "\t", Tab, 0) && MatchesName(env, "\r", Enter, 0)
    ensures MatchesName(env, " ", Space, 0) && MatchesName(env, [0x7F as char], Backspace, 0)
    ensures MatchesName(env, "\n", Enter, 0) <==> !env.kittyActive
    ensures MatchesName(env, "\n", Enter, SHIFT) <==> env.kittyActive
    ensures MatchesName(env, [ESC] + "\r", Enter, ALT) <==> !env.kittyActive
    ensures MatchesName(env, [0x08 as char], Backspace, 0) <==> !env.windowsTerminal
    ensures MatchesName(env, [0x08 as char], Backspace, CTRL) <==> env.windowsTerminal
  {
    ShortIsNeither([ESC]);
    ShortIsNeither("\n");
    ShortIsNeither([ESC] + "\r");
    ShortIsNeither([0x08 as char]);
    hide ParseKitty, ParseModifyOtherKeys;
  }

  lemma PlainArrowsMatch(env: Env)
    ensures MatchesName(env, [ESC] + "[A", Up, 0) && MatchesName(env, [ESC] + "[B", Down, 0)
    ensures MatchesName(env, [ESC] + "[C", Right, 0) && MatchesName(env, [ESC] + "[D", Left, 0)
    ensures MatchesName(env, [ESC] + "[H", Home, 0) && MatchesName(env, [ESC] + "[F", End, 0)
    ensures MatchesName(env, [ESC] + "OP", FunctionKey(1), 0) && MatchesName(env, [ESC] + "[Z", Tab, SHIFT)
  {
    hide MatchesKitty, MatchesModifyOtherKeys, MatchesLegacyModifier;
  }

  /** A control character is its letter with ctrl, after an escape with alt too unless the protocol is active. */
  lemma ControlLettersMatch(env: Env, c: char)
    requires 'a' <= c <= 'z'
    ensures MatchesName(env, [(c as int - 96) as char], Char(c), CTRL)
    ensures MatchesName(env, [ESC, (c as int - 96) as char], Char(c), CTRL + ALT) <==> !env.kittyActive
    ensures MatchesName(env, [ESC, c], Char(c), ALT) <==> !env.kittyActive
  {
    ShortIsNeither([ESC, (c as int - 96) as char]);
    ShortIsNeither([ESC, c]);
    hide ParseKitty, ParseModifyOtherKeys;
  }

  lemma ControlSymbolsMatch(env: Env)
    ensures MatchesName(env, [27 as char], Char('['), CTRL) && MatchesName(env, [28 as char], Char('\\'), CTRL)
    ensures MatchesName(env, [29 as char], Char(']'), CTRL) && MatchesName(env, [31 as char], Char('_'), CTRL)
    ensures MatchesName(env, [31 as char], Char('-'), CTRL) && !MatchesName(env, [0 as char], Char('2'), CTRL)
    ensures MatchesName(env, [0 as char], Space, CTRL) <==> !env.kittyActive
  {
    ShortIsNeither([0 as char]);
    hide ParseKitty, ParseModifyOtherKeys;
  }
}
