/**
 * Key identifiers: formatting a Kitty sequence as an identifier, and matching data
 * against one (packages/tui/src/keys.ts).  Bit operations on modifiers are the 32-bit
 * ones of JavaScript, written out on integers.
 */
module Keys {
  import opened Base
  import opened Strings
  import opened KittySequences

  // ------------------------------------------------------------------
  // Modifiers
  // ------------------------------------------------------------------

  const SHIFT := 1
  const ALT := 2
  const CTRL := 4
  const SUPER := 8

  /** `modifier & ~LOCK_MASK`, as an unsigned 32-bit number: bits 6 and 7 are the lock keys. */
  function Effective(modifier: int): nat {
    var bits := modifier % 0x1_0000_0000;
    bits - 64 * (bits / 64 % 4)
  }

  predicate Has(modifier: int, flag: int)
    requires flag > 0
  {
    Effective(modifier) / flag % 2 == 1
  }

  // ------------------------------------------------------------------
  // Key names
  // ------------------------------------------------------------------

  datatype KeyName =
    | Escape | Tab | Enter | Space | Backspace | Delete | Insert | Home | End | PageUp | PageDown
    | Up | Down | Left | Right | Clear | FunctionKey(n: nat) | Char(c: char)

  /** The symbol keys, by their ASCII ranges. */
  predicate IsSymbol(c: char) {
    c == '!' || '#' <= c <= '/' || ':' <= c <= '@' || '[' <= c <= '`' || '{' <= c <= '~'
  }

  lemma SymbolsAreTheSet(c: char)
    ensures IsSymbol(c) <==>
              c in {'`', '-', '=', '[', ']', '\\', ';', '\'', ',', '.', '/', '!', '@', '#', '$', '%', '^', '&', '*',
                    '(', ')', '_', '+', '|', '~', '{', '}', ':', '<', '>', '?'}
  {
  }

  /** `String.fromCharCode` keeps the low 16 bits. */
  function CharCode(codepoint: int): int {
    codepoint % 0x1_0000
  }

  predicate IsSymbolCode(codepoint: int) {
    CharCode(codepoint) < 128 && IsSymbol(CharCode(codepoint) as char)
  }

  predicate IsLetterCode(codepoint: int) { 97 <= codepoint <= 122 }

  predicate IsDigitCode(codepoint: int) { 48 <= codepoint <= 57 }

  const KP_ENTER := 57414

  function NormalizeFunctional(codepoint: int): int {
    if 57399 <= codepoint <= 57408 then codepoint - 57399 + 48
    else match codepoint
      case 57409 => 46
      case 57410 => 47
      case 57411 => 42
      case 57412 => 45
      case 57413 => 43
      case 57415 => 61
      case 57416 => 44
      case 57417 => ARROW_LEFT
      case 57418 => ARROW_RIGHT
      case 57419 => ARROW_UP
      case 57420 => ARROW_DOWN
      case 57421 => KEY_PAGE_UP
      case 57422 => KEY_PAGE_DOWN
      case 57423 => KEY_HOME
      case 57424 => KEY_END
      case 57425 => KEY_INSERT
      case 57426 => KEY_DELETE
      case _ => codepoint
  }

  function NormalizeShiftedLetter(codepoint: int, modifier: int): int {
    if Has(modifier, SHIFT) && 65 <= codepoint <= 90 then codepoint + 32 else codepoint
  }

  // ------------------------------------------------------------------
  // Formatting
  // ------------------------------------------------------------------

  /** The code point a key name is chosen by. */
  function EffectiveCodepoint(codepoint: int, modifier: int, baseLayoutKey: Option<nat>): int {
    var identity := NormalizeShiftedLetter(NormalizeFunctional(codepoint), modifier);
    if IsLetterCode(identity) || IsDigitCode(identity) || IsSymbolCode(identity) || baseLayoutKey.None? then identity
    else baseLayoutKey.value
  }

  function NameOf(codepoint: int): Option<KeyName> {
    if codepoint == 27 then Some(Escape)
    else if codepoint == 9 then Some(Tab)
    else if codepoint == 13 || codepoint == KP_ENTER then Some(Enter)
    else if codepoint == 32 then Some(Space)
    else if codepoint == 127 then Some(Backspace)
    else if codepoint == KEY_DELETE then Some(Delete)
    else if codepoint == KEY_INSERT then Some(Insert)
    else if codepoint == KEY_HOME then Some(Home)
    else if codepoint == KEY_END then Some(End)
    else if codepoint == KEY_PAGE_UP then Some(PageUp)
    else if codepoint == KEY_PAGE_DOWN then Some(PageDown)
    else if codepoint == ARROW_UP then Some(Up)
    else if codepoint == ARROW_DOWN then Some(Down)
    else if codepoint == ARROW_LEFT then Some(Left)
    else if codepoint == ARROW_RIGHT then Some(Right)
    else if IsDigitCode(codepoint) || IsLetterCode(codepoint) then Some(Char(codepoint as char))
    else if IsSymbolCode(codepoint) then Some(Char(CharCode(codepoint) as char))
    else None
  }

  function NameString(name: KeyName): string {
    match name
    case Escape => "escape"
    case Tab => "tab"
    case Enter => "enter"
    case Space => "space"
    case Backspace => "backspace"
    case Delete => "delete"
    case Insert => "insert"
    case Home => "home"
    case End => "end"
    case PageUp => "pageUp"
    case PageDown => "pageDown"
    case Up => "up"
    case Down => "down"
    case Left => "left"
    case Right => "right"
    case Clear => "clear"
    case FunctionKey(n) => "f" + Numeral(n)
    case Char(c) => [c]
  }

  /** `parts.join("+")`. */
  function Join(parts: seq<string>): string {
    if parts == [] then "" else if |parts| == 1 then parts[0] else parts[0] + "+" + Join(parts[1..])
  }

  function Mods(modifier: int): seq<string> {
    (if Has(modifier, SHIFT) then ["shift"] else []) + (if Has(modifier, CTRL) then ["ctrl"] else []) +
    (if Has(modifier, ALT) then ["alt"] else []) + (if Has(modifier, SUPER) then ["super"] else [])
  }

  /** `formatKeyNameWithModifiers`: nothing for a modifier outside shift, ctrl, alt and super. */
  function FormatKeyName(name: string, modifier: int): Option<string> {
    if Effective(modifier) / 16 != 0 then None
    else
      var mods := Mods(modifier);
      Some(if mods != [] then Join(mods) + "+" + name else name)
  }

  function FormatParsedKey(codepoint: int, modifier: int, baseLayoutKey: Option<nat>): Option<string> {
    match NameOf(EffectiveCodepoint(codepoint, modifier, baseLayoutKey))
    case None => None
    case Some(name) => FormatKeyName(NameString(name), modifier)
  }

  /** `parseKey` on Kitty sequences. */
  function ParseKittyKey(data: string): Option<string> {
    match ParseKitty(data)
    case None => None
    case Some(k) => FormatParsedKey(k.codepoint, k.modifier, k.baseLayoutKey)
  }

  // ------------------------------------------------------------------
  // Parsing identifiers
  // ------------------------------------------------------------------

  function LowerChar(c: char): char {
    if 'A' <= c <= 'Z' then (c as int + 32) as char else c
  }

  function Lower(s: string): string {
    seq(|s|, i requires 0 <= i < |s| => LowerChar(s[i]))
  }

  predicate NotPlus(c: char) { c != '+' }

  /** `split("+")`. */
  function Split(s: string): seq<string>
    decreases |s|
  {
    var n := Leading(NotPlus, s);
    if n == |s| then [s] else [s[..n]] + Split(s[n+1..])
  }

  datatype KeyId = KeyId(key: string, ctrl: bool, shift: bool, alt: bool, super_: bool)

  function ParseKeyId(keyId: string): Option<KeyId> {
    var parts := Split(Lower(keyId));
    if parts == [] || parts[|parts|-1] == "" then None
    else Some(KeyId(parts[|parts|-1], "ctrl" in parts, "shift" in parts, "alt" in parts, "super" in parts))
  }

  /** The label of the switch over key names that a lower-cased key selects. */
  function KeyOf(key: string): Option<KeyName> {
    if key == "escape" || key == "esc" then Some(Escape)
    else if key == "space" then Some(Space)
    else if key == "tab" then Some(Tab)
    else if key == "enter" || key == "return" then Some(Enter)
    else if key == "backspace" then Some(Backspace)
    else if key == "insert" then Some(Insert)
    else if key == "delete" then Some(Delete)
    else if key == "clear" then Some(Clear)
    else if key == "home" then Some(Home)
    else if key == "end" then Some(End)
    else if key == "pageup" then Some(PageUp)
    else if key == "pagedown" then Some(PageDown)
    else if key == "up" then Some(Up)
    else if key == "down" then Some(Down)
    else if key == "left" then Some(Left)
    else if key == "right" then Some(Right)
    else if |key| == 1 && (IsLetter(key[0]) || IsDigit(key[0]) || IsSymbol(key[0])) then Some(Char(key[0]))
    else FunctionKeyOf(key)
  }

  function FunctionKeyOf(key: string): Option<KeyName> {
    if key in ["f1", "f2", "f3", "f4", "f5", "f6", "f7", "f8", "f9"] then Some(FunctionKey(key[1] as int - '0' as int))
    else if key == "f10" then Some(FunctionKey(10))
    else if key == "f11" then Some(FunctionKey(11))
    else if key == "f12" then Some(FunctionKey(12))
    else None
  }

  // ------------------------------------------------------------------
  // Matching
  // ------------------------------------------------------------------

  function BoolBit(b: bool, flag: nat): nat { if b then flag else 0 }

  function ModifierOf(id: KeyId): nat {
    BoolBit(id.shift, SHIFT) + BoolBit(id.alt, ALT) + BoolBit(id.ctrl, CTRL) + BoolBit(id.super_, SUPER)
  }

  predicate MatchesParsed(k: Kitty, expectedCodepoint: int, expectedModifier: int) {
    && Effective(k.modifier) == Effective(expectedModifier)
    && var normalized := NormalizeShiftedLetter(NormalizeFunctional(k.codepoint), k.modifier);
      || normalized == NormalizeShiftedLetter(NormalizeFunctional(expectedCodepoint), expectedModifier)
      || (k.baseLayoutKey == Some(expectedCodepoint) && !IsLetterCode(normalized) && !IsSymbolCode(normalized))
  }

  predicate MatchesKitty(data: string, expectedCodepoint: int, expectedModifier: int) {
    match ParseKitty(data)
    case None => false
    case Some(k) => MatchesParsed(k, expectedCodepoint, expectedModifier)
  }

  predicate MatchesModifyOtherKeys(data: string, expectedCodepoint: int, expectedModifier: int) {
    match ParseModifyOtherKeys(data)
    case None => false
    case Some((modifier, codepoint)) => codepoint == expectedCodepoint && modifier == expectedModifier
  }

  predicate MatchesPrintableModifyOtherKeys(data: string, expectedCodepoint: int, expectedModifier: int) {
    match ParseModifyOtherKeys(data)
    case None => false
    case Some((modifier, codepoint)) =>
      && expectedModifier != 0 && modifier == expectedModifier
      && NormalizeShiftedLetter(codepoint, modifier) == NormalizeShiftedLetter(expectedCodepoint, expectedModifier)
  }

  /** What the surroundings say: the protocol flag, and whether this is a Windows Terminal session. */
  datatype Env = Env(kittyActive: bool, windowsTerminal: bool)

  predicate MatchesRawBackspace(env: Env, data: string, expectedModifier: int) {
    if data == [0x7F as char] then expectedModifier == 0
    else data == [0x08 as char] && expectedModifier == if env.windowsTerminal then CTRL else 0
  }

  function LegacyKeys(name: KeyName): seq<string> {
    match name
    case Up => [[ESC] + "[A", [ESC] + "OA"]
    case Down => [[ESC] + "[B", [ESC] + "OB"]
    case Right => [[ESC] + "[C", [ESC] + "OC"]
    case Left => [[ESC] + "[D", [ESC] + "OD"]
    case Home => [[ESC] + "[H", [ESC] + "OH", [ESC] + "[1~", [ESC] + "[7~"]
    case End => [[ESC] + "[F", [ESC] + "OF", [ESC] + "[4~", [ESC] + "[8~"]
    case Insert => [[ESC] + "[2~"]
    case Delete => [[ESC] + "[3~"]
    case PageUp => [[ESC] + "[5~", [ESC] + "[[5~"]
    case PageDown => [[ESC] + "[6~", [ESC] + "[[6~"]
    case Clear => [[ESC] + "[E", [ESC] + "OE"]
    case FunctionKey(n) => LegacyFunctionKeys(n)
    case _ => []
  }

  function LegacyFunctionKeys(n: nat): seq<string> {
    match n
    case 1 => [[ESC] + "OP", [ESC] + "[11~", [ESC] + "[[A"]
    case 2 => [[ESC] + "OQ", [ESC] + "[12~", [ESC] + "[[B"]
    case 3 => [[ESC] + "OR", [ESC] + "[13~", [ESC] + "[[C"]
    case 4 => [[ESC] + "OS", [ESC] + "[14~", [ESC] + "[[D"]
    case 5 => [[ESC] + "[15~", [ESC] + "[[E"]
    case 6 => [[ESC] + "[17~"]
    case 7 => [[ESC] + "[18~"]
    case 8 => [[ESC] + "[19~"]
    case 9 => [[ESC] + "[20~"]
    case 10 => [[ESC] + "[21~"]
    case 11 => [[ESC] + "[23~"]
    case 12 => [[ESC] + "[24~"]
    case _ => []
  }

  /** `matchesLegacyModifierSequence`: rxvt's forms for shift or ctrl alone. */
  predicate MatchesLegacyModifier(data: string, name: KeyName, modifier: int) {
    (modifier == SHIFT && data in LegacyShift(name)) || (modifier == CTRL && data in LegacyCtrl(name))
  }

  function LegacyShift(name: KeyName): seq<string> {
    match name
    case Up => [[ESC] + "[a"]
    case Down => [[ESC] + "[b"]
    case Right => [[ESC] + "[c"]
    case Left => [[ESC] + "[d"]
    case Clear => [[ESC] + "[e"]
    case Insert => [[ESC] + "[2$"]
    case Delete => [[ESC] + "[3$"]
    case PageUp => [[ESC] + "[5$"]
    case PageDown => [[ESC] + "[6$"]
    case Home => [[ESC] + "[7$"]
    case End => [[ESC] + "[8$"]
    case _ => []
  }

  function LegacyCtrl(name: KeyName): seq<string> {
    match name
    case Up => [[ESC] + "Oa"]
    case Down => [[ESC] + "Ob"]
    case Right => [[ESC] + "Oc"]
    case Left => [[ESC] + "Od"]
    case Clear => [[ESC] + "Oe"]
    case Insert => [[ESC] + "[2^"]
    case Delete => [[ESC] + "[3^"]
    case PageUp => [[ESC] + "[5^"]
    case PageDown => [[ESC] + "[6^"]
    case Home => [[ESC] + "[7^"]
    case End => [[ESC] + "[8^"]
    case _ => []
  }

  /** The code point a functional key is matched by. */
  function FunctionalCodepoint(name: KeyName): int {
    match name
    case Insert => KEY_INSERT
    case Delete => KEY_DELETE
    case Home => KEY_HOME
    case End => KEY_END
    case PageUp => KEY_PAGE_UP
    case PageDown => KEY_PAGE_DOWN
    case Up => ARROW_UP
    case Down => ARROW_DOWN
    case Left => ARROW_LEFT
    case Right => ARROW_RIGHT
    case _ => 0
  }

  predicate MatchesEscape(data: string, modifier: int) {
    modifier == 0 && (data == [ESC] || MatchesKitty(data, 27, 0) || MatchesModifyOtherKeys(data, 27, 0))
  }

  predicate MatchesSpace(env: Env, data: string, modifier: int) {
    || (!env.kittyActive && modifier == CTRL && data == [0 as char])
    || (!env.kittyActive && modifier == ALT && data == [ESC] + " ")
    || (modifier == 0 && data == " ")
    || MatchesKitty(data, 32, modifier) || MatchesModifyOtherKeys(data, 32, modifier)
  }

  predicate MatchesTab(data: string, modifier: int) {
    || (modifier == SHIFT && data == [ESC] + "[Z")
    || (modifier == 0 && data == "\t")
    || MatchesKitty(data, 9, modifier) || (modifier != 0 && MatchesModifyOtherKeys(data, 9, modifier))
  }

  predicate MatchesEnter(env: Env, data: string, modifier: int) {
    || MatchesKitty(data, 13, modifier) || MatchesKitty(data, KP_ENTER, modifier)
    || (modifier != 0 && MatchesModifyOtherKeys(data, 13, modifier))
    || (modifier == SHIFT && env.kittyActive && (data == [ESC] + "\r" || data == "\n"))
    || (modifier == ALT && !env.kittyActive && data == [ESC] + "\r")
    || (modifier == 0 && (data == "\r" || (!env.kittyActive && data == "\n") || data == [ESC] + "OM"))
  }

  predicate MatchesBackspace(env: Env, data: string, modifier: int) {
    || (modifier == ALT && (data == [ESC, 0x7F as char] || data == [ESC, 0x08 as char]))
    || ((modifier == CTRL || modifier == 0) && MatchesRawBackspace(env, data, modifier))
    || MatchesKitty(data, 127, modifier) || MatchesModifyOtherKeys(data, 127, modifier)
  }

  predicate MatchesFunctional(env: Env, data: string, name: KeyName, modifier: int) {
    || MatchesKitty(data, FunctionalCodepoint(name), modifier)
    || (modifier == 0 && data in LegacyKeys(name))
    || (modifier != 0 && MatchesLegacyModifier(data, name, modifier))
    || (modifier == ALT && name.Up? && data == [ESC] + "p")
    || (modifier == ALT && name.Down? && data == [ESC] + "n")
    || (modifier == ALT && name.Left? && (data == [ESC] + "[1;3D" || data == [ESC] + "b"))
    || (modifier == ALT && name.Left? && !env.kittyActive && data == [ESC] + "B")
    || (modifier == ALT && name.Right? && (data == [ESC] + "[1;3C" || data == [ESC] + "f"))
    || (modifier == ALT && name.Right? && !env.kittyActive && data == [ESC] + "F")
    || (modifier == CTRL && name.Left? && data == [ESC] + "[1;5D")
    || (modifier == CTRL && name.Right? && data == [ESC] + "[1;5C")
  }

  /** The control character of a key. */
  function RawCtrl(c: char): Option<char> {
    if IsLetter(c) then Some((c as int - 96) as char)
    else if c == '[' then Some(27 as char)
    else if c == '\\' then Some(28 as char)
    else if c == ']' then Some(29 as char)
    else if c == '_' || c == '-' then Some(31 as char)
    else None
  }

  predicate MatchesChar(env: Env, data: string, c: char, modifier: int) {
    || (modifier == CTRL + ALT && !env.kittyActive && RawCtrl(c).Some? && data == [ESC, RawCtrl(c).value])
    || (modifier == ALT && !env.kittyActive && data == [ESC, c])
    || (modifier == CTRL && RawCtrl(c).Some? && data == [RawCtrl(c).value])
    || (modifier == SHIFT && IsLetter(c) && data == [(c as int - 32) as char])
    || (modifier == 0 && data == [c])
    || MatchesKitty(data, c as int, modifier)
    || MatchesPrintableModifyOtherKeys(data, c as int, modifier)
  }

  predicate MatchesName(env: Env, data: string, name: KeyName, modifier: int) {
    match name
    case Escape => MatchesEscape(data, modifier)
    case Space => MatchesSpace(env, data, modifier)
    case Tab => MatchesTab(data, modifier)
    case Enter => MatchesEnter(env, data, modifier)
    case Backspace => MatchesBackspace(env, data, modifier)
    case Clear => (modifier == 0 && data in LegacyKeys(Clear)) || MatchesLegacyModifier(data, Clear, modifier)
    case FunctionKey(_) => modifier == 0 && data in LegacyKeys(name)
    case Char(c) => MatchesChar(env, data, c, modifier)
    case _ => MatchesFunctional(env, data, name, modifier)
  }

  predicate MatchesKey(env: Env, data: string, keyId: string) {
    match ParseKeyId(keyId)
    case None => false
    case Some(id) =>
      match KeyOf(id.key)
      case None => false
      case Some(name) => MatchesName(env, data, name, ModifierOf(id))
  }
}
