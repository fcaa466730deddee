/**
 * The key codes a configuration can name, and their one-character display.
 *
 * `KeyCode` mirrors the subset of the terminal library's key enumeration that
 * the configuration file format can spell; `Other` stands for every remaining
 * key of that library (function keys, Tab, Backspace, ...), which the game can
 * receive as an event but a configuration file cannot name.
 */
module KeyCodes {

  datatype KeyCode = Left | Right | Up | Down | Char(c: char) | Null | Esc | Enter | Other

  /** Keys a configuration file can spell (every variant of the mirrored subset). */
  predicate Nameable(k: KeyCode) {
    !k.Other?
  }

  // Display glyphs
  const EnterGlyph: char := '\U{21B5}'        // ↵
  const EscGlyph: char := '\U{241B}'          // ␛
  const LeftGlyph: char := '\U{2190}'         // ←
  const RightGlyph: char := '\U{2192}'        // →
  const UpGlyph: char := '\U{2191}'           // ↑
  const DownGlyph: char := '\U{2193}'         // ↓
  const SpaceGlyph: char := '\U{00B7}'        // ·
  const PlaceholderGlyph: char := '\U{FFFD}'  // the replacement character

  predicate IsAsciiLower(ch: char) {
    'a' <= ch <= 'z'
  }

  predicate IsAsciiUpper(ch: char) {
    'A' <= ch <= 'Z'
  }

  /** ASCII upper-casing: only 'a'..'z' change, each to its capital; everything else is kept. */
  function ToAsciiUpper(ch: char): (r: char)
    ensures !IsAsciiLower(r)
    ensures IsAsciiLower(ch) ==> IsAsciiUpper(r) && r as int - 'A' as int == ch as int - 'a' as int
    ensures !IsAsciiLower(ch) ==> r == ch
  {
    if IsAsciiLower(ch) then (ch as int - 'a' as int + 'A' as int) as char else ch
  }

  /**
   * The single character used to show a key in the help text. Total: every key,
   * including the ones the file cannot name, gets some character, and the
   * result is never an ASCII lower-case letter. Enter, Esc and the arrows have
   * fixed glyphs, space shows as a middle dot, any other character as its ASCII
   * capital, and `Null` and the unnamed keys as the placeholder. The glyphs of
   * the non-character keys all lie outside ASCII, so they never look like a
   * character key's letter.
   */
  function ToChar(k: KeyCode): (r: char)
    ensures !IsAsciiLower(r)
    ensures !k.Char? ==> r as int >= 0x80
    ensures k == Enter ==> r == EnterGlyph
    ensures k == Esc ==> r == EscGlyph
    ensures k == Left ==> r == LeftGlyph
    ensures k == Right ==> r == RightGlyph
    ensures k == Up ==> r == UpGlyph
    ensures k == Down ==> r == DownGlyph
    ensures k == Char(' ') ==> r == SpaceGlyph
    ensures k.Char? && k.c != ' ' ==> r == ToAsciiUpper(k.c)
    ensures k.Null? || k.Other? ==> r == PlaceholderGlyph
  {
    match k
    case Enter => EnterGlyph
    case Esc => EscGlyph
    case Left => LeftGlyph
    case Right => RightGlyph
    case Up => UpGlyph
    case Down => DownGlyph
    case Char(' ') => SpaceGlyph
    case Char(ch) => ToAsciiUpper(ch)
    case _ => PlaceholderGlyph
  }

  /** A character key and its ASCII capital are shown alike ('a' and 'A' both as 'A'). */
  lemma ToCharFoldsCase(ch: char)
    ensures ToChar(Char(ch)) == ToChar(Char(ToAsciiUpper(ch)))
    ensures IsAsciiLower(ch) ==> ToChar(Char(ch)) == ToAsciiUpper(ch)
  {
  }

  /** The placeholder glyph is what Null and the unnamed keys show, and only the
      replacement character itself shows it otherwise. */
  lemma PlaceholderExactly(k: KeyCode)
    ensures ToChar(k) == PlaceholderGlyph <==> k.Null? || k.Other? || k == Char(PlaceholderGlyph)
  {
  }
}
