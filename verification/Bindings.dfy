/**
 * A binding: a primary key and an alternate key for one action, the match
 * predicate applied to every input event, and the binding's display text.
 */
module Bindings {
  import opened Wrappers
  import opened KeyCodes

  /** Primary key and alternate key; an alternate left out of the file is `Null`. */
  datatype KeyWithAlt = KeyWithAlt(key: KeyCode, alt: KeyCode)

  /** Does the event `code` trigger the action bound to `binding`? Exact
      variant-and-payload equality with either key, so characters compare
      case-sensitively. */
  predicate Matches(code: KeyCode, binding: KeyWithAlt): (r: bool)
    ensures r <==> code in {binding.key, binding.alt}
  {
    code == binding.key || code == binding.alt
  }

  /** Both keys of the binding are ones a configuration file can name. */
  predicate BindingNameable(b: KeyWithAlt) {
    Nameable(b.key) && Nameable(b.alt)
  }

  /** `Other` stands for every key a file cannot name, so it must trigger no
      binding a file can express: an unnamed key never triggers such a binding. */
  lemma OtherMatchesNoNameableBinding(b: KeyWithAlt)
    requires BindingNameable(b)
    ensures !Matches(Other, b)
  {
  }

  /** The binding whose primary is `a` and whose alternate is `b`: it is
      triggered by `a` and by `b`, and by nothing else, and shows `a` first. */
  function New(a: KeyCode, b: KeyCode): (r: KeyWithAlt)
    ensures r.key == a && r.alt == b
    ensures Matches(a, r) && Matches(b, r)
    ensures forall code :: Matches(code, r) <==> code == a || code == b
  {
    KeyWithAlt(a, b)
  }

  /** Characters are matched case-sensitively although they are shown alike:
      a lower-case letter does not trigger a binding of its capital alone, yet
      both render as the same glyph. */
  lemma CaseSensitiveButSameGlyph(ch: char)
    requires IsAsciiLower(ch)
    ensures !Matches(Char(ch), New(Char(ToAsciiUpper(ch)), Null))
    ensures Matches(Char(ToAsciiUpper(ch)), New(Char(ToAsciiUpper(ch)), Null))
    ensures ToChar(Char(ch)) == ToChar(Char(ToAsciiUpper(ch)))
  {
  }

  /** A `Null` event triggers every binding whose alternate was left unset. */
  lemma NullMatchesUnsetAlt(binding: KeyWithAlt)
    requires binding.alt == Null
    ensures Matches(Null, binding)
  {
  }

  /** Whether a binding fires does not depend on which of its keys is primary. */
  lemma MatchesIgnoresOrder(code: KeyCode, a: KeyCode, b: KeyCode)
    ensures Matches(code, New(a, b)) <==> Matches(code, New(b, a))
  {
  }

  /** The text of a binding: the primary's glyph, followed by ", " and the
      alternate's glyph when an alternate is set. */
  function Render(binding: KeyWithAlt): (s: string)
    ensures |s| == if binding.alt == Null then 1 else 4
    ensures s[0] == ToChar(binding.key)
    ensures binding.alt != Null ==> s[1..] == [',', ' ', ToChar(binding.alt)]
  {
    [ToChar(binding.key)] + if binding.alt != Null then ", " + [ToChar(binding.alt)] else ""
  }

  /** Two bindings render alike exactly when their primaries show the same
      glyph, both or neither have an alternate, and set alternates show the
      same glyph. */
  lemma RenderDeterminedByGlyphs(b1: KeyWithAlt, b2: KeyWithAlt)
    ensures Render(b1) == Render(b2) <==>
      && ToChar(b1.key) == ToChar(b2.key)
      && (b1.alt == Null <==> b2.alt == Null)
      && (b1.alt != Null ==> ToChar(b1.alt) == ToChar(b2.alt))
  {
  }

  datatype FmtError = FmtError

  /** The text sink a binding is written into. A sink that `failing` refuses
      every write and keeps its text unchanged. */
  class Formatter {
    var out: string
    const failing: bool

    constructor (failing: bool)
      ensures out == [] && this.failing == failing
    {
      out := [];
      this.failing := failing;
    }

    method WriteStr(s: string) returns (r: Result<(), FmtError>)
      modifies this
      ensures r == if failing then Err(FmtError) else Ok(())
      ensures out == if failing then old(out) else old(out) + s
    {
      if failing {
        r := Err(FmtError);
      } else {
        out := out + s;
        r := Ok(());
      }
    }
  }

  /** Writes the binding piece by piece: the primary glyph, then, when an
      alternate is set, ", " and its glyph. Stops at the first refused write. */
  method Fmt(binding: KeyWithAlt, f: Formatter) returns (r: Result<(), FmtError>)
    modifies f
    ensures r.Ok? <==> !f.failing
    ensures f.out == if f.failing then old(f.out) else old(f.out) + Render(binding)
  {
    r := f.WriteStr([ToChar(binding.key)]);
    if r.Err? {
      return;
    }
    if binding.alt != Null {
      r := f.WriteStr(", " + [ToChar(binding.alt)]);
      // The source propagates this write's error too; with a sink that refuses
      // either every write or none, the first write has already decided.
      if r.Err? {
        return;
      }
    }
    r := Ok(());
  }
}
