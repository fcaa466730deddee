/**
 * The configuration record, the field defaults the file format applies to
 * omitted keys, and the help text derived from a configuration.
 */
module Settings {
  import opened Wrappers
  import opened KeyCodes
  import opened Bindings

  /** A fully populated configuration: five bound actions with primary and
      alternate keys, and four single-key actions (`Null` when unset). */
  datatype Config = Config(
    left: KeyWithAlt,
    right: KeyWithAlt,
    rotate: KeyWithAlt,
    softDrop: KeyWithAlt,
    hardDrop: KeyWithAlt,
    pause: KeyCode,
    quit: KeyCode,
    continueKey: KeyCode,
    restart: KeyCode)

  /** A binding as read from the file: the alternate key may be absent. */
  datatype RawBinding = RawBinding(key: KeyCode, alt: Option<KeyCode>)

  /** A configuration as read from the file, before defaults fill the optional
      keys. The five bindings are mandatory: a file without one of them does
      not decode at all. */
  datatype RawConfig = RawConfig(
    left: RawBinding,
    right: RawBinding,
    rotate: RawBinding,
    softDrop: RawBinding,
    hardDrop: RawBinding,
    pause: Option<KeyCode>,
    quit: Option<KeyCode>,
    continueKey: Option<KeyCode>,
    restart: Option<KeyCode>)

  /** The default of the restart key when the file omits it. */
  const RestartDefault: KeyCode := Char('r')

  /** The primary key is kept; an omitted alternate becomes `Null`. */
  function WithBindingDefault(raw: RawBinding): (b: KeyWithAlt)
    ensures b.key == raw.key
    ensures raw.alt.Some? ==> b.alt == raw.alt.value
    ensures raw.alt.None? ==> b.alt == Null
    ensures Nameable(raw.key) && (raw.alt.Some? ==> Nameable(raw.alt.value)) ==> BindingNameable(b)
  {
    KeyWithAlt(raw.key, raw.alt.GetOr(Null))
  }

  predicate RawNameable(raw: RawConfig) {
    && Nameable(raw.left.key) && (raw.left.alt.Some? ==> Nameable(raw.left.alt.value))
    && Nameable(raw.right.key) && (raw.right.alt.Some? ==> Nameable(raw.right.alt.value))
    && Nameable(raw.rotate.key) && (raw.rotate.alt.Some? ==> Nameable(raw.rotate.alt.value))
    && Nameable(raw.softDrop.key) && (raw.softDrop.alt.Some? ==> Nameable(raw.softDrop.alt.value))
    && Nameable(raw.hardDrop.key) && (raw.hardDrop.alt.Some? ==> Nameable(raw.hardDrop.alt.value))
    && (raw.pause.Some? ==> Nameable(raw.pause.value))
    && (raw.quit.Some? ==> Nameable(raw.quit.value))
    && (raw.continueKey.Some? ==> Nameable(raw.continueKey.value))
    && (raw.restart.Some? ==> Nameable(raw.restart.value))
  }

  predicate ConfigNameable(c: Config) {
    && BindingNameable(c.left) && BindingNameable(c.right) && BindingNameable(c.rotate)
    && BindingNameable(c.softDrop) && BindingNameable(c.hardDrop)
    && Nameable(c.pause) && Nameable(c.quit) && Nameable(c.continueKey) && Nameable(c.restart)
  }

  /**
   * Fills every key the file omitted with its default: alternates, pause, quit
   * and continue become `Null`, restart becomes 'r'; keys the file gave are
   * kept. The defaults are themselves nameable, so a configuration decoded
   * from a file names only keys a file can name.
   */
  function WithDefaults(raw: RawConfig): (c: Config)
    ensures c.left == WithBindingDefault(raw.left) && c.right == WithBindingDefault(raw.right)
    ensures c.rotate == WithBindingDefault(raw.rotate)
    ensures c.softDrop == WithBindingDefault(raw.softDrop) && c.hardDrop == WithBindingDefault(raw.hardDrop)
    ensures raw.pause.None? ==> c.pause == Null
    ensures raw.quit.None? ==> c.quit == Null
    ensures raw.continueKey.None? ==> c.continueKey == Null
    ensures raw.restart.None? ==> c.restart == RestartDefault
    ensures raw.pause.Some? ==> c.pause == raw.pause.value
    ensures raw.quit.Some? ==> c.quit == raw.quit.value
    ensures raw.continueKey.Some? ==> c.continueKey == raw.continueKey.value
    ensures raw.restart.Some? ==> c.restart == raw.restart.value
    ensures RawNameable(raw) ==> ConfigNameable(c)
  {
    Config(
      WithBindingDefault(raw.left),
      WithBindingDefault(raw.right),
      WithBindingDefault(raw.rotate),
      WithBindingDefault(raw.softDrop),
      WithBindingDefault(raw.hardDrop),
      raw.pause.GetOr(Null),
      raw.quit.GetOr(Null),
      raw.continueKey.GetOr(Null),
      raw.restart.GetOr(RestartDefault))
  }

  /** The labels of the seven action lines of the help text, in order. */
  const HelpLabels: seq<string> :=
    ["Left: ", "Right: ", "Rotate: ", "Soft Drop: ", "Hard Drop: ", "Pause: ", "Quit: "]

  /** The five bound actions in the order the help text lists them. */
  function HelpBindings(c: Config): (bs: seq<KeyWithAlt>)
    ensures |bs| == 5
  {
    [c.left, c.right, c.rotate, c.softDrop, c.hardDrop]
  }

  /**
   * The help text: nine lines, blank first and last; in between, one line per
   * action in the order left, right, rotate, soft drop, hard drop, pause, quit,
   * each its label followed by the action's rendering. Bound actions show
   * their binding (with the alternate when set); pause and quit show one glyph.
   */
  function CreateHelpMessage(c: Config): (lines: seq<string>)
    ensures |lines| == 9
    ensures lines[0] == "" && lines[8] == ""
    ensures forall i :: 1 <= i < 8 ==> HelpLabels[i - 1] <= lines[i]
    ensures forall i :: 1 <= i <= 5 ==> lines[i][|HelpLabels[i - 1]|..] == Render(HelpBindings(c)[i - 1])
    ensures lines[6][|HelpLabels[5]|..] == [ToChar(c.pause)]
    ensures lines[7][|HelpLabels[6]|..] == [ToChar(c.quit)]
  {
    [
      "",
      "Left: " + Render(c.left),
      "Right: " + Render(c.right),
      "Rotate: " + Render(c.rotate),
      "Soft Drop: " + Render(c.softDrop),
      "Hard Drop: " + Render(c.hardDrop),
      "Pause: " + [ToChar(c.pause)],
      "Quit: " + [ToChar(c.quit)],
      ""
    ]
  }

  /** A bound action's help line is its label plus one glyph, or plus four
      characters when the action has an alternate key; pause and quit lines
      are their label plus one glyph. */
  lemma HelpLineLengths(c: Config, i: nat)
    requires 1 <= i < 8
    ensures i <= 5 ==> |CreateHelpMessage(c)[i]| == |HelpLabels[i - 1]| + if HelpBindings(c)[i - 1].alt == Null then 1 else 4
    ensures i > 5 ==> |CreateHelpMessage(c)[i]| == |HelpLabels[i - 1]| + 1
  {
  }
}
