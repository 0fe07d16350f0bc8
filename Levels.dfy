/**
 * Severity levels and the coloured, fixed-width labels the formatter prints
 * for them (`colored_level` in src/lib.rs).
 */
module Levels {
  import opened Optional

  /** The five severities of the `log` crate, least important first. */
  datatype Level = Trace | Debug | Info | Warn | Error

  /** The colour a label is styled with; the terminal escape codes are not modelled. */
  datatype Color = Magenta | Blue | Green | Yellow | Red

  /** A label text paired with the colour it is written in. */
  datatype StyledLabel = StyledLabel(text: string, color: Color)

  /** Every label occupies this many columns, so the target column lines up. */
  const LabelWidth: nat := 5

  /**
   * The label of `level`. Every label is five characters wide: upper-case
   * letters, padded with a trailing blank exactly for the two four-letter
   * names, Info and Warn. Which colour goes with which level is given by the
   * table in the body alone; the lemmas below prove only that the colours differ.
   */
  function ColoredLevel(level: Level): (r: StyledLabel)
    ensures |r.text| == LabelWidth
    ensures forall i :: 0 <= i < |r.text| ==> ('A' <= r.text[i] <= 'Z') || r.text[i] == ' '
    ensures r.text[0] != ' '
    ensures r.text[4] == ' ' <==> level == Info || level == Warn
  {
    match level
    case Trace => StyledLabel("TRACE", Magenta)
    case Debug => StyledLabel("DEBUG", Blue)
    case Info => StyledLabel("INFO ", Green)
    case Warn => StyledLabel("WARN ", Yellow)
    case Error => StyledLabel("ERROR", Red)
  }

  /** Reads a level back from the text of its label; any other text names no level. */
  function LevelOfLabel(text: string): (r: Option<Level>)
    ensures r.Some? ==> ColoredLevel(r.value).text == text
    ensures r.None? ==> forall level :: ColoredLevel(level).text != text
  {
    if text == "TRACE" then Some(Trace)
    else if text == "DEBUG" then Some(Debug)
    else if text == "INFO " then Some(Info)
    else if text == "WARN " then Some(Warn)
    else if text == "ERROR" then Some(Error)
    else None
  }

  /** Reading a printed label gives back the level it was printed for. */
  lemma LabelRoundTrip(level: Level)
    ensures LevelOfLabel(ColoredLevel(level).text) == Some(level)
  {
  }

  /** Distinct levels get distinct labels and distinct colours. */
  lemma LabelsDistinguishLevels(a: Level, b: Level)
    ensures ColoredLevel(a).text == ColoredLevel(b).text ==> a == b
    ensures ColoredLevel(a).color == ColoredLevel(b).color ==> a == b
  {
    LabelRoundTrip(a);
    LabelRoundTrip(b);
  }
}
