/**
 * The format closures of `formatted_builder` and `formatted_timed_builder`:
 * one line per record, the label in a five-column field, the target padded
 * to the running maximum, then ` > ` and the message.
 */
module Formatting {
  import opened Optional
  import opened Levels
  import opened Padding
  import opened WidthTracking
  import opened Timestamps

  /** The parts of a `log::Record` the formatter reads; `message` is the rendered `args()`. */
  datatype Record = Record(level: Level, target: string, message: string)

  /** The line of the untimed formatter, `" {level} {target} > {message}\n"`. */
  function PlainLine(record: Record, width: nat): (line: string)
    ensures |line| == 11 + Max(width, |record.target|) + |record.message|
    ensures line[|line| - 1] == '\n'
  {
    " " + ColoredLevel(record.level).text + " " + Pad(record.target, width) + " > " + record.message + "\n"
  }

  /** The line of the timed formatter, `" {time} {level} {target} > {message}\n"`. */
  function TimedLine(time: string, record: Record, width: nat): (line: string)
    ensures |line| == 12 + |time| + Max(width, |record.target|) + |record.message|
    ensures line[|line| - 1] == '\n'
  {
    " " + time + " " + ColoredLevel(record.level).text + " " + Pad(record.target, width) + " > " + record.message + "\n"
  }

  /** The line a formatter with the captured `timestamp` choice writes for `record`. */
  function Line(timestamp: Option<TimestampType>, clock: Clock, record: Record, width: nat): (line: string)
    ensures var plain := PlainLine(record, width);
      |plain| <= |line| && line[|line| - |plain|..] == plain
  {
    match timestamp
    case None => PlainLine(record, width)
    case Some(t) => TimedLine(RenderTime(t, clock), record, width)
  }

  /**
   * Where each part of an untimed line sits: a blank, the five-column label,
   * a blank, the target and its padding in a field of `max(width, |target|)`
   * columns, ` > `, the message and a final newline.
   */
  lemma PlainLineLayout(record: Record, width: nat)
    ensures var line, m := PlainLine(record, width), Max(width, |record.target|);
      && |line| == 11 + m + |record.message|
      && line[0] == ' '
      && line[1..6] == ColoredLevel(record.level).text
      && line[6] == ' '
      && line[7..7 + |record.target|] == record.target
      && (forall i :: 7 + |record.target| <= i < 7 + m ==> line[i] == ' ')
      && line[7 + m..10 + m] == " > "
      && line[10 + m..|line| - 1] == record.message
      && line[|line| - 1] == '\n'
  {
    var tag := ColoredLevel(record.level).text;
    var padded := Pad(record.target, width);
    var m := |padded|;
    var head := " " + tag + " ";
    var front, rest := head + padded, " > " + record.message + "\n";
    var line := PlainLine(record, width);
    assert line == front + rest;
    assert |head| == 7 && |front| == 7 + m;
    assert line[1..6] == tag by {
      assert line[..7] == head;
      assert head[1..6] == tag;
    }
    assert line[7..7 + m] == padded by {
      assert line[..7 + m] == front;
      assert front[7..] == padded;
    }
    assert line[7..7 + |record.target|] == record.target by {
      assert line[7..7 + |record.target|] == line[7..7 + m][..|record.target|];
    }
    forall i | 7 + |record.target| <= i < 7 + m
      ensures line[i] == ' '
    {
      assert line[i] == line[7..7 + m][i - 7];
    }
    assert line[7 + m..] == rest;
    assert line[7 + m..10 + m] == rest[..3] == " > ";
    assert line[10 + m..|line| - 1] == rest[3..|rest| - 1] == record.message;
  }

  /**
   * Records whose targets fit the width line up: the label, the ` > ` and the
   * start of the message fall in the same columns, whatever the level.
   */
  lemma PlainLinesAlign(a: Record, b: Record, width: nat)
    requires |a.target| <= width && |b.target| <= width
    ensures var la, lb := PlainLine(a, width), PlainLine(b, width);
      && la[width + 7..width + 10] == lb[width + 7..width + 10] == " > "
      && (la[..width + 10] == lb[..width + 10] ==> a.level == b.level)
  {
    PlainLineLayout(a, width);
    PlainLineLayout(b, width);
    var la, lb := PlainLine(a, width), PlainLine(b, width);
    if la[..width + 10] == lb[..width + 10] {
      assert la[1..6] == lb[1..6] by {
        assert la[1..6] == la[..width + 10][1..6];
        assert lb[1..6] == lb[..width + 10][1..6];
      }
      LabelsDistinguishLevels(a.level, b.level);
    }
  }

  /** The level can be read back from columns 1 to 5 of every untimed line. */
  lemma PlainLineNamesLevel(record: Record, width: nat)
    ensures LevelOfLabel(PlainLine(record, width)[1..6]) == Some(record.level)
  {
    PlainLineLayout(record, width);
    LabelRoundTrip(record.level);
  }

  /**
   * A timed line is the untimed line with a blank and the time in front, for
   * each of the three timestamp styles alike.
   */
  lemma TimedLineExtendsPlain(t: TimestampType, clock: Clock, record: Record, width: nat)
    ensures Line(Some(t), clock, record, width) == " " + RenderTime(t, clock) + PlainLine(record, width)
  {
  }

  /** The example record `Info`, "net::server", "listening" padded to 11 columns. */
  lemma PlainLineExample()
    ensures PlainLine(Record(Info, "net::server", "listening"), 11) == " INFO  net::server > listening\n"
  {
    var target := "net::server";
    assert |target| == 11;
    assert Pad(target, 11) == target;
    assert ColoredLevel(Info).text == "INFO ";
    assert " " + "INFO " + " " + target + " > " + "listening" + "\n" == " INFO  net::server > listening\n";
  }

  /**
   * A format closure as handed to `env_logger::Builder::format`. The
   * timestamp choice is a constant copied when the formatter is built; the
   * width counter is the process-wide one it shares with every formatter.
   */
  class Formatter {
    const timestamp: Option<TimestampType>
    const widths: WidthTracker

    /** `formatted_builder`: a formatter without timestamps. */
    constructor Plain(widths: WidthTracker)
      ensures this.timestamp == None && this.widths == widths
    {
      this.timestamp := None;
      this.widths := widths;
    }

    /** `formatted_timed_builder`: copies the global timestamp choice once, here. */
    constructor Timed(setting: TimestampSetting, widths: WidthTracker)
      ensures this.timestamp == Some(setting.timestampType) && this.widths == widths
    {
      this.timestamp := Some(setting.timestampType);
      this.widths := widths;
    }

    /**
     * Formats one record: raises the shared counter to the target's length,
     * then writes the line padded to the counter's new value, which the
     * target always fits.
     */
    method Format(record: Record, clock: Clock) returns (line: string)
      requires widths.Valid()
      modifies widths
      ensures widths.Valid() && widths.seen == old(widths.seen) + [record.target]
      ensures widths.maxWidth == Max(old(widths.maxWidth), |record.target|)
      ensures line == Line(timestamp, clock, record, widths.maxWidth)
      ensures |Pad(record.target, widths.maxWidth)| == widths.maxWidth
    {
      var width := widths.MaxTargetWidth(record.target);
      match timestamp
      case None =>
        line := PlainLine(record, width);
      case Some(t) =>
        line := TimedLine(RenderTime(t, clock), record, width);
    }
  }

  /** The example record, formatted first by an untimed formatter on a fresh counter. */
  method ExampleUntimedLine() returns (line: string)
    ensures line == " INFO  net::server > listening\n"
  {
    var widths := new WidthTracker();
    var formatter := new Formatter.Plain(widths);
    line := formatter.Format(Record(Info, "net::server", "listening"), Clock("", "", ""));
    PlainLineExample();
  }

  /**
   * `set_timestamp_type` after `formatted_timed_builder` changes the global
   * choice but not the formatter already built, which keeps printing
   * millisecond time; only a formatter built afterwards prints UTC.
   */
  method TimestampCapturedAtBuild(clock: Clock) returns (early: string, late: string)
    ensures early == " " + clock.millis + " INFO  net::server > listening\n"
    ensures late == " " + clock.utcRfc3339 + " INFO  net::server > listening\n"
  {
    var setting := new TimestampSetting();
    var widths := new WidthTracker();
    var before := new Formatter.Timed(setting, widths);
    setting.SetTimestampType(UtcRfc3339);
    var after := new Formatter.Timed(setting, widths);
    var record := Record(Info, "net::server", "listening");
    early := before.Format(record, clock);
    late := after.Format(record, clock);
    PlainLineExample();
    TimedLineExtendsPlain(SystemTimeMillis, clock, record, 11);
    TimedLineExtendsPlain(UtcRfc3339, clock, record, 11);
  }

  /**
   * The example record through a timed formatter built right after
   * `set_timestamp_type(t)`: the line carries the rendering `t` selects.
   */
  method TimedExample(t: TimestampType, clock: Clock) returns (line: string)
    ensures line == " " + RenderTime(t, clock) + " INFO  net::server > listening\n"
  {
    var setting := new TimestampSetting();
    var widths := new WidthTracker();
    setting.SetTimestampType(t);
    var formatter := new Formatter.Timed(setting, widths);
    var record := Record(Info, "net::server", "listening");
    line := formatter.Format(record, clock);
    PlainLineExample();
    TimedLineExtendsPlain(t, clock, record, 11);
  }

  /**
   * Each timestamp type selects its own rendering of the clock: millisecond
   * system time, local RFC 3339 and UTC RFC 3339.
   */
  method EachTimestampType(clock: Clock) returns (millis: string, local: string, utc: string)
    ensures millis == " " + clock.millis + " INFO  net::server > listening\n"
    ensures local == " " + clock.localRfc3339 + " INFO  net::server > listening\n"
    ensures utc == " " + clock.utcRfc3339 + " INFO  net::server > listening\n"
  {
    millis := TimedExample(SystemTimeMillis, clock);
    local := TimedExample(LocalRfc3339, clock);
    utc := TimedExample(UtcRfc3339, clock);
  }
}
