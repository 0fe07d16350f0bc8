# pretty-env-logger formatting pipeline, modelled in Dafny

This project models the formatting core of `pretty_env_logger` (src/lib.rs):
the function that turns one log record into one aligned, coloured line.

- **Levels** (`Levels.dfy`): `colored_level`, the total mapping from the five
  `log` levels to the five-column labels `TRACE`, `DEBUG`, `INFO `, `WARN `,
  `ERROR` and their colours (magenta, blue, green, yellow, red), with an
  inverse that reads a label back.
- **Padding** (`Padding.dfy`): `Padded::fmt`, the `{: <width$}` format, which
  left-aligns a value and fills with blanks up to the width and never
  truncates.
- **WidthTracking** (`WidthTracking.dfy`): the process-wide counter
  `MAX_MODULE_WIDTH` and `max_target_width`, as a class with one `nat` field.
  A ghost history of the targets seen ties the counter to the longest target
  so far. Lemmas about the run of widths returned for a run of records show
  that the width never decreases, covers every target seen so far, and is
  always the length of one of them; the loop method `Run` shows that a fresh
  `WidthTracker` returns exactly that run of widths.
- **Timestamps** (`Timestamps.dfy`): `TimestampType` and the global
  `TIMESTAMP_TYPE` that `set_timestamp_type` overwrites, as a class with one
  mutable field. The clock is an input: a `Clock` value carries the three
  renderings of the current instant.
- **Formatting** (`Formatting.dfy`): the format closures of
  `formatted_builder` and `formatted_timed_builder`. A `Formatter` object
  holds the timestamp choice as a constant copied from the global setting
  when it is built, and refers to a width counter. The source has a single
  `MAX_MODULE_WIDTH`; passing the same `WidthTracker` to every formatter, as
  the client methods do, is the caller's duty in the model. Lemmas give the column
  layout of a line, show that lines padded to the same width line up, and
  show that a timed line is the untimed line with the time in front, for all
  three timestamp styles. Two client methods state the end-to-end examples:
  the line `" INFO  net::server > listening\n"`, and a `set_timestamp_type`
  after building a timed formatter that leaves that formatter unchanged.

The model is sequential. The clock, the terminal styling and the output
stream are outside it.

## Model

| member | source | states |
|---|---|---|
| `Levels.ColoredLevel` | src/lib.rs:287-295 | total on the five levels; every label is exactly 5 characters, upper-case letters or blanks, starting with a letter; the last column is blank exactly for Info and Warn |
| `Levels.LevelOfLabel` | src/lib.rs:288-294 | inverse of the label mapping: a text names a level exactly when it is that level's label, and any other text names none |
| `Levels.LabelRoundTrip` | src/lib.rs:288-294 | reading back the printed label of a level gives that level |
| `Levels.LabelsDistinguishLevels` | src/lib.rs:288-294 | distinct levels have distinct labels and distinct colours |
| `Padding.Spaces` | src/lib.rs:271 | the fill of `n` blanks has length `n` and holds only blanks |
| `Padding.Pad` | src/lib.rs:264-273 | the padded value has length `max(width, len(value))`, starts with the whole value and is blank after it (never truncates) |
| `Padding.PadUnique` | src/lib.rs:271 | a string is a padding of the value to the width (value prefix, blanks after, length `max`) if and only if it equals `Pad` |
| `WidthTracking.Widest` | src/lib.rs:275-285 | the longest length in a history: no target is longer, and it is 0 or the length of some target |
| `WidthTracking.WidestAppend` | src/lib.rs:278-284 | one more target raises the maximum to `max(old maximum, len(target))` |
| `WidthTracking.WidestPrefix` | src/lib.rs:278-284 | the maximum of a prefix of a history is at most the maximum of the whole history |
| `WidthTracking.Widths` | src/lib.rs:277-285 | the widths returned for a run of records on a fresh counter, one per record; the `Widths*` lemmas and `Run` say what they are |
| `WidthTracking.WidthsAppend` | src/lib.rs:278-284 | one more record appends the maximum of the whole run to the widths and leaves the earlier widths unchanged |
| `WidthTracking.WidthsCover` | src/lib.rs:278-284 | for a run of records on a fresh counter, the width returned for record n is at least the length of every target in records 0..n |
| `WidthTracking.WidthsMonotone` | src/lib.rs:278-284 | the widths returned for a run of records never decrease |
| `WidthTracking.WidthsAttained` | src/lib.rs:278-284 | every width returned is the length of a target already seen (the counter never overshoots) |
| `WidthTracking.WidthsExample` | src/lib.rs:278-284 | the run "a", "bbbbb", "cc" gets widths 1, 5, 5 |
| `WidthTracking.WidthTracker.constructor` | src/lib.rs:275 | the counter starts at 0 with an empty history |
| `WidthTracking.WidthTracker.MaxTargetWidth` | src/lib.rs:277-285 | returns `max(W, len(target))` for the stored `W`, stores that value, appends the target to the history and keeps the counter equal to the longest target seen; the result is at least `len(target)` and at least `W` |
| `WidthTracking.Run` | src/lib.rs:277-285 | a fresh `WidthTracker` shown any run of targets one by one returns exactly `Widths` of that run |
| `WidthTracking.ExampleWidths` | src/lib.rs:277-285 | a fresh counter shown "a", "bbbbb", "cc" returns 1, 5, 5 |
| `Timestamps.RenderTime` | src/lib.rs:245-258 | the time printed is one of the clock's three renderings; which type selects which is proved end to end by `EachTimestampType` |
| `Timestamps.TimestampSetting.constructor` | src/lib.rs:79-81 | the global timestamp choice starts as `SystemTimeMillis` |
| `Timestamps.TimestampSetting.SetTimestampType` | src/lib.rs:93-97 | overwrites the global timestamp choice with the given one |
| `Formatting.PlainLine` | src/lib.rs:215 | the untimed line is `11 + max(width, len(target)) + len(message)` long and ends in a newline; `PlainLineLayout` gives every column |
| `Formatting.TimedLine` | src/lib.rs:248 | the timed line is `12 + len(time) + max(width, len(target)) + len(message)` long and ends in a newline; `TimedLineExtendsPlain` shows it is the untimed line behind a blank and the time (the same format string is at src/lib.rs:252 and 256) |
| `Formatting.Line` | src/lib.rs:245-258 | for the captured timestamp choice, the line ends with the untimed line in every mode; without a timestamp it is the untimed line, with one it is `TimedLine` of the selected rendering (`TimedLineExtendsPlain`) |
| `Formatting.PlainLineLayout` | src/lib.rs:215 | an untimed line is a blank, the label in columns 1-5, a blank, the target followed by blanks to `max(width, len(target))` columns, `" > "`, the message and a newline; its length is `11 + max(width, len(target)) + len(message)` |
| `Formatting.PlainLinesAlign` | src/lib.rs:215 | two records whose targets fit the width have `" > "` in the same columns, and lines that agree up to the message have the same level |
| `Formatting.PlainLineNamesLevel` | src/lib.rs:215 | the level can be read back from columns 1-5 of every untimed line |
| `Formatting.TimedLineExtendsPlain` | src/lib.rs:245-258 | for each of the three timestamp styles the timed line is a blank and the time in front of the untimed line |
| `Formatting.PlainLineExample` | src/lib.rs:215 | Info, "net::server", "listening" at width 11 gives `" INFO  net::server > listening\n"` |
| `Formatting.Formatter.Plain` | src/lib.rs:197-200 | an untimed formatter sharing the given width counter |
| `Formatting.Formatter.Timed` | src/lib.rs:226-230 | a timed formatter whose timestamp choice is the global choice at build time |
| `Formatting.Formatter.Format` | src/lib.rs:230-258 | raises the shared counter to `max(W, len(target))`, records the target, and returns the line for the formatter's own captured timestamp choice, padded to the new counter value, which the target always fits |
| `Formatting.ExampleUntimedLine` | src/lib.rs:200-215 | the untimed formatter on a fresh counter writes `" INFO  net::server > listening\n"` for the example record |
| `Formatting.TimedExample` | src/lib.rs:226-258 | a timed formatter built right after `set_timestamp_type(t)` prints the example record behind the rendering of the clock that `t` selects |
| `Formatting.EachTimestampType` | src/lib.rs:245-258 | with the global type set to `SystemTimeMillis`, `LocalRfc3339` and `UtcRfc3339` in turn before building, the timed line carries the millisecond, the local RFC 3339 and the UTC RFC 3339 rendering respectively |
| `Formatting.TimestampCapturedAtBuild` | src/lib.rs:93-97 | after `set_timestamp_type(UtcRfc3339)`, a timed formatter built before it still prints millisecond time and one built after it prints UTC time |

## Left out

- `init`, `init_timed`, `init_custom_env`, `try_init`, `try_init_timed`, `try_init_custom_env` and `try_init_timed_custom_env` (src/lib.rs:64-190): they install the global logger through `env_logger` and `log`, which are not part of this model.
- Reading the filter environment variable and `parse_filters` (src/lib.rs:164-166, 185-187): environment I/O and a foreign parser.
- Reading the clock and rendering it (`timestamp_millis`, `Local::now().to_rfc3339()`, `Utc::now().to_rfc3339()`, src/lib.rs:247, 251, 255): the three renderings arrive as opaque strings in a `Clock` value.
- Terminal colour and bold output (`Style::set_color`, `set_bold`, `StyledValue`): only the colour tag of each label is kept; the label's text is what the line holds, without escape codes.
- The write itself (`writeln!` and its `io::Result`): `Format` returns the line instead of writing it, so write failures are not modelled. The width counter is raised before the line is built, as in the source.
- Concurrency: `MAX_MODULE_WIDTH` is read with a `Relaxed` load and written with a separate `Relaxed` store (src/lib.rs:278-280), not an atomic read-modify-write, so racing callers can lose an update. An atomic `fetch_max` would keep the running maximum correct under races; the separate load and store do not. The model runs calls one at a time and follows the code, which is correct only then.
- `WidthTracking.WidthTracker.MaxTargetWidth`: target lengths are counted in characters; the source compares `target.len()`, a byte count, while `{: <width$}` counts characters, and the two agree only for ASCII targets.
- `usize` limits: widths are unbounded `nat`s; a target length always fits in `usize`, so no wrap-around arises.
