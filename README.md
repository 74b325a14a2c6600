# touchscreen-transform, modelled in Dafny

`touchscreen-transform` turns the relative motion of a pointing device and
one trigger button (BTN_EXTRA, code 276) into the line protocol of the
`virtual_touchscreen` driver. Its core is `TransformInput` in `src/main.rs`,
which has three parts:

- **Coordinate accumulator.** `add_x` and `add_y` add a signed delta to the
  unsigned position and clamp it to `[0, max]`.
- **Contact state machine.** `handle` routes events by type and code. A press
  of the trigger sets tracking id 64 and writes the begin sequence. A release
  sets tracking id -1 and writes the end sequence.
- **Encoder.** The `start_*`, `stop_*`, `send_*` and `sync` methods each
  write fixed newline-terminated lines. Every line is a one-letter tag, a space
  and a decimal number. The tags mirror the Linux kernel's type-B multi-touch
  events:

  | tag | event |
  |---|---|
  | `s` | ABS_MT_SLOT |
  | `T` | ABS_MT_TRACKING_ID |
  | `X` / `Y` | ABS_MT_POSITION_X / ABS_MT_POSITION_Y |
  | `d` | BTN_TOUCH |
  | `a` | BTN_TOOL_FINGER |
  | `x` / `y` | ABS_X / ABS_Y |
  | `S` | SYN_REPORT |

The main loop handles each batch of input events. After each batch it
re-sends the position and a frame end, but only while a contact is tracked.

The project has these modules:

- `Wrappers` (wrappers.dfy): `Option`.
- `MachineInts` (machine_ints.dfy): the Rust integer widths `u16`, `u32`,
  `i32` and `i8`, as subset types.
- `Strings` (strings.dfy): searching a string for a separator.
- `Decimal` (decimal.dfy): Rust's `{}` formatting of integers. It also has
  the inverse parsers and proves that the text reads back as the number.
- `Protocol` (protocol.dfy): the driver's command lines.
  - `Command` is one protocol command. `Render` gives the text of a
    sequence of commands.
  - `Parse` is an assumed reader of the text: it splits at newlines, and it
    rejects an unterminated or unknown line.
  - `StartTrackingText` through `SyncText` are the `format!` strings of the
    send methods. Each one's contract says which commands its text is.
  - `View` and `Apply` model what such a reader knows after reading
    commands.
- `Contact` (contact.dfy): the translator's behaviour on values.
  - `State` holds the five fields. `Next` is one event. `Commands` gives
    the commands that event emits.
  - `Run` and `RunCommands` cover a sequence of events. `ResyncCommands`
    is the once-per-batch resync.
  - The lemmas about all of these are here.
- `Transform` (transform.dfy): the class `TransformInput`.
  - Its fields match the Rust struct. `out` is the text written to the
    output device so far, and `write` appends to it.
  - Each method follows the Rust method of the same name, in the same
    order of calls.
  - Each method's contract ties the new fields and `out` to the functions of
    `Contact` and `Protocol`.
  - `HandleBatch`, `Resync` and `RunIteration` model one pass of the main
    loop.

The model follows the code in two places where a one-line description of
the program might differ:

- A release with no contact tracked still writes `T -1`, `d 0`, `a 0` and
  `S 0` (src/main.rs:83-89; `Contact.ReleaseOutput`).
- A press during a contact writes the begin sequence again
  (src/main.rs:74-82; `Contact.PressOutput`).

The release path sets the tracking id to -1 before it writes. The id it
writes is the literal `-1`, so the order makes no difference to the output.

## Model

| member | source | states |
|---|---|---|
| `Decimal.NatToDecimal` | src/main.rs:147 | The `{}` text of an unsigned number is nonempty and all digits. It starts with `0` only for zero, and it is one digit exactly below 10. |
| `Decimal.DecimalRoundTrip` | src/main.rs:147 | Reading back the digits of an unsigned number gives that number. |
| `Decimal.NatToDecimalInjective` | src/main.rs:155 | Two coordinates with the same text are equal. |
| `Decimal.ParseIntRoundTrip` | src/main.rs:118 | The `{}` text of the signed tracking id, with a minus sign when negative, reads back as the id. |
| `Decimal.IntToDecimal` | src/main.rs:118 | The `{}` text of the signed tracking id: nonempty, a leading minus sign exactly when negative, digits after it. |
| `Protocol.ParseRender` | src/main.rs:102-105 | The text written to the device is read back as exactly the commands that were sent, in order. |
| `Protocol.RenderInjective` | src/main.rs:102-105 | Different command sequences never produce the same text. |
| `Protocol.RenderAppend` | src/main.rs:102-105 | Writing two groups of commands one after the other gives the text of both groups together. |
| `Protocol.StartTrackingText` | src/main.rs:118 | `s 0\nT <id>\n` is the commands "select slot 0" and "set tracking id to id". |
| `Protocol.StopTrackingText` | src/main.rs:124 | `T -1\n` is the command "set tracking id to -1". |
| `Protocol.StartTouchText` | src/main.rs:131 | `d 1\na 1\n` is "touch down" and "tool active". |
| `Protocol.StopTouchText` | src/main.rs:138 | `d 0\na 0\n` is "touch up" and "tool inactive". |
| `Protocol.MtPositionText` | src/main.rs:147 | `X <x>\nY <y>\n` is the multi-touch position (x, y). |
| `Protocol.AbsText` | src/main.rs:155 | `x <x>\ny <y>\n` is the legacy position (x, y). |
| `Protocol.SyncText` | src/main.rs:161 | `S 0\n` is the frame end SYN_REPORT 0. |
| `Contact.AddX` | src/main.rs:28-39 | The new x is at most maxX. It is x + delta when that lies in [0, maxX], 0 when the sum is negative, and maxX when the sum is above. No other field changes. |
| `Contact.AddY` | src/main.rs:41-52 | The same clamping for y against maxY. No other field changes. |
| `Contact.ClampAsWritten` | src/main.rs:29-38 | The clamp as the code computes it, with the `as i32` casts and a wrapping sum. The result still lies in [0, max]. |
| `Contact.ClampAsWrittenBelowI32` | src/main.rs:29-38 | With a bound below 2^31 and no i32 overflow, the code's cast-and-compare clamp gives the intended clamp. |
| `Contact.ClampAsWrittenLargeBound` | src/main.rs:34-35 | With bound 2^31, x = 0 and delta 1, the code sets x to 2^31, where the intended clamp gives 1. |
| `Contact.NextKeepsInv` | src/main.rs:54-100 | Every event keeps the position in the box and the tracking id at -1 or 64. The bounds never change. |
| `Contact.Next` | src/main.rs:54-100 | The state after one event. Bounds never change, only relative events move the position, only key events change the tracking id, and a new id is 64 or -1. |
| `Contact.Commands` | src/main.rs:54-100 | The commands one event writes: none, or a group that ends with the frame end `S 0` and announces the new tracking id. |
| `Contact.MotionIsSilent` | src/main.rs:56-69 | A relative event writes nothing. Code 0 moves only x and code 1 moves only y. Any other code changes nothing. |
| `Contact.PressCommandsText` | src/main.rs:76-81 | The press's commands are the texts of `start_tracking`, `send_abs_mt_position`, `start_touch`, `send_abs` and `sync`, in that order. |
| `Contact.PressOutput` | src/main.rs:72-82 | A trigger press sets tracking id 64 and leaves the position unchanged. It writes exactly `s 0\nT 64\nX <x>\nY <y>\nd 1\na 1\nx <x>\ny <y>\nS 0\n` at the current position. |
| `Contact.ReleaseCommandsText` | src/main.rs:85-88 | The release's commands are the texts of `stop_tracking`, `stop_touch` and `sync`, in that order. |
| `Contact.ReleaseOutput` | src/main.rs:83-89 | A trigger release sets tracking id -1, whatever it was, and leaves the position unchanged. It writes exactly `T -1\nd 0\na 0\nS 0\n`. |
| `Contact.InertEvents` | src/main.rs:90-98 | These events change no field and write nothing: other event types, other key codes, and trigger values other than 0 and 1. |
| `Contact.WritesIffTrigger` | src/main.rs:54-100 | An event writes something if and only if it is the trigger's press or release. |
| `Contact.RunKeepsInv` | src/main.rs:54-100 | Any sequence of events keeps the invariants and the bounds. |
| `Contact.ReachableStates` | src/main.rs:225-243 | From (0, 0) with tracking id -1, every sequence of events keeps 0 <= x <= maxX and 0 <= y <= maxY, and the tracking id stays -1 or 64. |
| `Contact.RunAppend` | src/main.rs:235-243 | Handling two event sequences one after the other gives the same state and commands as handling their concatenation. |
| `Contact.InitialAgrees` | src/main.rs:225-232 | The start state agrees with a receiving side that has read nothing. |
| `Contact.NextKeepsAgreement` | src/main.rs:72-89 | After any one event, the receiving side still has the translator's tracking id, and its touch and tool flags are 1 exactly while tracking. |
| `Contact.RunKeepsAgreement` | src/main.rs:72-89 | The same agreement holds after any sequence of events, so the contact is never half active. |
| `Contact.IterationRefreshesPosition` | src/main.rs:245-258 | After a loop iteration that ends while tracking, the receiving side holds the current position in both forms, whatever motion the batch had. |
| `Contact.ResyncOutput` | src/main.rs:245-258 | The resync writes `X <x>\nY <y>\nx <x>\ny <y>\nS 0\n` when the tracking id is >= 0, and nothing otherwise. |
| `Contact.ResyncCommands` | src/main.rs:246-258 | The resync's commands: nonempty exactly while tracking, ending with `S 0`, and holding only positions and the frame end. |
| `Contact.EmptyBatchesRepeat` | src/main.rs:234-258 | Two iterations with empty batches change no state and write the resync text twice. |
| `Contact.Scenario` | src/main.rs:54-100 | Example with bounds 2000 x 2000 and events +500 x, +300 y, press, +100 x, release. It ends at (600, 300) with no contact. It writes the begin sequence at (500, 300), then the end sequence. |
| `Transform.TransformInput.constructor` | src/main.rs:225-232 | Starts at (0, 0) with tracking id -1, the given bounds and nothing written. |
| `Transform.TransformInput.AddX` | src/main.rs:28-39 | The fields become `Contact.AddX` of the old ones. Only x may change. |
| `Transform.TransformInput.AddY` | src/main.rs:41-52 | The fields become `Contact.AddY` of the old ones. Only y may change. |
| `Transform.TransformInput.Handle` | src/main.rs:54-100 | Keeps the invariant. The new fields are `Next` of the old ones, and `out` gains exactly the event's commands. |
| `Transform.TransformInput.Write` | src/main.rs:102-105 | Appends the text to the output and changes nothing else. |
| `Transform.TransformInput.NewTrackingId` | src/main.rs:107-109 | Sets the tracking id to 64 and changes nothing else. |
| `Transform.TransformInput.ReleaseTrackingId` | src/main.rs:111-113 | Sets the tracking id to -1 and changes nothing else. |
| `Transform.TransformInput.StartTracking` | src/main.rs:115-120 | Appends `s 0\nT <id>\n` with the current tracking id. |
| `Transform.TransformInput.StopTracking` | src/main.rs:122-126 | Appends `T -1\n`. |
| `Transform.TransformInput.StartTouch` | src/main.rs:128-133 | Appends `d 1\na 1\n`. |
| `Transform.TransformInput.StopTouch` | src/main.rs:135-140 | Appends `d 0\na 0\n`. |
| `Transform.TransformInput.SendAbsMtPosition` | src/main.rs:142-149 | Appends the multi-touch position of the current coordinates. |
| `Transform.TransformInput.SendAbs` | src/main.rs:150-157 | Appends the legacy position of the current coordinates. |
| `Transform.TransformInput.Sync` | src/main.rs:159-164 | Appends `S 0\n`. |
| `Transform.TransformInput.Resync` | src/main.rs:245-258 | Changes no field. Appends the resync commands of the current state. |
| `Transform.TransformInput.HandleBatch` | src/main.rs:235-243 | Handles a batch in order. Keeps the invariant. The new fields are `Run` of the old ones, and `out` gains the batch's commands. |
| `Transform.TransformInput.RunIteration` | src/main.rs:234-258 | One loop iteration: the batch and then the resync. `out` gains the iteration's commands. |
| `Transform.FmtDeterminesPosition` | src/main.rs:168-178 | The `Display` text `x:<x> y:<y>` determines the position. |
| `Transform.TransformInput.Fmt` | src/main.rs:168-178 | The text `x:<x> y:<y>` of the position. A reader of that form gets back exactly (x, y). |

## Findings

| source | as written | input that shows it | evidently intended | confidence | as-written member | corrected member |
|---|---|---|---|---|---|---|
| src/main.rs:29-38 | `abs_x as i32` and `max_x as i32` reinterpret the u32 values. A bound of 2^31 or more becomes negative, so `_x > max_x as i32` holds for any non-negative sum. | `max_x` = 2^31, `abs_x` = 0, `relx` = 1: x becomes 2^31 instead of 1 (the same for `add_y`). | Clamp x + delta to [0, max_x] for every u32 bound. | medium, not executed | `Contact.ClampAsWrittenLargeBound` | `Contact.AddX` |

`Contact.ClampAsWritten` models the arithmetic as written. The class
`TransformInput` uses the corrected `Contact.AddX`. It keeps both bounds
below 2^31 (`Valid`), where the two agree (`Contact.ClampAsWrittenBelowI32`).

## Left out

- Opening the input device and reading events (`Device::open`,
  `fetch_events`, src/main.rs:218, 235-243) is foreign library I/O. A batch
  is a given `seq<Event>`. The event's timestamp is not modelled.
- Opening the output device and `write_all(...).unwrap()` (src/main.rs:104,
  219-221) are replaced by appending to the string `out`. Write failures and
  panics are not modelled.
- The infinite `loop` (src/main.rs:234) is modelled as one iteration,
  `RunIteration`. The object invariant `Valid` carries over from one
  iteration to the next.
- `debug!` logging and `env_logger` have no effect on state or output.
- `structopt` parsing, including the default output path, is library glue.
  The bounds are constructor parameters.
- Event types other than RELATIVE and KEY are one constructor, `Other`, since
  `handle` ignores all of them alike.
- Transform.TransformInput.AddX: requires `absX + relx < 2^31`, because the
  code's i32 addition panics in a debug build and wraps in a release build.
  Neither behaviour is modelled.
- Transform.TransformInput.AddY: requires `absY + rely < 2^31`, for the same
  reason as `AddX`.
- Transform.TransformInput.Handle: requires `Fits`, which is that sum
  staying below 2^31 for a relative event of code 0 or 1.
- Transform.TransformInput.HandleBatch: requires `RunFits`, which is `Fits`
  for every event of the batch at the state it meets.
- Transform.TransformInput.RunIteration: requires `RunFits`, as
  `HandleBatch` does.
- Transform.TransformInput.constructor: requires both bounds below 2^31, the
  range where the code's `as i32` casts keep the clamp correct (see Findings).
