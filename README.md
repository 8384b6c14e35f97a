# Voice-command display sketch, modelled in Dafny

The sketch (`src/main.cpp`) polls a DFRobot DF2301Q voice-recognition module
for a command ID once a second and writes what it heard to an ILI9341 display
as a scrolling log. The Dafny project models the part of it with logic in it:

- **the command table** (`DisplayCommand`'s `switch`): a total mapping from a
  `uint8_t` ID to the text copied into `char Msg[23]`, plus the two kinds of
  side effect: ID 45 clears the screen, and IDs 52 to 61 clear it, show the
  digit `id - 52` in a large font, and clear it again;
- **the scrolling log**: the global `screen_line_ctr`, `clearScreen`, the
  overflow check against `screen_max_lines = 13`, and the appended line
  `"<id>: <label>"`;
- **one pass of `loop`**: ID 0 only reports `"waiting...."`; any other ID is
  reported as `"CMDID = <id>"` and then displayed.

Files:

- `decimal.dfy` (module `Decimal`): how a `uint8_t` is printed in base 10,
  and the reading-back that shows no two IDs print alike.
- `commands.dfy` (module `Commands`): `Label`, `ActionOf` and `LogLine`.
- `scroll.dfy` (module `Scroll`): the scrolling log as values.
  `AfterCommand` is the effect of one `DisplayCommand`, and `AfterCommands`
  folds it over a run of commands. The lemmas prove that the counter stays
  in bounds and that the screen always shows the newest part of the log.
- `console.dfy` (module `Sketch`): class `Console` holds the mutable state:
  the counter, the text lines on screen and a log of transient display
  events (screen fills and large digits). Its methods are `Setup`,
  `ClearScreen`, `DisplayCommand` and `Tick`. Each method is proved against
  the functions of `Scroll`. A client method replays a short session.

Points where the code behaves otherwise than a quick reading suggests; the
model follows the code:

- Every case of the switch falls through to the print at the end of
  `DisplayCommand`. So ID 45 and IDs 52 to 61 also append a line. They leave
  the counter at 1 and the screen holding only that line. They do not leave
  the counter at 0 or unchanged.
- An ID the switch has no case for keeps the buffer's initial content `" "`,
  a single space. It does not get an empty label. Its line reads `"200:  "`.
- After `setup`, commands 22, 23, 45, 23 give counter values 3, 4, 1, 2
  (`ReplayAfterSetup`). From a zeroed counter they would give 1, 2, 1, 2.
  They never give `[1, 2, 0, 1]`.
- The implicit clear fires only when the counter is strictly above 13. The
  screen can therefore hold 14 lines.

## Model

| member | source | states |
|---|---|---|
| `Decimal.Digits` | src/main.cpp:226 | the printed ID is a non-empty run of decimal digits without a leading zero, at most 3 digits for any `uint8_t` |
| `Decimal.ValueOfDigits` | src/main.cpp:226 | reading the printed digits back gives the ID again, so the rendering is injective |
| `Commands.Label` | src/main.cpp:75-218 | total over 0..255; the label is 1 to 20 characters, so it fits `Msg[23]` with its NUL; it is `" "` exactly for the IDs outside 1, 2, 22-61, 92-98; for 52..61 it is `"Display Number "` followed by the English word of `id - 52` |
| `Commands.WakeLabel` | src/main.cpp:77-80 | cases 1 and 2 copy a text of 2 to 20 characters |
| `Commands.ControlLabel` | src/main.cpp:81-142 | cases 22 to 51 copy a text of 2 to 20 characters |
| `Commands.NumberLabel` | src/main.cpp:143-202 | cases 52 to 61 copy `"Display Number "` plus the word for `id - 52` |
| `Commands.MediaLabel` | src/main.cpp:204-217 | cases 92 to 98 copy a text of 2 to 20 characters |
| `Commands.ActionOf` | src/main.cpp:127-202 | only ID 45 clears the screen in the switch; exactly IDs 52..61 show a large digit, and that digit is `id - 52`, in 0..9; the digit shown agrees with the word in the label (`"Display Number "` plus its English name); every ID with a side effect has a case |
| `Commands.LogLine` | src/main.cpp:226 | the printed line is at most 24 characters, shorter than the 26-character text row, so it never wraps |
| `Commands.LogLineNamesCommand` | src/main.cpp:226 | the line `"<id>: <label>"` names its command: its leading digits read back as the ID and the rest after `": "` is the label |
| `Scroll.AfterSetup` | src/main.cpp:240-245 | `setup` leaves two banner lines and a counter of 2, which agree |
| `Scroll.Blank` | src/main.cpp:67-71 | a cleared screen has no lines and a counter of 0, whatever came before |
| `Scroll.AfterCommand` | src/main.cpp:221-227 | one `DisplayCommand` appends exactly one line, `"<id>: <label>"`; for ID 45 and 52..61 the result is counter 1 with only that line; otherwise a counter of at most 13 grows by one with the line appended (13 becomes 14), and a counter above 13 is cleared first (14 becomes 1); a consistent state stays consistent with the counter in 1..14 |
| `Scroll.Overflows` | src/main.cpp:221-223 | the overflow check fires exactly for an ID other than 45 and 52..61 when the counter is above 13; after the clear inside the switch it can never fire |
| `Scroll.EventsOf` | src/main.cpp:127-223 | IDs 52..61 give exactly a fill, the digit `id - 52` and a fill; ID 45 gives exactly one fill; any other ID gives one fill when the counter is above 13 and nothing otherwise |
| `Scroll.CountStaysInBounds` | src/main.cpp:221-227 | after any run of commands from a consistent state, the counter equals the number of lines on screen and is at most 14, and at least 1 once a command ran |
| `Scroll.ScreenIsTailOfLog` | src/main.cpp:221-227 | after any run of commands, the screen shows the most recent lines of the whole log, in printing order |
| `Sketch.Console.Setup` | src/main.cpp:238-245 | the object starts consistent, in the `setup` state, after one screen fill |
| `Sketch.Console.ClearScreen` | src/main.cpp:67-71 | the screen and counter become blank regardless of their old values (so a second call changes nothing more), and one fill is recorded |
| `Sketch.Console.DisplayCommand` | src/main.cpp:73-228 | the new counter and screen are `AfterCommand` of the old ones, the events appended are `EventsOf` the old counter, and consistency is kept |
| `Sketch.Console.Tick` | src/main.cpp:286-303 | ID 0 returns `"waiting...."` and changes nothing; any other ID returns `"CMDID = <id>"` and has exactly the effect of `DisplayCommand` |
| `Sketch.ReplayAfterSetup` | src/main.cpp:73-245 | after `setup`, commands 22, 23, 45, 23 leave counter values 3, 4, 1, 2 and the screen `["45: Clear Screen", "23: Retreat"]` |

## Left out

- Drawing on the ILI9341 through Adafruit GFX is not modelled: colours, cursor
  positions, text sizes, rotation and pixel geometry. A printed line becomes
  one string on the screen. The large digit becomes a `BigDigit` event. A
  `fillScreen` becomes a `ScreenFilled` event.
- The XPT2046 touchscreen is not modelled. It is initialised but never read,
  and `TouchScreenPoint` is unused.
- The DF2301Q driver is not modelled: `begin`, `getCMDID`, `playByCMDID(23)`
  and the serial-port selection. `getCMDID` becomes the `id` parameter of
  `Tick`.
- The retry loop in `setup` is not modelled. It waits, possibly forever,
  until the module answers, and it changes neither the counter nor the
  screen.
- The `delay` calls are not modelled. They are pauses with no effect on
  state.
- The `Serial` channel itself is not modelled. `Tick` returns its status line
  as a string instead.
- `screen_max_lines` is a global `int` that nothing assigns. It is modelled as
  a constant.
- `screen_line_ctr` is a C `int`. It is modelled as an unbounded integer,
  because it provably stays in 0..14.
