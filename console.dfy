/** The sketch's mutable core: the global `screen_line_ctr`, the text lines
    the display shows and the transient effects it has gone through, changed
    in place by `setup`, `clearScreen`, `DisplayCommand` and each pass of
    `loop`. Every method is proved against the value-level functions of
    module Scroll. */
module Sketch {
  import opened Decimal
  import opened Commands
  import opened Scroll

  class Console {
    /** `screen_line_ctr` */
    var lineCount: int
    /** The text lines on the display, top first. */
    var screen: seq<string>
    /** Screen fills and large digits, oldest first. */
    var events: seq<Event>

    function State(): ScrollState
      reads this
    {
      ScrollState(lineCount, screen)
    }

    predicate Valid()
      reads this
    {
      WellFormed(State())
    }

    /** `setup`: fill the screen, print the two banner lines, set the counter
        to 2. */
    constructor Setup()
      ensures Valid()
      ensures State() == AfterSetup() && events == [ScreenFilled]
    {
      lineCount := 2;
      screen := Banner;
      events := [ScreenFilled];
    }

    /** `clearScreen`: blank the display and reset the counter, whatever they
        held before, so a second call in a row changes nothing more. */
    method ClearScreen()
      modifies this
      ensures Valid()
      ensures State() == Blank()
      ensures events == old(events) + [ScreenFilled]
    {
      screen := [];
      events := events + [ScreenFilled];
      lineCount := 0;
    }

    /** `DisplayCommand`: run the case of the switch for `id`, clear the screen
        if the counter is past `screen_max_lines`, then print
        `"<id>: <label>"` and count it. */
    method DisplayCommand(id: CommandId)
      modifies this
      ensures State() == AfterCommand(old(State()), id)
      ensures events == old(events) + EventsOf(old(lineCount), id)
      ensures old(Valid()) ==> Valid()
    {
      var msg := Default;
      match ActionOf(id) {
        case NoEffect =>
          if IsMapped(id) {
            msg := Label(id);
          }
        case ClearsScreen =>
          msg := Label(id);
          ClearScreen();
        case ShowsDigit(d) =>
          ClearScreen();
          msg := Label(id);
          events := events + [BigDigit(d)];
          ClearScreen();
      }

      if lineCount > ScreenMaxLines {
        ClearScreen();
      }

      screen := screen + [Digits(id) + ": " + msg];
      lineCount := lineCount + 1;
    }

    /** One pass of `loop` with the ID the voice module reported: 0 only
        reports that it is waiting; any other ID is reported on the status
        channel and then displayed. The returned string is the status line. */
    method Tick(id: CommandId) returns (status: string)
      modifies this
      ensures id == 0 ==> status == "waiting...." && State() == old(State()) && events == old(events)
      ensures id != 0 ==> status == "CMDID = " + Digits(id)
      ensures id != 0 ==> State() == AfterCommand(old(State()), id)
      ensures id != 0 ==> events == old(events) + EventsOf(old(lineCount), id)
    {
      if id != 0 {
        status := "CMDID = " + Digits(id);
        DisplayCommand(id);
      } else {
        status := "waiting....";
      }
    }
  }

  /** Commands 22, 23, 45 and 23 right after `setup`: the counter reads 3, 4,
      then 1 (the clear of command 45 comes before its own line), then 2. */
  method ReplayAfterSetup() returns (counts: seq<int>, lastScreen: seq<string>)
    ensures counts == [3, 4, 1, 2]
    ensures lastScreen == ["45: Clear Screen", "23: Retreat"]
  {
    var console := new Console.Setup();
    console.DisplayCommand(22);
    counts := [console.lineCount];
    console.DisplayCommand(23);
    counts := counts + [console.lineCount];
    console.DisplayCommand(45);
    counts := counts + [console.lineCount];
    console.DisplayCommand(23);
    counts := counts + [console.lineCount];
    lastScreen := console.screen;
    assert Digits(45) == Digits(4) + [DigitChar(5)] == "45";
    assert Digits(23) == Digits(2) + [DigitChar(3)] == "23";
    assert LogLine(45) == "45: Clear Screen";
    assert LogLine(23) == "23: Retreat";
  }
}
