/** The scrolling log as values: how many lines `screen_line_ctr` counts and
    which text lines are on the display, and what one `DisplayCommand` call
    does to them. The class in module Sketch is proved against these
    functions. */
module Scroll {
  import opened Commands

  /** `screen_max_lines`: the counter value above which the next command
      clears the screen before it prints. */
  const ScreenMaxLines := 13

  /** The two lines `setup` prints after filling the screen. */
  const Banner: seq<string> := ["DFRobot Voice Activation", " "]

  datatype ScrollState = ScrollState(lineCount: int, lines: seq<string>)

  /** A transient display effect that leaves no text line behind: a full
      fill of the screen, or the large digit glyph drawn between two fills. */
  datatype Event = ScreenFilled | BigDigit(digit: nat)

  /** The counter matches the lines on screen and is never more than one
      past `screen_max_lines`. */
  predicate WellFormed(s: ScrollState) {
    s.lineCount == |s.lines| && s.lineCount <= ScreenMaxLines + 1
  }

  /** The state `setup` leaves. */
  function AfterSetup(): (s: ScrollState)
    ensures WellFormed(s) && s.lineCount == |Banner| == 2
  {
    ScrollState(2, Banner)
  }

  /** The state `clearScreen` leaves, whatever the state before. */
  function Blank(): (s: ScrollState)
    ensures WellFormed(s) && s.lines == []
  {
    ScrollState(0, [])
  }

  /** Whether the case of the switch clears the screen itself. */
  predicate ClearsInSwitch(id: CommandId) {
    ActionOf(id) != NoEffect
  }

  /** Whether the overflow check after the switch fires: it sees the counter
      as the switch left it. */
  predicate Overflows(lineCount: int, id: CommandId): (fires: bool)
    ensures fires <==> id != 45 && !(52 <= id <= 61) && lineCount > ScreenMaxLines
  {
    var seen := if ClearsInSwitch(id) then Blank().lineCount else lineCount;
    seen > ScreenMaxLines
  }

  /** The state after `DisplayCommand(id)`: every case falls through to the
      print, so exactly one line is appended, after whatever clears the
      switch or the overflow check performed. */
  function AfterCommand(s: ScrollState, id: CommandId): (r: ScrollState)
    ensures WellFormed(s) ==> WellFormed(r) && 1 <= r.lineCount
    ensures r.lines == [LogLine(id)] || r.lines == s.lines + [LogLine(id)]
    ensures ClearsInSwitch(id) ==> r == ScrollState(1, [LogLine(id)])
    ensures !ClearsInSwitch(id) && s.lineCount <= ScreenMaxLines ==>
              r == ScrollState(s.lineCount + 1, s.lines + [LogLine(id)])
    ensures !ClearsInSwitch(id) && s.lineCount > ScreenMaxLines ==>
              r == ScrollState(1, [LogLine(id)])
  {
    var base := if ClearsInSwitch(id) || Overflows(s.lineCount, id) then Blank() else s;
    ScrollState(base.lineCount + 1, base.lines + [LogLine(id)])
  }

  /** The transient events `DisplayCommand(id)` produces, in order, when the
      counter was `lineCount` on entry. */
  function EventsOf(lineCount: int, id: CommandId): (e: seq<Event>)
    ensures 52 <= id <= 61 ==> e == [ScreenFilled, BigDigit(id - 52), ScreenFilled]
    ensures id == 45 ==> e == [ScreenFilled]
    ensures !ClearsInSwitch(id) ==> e == (if lineCount > ScreenMaxLines then [ScreenFilled] else [])
    ensures ScreenFilled in e <==> ClearsInSwitch(id) || lineCount > ScreenMaxLines
  {
    var inSwitch :=
      match ActionOf(id)
      case NoEffect => []
      case ClearsScreen => [ScreenFilled]
      case ShowsDigit(d) => [ScreenFilled, BigDigit(d), ScreenFilled];
    inSwitch + (if Overflows(lineCount, id) then [ScreenFilled] else [])
  }

  /** The lines a run of commands prints, in order. */
  function LogLines(ids: seq<CommandId>): (r: seq<string>)
    ensures |r| == |ids|
  {
    if ids == [] then [] else LogLines(ids[..|ids| - 1]) + [LogLine(ids[|ids| - 1])]
  }

  /** The state after running the commands `ids` in order. */
  function AfterCommands(s: ScrollState, ids: seq<CommandId>): ScrollState {
    if ids == [] then s else AfterCommand(AfterCommands(s, ids[..|ids| - 1]), ids[|ids| - 1])
  }

  predicate IsSuffix<T(==)>(a: seq<T>, b: seq<T>) {
    |a| <= |b| && a == b[|b| - |a|..]
  }

  lemma SuffixExtend<T>(a: seq<T>, b: seq<T>, x: T)
    requires IsSuffix(a, b)
    ensures IsSuffix(a + [x], b + [x])
  {
  }

  /** Whatever commands run, the counter stays consistent with the screen and
      within bounds, and after at least one command it is positive. */
  lemma {:induction false} CountStaysInBounds(s: ScrollState, ids: seq<CommandId>)
    requires WellFormed(s)
    ensures WellFormed(AfterCommands(s, ids))
    ensures ids != [] ==> 1 <= AfterCommands(s, ids).lineCount
  {
    if ids != [] {
      CountStaysInBounds(s, ids[..|ids| - 1]);
    }
  }

  /** Whatever commands run, the screen shows the most recent lines of the
      whole log, in the order they were printed. */
  lemma {:induction false} ScreenIsTailOfLog(s: ScrollState, ids: seq<CommandId>)
    ensures IsSuffix(AfterCommands(s, ids).lines, s.lines + LogLines(ids))
  {
    if ids == [] {
      assert s.lines + LogLines(ids) == s.lines;
    } else {
      var prefix, line := ids[..|ids| - 1], LogLine(ids[|ids| - 1]);
      ScreenIsTailOfLog(s, prefix);
      var p := AfterCommands(s, prefix);
      var history := s.lines + LogLines(prefix);
      assert s.lines + LogLines(ids) == history + [line];
      if AfterCommands(s, ids).lines == [line] {
        SuffixExtend([], history, line);
      } else {
        SuffixExtend(p.lines, history, line);
      }
    }
  }
}
