/** The command table of `DisplayCommand`: which text each recognised command
    ID puts on the screen, and which IDs also act on the screen. The lookup is
    total over the IDs a `uint8_t` can hold. */
module Commands {
  import opened Decimal

  /** A command ID as `DF2301Q.getCMDID()` returns it; 0 means "no command". */
  type CommandId = x: int | 0 <= x < 256

  /** Size of the `char Msg[23]` buffer, terminating NUL included. */
  const MsgCapacity := 23

  /** The longest text any case copies. */
  const MaxLabelLength := 20

  /** The buffer's initial content, kept by every ID the switch has no case for. */
  const Default := " "

  /** The IDs the switch has a case for. */
  predicate IsMapped(id: int) {
    id == 1 || id == 2 || 22 <= id <= 61 || 92 <= id <= 98
  }

  /** The English word for a decimal digit. */
  function DigitWord(d: nat): string
    requires d < 10
  {
    ["Zero", "One", "Two", "Three", "Four", "Five", "Six", "Seven", "Eight", "Nine"][d]
  }

  /** The text the switch copies into `Msg`; the cases are grouped as the
      command word list groups them, and every ID without a case keeps the
      initial `" "`. */
  function Label(id: CommandId): (s: string)
    ensures 1 <= |s| < MsgCapacity
    ensures |s| <= MaxLabelLength
    ensures s == Default <==> !IsMapped(id)
    ensures 52 <= id <= 61 ==> s == "Display Number " + DigitWord(id - 52)
  {
    if 1 <= id <= 2 then WakeLabel(id)
    else if 22 <= id <= 51 then ControlLabel(id)
    else if 52 <= id <= 61 then NumberLabel(id)
    else if 92 <= id <= 98 then MediaLabel(id)
    else Default
  }

  /** Cases 1 and 2: the wake word and the prompt. */
  function WakeLabel(id: CommandId): (s: string)
    requires 1 <= id <= 2
    ensures 2 <= |s| <= MaxLabelLength < MsgCapacity
  {
    match id
    case 1 => " Custom Wake Word"
    case _ => " Waiting for Command"
  }

  /** Cases 22 to 51: driving, modes, recognition tasks and settings. */
  function ControlLabel(id: CommandId): (s: string)
    requires 22 <= id <= 51
    ensures 2 <= |s| <= MaxLabelLength < MsgCapacity
  {
    match id
    case 22 => "Go Forward"
    case 23 => "Retreat"
    case 24 => "Park The Car"
    case 25 => "Turn Left 90-deg"
    case 26 => "Turn Left 45-deg"
    case 27 => "Turn Left 30-deg"
    case 28 => "Turn right 90-deg"
    case 29 => "Turn right 45-deg"
    case 30 => "Turn right 30-deg"
    case 31 => "Shift down a gear"
    case 32 => "Line Tracking Mode"
    case 33 => "Light Tracking Mode"
    case 34 => "Bluetooth Mode"
    case 35 => "Obstacle Avoidance"
    case 36 => "Face Recognition"
    case 37 => "Object Tracking"
    case 38 => "Object Recognition"
    case 39 => "Line Tracking"
    case 40 => "Color Recognition"
    case 41 => "Tag Recognition"
    case 42 => "Object Sorting"
    case 43 => "QR Code Recognition"
    case 44 => "General Settings"
    case 45 => "Clear Screen"
    case 46 => "Learn once"
    case 47 => "Forget"
    case 48 => "Load Model"
    case 49 => "Save Model"
    case 50 => "Take Photo & Save"
    case _ => "Save & Return"
  }

  /** Cases 52 to 61: the commands that show a digit full-screen. */
  function NumberLabel(id: CommandId): (s: string)
    requires 52 <= id <= 61
    ensures 2 <= |s| <= MaxLabelLength < MsgCapacity
    ensures s == "Display Number " + DigitWord(id - 52)
  {
    match id
    case 52 => "Display Number Zero"
    case 53 => "Display Number One"
    case 54 => "Display Number Two"
    case 55 => "Display Number Three"
    case 56 => "Display Number Four"
    case 57 => "Display Number Five"
    case 58 => "Display Number Six"
    case 59 => "Display Number Seven"
    case 60 => "Display Number Eight"
    case _ => "Display Number Nine"
  }

  /** Cases 92 to 98: media transport. */
  function MediaLabel(id: CommandId): (s: string)
    requires 92 <= id <= 98
    ensures 2 <= |s| <= MaxLabelLength < MsgCapacity
  {
    match id
    case 92 => "Play Music"
    case 93 => "Stop Playing"
    case 94 => "The Last Track"
    case 95 => "The Next Track"
    case 96 => "Repeat This Track"
    case 97 => "Volume Up"
    case _ => "Volume Down"
  }

  /** What a case of the switch does to the screen besides choosing a label. */
  datatype Action = NoEffect | ClearsScreen | ShowsDigit(digit: nat)

  function ActionOf(id: CommandId): (a: Action)
    ensures a == ClearsScreen <==> id == 45
    ensures a.ShowsDigit? <==> 52 <= id <= 61
    ensures a.ShowsDigit? ==> a.digit == id - 52 < 10
    ensures a.ShowsDigit? ==> Label(id) == "Display Number " + DigitWord(a.digit)
    ensures a != NoEffect ==> IsMapped(id)
  {
    if id == 45 then ClearsScreen
    else if 52 <= id <= 61 then ShowsDigit(id - 52)
    else NoEffect
  }

  /** The characters in one text row at text size 2 (12 pixels a character)
      across the 320 pixels of the rotated screen. */
  const RowWidth := 26

  /** The line `DisplayCommand` prints for `id`: the ID in decimal, a colon
      and a space, then the label. It never needs more than 24 characters:
      only IDs below 100 have a case, and no label is longer than 20. So a
      line always fits one text row and never wraps. */
  function LogLine(id: CommandId): (line: string)
    ensures |line| <= 24 < RowWidth
  {
    Digits(id) + ": " + Label(id)
  }

  /** A line made of a digit run, `": "` and a label gives back both parts. */
  lemma SplitLine(digits: string, text: string)
    requires AllDigits(digits)
    ensures LeadingDigits(digits + ": " + text) == digits
    ensures (digits + ": " + text)[|digits| + 2..] == text
  {
    assert digits + ": " + text == digits + (": " + text);
    LeadingDigitsOfConcat(digits, ": " + text);
  }

  /** A log line starts with the command's ID and ends with its label, so
      that the line alone tells which command produced it. */
  lemma LogLineNamesCommand(id: CommandId)
    ensures Value(LeadingDigits(LogLine(id))) == id
    ensures LogLine(id)[|Digits(id)| + 2..] == Label(id)
  {
    SplitLine(Digits(id), Label(id));
    ValueOfDigits(id);
  }
}
