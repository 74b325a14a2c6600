/**
 * The line protocol of the virtual_touchscreen driver. Every command is one
 * line: a one-letter tag, a space, a decimal argument and a newline. The
 * tags mirror the Linux kernel's type-B multi-touch events.
 */
module Protocol {
  import opened Wrappers
  import opened Decimal
  import opened Strings

  datatype Command =
    | Slot(slot: int)            // s: ABS_MT_SLOT
    | TrackingId(id: int)        // T: ABS_MT_TRACKING_ID
    | MtPositionX(mtX: int)      // X: ABS_MT_POSITION_X
    | MtPositionY(mtY: int)      // Y: ABS_MT_POSITION_Y
    | Touch(down: int)           // d: BTN_TOUCH
    | ToolFinger(active: int)    // a: BTN_TOOL_FINGER
    | AbsX(x: int)               // x: ABS_X
    | AbsY(y: int)               // y: ABS_Y
    | SynReport(code: int)       // S: SYN_REPORT

  function Tag(c: Command): char {
    match c
    case Slot(_) => 's'
    case TrackingId(_) => 'T'
    case MtPositionX(_) => 'X'
    case MtPositionY(_) => 'Y'
    case Touch(_) => 'd'
    case ToolFinger(_) => 'a'
    case AbsX(_) => 'x'
    case AbsY(_) => 'y'
    case SynReport(_) => 'S'
  }

  function Argument(c: Command): int {
    match c
    case Slot(v) => v
    case TrackingId(v) => v
    case MtPositionX(v) => v
    case MtPositionY(v) => v
    case Touch(v) => v
    case ToolFinger(v) => v
    case AbsX(v) => v
    case AbsY(v) => v
    case SynReport(v) => v
  }

  /** The command with tag `t` and argument `v`, if `t` is a tag. */
  function FromTag(t: char, v: int): Option<Command> {
    match t
    case 's' => Some(Slot(v))
    case 'T' => Some(TrackingId(v))
    case 'X' => Some(MtPositionX(v))
    case 'Y' => Some(MtPositionY(v))
    case 'd' => Some(Touch(v))
    case 'a' => Some(ToolFinger(v))
    case 'x' => Some(AbsX(v))
    case 'y' => Some(AbsY(v))
    case 'S' => Some(SynReport(v))
    case _ => None
  }

  /** A command's text without its newline. */
  function LineBody(c: Command): string {
    [Tag(c), ' '] + IntToDecimal(Argument(c))
  }

  function Line(c: Command): string {
    LineBody(c) + "\n"
  }

  /** The text of a sequence of commands, one line each, in order. */
  function Render(cs: seq<Command>): string {
    if cs == [] then "" else Line(cs[0]) + Render(cs[1..])
  }

  function ParseLine(line: string): Option<Command> {
    if |line| >= 3 && line[1] == ' ' then
      match ParseInt(line[2..])
      case None => None
      case Some(v) => FromTag(line[0], v)
    else None
  }

  /**
   * A reader of the text: it splits at newlines and reads every line as one
   * command; an unterminated last line or an unknown line is rejected.
   */
  function Parse(text: string): Option<seq<Command>>
    decreases |text|
  {
    if text == [] then Some([])
    else
      var k := FirstIndex(text, '\n');
      if k == |text| then None
      else
        match ParseLine(text[..k])
        case None => None
        case Some(c) =>
          match Parse(text[k + 1..])
          case None => None
          case Some(cs) => Some([c] + cs)
  }

  lemma {:induction false} RenderAppend(a: seq<Command>, b: seq<Command>)
    ensures Render(a + b) == Render(a) + Render(b)
  {
    if a == [] {
      assert a + b == b;
    } else {
      assert (a + b)[0] == a[0];
      assert (a + b)[1..] == a[1..] + b;
      RenderAppend(a[1..], b);
    }
  }

  /** Text appended in two steps is the text of both command sequences. */
  lemma RenderAfter(written: string, a: seq<Command>, b: seq<Command>)
    ensures written + Render(a) + Render(b) == written + Render(a + b)
  {
    RenderAppend(a, b);
  }

  lemma RenderPair(a: Command, b: Command)
    ensures Render([a, b]) == Line(a) + Line(b)
  {
    assert [a, b][1..] == [b];
    assert Render([b]) == Line(b);
  }

  lemma FromTagOfTag(c: Command)
    ensures FromTag(Tag(c), Argument(c)) == Some(c)
  {
  }

  lemma ParseLineBody(c: Command)
    ensures ParseLine(LineBody(c)) == Some(c)
  {
    var body := LineBody(c);
    assert |body| >= 3 && body[0] == Tag(c) && body[1] == ' ';
    assert body[2..] == IntToDecimal(Argument(c));
    ParseIntRoundTrip(Argument(c));
    FromTagOfTag(c);
  }

  /** A line body holds no newline, so the newline ending it is the first one. */
  lemma FirstNewlineOfLine(c: Command, rest: string)
    ensures FirstIndex(Line(c) + rest, '\n') == |LineBody(c)|
  {
    var body := LineBody(c);
    var digits := if Argument(c) < 0 then NatToDecimal(-Argument(c)) else NatToDecimal(Argument(c));
    assert forall j :: 0 <= j < |digits| ==> IsDigit(digits[j]);
    assert forall j :: 0 <= j < |body| ==> body[j] != '\n';
    assert Line(c) + rest == body + ['\n'] + rest;
    FirstIndexAfter(body, '\n', rest);
  }

  /** Reading a line and then the rest. */
  lemma ParseLineThen(c: Command, rest: string)
    ensures Parse(Line(c) + rest) ==
      if Parse(rest).Some? then Some([c] + Parse(rest).value) else None
  {
    var text := Line(c) + rest;
    var k := |LineBody(c)|;
    FirstNewlineOfLine(c, rest);
    assert text[..k] == LineBody(c);
    assert text[k + 1..] == rest;
    ParseLineBody(c);
  }

  /** The receiving side reads back exactly the commands that were rendered. */
  lemma {:induction false} ParseRender(cs: seq<Command>)
    ensures Parse(Render(cs)) == Some(cs)
  {
    if cs != [] {
      ParseLineThen(cs[0], Render(cs[1..]));
      ParseRender(cs[1..]);
      assert [cs[0]] + cs[1..] == cs;
    }
  }

  /** Two command sequences with the same text are the same sequence. */
  lemma RenderInjective(a: seq<Command>, b: seq<Command>)
    requires Render(a) == Render(b)
    ensures a == b
  {
    ParseRender(a);
    ParseRender(b);
  }

  // The texts written by the translator's send functions. Each states which
  // protocol commands its text is.

  /** Selects slot 0 and sets its tracking id. */
  function StartTrackingText(id: int): (r: string)
    ensures r == Render([Slot(0), TrackingId(id)])
  {
    assert IntToDecimal(0) == "0";
    RenderPair(Slot(0), TrackingId(id));
    "s 0\nT " + IntToDecimal(id) + "\n"
  }

  /** Ends the contact: the tracking id becomes -1. */
  function StopTrackingText(): (r: string)
    ensures r == Render([TrackingId(-1)])
  {
    assert IntToDecimal(-1) == "-1";
    "T -1\n"
  }

  /** Finger down and tool active. */
  function StartTouchText(): (r: string)
    ensures r == Render([Touch(1), ToolFinger(1)])
  {
    assert IntToDecimal(1) == "1";
    RenderPair(Touch(1), ToolFinger(1));
    "d 1\na 1\n"
  }

  /** Finger up and tool inactive. */
  function StopTouchText(): (r: string)
    ensures r == Render([Touch(0), ToolFinger(0)])
  {
    assert IntToDecimal(0) == "0";
    RenderPair(Touch(0), ToolFinger(0));
    "d 0\na 0\n"
  }

  /** The multi-touch position of the contact. */
  function MtPositionText(x: nat, y: nat): (r: string)
    ensures r == Render([MtPositionX(x), MtPositionY(y)])
  {
    RenderPair(MtPositionX(x), MtPositionY(y));
    "X " + NatToDecimal(x) + "\nY " + NatToDecimal(y) + "\n"
  }

  /** The legacy single-touch position. */
  function AbsText(x: nat, y: nat): (r: string)
    ensures r == Render([AbsX(x), AbsY(y)])
  {
    RenderPair(AbsX(x), AbsY(y));
    "x " + NatToDecimal(x) + "\ny " + NatToDecimal(y) + "\n"
  }

  /** Ends a frame. */
  function SyncText(): (r: string)
    ensures r == Render([SynReport(0)])
  {
    assert IntToDecimal(0) == "0";
    "S 0\n"
  }

  /**
   * What the receiving side knows after reading commands: the tracking id of
   * slot 0, the touch and tool flags, and both positions last sent. The
   * slot and sync commands change none of these (there is one slot).
   */
  datatype View = View(trackingId: int, touch: int, tool: int, mtX: int, mtY: int, x: int, y: int)

  function Apply(v: View, c: Command): View {
    match c
    case Slot(_) => v
    case TrackingId(id) => v.(trackingId := id)
    case MtPositionX(n) => v.(mtX := n)
    case MtPositionY(n) => v.(mtY := n)
    case Touch(n) => v.(touch := n)
    case ToolFinger(n) => v.(tool := n)
    case AbsX(n) => v.(x := n)
    case AbsY(n) => v.(y := n)
    case SynReport(_) => v
  }

  function ApplyAll(v: View, cs: seq<Command>): View
    decreases |cs|
  {
    if cs == [] then v else ApplyAll(Apply(v, cs[0]), cs[1..])
  }

  lemma {:induction false} ApplyAllAppend(v: View, a: seq<Command>, b: seq<Command>)
    ensures ApplyAll(v, a + b) == ApplyAll(ApplyAll(v, a), b)
    decreases |a|
  {
    if a == [] {
      assert a + b == b;
    } else {
      assert (a + b)[0] == a[0];
      assert (a + b)[1..] == a[1..] + b;
      ApplyAllAppend(Apply(v, a[0]), a[1..], b);
    }
  }

  lemma ApplyAllOne(v: View, a: Command)
    ensures ApplyAll(v, [a]) == Apply(v, a)
  {
    assert [a][1..] == [];
  }

  lemma ApplyAllTwo(v: View, a: Command, b: Command)
    ensures ApplyAll(v, [a, b]) == Apply(Apply(v, a), b)
  {
    assert [a, b][1..] == [b];
    ApplyAllOne(Apply(v, a), b);
  }
}
