/**
 * The translator's behaviour on values: its state, what one input event
 * does to it, which protocol commands it emits, and the once-per-batch
 * resync. The class in module Transform is proved to follow these functions.
 */
module Contact {
  import opened MachineInts
  import opened Decimal
  import opened Protocol

  /** The trigger button (BTN_EXTRA). */
  const SlotButtonCode: u16 := 276
  /** Relative-motion codes REL_X and REL_Y. */
  const RelX: u16 := 0
  const RelY: u16 := 1
  /** The tracking id of the one contact, and the "no contact" value. */
  const ActiveTrackingId: i8 := 64
  const NoTrackingId: i8 := -1

  /** An input event, routed by its type. */
  datatype Event =
    | Relative(code: u16, value: i32)
    | Key(code: u16, value: i32)
    | Other

  const Press: Event := Key(SlotButtonCode, 1)
  const Release: Event := Key(SlotButtonCode, 0)

  datatype State = State(maxX: nat, maxY: nat, absX: nat, absY: nat, trackingId: int)

  /** Position (0, 0), no contact. */
  function Initial(maxX: nat, maxY: nat): State {
    State(maxX, maxY, 0, 0, NoTrackingId)
  }

  /** The invariants: the position lies in the box and the tracking id is one of the two values. */
  predicate Inv(s: State) {
    s.absX <= s.maxX && s.absY <= s.maxY &&
    (s.trackingId == NoTrackingId || s.trackingId == ActiveTrackingId)
  }

  predicate Tracking(s: State) {
    s.trackingId >= 0
  }

  function Clamp(v: int, max: nat): nat {
    if v < 0 then 0 else if v > max then max else v
  }

  /** Adds a delta to the x coordinate, saturating at 0 and at maxX. */
  function AddX(s: State, relx: int): (t: State)
    ensures t == s.(absX := t.absX)
    ensures t.absX <= s.maxX
    ensures 0 <= s.absX + relx <= s.maxX ==> t.absX == s.absX + relx
    ensures s.absX + relx < 0 ==> t.absX == 0
    ensures s.absX + relx > s.maxX ==> t.absX == s.maxX
  {
    s.(absX := Clamp(s.absX + relx, s.maxX))
  }

  /** Adds a delta to the y coordinate, saturating at 0 and at maxY. */
  function AddY(s: State, rely: int): (t: State)
    ensures t == s.(absY := t.absY)
    ensures t.absY <= s.maxY
    ensures 0 <= s.absY + rely <= s.maxY ==> t.absY == s.absY + rely
    ensures s.absY + rely < 0 ==> t.absY == 0
    ensures s.absY + rely > s.maxY ==> t.absY == s.maxY
  {
    s.(absY := Clamp(s.absY + rely, s.maxY))
  }

  /** `v as i32` for a value of at most 32 bits: the two's-complement reading of its low 32 bits. */
  function AsI32(v: int): (r: int)
    ensures -I32Limit <= r < I32Limit
    ensures -I32Limit <= v < I32Limit ==> r == v
  {
    (v + I32Limit) % 0x1_0000_0000 - I32Limit
  }

  /**
   * The clamping step of `add_x` and `add_y` as the code writes it, for any
   * 32-bit bound: position and bound are cast to i32, and the sum wraps as
   * it does in a release build.
   */
  function ClampAsWritten(pos: u32, max: u32, delta: i32): (r: int)
    ensures 0 <= r <= max
  {
    var sum := AsI32(AsI32(pos) + delta);
    if sum < 0 then 0 else if sum > AsI32(max) then max else sum
  }

  /** With the bound below 2^31 and no overflow, the code clamps as intended. */
  lemma ClampAsWrittenBelowI32(pos: u32, max: u32, delta: i32)
    requires max < I32Limit && pos <= max && pos + delta < I32Limit
    ensures ClampAsWritten(pos, max, delta) == Clamp(pos + delta, max)
  {
  }

  /**
   * A bound of 2^31 casts to a negative i32, so every motion jumps to the
   * bound: from x = 0, a delta of 1 gives 2^31 instead of 1.
   */
  lemma ClampAsWrittenLargeBound()
    ensures ClampAsWritten(0, I32Limit, 1) == I32Limit
    ensures Clamp(0 + 1, I32Limit) == 1
  {
  }

  /** The state after one event. */
  function Next(s: State, ev: Event): (t: State)
    ensures t.maxX == s.maxX && t.maxY == s.maxY
    ensures !ev.Relative? ==> t.absX == s.absX && t.absY == s.absY
    ensures !ev.Key? ==> t.trackingId == s.trackingId
    ensures t.trackingId == s.trackingId || t.trackingId == ActiveTrackingId || t.trackingId == NoTrackingId
  {
    match ev
    case Relative(code, value) =>
      if code == RelX then AddX(s, value)
      else if code == RelY then AddY(s, value)
      else s
    case Key(code, value) =>
      if code == SlotButtonCode && value == 1 then s.(trackingId := ActiveTrackingId)
      else if code == SlotButtonCode && value == 0 then s.(trackingId := NoTrackingId)
      else s
    case Other => s
  }

  /** Begin a contact at (x, y): tracking id, both positions, finger down, frame end. */
  function PressCommands(x: nat, y: nat): seq<Command> {
    [Slot(0), TrackingId(ActiveTrackingId)] + [MtPositionX(x), MtPositionY(y)] +
    [Touch(1), ToolFinger(1)] + [AbsX(x), AbsY(y)] + [SynReport(0)]
  }

  /** End the contact: tracking id -1, finger up, frame end. */
  function ReleaseCommands(): seq<Command> {
    [TrackingId(NoTrackingId)] + [Touch(0), ToolFinger(0)] + [SynReport(0)]
  }

  /** The commands one event emits; the position is the one before the event. */
  function Commands(s: State, ev: Event): (r: seq<Command>)
    ensures r == [] || (|r| >= 4 && r[|r| - 1] == SynReport(0))
    ensures r != [] ==> TrackingId(Next(s, ev).trackingId) in r
  {
    match ev
    case Key(code, value) =>
      if code == SlotButtonCode && value == 1 then PressCommands(s.absX, s.absY)
      else if code == SlotButtonCode && value == 0 then ReleaseCommands()
      else []
    case _ => []
  }

  /** The text one event writes to the output device. */
  function Output(s: State, ev: Event): string {
    Render(Commands(s, ev))
  }

  /** The resync after a batch: both positions and a frame end, only while tracking. */
  function ResyncCommands(s: State): (r: seq<Command>)
    ensures r != [] <==> Tracking(s)
    ensures r != [] ==> r[|r| - 1] == SynReport(0)
    ensures forall c :: c in r ==> !c.TrackingId? && !c.Touch? && !c.ToolFinger?
  {
    if Tracking(s) then
      [MtPositionX(s.absX), MtPositionY(s.absY)] + [AbsX(s.absX), AbsY(s.absY)] + [SynReport(0)]
    else []
  }

  /** The state after a sequence of events, handled in order. */
  function Run(s: State, evs: seq<Event>): State
    decreases |evs|
  {
    if evs == [] then s else Run(Next(s, evs[0]), evs[1..])
  }

  /** The commands a sequence of events emits, in order. */
  function RunCommands(s: State, evs: seq<Event>): seq<Command>
    decreases |evs|
  {
    if evs == [] then [] else Commands(s, evs[0]) + RunCommands(Next(s, evs[0]), evs[1..])
  }

  /** One iteration of the main loop: a batch of events, then the resync. */
  function IterationCommands(s: State, evs: seq<Event>): seq<Command> {
    RunCommands(s, evs) + ResyncCommands(Run(s, evs))
  }

  /** Handling the first event of a sequence writes its text, then the rest writes theirs. */
  lemma StepText(written: string, s: State, evs: seq<Event>)
    requires evs != []
    ensures Run(s, evs) == Run(Next(s, evs[0]), evs[1..])
    ensures written + Output(s, evs[0]) + Render(RunCommands(Next(s, evs[0]), evs[1..])) ==
      written + Render(RunCommands(s, evs))
  {
    RenderAfter(written, Commands(s, evs[0]), RunCommands(Next(s, evs[0]), evs[1..]));
  }

  /** The text of an iteration is the batch's text followed by the resync's. */
  lemma IterationText(written: string, s: State, evs: seq<Event>)
    ensures written + Render(RunCommands(s, evs)) + Render(ResyncCommands(Run(s, evs))) ==
      written + Render(IterationCommands(s, evs))
  {
    RenderAfter(written, RunCommands(s, evs), ResyncCommands(Run(s, evs)));
  }

  /**
   * The source computes `abs + delta` in 32-bit signed arithmetic; this says
   * the sum does not overflow for the event at hand.
   */
  predicate Fits(s: State, ev: Event) {
    (ev.Relative? && ev.code == RelX ==> s.absX + ev.value < I32Limit) &&
    (ev.Relative? && ev.code == RelY ==> s.absY + ev.value < I32Limit)
  }

  /** No event of the sequence overflows, each at the state it meets. */
  predicate RunFits(s: State, evs: seq<Event>)
    decreases |evs|
  {
    evs == [] || (Fits(s, evs[0]) && RunFits(Next(s, evs[0]), evs[1..]))
  }

  // ---- Properties of one event ----

  /** Every event keeps the invariants; the bounds never change. */
  lemma NextKeepsInv(s: State, ev: Event)
    requires Inv(s)
    ensures Inv(Next(s, ev))
    ensures Next(s, ev).maxX == s.maxX && Next(s, ev).maxY == s.maxY
  {
  }

  /** Motion moves only its own axis and emits nothing; other relative codes do nothing. */
  lemma MotionIsSilent(s: State, code: u16, value: i32)
    ensures Commands(s, Relative(code, value)) == []
    ensures code == RelX ==> Next(s, Relative(code, value)) == AddX(s, value)
    ensures code == RelY ==> Next(s, Relative(code, value)) == AddY(s, value)
    ensures code != RelX && code != RelY ==> Next(s, Relative(code, value)) == s
  {
  }

  /** The press commands are the texts of the five send steps, in order. */
  lemma PressCommandsText(x: nat, y: nat)
    ensures Render(PressCommands(x, y)) ==
      StartTrackingText(64) + MtPositionText(x, y) + StartTouchText() + AbsText(x, y) + SyncText()
  {
    var a, b, c := [Slot(0), TrackingId(64)], [MtPositionX(x), MtPositionY(y)], [Touch(1), ToolFinger(1)];
    var d, e := [AbsX(x), AbsY(y)], [SynReport(0)];
    RenderAppend(a + b + c + d, e);
    RenderAppend(a + b + c, d);
    RenderAppend(a + b, c);
    RenderAppend(a, b);
  }

  lemma PressTextJoined(pX: string, pY: string)
    ensures "s 0\nT 64\n" + ("X " + pX + "\nY " + pY + "\n") + "d 1\na 1\n" + ("x " + pX + "\ny " + pY + "\n") + "S 0\n" ==
      "s 0\nT 64\nX " + pX + "\nY " + pY + "\nd 1\na 1\nx " + pX + "\ny " + pY + "\nS 0\n"
  {
  }

  /** A press sets tracking id 64, keeps the position and writes the begin sequence. */
  lemma PressOutput(s: State)
    ensures Next(s, Press) == s.(trackingId := 64)
    ensures Output(s, Press) ==
      "s 0\nT 64\nX " + NatToDecimal(s.absX) + "\nY " + NatToDecimal(s.absY) +
      "\nd 1\na 1\nx " + NatToDecimal(s.absX) + "\ny " + NatToDecimal(s.absY) + "\nS 0\n"
  {
    PressCommandsText(s.absX, s.absY);
    assert StartTrackingText(64) == "s 0\nT 64\n" by {
      assert NatToDecimal(64) == NatToDecimal(6) + [DigitChar(4)];
    }
    PressTextJoined(NatToDecimal(s.absX), NatToDecimal(s.absY));
  }

  lemma ReleaseCommandsText()
    ensures Render(ReleaseCommands()) == StopTrackingText() + StopTouchText() + SyncText()
  {
    RenderAppend([TrackingId(-1)] + [Touch(0), ToolFinger(0)], [SynReport(0)]);
    RenderAppend([TrackingId(-1)], [Touch(0), ToolFinger(0)]);
  }

  /**
   * A release sets tracking id -1, keeps the position and writes the end
   * sequence, whatever the tracking id was: a release with no contact
   * writes it too.
   */
  lemma ReleaseOutput(s: State)
    ensures Next(s, Release) == s.(trackingId := -1)
    ensures Output(s, Release) == "T -1\nd 0\na 0\nS 0\n"
  {
    ReleaseCommandsText();
  }

  /** The events the translator ignores: other types, other keys, other values of the trigger. */
  predicate Inert(ev: Event) {
    ev.Other? || (ev.Key? && !(ev.code == SlotButtonCode && (ev.value == 0 || ev.value == 1)))
  }

  /** An ignored event changes no field and writes nothing. */
  lemma InertEvents(s: State, ev: Event)
    requires Inert(ev)
    ensures Next(s, ev) == s && Commands(s, ev) == []
  {
  }

  /** An event writes something exactly when it is the trigger's press or release. */
  lemma WritesIffTrigger(s: State, ev: Event)
    ensures Commands(s, ev) != [] <==> ev == Press || ev == Release
  {
  }

  // ---- Properties of sequences of events ----

  lemma {:induction false} RunKeepsInv(s: State, evs: seq<Event>)
    requires Inv(s)
    ensures Inv(Run(s, evs))
    ensures Run(s, evs).maxX == s.maxX && Run(s, evs).maxY == s.maxY
    decreases |evs|
  {
    if evs != [] {
      NextKeepsInv(s, evs[0]);
      RunKeepsInv(Next(s, evs[0]), evs[1..]);
    }
  }

  /**
   * From the initial state, every sequence of events keeps the position in
   * the box and the tracking id at -1 or 64.
   */
  lemma ReachableStates(maxX: nat, maxY: nat, evs: seq<Event>)
    ensures var t := Run(Initial(maxX, maxY), evs);
      t.absX <= maxX && t.absY <= maxY && (t.trackingId == -1 || t.trackingId == 64)
  {
    RunKeepsInv(Initial(maxX, maxY), evs);
  }

  lemma {:induction false} RunAppend(s: State, a: seq<Event>, b: seq<Event>)
    ensures Run(s, a + b) == Run(Run(s, a), b)
    ensures RunCommands(s, a + b) == RunCommands(s, a) + RunCommands(Run(s, a), b)
    decreases |a|
  {
    if a == [] {
      assert a + b == b;
    } else {
      assert (a + b)[0] == a[0];
      assert (a + b)[1..] == a[1..] + b;
      RunAppend(Next(s, a[0]), a[1..], b);
    }
  }

  /**
   * The receiving side is in step with the translator: its tracking id is
   * the translator's, and its finger and tool flags are down exactly while a
   * contact is tracked.
   */
  predicate Agrees(s: State, v: View) {
    v.trackingId == s.trackingId &&
    v.touch == v.tool == (if Tracking(s) then 1 else 0)
  }

  const InitialView: View := View(NoTrackingId, 0, 0, 0, 0, 0, 0)

  /** What the receiving side knows after the press commands. */
  lemma PressView(v: View, x: nat, y: nat)
    ensures ApplyAll(v, PressCommands(x, y)) ==
      v.(trackingId := 64, mtX := x, mtY := y, touch := 1, tool := 1, x := x, y := y)
  {
    var a, b, c := [Slot(0), TrackingId(64)], [MtPositionX(x), MtPositionY(y)], [Touch(1), ToolFinger(1)];
    var d, e := [AbsX(x), AbsY(y)], [SynReport(0)];
    ApplyAllAppend(v, a + b + c + d, e);
    ApplyAllAppend(v, a + b + c, d);
    ApplyAllAppend(v, a + b, c);
    ApplyAllAppend(v, a, b);
    var va := ApplyAll(v, a);
    ApplyAllTwo(v, Slot(0), TrackingId(64));
    ApplyAllTwo(va, MtPositionX(x), MtPositionY(y));
    var vb := ApplyAll(va, b);
    ApplyAllTwo(vb, Touch(1), ToolFinger(1));
    var vc := ApplyAll(vb, c);
    ApplyAllTwo(vc, AbsX(x), AbsY(y));
    ApplyAllOne(ApplyAll(vc, d), SynReport(0));
  }

  /** What the receiving side knows after the release commands. */
  lemma ReleaseView(v: View)
    ensures ApplyAll(v, ReleaseCommands()) == v.(trackingId := -1, touch := 0, tool := 0)
  {
    var a, b, c := [TrackingId(-1)], [Touch(0), ToolFinger(0)], [SynReport(0)];
    ApplyAllAppend(v, a + b, c);
    ApplyAllAppend(v, a, b);
    ApplyAllOne(v, TrackingId(-1));
    ApplyAllTwo(ApplyAll(v, a), Touch(0), ToolFinger(0));
    ApplyAllOne(ApplyAll(v, a + b), SynReport(0));
  }

  lemma NextKeepsAgreement(s: State, v: View, ev: Event)
    requires Agrees(s, v)
    ensures Agrees(Next(s, ev), ApplyAll(v, Commands(s, ev)))
  {
    PressView(v, s.absX, s.absY);
    ReleaseView(v);
  }

  /**
   * Contact begin and end cannot leave the receiving side half active:
   * after any events it reads, it agrees with the translator.
   */
  lemma {:induction false} RunKeepsAgreement(s: State, v: View, evs: seq<Event>)
    requires Agrees(s, v)
    ensures Agrees(Run(s, evs), ApplyAll(v, RunCommands(s, evs)))
    decreases |evs|
  {
    if evs != [] {
      NextKeepsAgreement(s, v, evs[0]);
      ApplyAllAppend(v, Commands(s, evs[0]), RunCommands(Next(s, evs[0]), evs[1..]));
      RunKeepsAgreement(Next(s, evs[0]), ApplyAll(v, Commands(s, evs[0])), evs[1..]);
    }
  }

  /** The initial state agrees with a receiving side that has read nothing. */
  lemma InitialAgrees(maxX: nat, maxY: nat)
    ensures Agrees(Initial(maxX, maxY), InitialView)
  {
  }

  /**
   * After a loop iteration that ends with a contact tracked, the receiving
   * side holds the translator's current position in both flavours,
   * whatever motion the batch had.
   */
  lemma IterationRefreshesPosition(s: State, v: View, evs: seq<Event>)
    requires Tracking(Run(s, evs))
    ensures var t := Run(s, evs);
      var w := ApplyAll(v, IterationCommands(s, evs));
      w.mtX == t.absX && w.mtY == t.absY && w.x == t.absX && w.y == t.absY
  {
    var t := Run(s, evs);
    var u := ApplyAll(v, RunCommands(s, evs));
    ApplyAllAppend(v, RunCommands(s, evs), ResyncCommands(t));
    var a, b, c := [MtPositionX(t.absX), MtPositionY(t.absY)], [AbsX(t.absX), AbsY(t.absY)], [SynReport(0)];
    ApplyAllAppend(u, a + b, c);
    ApplyAllAppend(u, a, b);
    ApplyAllTwo(u, MtPositionX(t.absX), MtPositionY(t.absY));
    ApplyAllTwo(ApplyAll(u, a), AbsX(t.absX), AbsY(t.absY));
    ApplyAllOne(ApplyAll(u, a + b), SynReport(0));
  }

  lemma ResyncTextJoined(pX: string, pY: string)
    ensures ("X " + pX + "\nY " + pY + "\n") + ("x " + pX + "\ny " + pY + "\n") + "S 0\n" ==
      "X " + pX + "\nY " + pY + "\nx " + pX + "\ny " + pY + "\nS 0\n"
  {
  }

  /** While tracking, the resync commands are the texts of its three send steps. */
  lemma ResyncCommandsText(s: State)
    requires Tracking(s)
    ensures Render(ResyncCommands(s)) == MtPositionText(s.absX, s.absY) + AbsText(s.absX, s.absY) + SyncText()
  {
    var x, y := s.absX, s.absY;
    RenderAppend([MtPositionX(x), MtPositionY(y)] + [AbsX(x), AbsY(y)], [SynReport(0)]);
    RenderAppend([MtPositionX(x), MtPositionY(y)], [AbsX(x), AbsY(y)]);
  }

  /** The resync writes the positions and a frame end while tracking, and nothing otherwise. */
  lemma ResyncOutput(s: State)
    ensures Render(ResyncCommands(s)) ==
      if s.trackingId >= 0 then
        "X " + NatToDecimal(s.absX) + "\nY " + NatToDecimal(s.absY) +
        "\nx " + NatToDecimal(s.absX) + "\ny " + NatToDecimal(s.absY) + "\nS 0\n"
      else ""
  {
    if Tracking(s) {
      ResyncCommandsText(s);
      ResyncTextJoined(NatToDecimal(s.absX), NatToDecimal(s.absY));
    }
  }

  /**
   * Two iterations with empty batches write the same text twice, and the
   * state does not change.
   */
  lemma EmptyBatchesRepeat(s: State)
    ensures Run(s, []) == s
    ensures IterationCommands(s, []) + IterationCommands(Run(s, []), []) ==
      ResyncCommands(s) + ResyncCommands(s)
  {
  }

  /**
   * The example run: bounds 2000 by 2000, motion +500 in x and +300 in y,
   * a press, motion +100 in x, a release. The contact begins at (500, 300),
   * the later motion writes nothing, and the run ends at (600, 300) with no contact.
   */
  lemma Scenario()
    ensures var evs := [Relative(RelX, 500), Relative(RelY, 300), Press, Relative(RelX, 100), Release];
      Run(Initial(2000, 2000), evs) == State(2000, 2000, 600, 300, -1) &&
      RunCommands(Initial(2000, 2000), evs) == PressCommands(500, 300) + ReleaseCommands()
  {
    var evs := [Relative(RelX, 500), Relative(RelY, 300), Press, Relative(RelX, 100), Release];
    var s0 := Initial(2000, 2000);
    var s1 := State(2000, 2000, 500, 0, -1);
    var s2 := State(2000, 2000, 500, 300, -1);
    var s3 := State(2000, 2000, 500, 300, 64);
    var s4 := State(2000, 2000, 600, 300, 64);
    var s5 := State(2000, 2000, 600, 300, -1);
    assert Next(s0, evs[0]) == s1 && Next(s1, evs[1]) == s2 && Next(s2, evs[2]) == s3;
    assert Next(s3, evs[3]) == s4 && Next(s4, evs[4]) == s5;
    assert Commands(s2, evs[2]) == PressCommands(500, 300);
    assert Commands(s4, evs[4]) == ReleaseCommands();
    assert evs[4..][1..] == [];
    assert Run(s4, evs[4..]) == s5 && RunCommands(s4, evs[4..]) == ReleaseCommands();
    assert evs[3..][1..] == evs[4..];
    assert Run(s3, evs[3..]) == s5 && RunCommands(s3, evs[3..]) == ReleaseCommands();
    assert evs[2..][1..] == evs[3..];
    assert Run(s2, evs[2..]) == s5 && RunCommands(s2, evs[2..]) == PressCommands(500, 300) + ReleaseCommands();
    assert evs[1..][1..] == evs[2..];
    assert Run(s1, evs[1..]) == s5 && RunCommands(s1, evs[1..]) == PressCommands(500, 300) + ReleaseCommands();
    assert Run(s0, evs) == s5 && RunCommands(s0, evs) == PressCommands(500, 300) + ReleaseCommands();
  }
}
