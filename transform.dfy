/**
 * The translator as the program holds it: one object whose methods update
 * the position and the tracking id in place and append command text to the
 * output device. The device is the string `out`: writing appends to it.
 */
module Transform {
  import opened MachineInts
  import opened Wrappers
  import opened Strings
  import opened Decimal
  import opened Protocol
  import opened Contact

  class TransformInput {
    const maxX: u32
    const maxY: u32
    var absX: u32
    var absY: u32
    var trackingId: i8
    /** Everything written to the output device so far. */
    var out: string

    /** The fields' values, as the functions of module Contact see them. */
    function Snapshot(): State
      reads this
    {
      State(maxX, maxY, absX, absY, trackingId)
    }

    /**
     * The object invariant: the invariants of Contact, and bounds that a
     * 32-bit signed integer holds, as the clamping code casts them to one.
     */
    ghost predicate Valid()
      reads this
    {
      Inv(Snapshot()) && maxX < I32Limit && maxY < I32Limit
    }

    /** The start state of the main loop: position (0, 0), no contact, nothing written. */
    constructor (xMax: u32, yMax: u32)
      requires xMax < I32Limit && yMax < I32Limit
      ensures Valid()
      ensures Snapshot() == Initial(xMax, yMax) && out == ""
    {
      maxX, maxY := xMax, yMax;
      absX, absY := 0, 0;
      trackingId := NoTrackingId;
      out := "";
    }

    method AddX(relx: i32)
      requires Valid() && absX + relx < I32Limit
      modifies this`absX
      ensures Valid()
      ensures Snapshot() == Contact.AddX(old(Snapshot()), relx)
    {
      var x := absX + relx;
      if x < 0 {
        absX := 0;
        return;
      }
      if x > maxX {
        absX := maxX;
        return;
      }
      absX := x;
    }

    method AddY(rely: i32)
      requires Valid() && absY + rely < I32Limit
      modifies this`absY
      ensures Valid()
      ensures Snapshot() == Contact.AddY(old(Snapshot()), rely)
    {
      var y := absY + rely;
      if y < 0 {
        absY := 0;
        return;
      }
      if y > maxY {
        absY := maxY;
        return;
      }
      absY := y;
    }

    /** Routes one event by type, code and value. */
    method Handle(ev: Event)
      requires Valid() && Fits(Snapshot(), ev)
      modifies this
      ensures Valid()
      ensures Snapshot() == Next(old(Snapshot()), ev)
      ensures out == old(out) + Output(old(Snapshot()), ev)
    {
      match ev
      case Relative(code, value) =>
        if code == RelX {
          AddX(value);
        } else if code == RelY {
          AddY(value);
        }
      case Key(code, value) =>
        if code == SlotButtonCode {
          ghost var written := out;
          if value == 1 {
            NewTrackingId();
            StartTracking();
            SendAbsMtPosition();
            StartTouch();
            SendAbs();
            Sync();
            ghost var t1, t2, t3 := StartTrackingText(64), MtPositionText(absX, absY), StartTouchText();
            ghost var t4, t5 := AbsText(absX, absY), SyncText();
            Strings.AppendRegroup5(written, t1, t2, t3, t4, t5);
            PressCommandsText(absX, absY);
          } else if value == 0 {
            ReleaseTrackingId();
            StopTracking();
            StopTouch();
            Sync();
            Strings.AppendRegroup3(written, StopTrackingText(), StopTouchText(), SyncText());
            ReleaseCommandsText();
          }
        }
      case Other =>
    }

    method Write(cmd: string)
      modifies this`out
      ensures out == old(out) + cmd
    {
      out := out + cmd;
    }

    method NewTrackingId()
      modifies this`trackingId
      ensures trackingId == ActiveTrackingId
    {
      trackingId := ActiveTrackingId;
    }

    method ReleaseTrackingId()
      modifies this`trackingId
      ensures trackingId == NoTrackingId
    {
      trackingId := NoTrackingId;
    }

    method StartTracking()
      modifies this`out
      ensures out == old(out) + StartTrackingText(trackingId)
    {
      Write(StartTrackingText(trackingId));
    }

    method StopTracking()
      modifies this`out
      ensures out == old(out) + StopTrackingText()
    {
      Write(StopTrackingText());
    }

    method StartTouch()
      modifies this`out
      ensures out == old(out) + StartTouchText()
    {
      Write(StartTouchText());
    }

    method StopTouch()
      modifies this`out
      ensures out == old(out) + StopTouchText()
    {
      Write(StopTouchText());
    }

    method SendAbsMtPosition()
      modifies this`out
      ensures out == old(out) + MtPositionText(absX, absY)
    {
      Write(MtPositionText(absX, absY));
    }

    method SendAbs()
      modifies this`out
      ensures out == old(out) + AbsText(absX, absY)
    {
      Write(AbsText(absX, absY));
    }

    method Sync()
      modifies this`out
      ensures out == old(out) + SyncText()
    {
      Write(SyncText());
    }

    /** The once-per-batch resync: while a contact is tracked, both positions and a frame end. */
    method Resync()
      modifies this`out
      ensures out == old(out) + Render(ResyncCommands(Snapshot()))
    {
      ghost var written := out;
      if trackingId >= 0 {
        SendAbsMtPosition();
        SendAbs();
        Sync();
        Strings.AppendRegroup3(written, MtPositionText(absX, absY), AbsText(absX, absY), SyncText());
        ResyncCommandsText(Snapshot());
      } else {
        assert out == written + "";
      }
    }

    /** Handles a batch of events in order, as the main loop does with each fetched batch. */
    method HandleBatch(events: seq<Event>)
      requires Valid() && RunFits(Snapshot(), events)
      modifies this
      ensures Valid()
      ensures Snapshot() == Run(old(Snapshot()), events)
      ensures out == old(out) + Render(RunCommands(old(Snapshot()), events))
    {
      ghost var start, written := Snapshot(), out;
      for i := 0 to |events|
        invariant Valid()
        invariant RunFits(Snapshot(), events[i..])
        invariant Run(Snapshot(), events[i..]) == Run(start, events)
        invariant out + Render(RunCommands(Snapshot(), events[i..])) ==
          written + Render(RunCommands(start, events))
      {
        ghost var before, previous := Snapshot(), out;
        assert events[i..][0] == events[i] && events[i..][1..] == events[i + 1..];
        StepText(previous, before, events[i..]);
        Handle(events[i]);
      }
      assert events[|events|..] == [];
      assert Render(RunCommands(Snapshot(), [])) == "";
    }

    /** One iteration of the main loop: a batch of events, then the resync. */
    method RunIteration(events: seq<Event>)
      requires Valid() && RunFits(Snapshot(), events)
      modifies this
      ensures Valid()
      ensures Snapshot() == Run(old(Snapshot()), events)
      ensures out == old(out) + Render(IterationCommands(old(Snapshot()), events))
    {
      ghost var start, written := Snapshot(), out;
      HandleBatch(events);
      Resync();
      IterationText(written, start, events);
    }

    /** The `Display` text of the translator: its position, `x:<x> y:<y>`. */
    function Fmt(): (s: string)
      reads this
      ensures ParsePosition(s) == Some((absX as nat, absY as nat))
    {
      ParsePositionOfDisplay(absX, absY);
      "x:" + NatToDecimal(absX) + " y:" + NatToDecimal(absY)
    }
  }

  /** Reads `x:<digits> y:<digits>` back into the two numbers. */
  function ParsePosition(s: string): Option<(nat, nat)> {
    if |s| < 2 || s[..2] != "x:" then None
    else
      var rest := s[2..];
      var k := FirstIndex(rest, ' ');
      if k == 0 || k == |rest| || !AllDigits(rest[..k]) then None
      else
        var tail := rest[k + 1..];
        if |tail| < 3 || tail[..2] != "y:" || !AllDigits(tail[2..]) then None
        else Some((DecimalValue(rest[..k]), DecimalValue(tail[2..])))
  }

  /** A digit string holds no space, so the display text splits back into its two numbers. */
  lemma ParsePositionOfDisplay(x: nat, y: nat)
    ensures ParsePosition("x:" + NatToDecimal(x) + " y:" + NatToDecimal(y)) == Some((x, y))
  {
    var dx, dy := NatToDecimal(x), NatToDecimal(y);
    var t := "x:" + dx + " y:" + dy;
    assert t[..2] == "x:";
    var rest := t[2..];
    assert rest == dx + [' '] + ("y:" + dy);
    assert forall j :: 0 <= j < |dx| ==> dx[j] != ' ' by {
      forall j | 0 <= j < |dx| ensures dx[j] != ' ' { assert IsDigit(dx[j]); }
    }
    Strings.FirstIndexAfter(dx, ' ', "y:" + dy);
    assert rest[..|dx|] == dx;
    var tail := rest[|dx| + 1..];
    assert tail == "y:" + dy;
    assert tail[..2] == "y:" && tail[2..] == dy;
    DecimalRoundTrip(x);
    DecimalRoundTrip(y);
  }

  /** The display text determines the position. */
  lemma FmtDeterminesPosition(a: TransformInput, b: TransformInput)
    requires a.Fmt() == b.Fmt()
    ensures a.absX == b.absX && a.absY == b.absY
  {
  }
}
