/** The handlers of the audio switching as they update their fields, each against the step of the machine. */
module AudioSwitchCapability {
  import opened AudioSwitch

  class Capability {
    var mode: int
    var devices: Devices
    var sent: seq<Message>
    var sourceType: int
    var own: Ownership
    var take: Takeover
    var now: int
    var routeWhenWorn: bool
    var hold: Hold
    var exited: bool

    function Now(): State reads this {
      State(mode, devices, sent, sourceType, own, take, now, routeWhenWorn, hold, exited)
    }

    constructor (mac: Mac, output: Sink)
      ensures Start(Now()) && devices.localMac == mac && hold.defaultSink == output && mode == 0
    {
      mode, devices, sent, sourceType := 0, Devices(mac, [], []), [], 0;
      own, take, now, routeWhenWorn := Ownership(true, false, false, false, -1), Takeover(false, Idle, 0), 0, false;
      hold, exited := Hold(false, NO_SINK, false, false, output), false;
    }

    method Release(answerRequest: bool)
      modifies this`sent, this`own
      ensures own == LetGo(old(own))
      ensures sent == if answerRequest then old(sent) + [OwnsConnection(false)] else old(sent)
    {
      if answerRequest {
        sent := sent + [OwnsConnection(false)];
      }
      own := own.(owns := false);
      own := own.(claimed := false);
      own := own.(released := true);
    }

    method Talking(mac: Mac)
      modifies this`devices
      ensures devices == Talked(old(devices), mac)
    {
      if mac != devices.localMac && mac !in devices.talking {
        devices := devices.(talking := devices.talking + [mac]);
      }
    }

    /** Asks the other devices to let go; returns how many. */
    method Claim() returns (asked: nat)
      modifies this`sent, this`own
      ensures own == AudioSwitch.Claim(old(own)) && sent == old(sent) + ClaimMessages(devices)
      ensures asked == |Others(devices)|
    {
      hide Asking, Asks, Gathered;
      sent := sent + [OwnsConnection(true)];
      own := own.(claimed := true);
      own := own.(report := -1);
      var others := Gather(devices.connected, []);
      others := Gather(devices.talking, others);
      var i := 0;
      ghost var before := sent;
      assert before + Asking(others[..0]) == before by { AskingNoOne(); assert others[..0] == []; }
      while i < |others|
        invariant 0 <= i <= |others|
        invariant sent == before + Asking(others[..i])
        invariant own == AudioSwitch.Claim(old(own))
      {
        AskingNext(others, i);
        sent := sent + [MediaInformation(others[i])];
        sent := sent + [ShowNearbyUI(others[i])];
        sent := sent + [HijackRequest(others[i])];
        AskedThrice(before, Asking(others[..i]), others[i]);
        i := i + 1;
      }
      assert others[..i] == others;
      assert before + Asking(others) == old(sent) + ([OwnsConnection(true)] + Asking(others));
      asked := |others|;
    }

    /** Adds to `known` what of `macs` is neither this computer nor there yet. */
    method Gather(macs: seq<Mac>, known: seq<Mac>) returns (others: seq<Mac>)
      ensures others == Gathered(macs, devices.localMac, known)
    {
      others := known;
      for i := 0 to |macs|
        invariant Gathered(macs[i..], devices.localMac, others) == Gathered(macs, devices.localMac, known)
      {
        assert macs[i..][0] == macs[i] && macs[i..][1..] == macs[i + 1..];
        if macs[i] != devices.localMac && macs[i] !in others {
          others := others + [macs[i]];
        }
      }
    }

    method OnReceivedData(p: Packet)
      modifies this
      ensures Now() == Received(old(Now()), p)
    {
      hide Introducing, Added;
      var grace := take.busy || now - take.at < GRACE;
      match p {
        case OwnsReport(owns) =>
          own := own.(report := if owns then 1 else 0);
          if !owns && !grace {
            Release(false);
          }
        case AudioSource(from, kind) =>
          sourceType := kind;
          if from != NOBODY {
            Talking(from);
          }
          if kind != 0 && devices.localMac != NO_ADDRESS && from != devices.localMac && !grace {
            Release(true);
          }
        case DeviceList(macs) =>
          OnDeviceList(macs);
        case Relayed(from, setsOwnershipToFalse) =>
          Talking(from);
          if setsOwnershipToFalse && !grace {
            Release(true);
          }
        case Other =>
      }
    }

    /** Every device that is new on the list learns of this computer. */
    method OnDeviceList(macs: seq<Mac>)
      modifies this`devices, this`sent
      ensures devices == old(devices).(connected := macs)
      ensures sent == if devices.localMac != NO_ADDRESS
                      then old(sent) + Introducing(Added(macs, old(devices).connected, devices.localMac)) else old(sent)
    {
      hide Introducing, Added;
      var added := [];
      assert macs[..0] == [];
      AddedNone(devices.connected, devices.localMac);
      for i := 0 to |macs|
        invariant devices == old(devices) && sent == old(sent)
        invariant added == Added(macs[..i], devices.connected, devices.localMac)
      {
        AddedNext(macs, i, devices.connected, devices.localMac);
        if macs[i] != devices.localMac && macs[i] !in devices.connected {
          added := added + [macs[i]];
        }
      }
      assert macs[..|macs|] == macs;
      devices := devices.(connected := macs);
      if added != [] && devices.localMac != NO_ADDRESS {
        Introduce(added);
      } else {
        IntroducingNone();
        assert added == [] ==> sent + Introducing(added) == sent;
      }
    }

    method Introduce(added: seq<Mac>)
      modifies this`sent
      ensures sent == old(sent) + Introducing(added)
    {
      hide Introducing;
      ghost var before := sent;
      assert added[..0] == [];
      IntroducingNone();
      assert before + Introducing(added[..0]) == before;
      for i := 0 to |added|
        invariant sent == before + Introducing(added[..i])
      {
        IntroducingNext(added, i);
        sent := sent + [NewDeviceInformation(added[i])];
        sent := sent + [AddTiPiDevice(added[i])];
        IntroducedTwice(before, Introducing(added[..i]), added[i]);
      }
      assert added[..|added|] == added;
    }

    /** A new connection. */
    method Reset()
      modifies this`devices, this`sourceType, this`routeWhenWorn, this`own
      ensures Now() == AfterReset(old(Now()))
    {
      devices := devices.(connected := []);
      devices := devices.(talking := []);
      own := own.(owns := true);
      own := own.(released := false);
      sourceType := 0;
      routeWhenWorn := false;
      own := own.(claimed := false);
      own := own.(reclaimed := false);
      own := own.(report := -1);
    }

    /** Starts the takeover's thread, unless one runs. */
    method TakeOver(manual: bool)
      modifies this`take
      ensures take == Begun(old(take), manual)
    {
      if take.busy {
        return;
      }
      take := take.(busy := true);
      take := take.(phase := Deciding(manual));
    }

    /** The takeover's thread up to where others may come in between. */
    method TakeOverMoves(o: Outside)
      modifies this
      ensures Now() == TakeOverStep(old(Now()), o)
    {
      hide ClaimMessages;
      match take.phase {
        case Idle =>
        case Deciding(manual) =>
          if !manual && own.owns && o.streaming && own.claimed && own.report == 1 {
            take := take.(busy := false, phase := Idle);
            return;
          }
          if !manual && (mode != 0 || !o.worn || (sourceType == 1 && !own.owns)) {
            take := take.(busy := false, phase := Idle);
            return;
          }
          take := take.(phase := if o.connected then Ready else Connecting);
        case Connecting =>
          if !o.connects {
            hold := hold.(blocked := true);
            take := take.(busy := false, phase := Idle);
            return;
          }
          take := take.(phase := Ready);
        case Ready =>
          take := take.(at := now);
          own := own.(reclaimed := false);
          take := take.(phase := Claiming);
        case Claiming =>
          var _ := Claim();
          take := take.(phase := Owning);
        case Owning =>
          own := own.(owns := true);
          own := own.(released := false);
          sourceType := 0;
          take := take.(phase := Finishing);
        case Finishing =>
          take := take.(at := now);
          take := take.(busy := false, phase := Idle);
      }
    }

    /** One look of the worker. */
    method UpdateHold(v: View)
      modifies this
      ensures Now() == Looked(old(Now()), v)
    {
      Wake(v);
      ghost var woken := Now();
      var playsHere := own.owns && v.intoThem;
      var otherHasThem := !own.owns || !v.connected;
      AnswerReport(playsHere);
      hide Woken, Answered, HoldNext;
      assert Now() == Answered(woken, PlaysHere(woken, v));
      NextHold(v, playsHere, otherHasThem);
    }

    method Wake(v: View)
      modifies this
      ensures Now() == Woken(old(Now()), v)
    {
      if !v.worn {
        hold := hold.(blocked := false);
      }
      if v.worn && v.connected && own.owns && !take.busy {
        var route := routeWhenWorn;
        routeWhenWorn := false;
        if route {
          TakeOver(true);
        }
      }
    }

    /** An "owns connection 0" put aside is answered once the grace is over. */
    method AnswerReport(playsHere: bool)
      modifies this
      ensures Now() == Answered(old(Now()), playsHere)
    {
      hide ClaimMessages;
      if own.owns && own.claimed && !take.busy && own.report == 0 && now - take.at >= GRACE {
        own := own.(report := -1);
        if playsHere && !own.reclaimed {
          own := own.(reclaimed := true);
          var _ := Claim();
        } else {
          Release(false);
        }
      }
    }

    method NextHold(v: View, playsHere: bool, otherHasThem: bool)
      modifies this`hold
      ensures hold == HoldNext(old(hold), mode, take.busy, v, playsHere, otherHasThem)
    {
      var current := hold.defaultSink;
      if hold.holding {
        if take.busy {
          return;
        }
        if current != HOLD_SINK && !playsHere {
          hold := hold.(blocked := true);
        }
        if mode == 0 && v.worn && otherHasThem && !hold.blocked && !playsHere {
          return;
        }
        if current == HOLD_SINK && v.heldExists {
          hold := hold.(defaultSink := hold.heldOutput);
        }
        hold := hold.(silentSink := false);
        hold := hold.(holding := false);
        return;
      }
      if mode != 0 || !v.worn || !otherHasThem || hold.blocked || playsHere
         || current == NO_SINK || !v.speakers || take.busy {
        return;
      }
      hold := hold.(silentSink := v.comesUp);
      if !v.comesUp || !v.settable {
        hold := hold.(silentSink := false);
        hold := hold.(blocked := true);
        return;
      }
      hold := hold.(defaultSink := HOLD_SINK);
      hold := hold.(heldOutput := current);
      hold := hold.(holding := true);
    }

    /** The worker is gone with the device and gives the output back. */
    method WorkerExits(v: View)
      modifies this
      ensures Now() == Apply(old(Now()), AudioSwitch.WorkerExits(v))
    {
      hide Looked;
      hold := hold.(blocked := true);
      UpdateHold(v);
      exited := true;
    }
  }

  // ---------- one more turn of a loop ----------

  lemma AskingNoOne()
    ensures Asking([]) == []
  {
  }

  lemma AskingNext(others: seq<Mac>, i: nat)
    requires i < |others|
    ensures Asking(others[..i + 1]) == Asking(others[..i]) + Asks(others[i])
  {
    hide Asks;
    assert others[..i + 1][..i] == others[..i];
  }

  lemma AskedThrice(before: seq<Message>, asking: seq<Message>, other: Mac)
    ensures before + asking + [MediaInformation(other)] + [ShowNearbyUI(other)] + [HijackRequest(other)]
         == before + (asking + Asks(other))
  {
  }

  lemma AddedNone(known: seq<Mac>, localMac: Mac)
    ensures Added([], known, localMac) == []
  {
  }

  lemma AddedNext(devices: seq<Mac>, i: nat, known: seq<Mac>, localMac: Mac)
    requires i < |devices|
    ensures Added(devices[..i + 1], known, localMac)
         == Added(devices[..i], known, localMac) + if devices[i] != localMac
             && devices[i] !in known then [devices[i]] else []
  {
    assert devices[..i + 1][..i] == devices[..i];
  }

  lemma IntroducingNone()
    ensures Introducing([]) == []
  {
  }

  lemma IntroducingNext(added: seq<Mac>, i: nat)
    requires i < |added|
    ensures Introducing(added[..i + 1]) == Introducing(added[..i])
        + [NewDeviceInformation(added[i]), AddTiPiDevice(added[i])]
  {
    assert added[..i + 1][..i] == added[..i];
  }

  lemma IntroducedTwice(before: seq<Message>, introducing: seq<Message>, mac: Mac)
    ensures before + introducing + [NewDeviceInformation(mac)] + [AddTiPiDevice(mac)]
         == before + (introducing + [NewDeviceInformation(mac), AddTiPiDevice(mac)])
  {
  }
}
