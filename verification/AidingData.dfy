/**
 * The deferred-action loop of gps/libloc_api_50001/loc_eng.cpp, as far as it concerns aiding data: deletions
 * are collected while the engine is on and delivered at the end of the first message that finds it not on.
 */
module AidingData {
  /** GpsAidingData is a 32-bit mask, here the set of its bits: OR is union and 0 the empty set. */
  type Bit = b: nat | b < 32
  type Mask = set<Bit>

  datatype GpsStatus = StatusNone | SessionBegin | SessionEnd | EngineOn | EngineOff

  datatype Message =
    | DeleteAidingData(mask: Mask)
    | ReportStatus(status: GpsStatus)
    | EngineDown
    | EngineUp
    | Other

  /** A call of `deleteAidingData`, made at the end of message number `at` - 1. */
  datatype Delivery = Delivery(at: nat, mask: Mask)

  datatype Loop = Loop(engineStatus: GpsStatus, aidingData: Mask, handled: seq<Message>, delivered: seq<Delivery>)

  function Init(): Loop {
    Loop(StatusNone, {}, [], [])
  }

  /** `loc_eng_report_status` keeps only ENGINE_ON and ENGINE_OFF. */
  function Report(before: GpsStatus, status: GpsStatus): GpsStatus {
    if status.EngineOn? || status.EngineOff? then status else before
  }

  /** The switch over the message. */
  function Dispatch(l: Loop, msg: Message): Loop {
    var l := l.(handled := l.handled + [msg]);
    match msg
    case DeleteAidingData(mask) => l.(aidingData := l.aidingData + mask)
    case ReportStatus(status) => l.(engineStatus := Report(l.engineStatus, status))
    case EngineDown => l.(engineStatus := EngineOff)
    case EngineUp => l.(engineStatus := EngineOn)
    case Other => l
  }

  /** The tail of the loop. */
  function Deliver(l: Loop): Loop {
    if l.engineStatus != EngineOn && l.aidingData != {} then
      l.(delivered := l.delivered + [Delivery(|l.handled|, l.aidingData)], aidingData := {})
    else l
  }

  function Next(l: Loop, msg: Message): (n: Loop)
    ensures n.handled == l.handled + [msg]
  {
    Deliver(Dispatch(l, msg))
  }

  function Run(msgs: seq<Message>): Loop {
    if msgs == [] then Init() else Next(Run(msgs[..|msgs| - 1]), msgs[|msgs| - 1])
  }

  // ----- what the messages say, without the loop

  function Requested(msgs: seq<Message>): Mask {
    if msgs == [] then {}
    else Requested(msgs[..|msgs| - 1]) + (if msgs[|msgs| - 1].DeleteAidingData? then msgs[|msgs| - 1].mask else {})
  }

  /** What the last message about the engine said. */
  function EngineAfter(msgs: seq<Message>): GpsStatus {
    if msgs == [] then StatusNone
    else
      match msgs[|msgs| - 1]
      case ReportStatus(EngineOn) => EngineOn
      case ReportStatus(EngineOff) => EngineOff
      case EngineDown => EngineOff
      case EngineUp => EngineOn
      case _ => EngineAfter(msgs[..|msgs| - 1])
  }

  /** Where the delivery before number `i` was made. */
  function Since(ds: seq<Delivery>, i: nat): nat
    requires i <= |ds|
  {
    if i == 0 then 0 else ds[i - 1].at
  }

  /** Delivery number `i` hands over the requests made since the one before it, all of them and nothing else. */
  ghost predicate Exact(ds: seq<Delivery>, msgs: seq<Message>, i: nat)
    requires i < |ds|
  {
    && Since(ds, i) < ds[i].at <= |msgs|
    && ds[i].mask == Requested(msgs[Since(ds, i)..ds[i].at])
    && ds[i].mask != {}
    && EngineAfter(msgs[..ds[i].at]) != EngineOn
  }

  ghost predicate Tracks(l: Loop) {
    && (forall i :: 0 <= i < |l.delivered| ==> Exact(l.delivered, l.handled, i))
    && Since(l.delivered, |l.delivered|) <= |l.handled|
    && l.aidingData == Requested(l.handled[Since(l.delivered, |l.delivered|)..])
    && l.engineStatus == EngineAfter(l.handled)
  }

  ghost predicate Conserves(l: Loop) {
    Tracks(l) && (l.aidingData != {} ==> l.engineStatus == EngineOn)
  }

  lemma LongerStaysExact(ds: seq<Delivery>, msgs: seq<Message>, i: nat, msg: Message)
    requires i < |ds| && Exact(ds, msgs, i)
    ensures Exact(ds, msgs + [msg], i)
  {
    assert (msgs + [msg])[Since(ds, i)..ds[i].at] == msgs[Since(ds, i)..ds[i].at];
    assert (msgs + [msg])[..ds[i].at] == msgs[..ds[i].at];
  }

  lemma DispatchTracks(l: Loop, msg: Message)
    requires Tracks(l)
    ensures Tracks(Dispatch(l, msg)) && Since(l.delivered, |l.delivered|) < |Dispatch(l, msg).handled|
  {
    var n := Dispatch(l, msg);
    var k := Since(l.delivered, |l.delivered|);
    var tail := n.handled[k..];
    assert tail[..|tail| - 1] == l.handled[k..] && tail[|tail| - 1] == msg;
    assert n.handled[..|n.handled| - 1] == l.handled;
    forall i | 0 <= i < |l.delivered| ensures Exact(l.delivered, n.handled, i) {
      LongerStaysExact(l.delivered, l.handled, i, msg);
    }
  }

  lemma DeliverConserves(l: Loop)
    requires Tracks(l) && Since(l.delivered, |l.delivered|) < |l.handled|
    ensures Conserves(Deliver(l))
  {
    var n := Deliver(l);
    var ds, msgs := l.delivered, l.handled;
    if n.delivered != ds {
      forall i | 0 <= i < |n.delivered| ensures Exact(n.delivered, msgs, i) {
        if i < |ds| {
          assert Exact(ds, msgs, i);
        } else {
          assert msgs[Since(ds, |ds|)..|msgs|] == msgs[Since(ds, |ds|)..];
          assert msgs[..|msgs|] == msgs;
        }
      }
    }
  }

  lemma NextConserves(l: Loop, msg: Message)
    requires Conserves(l)
    ensures Conserves(Next(l, msg))
  {
    DispatchTracks(l, msg);
    DeliverConserves(Dispatch(l, msg));
  }

  lemma {:induction false} RunHandles(msgs: seq<Message>)
    ensures Run(msgs).handled == msgs
  {
    if msgs != [] {
      RunHandles(msgs[..|msgs| - 1]);
    }
  }

  /**
   * For any messages: every mask delivered is exactly the OR of the requests since the previous delivery, none
   * is delivered while the engine is on, and what is still pending at a message boundary means the engine is on.
   */
  lemma {:induction false} AidingDataConserved(msgs: seq<Message>)
    ensures Conserves(Run(msgs))
  {
    if msgs != [] {
      AidingDataConserved(msgs[..|msgs| - 1]);
      NextConserves(Run(msgs[..|msgs| - 1]), msgs[|msgs| - 1]);
    }
  }

  function All(ds: seq<Delivery>): Mask {
    if ds == [] then {} else All(ds[..|ds| - 1]) + ds[|ds| - 1].mask
  }

  lemma {:induction false} RequestedConcat(a: seq<Message>, b: seq<Message>)
    ensures Requested(a + b) == Requested(a) + Requested(b)
  {
    if b == [] {
      assert a + b == a;
    } else {
      assert (a + b)[..|a + b| - 1] == a + b[..|b| - 1];
      RequestedConcat(a, b[..|b| - 1]);
    }
  }

  lemma {:induction false} AllDelivered(ds: seq<Delivery>, msgs: seq<Message>)
    requires forall i :: 0 <= i < |ds| ==> Exact(ds, msgs, i)
    ensures Since(ds, |ds|) <= |msgs| && All(ds) == Requested(msgs[..Since(ds, |ds|)])
  {
    if ds != [] {
      var k := |ds| - 1;
      var es := ds[..k];
      forall i | 0 <= i < |es| ensures Exact(es, msgs, i) {
        assert Exact(ds, msgs, i);
      }
      AllDelivered(es, msgs);
      assert Exact(ds, msgs, k);
      RequestedConcat(msgs[..Since(ds, k)], msgs[Since(ds, k)..ds[k].at]);
      assert msgs[..ds[k].at] == msgs[..Since(ds, k)] + msgs[Since(ds, k)..ds[k].at];
    }
  }

  /** Nothing is lost: once the engine is not on, everything ever requested has been delivered. */
  lemma NothingLost(msgs: seq<Message>)
    ensures All(Run(msgs).delivered) + Run(msgs).aidingData == Requested(msgs)
    ensures EngineAfter(msgs) != EngineOn ==> All(Run(msgs).delivered) == Requested(msgs)
  {
    hide Run, Requested, All, EngineAfter, Exact;
    var l := Run(msgs);
    RunHandles(msgs);
    AidingDataConserved(msgs);
    AllDelivered(l.delivered, msgs);
    var k := Since(l.delivered, |l.delivered|);
    RequestedConcat(msgs[..k], msgs[k..]);
    assert msgs == msgs[..k] + msgs[k..];
  }

  // ----- the loop itself

  class DeferredAction {
    var engineStatus: GpsStatus
    var aidingData: Mask
    ghost var handled: seq<Message>
    ghost var delivered: seq<Delivery>

    ghost function View(): Loop
      reads this
    {
      Loop(engineStatus, aidingData, handled, delivered)
    }

    constructor ()
      ensures View() == Init()
    {
      engineStatus := StatusNone;
      aidingData := {};
      handled, delivered := [], [];
    }

    method ReportStatus(status: GpsStatus)
      modifies `engineStatus
      ensures engineStatus == Report(old(engineStatus), status)
    {
      if status == EngineOn || status == EngineOff {
        engineStatus := status;
      }
    }

    method Handle(msg: Message)
      modifies this
      ensures View() == Next(old(View()), msg)
    {
      handled := handled + [msg];
      match msg {
        case DeleteAidingData(mask) =>
          aidingData := aidingData + mask;
        case ReportStatus(status) =>
          ReportStatus(status);
        case EngineDown =>
          ReportStatus(EngineOff);
        case EngineUp =>
          ReportStatus(EngineOn);
        case Other =>
      }
      if engineStatus != EngineOn && aidingData != {} {
        delivered := delivered + [Delivery(|handled|, aidingData)];
        aidingData := {};
      }
    }

    /** The thread, for as long as messages come in. */
    method Thread(msgs: seq<Message>)
      requires View() == Init()
      modifies this
      ensures View() == Run(msgs) && Conserves(View()) && handled == msgs
    {
      for i := 0 to |msgs|
        invariant View() == Run(msgs[..i])
      {
        Handle(msgs[i]);
        assert msgs[..i + 1][..i] == msgs[..i];
      }
      assert msgs[..|msgs|] == msgs;
      RunHandles(msgs);
      AidingDataConserved(msgs);
    }
  }
}
