/**
 * The three machines as gps/libloc_api_50001/loc_eng.cpp builds them and feeds them with the messages of the
 * deferred-action thread.
 */
module AgpsEngine {
  import opened Common
  import opened AgpsModel
  import opened AgpsShape
  import opened AgpsBalance
  import opened AgpsService

  datatype IfType = IfSupl | IfAny | IfOther
  datatype AgpsType = TypeInvalid | TypeAny | TypeSupl | TypeC2k | TypeWwanAny | TypeWifi

  const SENDER_QUIPC := 0
  const SENDER_MSAPM := 1

  type BitClient = c: Client | c.Bit? witness Bit(0, seq(16, _ => 0))
  type AtlClient = c: Client | c.Atl? witness Atl(0)
  type WifiClient = c: Client | c.Wifi? witness Wifi(0, None, None)

  datatype Message =
    | RequestBit(ifType: IfType, bit: BitClient)
    | ReleaseBit(ifType: IfType, bit: BitClient)
    | RequestAtl(agpsType: AgpsType, atl: AtlClient)
    | ReleaseAtl(atl: AtlClient)
    | RequestWifi(wifi: WifiClient)
    | ReleaseWifi(wifi: WifiClient)
    | OpenSuccess(agpsType: AgpsType)
    | Closed(agpsType: AgpsType)
    | OpenFailed(agpsType: AgpsType)
    | EngineUp

  datatype Engine = Engine(agnss: Machine, internet: Machine, wifi: Machine)

  /** `loc_eng_agps_init`: only the WIFI machine enforces a single subscriber. */
  function Start(): Engine {
    Engine(Init(false), Init(false), Init(true))
  }

  function ByIf(g: Engine, t: IfType, e: Event): Engine {
    match t
    case IfSupl => g.(agnss := Step(g.agnss, e))
    case IfAny => g.(internet := Step(g.internet, e))
    case IfOther => g
  }

  /** A data call reports its type; everything that is neither WIFI nor SUPL is for the internet machine. */
  function ByType(g: Engine, t: AgpsType, e: Event): Engine {
    match t
    case TypeWifi => g.(wifi := Step(g.wifi, e))
    case TypeSupl => g.(agnss := Step(g.agnss, e))
    case _ => g.(internet := Step(g.internet, e))
  }

  /** `unsubscribeRsrc` returns whether it found the subscriber. */
  predicate Unsubscribable(m: Machine, c: Client) {
    Has(m.members, To(c))
  }

  function Handle(g: Engine, msg: Message): Engine {
    match msg
    case RequestBit(t, c) => ByIf(g, t, Subscribe(c))
    case ReleaseBit(t, c) => ByIf(g, t, Unsubscribe(c))
    case RequestAtl(t, c) =>
      if t == TypeSupl || t == TypeInvalid then g.(agnss := Step(g.agnss, Subscribe(c)))
      else g.(internet := Step(g.internet, Subscribe(c)))
    case ReleaseAtl(c) =>
      var h := g.(agnss := Step(g.agnss, Unsubscribe(c)));
      if Unsubscribable(g.agnss, c) then h else h.(internet := Step(h.internet, Unsubscribe(c)))
    case RequestWifi(c) =>
      if c.sender == SENDER_QUIPC || c.sender == SENDER_MSAPM then g.(wifi := Step(g.wifi, Subscribe(c))) else g
    case ReleaseWifi(c) => g.(wifi := Step(g.wifi, Unsubscribe(c)))
    case OpenSuccess(t) => ByType(g, t, Granted)
    case Closed(t) => ByType(g, t, Released)
    case OpenFailed(t) => ByType(g, t, Denied)
    case EngineUp => g.(agnss := Step(g.agnss, Restart), internet := Step(g.internet, Restart))
  }

  function HandleAll(g: Engine, msgs: seq<Message>): Engine
    decreases |msgs|
  {
    if msgs == [] then g else Handle(HandleAll(g, msgs[..|msgs| - 1]), msgs[|msgs| - 1])
  }

  predicate Fits(e: Event, wifi: bool) {
    e.Subscribe? ==> (e.client.Wifi? <==> wifi)
  }

  /** `m` is reached by a run of its own, with subscribers of its own kind. */
  ghost predicate Reached(m: Machine, wifi: bool, restarts: bool) {
    exists es: seq<Event> :: ReachedBy(m, wifi, restarts, es)
  }

  ghost predicate ReachedBy(m: Machine, wifi: bool, restarts: bool, es: seq<Event>) {
    && m == Run(Init(wifi), es)
    && (forall e :: e in es ==> Fits(e, wifi))
    && (Restart in es ==> restarts)
  }

  lemma ReachedStep(m: Machine, wifi: bool, restarts: bool, e: Event)
    requires Reached(m, wifi, restarts) && Fits(e, wifi) && (e.Restart? ==> restarts)
    ensures Reached(Step(m, e), wifi, restarts)
  {
    var es :| ReachedBy(m, wifi, restarts, es);
    assert (es + [e])[..|es|] == es;
    assert ReachedBy(Step(m, e), wifi, restarts, es + [e]);
  }

  ghost predicate AllReached(g: Engine, restarts: bool) {
    Reached(g.agnss, false, restarts) && Reached(g.internet, false, restarts) && Reached(g.wifi, true, false)
  }

  lemma ByTypeReaches(g: Engine, t: AgpsType, e: Event, restarts: bool)
    requires AllReached(g, restarts) && !e.Subscribe? && !e.Restart?
    ensures AllReached(ByType(g, t, e), restarts)
  {
    ReachedStep(g.agnss, false, restarts, e);
    ReachedStep(g.internet, false, restarts, e);
    ReachedStep(g.wifi, true, false, e);
  }

  lemma DataReaches(g: Engine, e: Event, restarts: bool)
    requires AllReached(g, restarts) && Fits(e, false) && (e.Restart? ==> restarts)
    ensures AllReached(g.(agnss := Step(g.agnss, e)), restarts)
    ensures AllReached(g.(internet := Step(g.internet, e)), restarts)
    ensures AllReached(g.(agnss := Step(g.agnss, e), internet := Step(g.internet, e)), restarts)
  {
    ReachedStep(g.agnss, false, restarts, e);
    ReachedStep(g.internet, false, restarts, e);
  }

  lemma HandleReaches(g: Engine, msg: Message, restarts: bool)
    requires AllReached(g, restarts) && (msg.EngineUp? ==> restarts)
    ensures AllReached(Handle(g, msg), restarts)
  {
    hide Step, Reached, Unsubscribable;
    match msg {
      case RequestBit(_, c) => DataReaches(g, Subscribe(c), restarts);
      case ReleaseBit(_, c) => DataReaches(g, Unsubscribe(c), restarts);
      case RequestAtl(_, c) => DataReaches(g, Subscribe(c), restarts);
      case ReleaseAtl(c) => DataReaches(g, Unsubscribe(c), restarts);
      case RequestWifi(c) => ReachedStep(g.wifi, true, false, Subscribe(c));
      case ReleaseWifi(c) => ReachedStep(g.wifi, true, false, Unsubscribe(c));
      case OpenSuccess(t) => ByTypeReaches(g, t, Granted, restarts);
      case Closed(t) => ByTypeReaches(g, t, Released, restarts);
      case OpenFailed(t) => ByTypeReaches(g, t, Denied, restarts);
      case EngineUp => DataReaches(g, Restart, restarts);
    }
  }

  /** The WIFI machine is not dropped at a modem restart; the other two are. */
  lemma {:induction false} EveryMachineReached(msgs: seq<Message>)
    ensures AllReached(HandleAll(Start(), msgs), EngineUp in msgs)
    decreases |msgs|
  {
    if msgs == [] {
      assert ReachedBy(Init(false), false, false, []);
      assert ReachedBy(Init(true), true, false, []);
    } else {
      var k := |msgs| - 1;
      EveryMachineReached(msgs[..k]);
      MoreRestarts(HandleAll(Start(), msgs[..k]), EngineUp in msgs[..k], EngineUp in msgs);
      HandleReaches(HandleAll(Start(), msgs[..k]), msgs[k], EngineUp in msgs);
    }
  }

  lemma MoreRestarts(g: Engine, a: bool, b: bool)
    requires AllReached(g, a) && (a ==> b)
    ensures AllReached(g, b)
  {
    var es :| ReachedBy(g.agnss, false, a, es);
    assert ReachedBy(g.agnss, false, b, es);
    var fs :| ReachedBy(g.internet, false, a, fs);
    assert ReachedBy(g.internet, false, b, fs);
  }

  // ----- the machines of BIT and ATL subscribers

  /** Without a WIFI subscriber nobody is ever inactive, and nobody waits for a close to complete. */
  ghost predicate NoWifi(m: Machine) {
    m.state != ReleasingState && forall x :: x in m.members ==> !x.client.Wifi?
  }

  lemma NoWifiUnsubscribe(m: Machine, k: nat)
    requires NoWifi(m) && k < |m.members|
    ensures NoWifi(OnUnsubscribe(m, k))
  {
    KeepMembers(m.members, To(m.members[k].client));
    var n := Close(m, k);
    if n.members != [] {
      HasSome(n.members, BroadcastActive, n.members[0]);
    }
  }

  lemma NoWifiStep(m: Machine, e: Event)
    requires NoWifi(m) && Fits(e, false)
    ensures NoWifi(Step(m, e))
  {
    var n := Note(m, Took(m.state, e));
    if e.Unsubscribe? && Find(n.members, To(e.client)) < |n.members| {
      NoWifiUnsubscribe(n, Find(n.members, To(e.client)));
    }
    KeepNobody(m.members);
  }

  lemma {:induction false} NoWifiRun(es: seq<Event>)
    requires forall e :: e in es ==> Fits(e, false)
    ensures NoWifi(Run(Init(false), es))
    decreases |es|
  {
    if es != [] {
      var k := |es| - 1;
      NoWifiRun(es[..k]);
      NoWifiStep(Run(Init(false), es[..k]), es[k]);
    }
  }

  /** A connection is held exactly while there is a member: the machine counts references. */
  ghost predicate ReferenceCount(m: Machine) {
    && (Connected(m.state) <==> m.members != [])
    && Sum(m.log, Connection) == if m.members != [] then 1 else 0
  }

  /** A restart has dropped the members and left the connection held. */
  predicate Orphaned(m: Machine) {
    m.members == [] && Connected(m.state)
  }

  lemma ReachedCounts(m: Machine, restarts: bool)
    requires Reached(m, false, restarts)
    ensures m.state != ReleasingState && forall x :: x in m.members ==> !x.IsInactive()
    ensures ReferenceCount(m) <==> !Orphaned(m)
    ensures !restarts ==> !Orphaned(m)
    ensures Orphaned(m) ==> Sum(m.log, Connection) == 1
  {
    var es :| ReachedBy(m, false, restarts, es);
    NoWifiRun(es);
    ReachableShape(false, es);
    ConnectionsBalance(false, es);
    if !restarts {
      ReachableTight(false, es);
    }
  }

  /**
   * A restart leaves a connection without a member exactly if one was held, and it stays so until somebody
   * subscribes or the framework denies or releases it.
   */
  lemma OrphanedAfter(m: Machine, e: Event)
    ensures Orphaned(Step(m, e)) <==>
      match e
      case Restart => Connected(m.state)
      case Subscribe(_) => false
      case Unsubscribe(_) => Orphaned(m)
      case Granted => Orphaned(m)
      case Released => Orphaned(m) && m.state == PendingState
      case Denied => Orphaned(m) && m.state == AcquiredState
  {
    hide Tell;
    KeepNobody(m.members);
  }

  /**
   * `agnss_nif` and `internet_nif` under any messages: never Releasing, and a reference count - one connection
   * held exactly while there is a member - unless a modem restart has orphaned the connection. Whoever
   * subscribes then makes it a reference count again.
   */
  lemma {:induction false} DataMachinesCount(msgs: seq<Message>)
    ensures var g := HandleAll(Start(), msgs);
      forall m :: m == g.agnss || m == g.internet ==>
        && m.state != ReleasingState
        && (ReferenceCount(m) <==> !Orphaned(m))
        && (EngineUp !in msgs ==> !Orphaned(m))
        && (Orphaned(m) ==> Sum(m.log, Connection) == 1)
  {
    EveryMachineReached(msgs);
    var g := HandleAll(Start(), msgs);
    ReachedCounts(g.agnss, EngineUp in msgs);
    ReachedCounts(g.internet, EngineUp in msgs);
  }

  /** Event number `i` is a restart that finds a connection, and nothing after it gives it a member or ends it. */
  ghost predicate OrphanedSince(single: bool, es: seq<Event>, i: nat)
    requires i < |es|
  {
    && es[i] == Restart && Connected(Run(Init(single), es[..i]).state)
    && forall j :: i < j < |es| ==> Harmless(es[j], Run(Init(single), es[..j]).state)
  }

  /** Only a denial ends a request, and only a release what has been granted. */
  predicate Harmless(e: Event, state: State) {
    && !e.Subscribe?
    && (e == Denied ==> state != PendingState)
    && (e == Released ==> state != AcquiredState)
  }

  /**
   * Over whole runs: a connection has no member if and only if a modem restart found it and since then nobody
   * has subscribed and the framework has not ended it.
   */
  lemma {:induction false} OrphanedIff(single: bool, es: seq<Event>)
    ensures Orphaned(Run(Init(single), es)) <==> exists i :: 0 <= i < |es| && OrphanedSince(single, es, i)
    decreases |es|
  {
    hide Step, OrphanedSince;
    if es != [] {
      var k := |es| - 1;
      var before := es[..k];
      OrphanedIff(single, before);
      OrphanedAfter(Run(Init(single), before), es[k]);
      forall i | 0 <= i < k
        ensures OrphanedSince(single, es, i) <==>
          OrphanedSince(single, before, i) && Harmless(es[k], Run(Init(single), before).state)
      {
        OrphanedLonger(single, es, i);
      }
      OrphanedFirst(single, es);
    }
  }

  lemma OrphanedLonger(single: bool, es: seq<Event>, i: nat)
    requires i < |es| - 1
    ensures var before := es[..|es| - 1];
      OrphanedSince(single, es, i) <==>
      OrphanedSince(single, before, i) && Harmless(es[|es| - 1], Run(Init(single), before).state)
  {
    hide Run;
    var before := es[..|es| - 1];
    assert forall j :: 0 <= j < |before| ==> before[..j] == es[..j] && before[j] == es[j];
  }

  lemma OrphanedFirst(single: bool, es: seq<Event>)
    requires es != []
    ensures OrphanedSince(single, es, |es| - 1) <==>
      es[|es| - 1] == Restart && Connected(Run(Init(single), es[..|es| - 1]).state)
  {
  }

  /** On these two machines only a client of another kind with the same ID is in the way of a subscriber. */
  lemma DataMachinesServe(msgs: seq<Message>, c: Client)
    ensures var g := HandleAll(Start(), msgs);
      forall m :: m == g.agnss || m == g.internet ==>
        (HasService(AskAndGrant(m, c), c) <==>
           forall x :: x in m.members && x.client.Equals(c) ==> SameKind(x.client, c))
  {
    EveryMachineReached(msgs);
    var g := HandleAll(Start(), msgs);
    forall m | m == g.agnss || m == g.internet
      ensures HasService(AskAndGrant(m, c), c) <==>
        forall x :: x in m.members && x.client.Equals(c) ==> SameKind(x.client, c)
    {
      ReachedCounts(m, EngineUp in msgs);
      var es :| ReachedBy(m, false, EngineUp in msgs, es);
      ServedIffAdmitted(false, es, c);
    }
  }

  /**
   * `wifi_nif` under any messages: never more than one member, and an extra subscriber is denied at once, with
   * no change of state or list. Its restart-free bounds always hold, for it is never dropped.
   */
  lemma WifiMachineSingle(msgs: seq<Message>, extra: WifiClient)
    ensures var m := HandleAll(Start(), msgs).wifi;
      && |m.members| <= 1 && Tight(m)
      && Sum(m.log, Connection) == (if Connected(m.state) then 1 else 0)
      && (m.members != [] ==>
            Step(m, Subscribe(extra)) ==
            m.(log := m.log + [Took(m.state, Subscribe(extra)), Told(None, extra, DENIED)]))
  {
    EveryMachineReached(msgs);
    var m := HandleAll(Start(), msgs).wifi;
    var es :| ReachedBy(m, true, false, es);
    RunKeeps(Init(true), es);
    ConnectionsBalance(true, es);
  }

  /** `wifi_nif` serves a client if and only if it has no member, or that client is its active member already. */
  lemma WifiMachineServes(msgs: seq<Message>, c: WifiClient)
    ensures var m := HandleAll(Start(), msgs).wifi;
      HasService(AskAndGrant(m, c), c) <==> m.members == [] || Listed(m.members, c)
  {
    EveryMachineReached(msgs);
    var m := HandleAll(Start(), msgs).wifi;
    var es :| ReachedBy(m, true, false, es);
    ServedIffAdmitted(true, es, c);
  }

  // ----- releases

  /** Without a WIFI subscriber, an unsubscribe call takes out the equal members, whatever their kind, and nobody else. */
  lemma DataUnsubscribes(m: Machine, c: Client, y: Member)
    requires NoWifi(m) && Shape(m)
    ensures y in Step(m, Unsubscribe(c)).members <==> y in m.members && !y.client.Equals(c)
  {
    var n := Note(m, Took(m.state, Unsubscribe(c)));
    var k := Find(n.members, To(c));
    if k < |n.members| {
      var d := n.members[k].client;
      assert Step(m, Unsubscribe(c)).members == Keep(m.members, To(d));
      KeepMembers(m.members, To(d));
      EqualsEquivalence(y.client, d, c);
      EqualsEquivalence(y.client, c, d);
      EqualsEquivalence(d, c, d);
    } else if y in m.members && y.client.Equals(c) {
      HasSome(m.members, To(c), y);
    }
  }

  /** The client's own membership is over and every other one goes on. */
  ghost predicate Ends(before: Machine, after: Machine, c: Client) {
    forall y :: y in after.members <==> y in before.members && !(y.client.Equals(c) && SameKind(y.client, c))
  }

  /** No member of another kind has the client's ID. */
  ghost predicate Unmistakable(m: Machine, c: Client) {
    forall x :: x in m.members && x.client.Equals(c) ==> SameKind(x.client, c)
  }

  lemma UnsubscribeEnds(m: Machine, restarts: bool, c: Client)
    requires Reached(m, false, restarts)
    ensures Ends(m, Step(m, Unsubscribe(c)), c) <==> Unmistakable(m, c)
  {
    var es :| ReachedBy(m, false, restarts, es);
    NoWifiRun(es);
    ReachableShape(false, es);
    forall y ensures y in Step(m, Unsubscribe(c)).members <==> y in m.members && !y.client.Equals(c) {
      DataUnsubscribes(m, c, y);
    }
  }

  /** A BIT client's release ends its membership and nobody else's exactly if it cannot be mistaken. */
  lemma BitReleaseEnds(msgs: seq<Message>, c: BitClient)
    ensures var g := HandleAll(Start(), msgs);
      && (Ends(g.agnss, Handle(g, ReleaseBit(IfSupl, c)).agnss, c) <==> Unmistakable(g.agnss, c))
      && (Ends(g.internet, Handle(g, ReleaseBit(IfAny, c)).internet, c) <==> Unmistakable(g.internet, c))
  {
    EveryMachineReached(msgs);
    var g := HandleAll(Start(), msgs);
    UnsubscribeEnds(g.agnss, EngineUp in msgs, c);
    UnsubscribeEnds(g.internet, EngineUp in msgs, c);
  }

  /**
   * An ATL client's release names no machine. It ends the client's memberships and nobody else's exactly if the
   * client cannot be mistaken where the release takes effect, and is not a member of both machines.
   */
  lemma AtlReleaseEnds(msgs: seq<Message>, c: AtlClient)
    ensures var g := HandleAll(Start(), msgs);
      var h := Handle(g, ReleaseAtl(c));
      Ends(g.agnss, h.agnss, c) && Ends(g.internet, h.internet, c) <==>
        && Unmistakable(g.agnss, c)
        && if Has(g.agnss.members, To(c)) then !Listed(g.internet.members, c) else Unmistakable(g.internet, c)
  {
    hide Step, HandleAll;
    EveryMachineReached(msgs);
    var g := HandleAll(Start(), msgs);
    ReachedCounts(g.internet, EngineUp in msgs);
    UnsubscribeEnds(g.agnss, EngineUp in msgs, c);
    UnsubscribeEnds(g.internet, EngineUp in msgs, c);
    if Listed(g.internet.members, c) {
      var x :| x in g.internet.members && Stands(x, c);
      assert !(x in g.internet.members && !(x.client.Equals(c) && SameKind(x.client, c)));
    }
  }

  // ----- runs in which a client is not served, or a connection has no member

  lemma HandleLast(g: Engine, msgs: seq<Message>, msg: Message)
    ensures HandleAll(g, msgs + [msg]) == Handle(HandleAll(g, msgs), msg)
  {
    assert (msgs + [msg])[..|msgs|] == msgs;
  }

  lemma HandleThree(g: Engine, a: Message, b: Message, c: Message)
    ensures HandleAll(g, [a, b, c]) == Handle(Handle(Handle(g, a), b), c)
  {
    HandleLast(g, [], a);
    HandleLast(g, [a], b);
    HandleLast(g, [a, b], c);
    assert [] + [a] == [a] && [a] + [b] == [a, b] && [a, b] + [c] == [a, b, c];
  }

  lemma OnlyOne(m: Machine, x: Member, c: Client)
    requires m.members == [x]
    ensures Find(m.members, To(c)) == if x.client.Equals(c) then 0 else 1
    ensures Find(m.members, BroadcastActive) == if x.IsInactive() then 1 else 0
  {
  }

  /** The first subscriber of a machine. */
  lemma FirstSubscribes(single: bool, c: Client)
    ensures Step(Init(single), Subscribe(c)) ==
      Machine(single, PendingState, [Member(c, false, 0)],
              [Took(ReleasedState, Subscribe(c)), Joined(0, c), Asked(Request, Some(c))])
  {
    var n := Add(Note(Init(single), Took(ReleasedState, Subscribe(c))), c, 0);
    OnlyOne(n, Member(c, false, 0), c);
  }

  lemma FirstGranted(m: Machine, x: Member)
    requires m.state == PendingState && m.members == [x] && !x.IsInactive()
    ensures Step(m, Granted) ==
      m.(state := AcquiredState,
         log := m.log + [Took(PendingState, Granted)] + [Told(Some(x.since), x.client, GRANTED)])
  {
    assert Tell([x], BroadcastActive, GRANTED) == [Told(Some(x.since), x.client, GRANTED)] + Tell([], BroadcastActive, GRANTED);
  }

  lemma WifiLeaves(m: Machine, c: WifiClient)
    requires m.state == AcquiredState && m.members == [Member(c, false, 0)]
    ensures Step(m, Unsubscribe(c)).state == ReleasingState && Step(m, Unsubscribe(c)).members == [Member(c, true, 0)]
  {
    var n := Note(m, Took(m.state, Unsubscribe(c)));
    EqualsEquivalence(c, c, c);
    OnlyOne(n, Member(c, false, 0), c);
    OnlyOne(Close(n, 0), Member(c, true, 0), c);
  }

  /** An equal subscriber is there already, so nothing happens but the call. */
  lemma SecondIgnored(m: Machine, x: Member, c: Client)
    requires !m.single && m.state == PendingState && m.members == [x] && x.client.Equals(c)
    ensures Step(m, Subscribe(c)) == Note(m, Took(PendingState, Subscribe(c)))
  {
    OnlyOne(Note(m, Took(PendingState, Subscribe(c))), x, c);
  }

  lemma SuplMessages(c: AtlClient, d: BitClient)
    ensures HandleAll(Start(), [RequestAtl(TypeSupl, c), RequestBit(IfSupl, d), OpenSuccess(TypeSupl)]).agnss ==
      Step(Step(Step(Init(false), Subscribe(c)), Subscribe(d)), Granted)
  {
    HandleThree(Start(), RequestAtl(TypeSupl, c), RequestBit(IfSupl, d), OpenSuccess(TypeSupl));
  }

  lemma WifiMessages(c: WifiClient)
    requires c.sender == SENDER_QUIPC || c.sender == SENDER_MSAPM
    ensures HandleAll(Start(), [RequestWifi(c), OpenSuccess(TypeWifi), ReleaseWifi(c)]).wifi ==
      Step(Step(Step(Init(true), Subscribe(c)), Granted), Unsubscribe(c))
  {
    HandleThree(Start(), RequestWifi(c), OpenSuccess(TypeWifi), ReleaseWifi(c));
  }

  /** An ATL handle equal to a BIT address: the BIT client is taken for the ATL one and never told anything. */
  lemma AnotherKindUnserved(id: int, ipv6: seq<byte>)
    requires id != INADDR_NONE && |ipv6| == 16
    ensures var msgs := [RequestAtl(TypeSupl, Atl(id)), RequestBit(IfSupl, Bit(id, ipv6)), OpenSuccess(TypeSupl)];
      var m := HandleAll(Start(), msgs).agnss;
      && m.state == AcquiredState
      && m.members == [Member(Atl(id), false, 0)]
      && !HasService(m, Bit(id, ipv6))
      && forall e :: e in m.log && e.Told? ==> e.client == Atl(id)
  {
    SuplMessages(Atl(id), Bit(id, ipv6));
    OneForTwo(Atl(id), Bit(id, ipv6));
  }

  lemma OneForTwo(x: AtlClient, c: BitClient)
    requires x.Equals(c)
    ensures Step(Step(Step(Init(false), Subscribe(x)), Subscribe(c)), Granted) ==
      Machine(false, AcquiredState, [Member(x, false, 0)],
              [Took(ReleasedState, Subscribe(x)), Joined(0, x), Asked(Request, Some(x)),
               Took(PendingState, Subscribe(c)), Took(PendingState, Granted), Told(Some(0), x, GRANTED)])
  {
    FirstSubscribes(false, x);
    var a := Step(Init(false), Subscribe(x));
    SecondIgnored(a, Member(x, false, 0), c);
    FirstGranted(Step(a, Subscribe(c)), Member(x, false, 0));
  }

  /** A WIFI client that has unsubscribed and subscribes again before its connection is down is turned away. */
  lemma InactiveUnserved(c: WifiClient)
    requires c.sender == SENDER_QUIPC || c.sender == SENDER_MSAPM
    ensures var msgs := [RequestWifi(c), OpenSuccess(TypeWifi), ReleaseWifi(c)];
      var m := HandleAll(Start(), msgs).wifi;
      && m.state == ReleasingState && m.members == [Member(c, true, 0)]
      && Told(None, c, DENIED) in Step(m, Subscribe(c)).log
      && !HasService(AskAndGrant(m, c), c)
  {
    var msgs := [RequestWifi(c), OpenSuccess(TypeWifi), ReleaseWifi(c)];
    WifiMessages(c);
    WifiLeft(c);
    WifiMachineServes(msgs, c);
    WifiMachineSingle(msgs, c);
  }

  lemma WifiLeft(c: WifiClient)
    ensures var m := Step(Step(Step(Init(true), Subscribe(c)), Granted), Unsubscribe(c));
      m.state == ReleasingState && m.members == [Member(c, true, 0)]
  {
    FirstSubscribes(true, c);
    FirstGranted(Step(Init(true), Subscribe(c)), Member(c, false, 0));
    WifiLeaves(Step(Step(Init(true), Subscribe(c)), Granted), c);
  }

  lemma CrossedMessages(c: BitClient, d: AtlClient)
    ensures var g := HandleAll(Start(), [RequestBit(IfSupl, c), RequestAtl(TypeAny, d), ReleaseAtl(d)]);
      var a, b := Step(Init(false), Subscribe(c)), Step(Init(false), Subscribe(d));
      && g.agnss == Step(a, Unsubscribe(d))
      && g.internet == if Unsubscribable(a, d) then b else Step(b, Unsubscribe(d))
  {
    HandleThree(Start(), RequestBit(IfSupl, c), RequestAtl(TypeAny, d), ReleaseAtl(d));
  }

  lemma OnlyLeaves(m: Machine, x: Member, c: Client)
    requires m.state == PendingState && m.members == [x] && !x.client.Wifi? && x.client.Equals(c)
    ensures var n := Step(m, Unsubscribe(c));
      n.members == [] && Told(Some(x.since), x.client, UNSUBSCRIBE) in n.log
  {
    var n := Note(m, Took(PendingState, Unsubscribe(c)));
    OnlyOne(n, x, c);
    AddressedToOne(n.members, 0);
    assert n.members[..0] + n.members[1..] == [];
    var told := Told(Some(x.since), x.client, UNSUBSCRIBE);
    var d := Close(n, 0);
    assert d.log == n.log + [told] && d.log[|n.log|] == told;
    assert d.log <= Step(m, Unsubscribe(c)).log;
  }

  /** The release of an ATL handle equal to a BIT address ends the BIT client's membership and not its own. */
  lemma AnotherKindReleased(id: int, ipv6: seq<byte>)
    requires id != INADDR_NONE && |ipv6| == 16
    ensures var bit, atl := Bit(id, ipv6), Atl(id);
      var g := HandleAll(Start(), [RequestBit(IfSupl, bit), RequestAtl(TypeAny, atl), ReleaseAtl(atl)]);
      && g.agnss.members == [] && Told(Some(0), bit, UNSUBSCRIBE) in g.agnss.log
      && g.internet.members == [Member(atl, false, 0)]
  {
    CrossedMessages(Bit(id, ipv6), Atl(id));
    FirstSubscribes(false, Bit(id, ipv6));
    FirstSubscribes(false, Atl(id));
    var a := Step(Init(false), Subscribe(Bit(id, ipv6)));
    OnlyOne(a, Member(Bit(id, ipv6), false, 0), Atl(id));
    OnlyLeaves(a, Member(Bit(id, ipv6), false, 0), Atl(id));
  }

  /** A restart while a connection is asked for: it stays asked for, for nobody. */
  lemma RestartOrphans(c: AtlClient)
    ensures var g := HandleAll(Start(), [RequestAtl(TypeSupl, c), OpenSuccess(TypeSupl), EngineUp]);
      Orphaned(g.agnss) && Sum(g.agnss.log, Connection) == 1
  {
    var msgs := [RequestAtl(TypeSupl, c), OpenSuccess(TypeSupl), EngineUp];
    HandleThree(Start(), msgs[0], msgs[1], msgs[2]);
    DataMachinesCount(msgs);
  }
}
