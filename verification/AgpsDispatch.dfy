/** What each message of the deferred-action thread does to which of the three AGPS state machines. */
module AgpsDispatch {
  import opened Common
  import opened AgpsModel
  import opened AgpsShape
  import opened AgpsGrants
  import opened AgpsNotices
  import opened AgpsService
  import opened AgpsEngine

  /** What happened to a machine between two moments. */
  function News(m: Machine, n: Machine): seq<Entry>
    requires |m.log| <= |n.log|
  {
    n.log[|m.log|..]
  }

  function TimesTold(news: seq<Entry>, x: Member, s: Status): nat {
    multiset(news)[Told(Some(x.since), x.client, s)]
  }

  /** The connection is there: every active member has been told so once, and everybody stays. */
  ghost predicate Opened(m: Machine, n: Machine) {
    && |m.log| <= |n.log| && n.state == AcquiredState && n.members == m.members
    && forall x :: x in m.members ==> TimesTold(News(m, n), x, GRANTED) == if x.IsInactive() then 0 else 1
  }

  /** The connection is refused or gone: every member has been told so once, and nobody stays. */
  ghost predicate Ended(m: Machine, n: Machine, s: Status) {
    && |m.log| <= |n.log| && n.state == ReleasedState && n.members == []
    && forall x :: x in m.members ==> TimesTold(News(m, n), x, s) == 1
  }

  /** The close is complete: the inactive members have been told so once, the active ones stay. */
  ghost predicate Completed(m: Machine, n: Machine, s: Status) {
    && |m.log| <= |n.log| && n.state == (if n.members == [] then ReleasedState else PendingState)
    && (forall x :: x in m.members ==> TimesTold(News(m, n), x, s) == if x.IsInactive() then 1 else 0)
    && (forall x :: x in n.members <==> x in m.members && !x.IsInactive())
  }

  /** Nothing but the arrival of an event. */
  ghost predicate Unmoved(m: Machine, n: Machine) {
    && |m.log| <= |n.log| && n.state == m.state && n.members == m.members
    && forall x :: x in News(m, n) ==> x.Took?
  }

  /** `wifi_nif` is for WIFI, `agnss_nif` for SUPL, and `internet_nif` for all the rest. */
  function MachineFor(g: Engine, t: AgpsType): Machine {
    if t == TypeWifi then g.wifi else if t == TypeSupl then g.agnss else g.internet
  }

  predicate OnlyFor(g: Engine, h: Engine, t: AgpsType) {
    && (t != TypeWifi ==> h.wifi == g.wifi)
    && (t != TypeSupl ==> h.agnss == g.agnss)
    && (t == TypeWifi || t == TypeSupl ==> h.internet == g.internet)
  }

  // ----- one machine

  lemma SameTimes(m: Machine, e: Event, x: Member, s: Status)
    requires Shape(m)
    ensures TimesTold(News(m, Step(m, e)), x, s) == Times(m, e, x, s)
  {
    hide Step;
    StepAnswers(m, e);
    assert News(m, Step(m, e)) == [Took(m.state, e)] + Effects(m, e);
  }

  lemma OpenedBy(m: Machine)
    requires Shape(m) && m.state == PendingState
    ensures Opened(m, Step(m, Granted))
  {
    hide Step;
    OpensAll(m);
    forall x | x in m.members ensures TimesTold(News(m, Step(m, Granted)), x, GRANTED) == Times(m, Granted, x, GRANTED) {
      SameTimes(m, Granted, x, GRANTED);
    }
  }

  lemma EndedBy(m: Machine, e: Event, s: Status)
    requires Shape(m)
    requires (m.state == PendingState && e == Denied && s == DENIED) || (m.state == AcquiredState && e == Released && s == RELEASED)
    ensures Ended(m, Step(m, e), s)
  {
    hide Step;
    ClosesAll(m, e, s);
    forall x | x in m.members ensures TimesTold(News(m, Step(m, e)), x, s) == Times(m, e, x, s) {
      SameTimes(m, e, x, s);
    }
  }

  lemma CompletedBy(m: Machine, e: Event, s: Status)
    requires Shape(m) && m.state == ReleasingState
    requires (e == Denied && s == DENIED) || (e == Released && s == RELEASED)
    ensures Completed(m, Step(m, e), s)
  {
    hide Step;
    CompletesAll(m, e, s);
    forall x | x in m.members ensures TimesTold(News(m, Step(m, e)), x, s) == Times(m, e, x, s) {
      SameTimes(m, e, x, s);
    }
  }

  lemma UnmovedBy(m: Machine, e: Event)
    requires Shape(m)
    requires (e == Granted && m.state != PendingState) || (e == Released && (m.state == ReleasedState || m.state == PendingState))
          || (e == Denied && (m.state == ReleasedState || m.state == AcquiredState))
    ensures Unmoved(m, Step(m, e))
  {
    assert Step(m, e) == Note(m, Took(m.state, e));
  }

  /** What a grant, a denial and a release do in each state. */
  ghost predicate Grants(m: Machine, n: Machine) {
    if m.state == PendingState then Opened(m, n) else Unmoved(m, n)
  }

  ghost predicate Denies(m: Machine, n: Machine) {
    match m.state
    case PendingState => Ended(m, n, DENIED)
    case ReleasingState => Completed(m, n, DENIED)
    case _ => Unmoved(m, n)
  }

  ghost predicate Releases(m: Machine, n: Machine) {
    match m.state
    case AcquiredState => Ended(m, n, RELEASED)
    case ReleasingState => Completed(m, n, RELEASED)
    case _ => Unmoved(m, n)
  }

  lemma FrameworkDoes(m: Machine)
    requires Shape(m)
    ensures Grants(m, Step(m, Granted)) && Denies(m, Step(m, Denied)) && Releases(m, Step(m, Released))
  {
    hide Step, Opened, Ended, Completed, Unmoved;
    match m.state {
      case ReleasedState =>
        UnmovedBy(m, Granted);
        UnmovedBy(m, Denied);
        UnmovedBy(m, Released);
      case PendingState =>
        OpenedBy(m);
        EndedBy(m, Denied, DENIED);
        UnmovedBy(m, Released);
      case AcquiredState =>
        UnmovedBy(m, Granted);
        UnmovedBy(m, Denied);
        EndedBy(m, Released, RELEASED);
      case ReleasingState =>
        UnmovedBy(m, Granted);
        CompletedBy(m, Denied, DENIED);
        CompletedBy(m, Released, RELEASED);
    }
  }

  // ----- the engine

  lemma ReachedGood(m: Machine, wifi: bool, restarts: bool)
    requires Reached(m, wifi, restarts)
    ensures Good(m) && m.single == wifi
  {
    var es :| ReachedBy(m, wifi, restarts, es);
    ReachableShape(wifi, es);
    RunKnows(wifi, es);
  }

  lemma AllGood(msgs: seq<Message>)
    ensures var g := HandleAll(Start(), msgs);
      Good(g.agnss) && Good(g.internet) && Good(g.wifi)
  {
    EveryMachineReached(msgs);
    var g := HandleAll(Start(), msgs);
    ReachedGood(g.agnss, false, EngineUp in msgs);
    ReachedGood(g.internet, false, EngineUp in msgs);
    ReachedGood(g.wifi, true, false);
  }

  /**
   * After any messages, what the framework reports of a data call reaches the machine of its type and no other: a
   * success grants what that machine waits for, a failure denies it, and a close releases what it holds.
   */
  lemma FrameworkMessages(msgs: seq<Message>, t: AgpsType)
    ensures var g := HandleAll(Start(), msgs);
      var granted, failed, closed := Handle(g, OpenSuccess(t)), Handle(g, OpenFailed(t)), Handle(g, Closed(t));
      && OnlyFor(g, granted, t) && Grants(MachineFor(g, t), MachineFor(granted, t))
      && OnlyFor(g, failed, t) && Denies(MachineFor(g, t), MachineFor(failed, t))
      && OnlyFor(g, closed, t) && Releases(MachineFor(g, t), MachineFor(closed, t))
  {
    hide Step, HandleAll, Grants, Denies, Releases, Shape;
    AllGood(msgs);
    FrameworkDoes(MachineFor(HandleAll(Start(), msgs), t));
  }

  /** The machine has been asked for the client, and has it as an active member exactly if it serves it. */
  ghost predicate Asks(m: Machine, n: Machine, c: Client) {
    && |m.log| < |n.log| && n.log[|m.log|] == Took(m.state, Subscribe(c))
    && n.state != ReleasedState && (Listed(n.members, c) <==> Serves(m, c))
  }

  lemma SubscribeAsks(m: Machine, c: Client)
    requires Good(m)
    ensures Asks(m, Step(m, Subscribe(c)), c)
  {
    hide Step, Serves, Listed;
    StepAnswers(m, Subscribe(c));
    Subscribing(m, c);
  }

  /** After any messages, a request reaches the one machine it is meant for; an unknown one reaches none. */
  lemma BitRequests(msgs: seq<Message>, c: BitClient)
    ensures var g := HandleAll(Start(), msgs);
      var s, i := Handle(g, RequestBit(IfSupl, c)), Handle(g, RequestBit(IfAny, c));
      && OnlyFor(g, s, TypeSupl) && Asks(g.agnss, s.agnss, c)
      && OnlyFor(g, i, TypeAny) && Asks(g.internet, i.internet, c)
      && Handle(g, RequestBit(IfOther, c)) == g
  {
    hide Step, HandleAll, Good, Asks;
    AllGood(msgs);
    SubscribeAsks(HandleAll(Start(), msgs).agnss, c);
    SubscribeAsks(HandleAll(Start(), msgs).internet, c);
  }

  /** A call without a type is for SUPL. */
  lemma AtlRequests(msgs: seq<Message>, c: AtlClient, t: AgpsType)
    ensures var g := HandleAll(Start(), msgs);
      var h := Handle(g, RequestAtl(t, c));
      if t == TypeSupl || t == TypeInvalid then OnlyFor(g, h, TypeSupl) && Asks(g.agnss, h.agnss, c)
      else OnlyFor(g, h, TypeAny) && Asks(g.internet, h.internet, c)
  {
    hide Step, HandleAll, Good, Asks;
    AllGood(msgs);
    SubscribeAsks(HandleAll(Start(), msgs).agnss, c);
    SubscribeAsks(HandleAll(Start(), msgs).internet, c);
  }

  /** Only the senders 0 and 1 are known. */
  lemma WifiRequests(msgs: seq<Message>, c: WifiClient)
    ensures var g := HandleAll(Start(), msgs);
      var h := Handle(g, RequestWifi(c));
      if c.sender == 0 || c.sender == 1 then OnlyFor(g, h, TypeWifi) && Asks(g.wifi, h.wifi, c) else h == g
  {
    hide Step, HandleAll, Good, Asks;
    AllGood(msgs);
    SubscribeAsks(HandleAll(Start(), msgs).wifi, c);
  }

  /** No equal client is an active member any more; who was one and is another client's still is. */
  ghost predicate Forgets(m: Machine, n: Machine, c: Client) {
    forall y :: (y in n.members && !y.IsInactive()) <==> (y in m.members && !y.IsInactive() && !y.client.Equals(c))
  }

  lemma UnsubscribeForgets(m: Machine, c: Client)
    requires Shape(m)
    ensures Forgets(m, Step(m, Unsubscribe(c)), c)
  {
    hide Step;
    var n := Step(m, Unsubscribe(c));
    forall y ensures (y in n.members && !y.IsInactive()) <==> (y in m.members && !y.IsInactive() && !y.client.Equals(c)) {
      ForgetsOne(m, c, y);
    }
  }

  lemma ForgetsOne(m: Machine, c: Client, y: Member)
    requires Shape(m)
    ensures var n := Step(m, Unsubscribe(c));
      (y in n.members && !y.IsInactive()) <==> (y in m.members && !y.IsInactive() && !y.client.Equals(c))
  {
    hide Step;
    var n := Note(m, Took(m.state, Unsubscribe(c)));
    var k := Find(m.members, To(c));
    if k < |m.members| {
      var x := m.members[k];
      LeaveMember(m, c, x);
      if y in m.members && y.client.Equals(c) {
        EqualsEquivalence(y.client, c, x.client);
        EqualsEquivalence(x.client, c, y.client);
        OnlyMember(m.members, y, x);
      }
    } else {
      StrangerLeaves(m, c);
      if y in m.members && y.client.Equals(c) {
        HasSome(m.members, To(c), y);
      }
    }
  }

  lemma StrangerLeaves(m: Machine, c: Client)
    requires !Has(m.members, To(c))
    ensures Step(m, Unsubscribe(c)) == Note(m, Took(m.state, Unsubscribe(c)))
  {
  }

  /** After any messages, a release reaches the machine it is meant for, and makes it forget the client. */
  lemma BitReleases(msgs: seq<Message>, c: BitClient)
    ensures var g := HandleAll(Start(), msgs);
      var s, i := Handle(g, ReleaseBit(IfSupl, c)), Handle(g, ReleaseBit(IfAny, c));
      && OnlyFor(g, s, TypeSupl) && Forgets(g.agnss, s.agnss, c)
      && OnlyFor(g, i, TypeAny) && Forgets(g.internet, i.internet, c)
      && Handle(g, ReleaseBit(IfOther, c)) == g
  {
    hide Step, HandleAll, Forgets;
    AllGood(msgs);
    UnsubscribeForgets(HandleAll(Start(), msgs).agnss, c);
    UnsubscribeForgets(HandleAll(Start(), msgs).internet, c);
  }

  lemma WifiReleases(msgs: seq<Message>, c: WifiClient)
    ensures var g := HandleAll(Start(), msgs);
      var h := Handle(g, ReleaseWifi(c));
      OnlyFor(g, h, TypeWifi) && Forgets(g.wifi, h.wifi, c)
  {
    hide Step, HandleAll, Forgets;
    AllGood(msgs);
    UnsubscribeForgets(HandleAll(Start(), msgs).wifi, c);
  }

  /** That of an ATL client reaches `agnss_nif`, and `internet_nif` only if nobody equal is a member there. */
  lemma AtlReleases(msgs: seq<Message>, c: AtlClient)
    ensures var g := HandleAll(Start(), msgs);
      var h := Handle(g, ReleaseAtl(c));
      && h.wifi == g.wifi && Forgets(g.agnss, h.agnss, c)
      && if exists x :: x in g.agnss.members && x.client.Equals(c) then h.internet == g.internet
         else Forgets(g.internet, h.internet, c)
  {
    hide Step, HandleAll, Forgets;
    AllGood(msgs);
    var g := HandleAll(Start(), msgs);
    UnsubscribeForgets(g.agnss, c);
    UnsubscribeForgets(g.internet, c);
    MemberFound(g.agnss.members, c);
  }

  lemma MemberFound(ms: seq<Member>, c: Client)
    ensures Has(ms, To(c)) <==> exists x :: x in ms && x.client.Equals(c)
  {
    if Has(ms, To(c)) {
      assert ms[Find(ms, To(c))] in ms;
    } else if exists x :: x in ms && x.client.Equals(c) {
      var x :| x in ms && x.client.Equals(c);
      HasSome(ms, To(c), x);
    }
  }

  /** A modem restart empties the two machines of data calls, leaves their states alone, and spares the WIFI one. */
  lemma RestartMessage(g: Engine)
    ensures var h := Handle(g, EngineUp);
      && h.wifi == g.wifi
      && h.agnss.state == g.agnss.state && h.agnss.members == []
      && h.internet.state == g.internet.state && h.internet.members == []
  {
  }
}
