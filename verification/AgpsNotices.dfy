/** Why each notification is sent, and who gets one: the answer always fits the question. */
module AgpsNotices {
  import opened Common
  import opened AgpsModel
  import opened AgpsShape
  import opened AgpsGrants

  // ----- every notification has its reason

  /** Whether an event that finds the machine in `state` is a reason for this notification. */
  predicate Due(single: bool, state: State, event: Event, told: Entry)
    requires told.Told?
  {
    if told.to.None? then
      && event == Subscribe(told.client)
      && if told.status == GRANTED then state == AcquiredState else told.status == DENIED && single
    else
      match event
      case Granted => told.status == GRANTED && state == PendingState
      case Denied => told.status == DENIED && (state == PendingState || state == ReleasingState)
      case Released => told.status == RELEASED && (state == AcquiredState || state == ReleasingState)
      case Unsubscribe(c) => told.status == UNSUBSCRIBE && told.client.Equals(c)
      case _ => false
  }

  /** Whether it is a reason for any other entry of the log. */
  predicate Fitting(single: bool, state: State, event: Event, x: Entry) {
    match x
    case Took(_, _) => false
    case Told(_, _, _) => Due(single, state, event, x)
    case Joined(_, c) => event == Subscribe(c)
    case Dropped(_) => event == Restart
    case Asked(Request, _) =>
      (event.Subscribe? && state == ReleasedState) || ((event == Released || event == Denied) && state == ReleasingState)
    case Asked(Release, _) => event.Unsubscribe? && (state == PendingState || state == AcquiredState)
    case _ => false
  }

  /** `n` is `m` with a longer log, whose new entries all fit the event. */
  ghost predicate Answers(m: Machine, n: Machine, single: bool, state: State, event: Event) {
    m.log <= n.log && forall i :: |m.log| <= i < |n.log| ==> Fitting(single, state, event, n.log[i])
  }

  lemma AnswersTrans(a: Machine, b: Machine, c: Machine, single: bool, state: State, event: Event)
    requires Answers(a, b, single, state, event) && Answers(b, c, single, state, event)
    ensures Answers(a, c, single, state, event)
  {
  }

  lemma NotifyAnswers(m: Machine, n: Notification, single: bool, state: State, event: Event)
    requires Deliverable(n.status)
    requires forall x :: x in m.members && ForMe(x, n.target) ==>
      Due(single, state, event, Told(Some(x.since), x.client, n.status))
    ensures Answers(m, Notify(m, n), single, state, event)
  {
    var told := Tell(m.members, n.target, n.status);
    forall i | |m.log| <= i < |m.log + told| ensures Fitting(single, state, event, (m.log + told)[i]) {
      var x := TellFrom(m.members, n.target, n.status, told[i - |m.log|]);
    }
  }

  lemma CloseAnswers(m: Machine, k: nat, c: Client)
    requires k < |m.members| && Distinct(m.members) && m.members[k].client.Equals(c)
    ensures Answers(m, Close(m, k), m.single, m.state, Unsubscribe(c))
  {
    var d := m.members[k].client;
    if !d.Wifi? {
      forall x | x in m.members && ForMe(x, To(d))
        ensures Due(m.single, m.state, Unsubscribe(c), Told(Some(x.since), x.client, UNSUBSCRIBE))
      {
        EqualsEquivalence(x.client, d, c);
      }
      NotifyAnswers(m, Notification(To(d), UNSUBSCRIBE, true), m.single, m.state, Unsubscribe(c));
    }
  }

  lemma UnsubscribeAnswers(m: Machine, k: nat, c: Client)
    requires Shape(m) && k < |m.members| && m.members[k].client.Equals(c)
    ensures Answers(m, OnUnsubscribe(m, k), m.single, m.state, Unsubscribe(c))
  {
    CloseAnswers(m, k, c);
    AnswersTrans(m, Close(m, k), OnUnsubscribe(m, k), m.single, m.state, Unsubscribe(c));
  }

  /** What is left after a release completes is active, so a request for it passes the gate. */
  lemma CompletedAnswers(m: Machine, e: Event, status: Status)
    requires Shape(m) && m.state == ReleasingState
    requires (e == Released && status == RELEASED) || (e == Denied && status == DENIED)
    ensures Answers(m, OnFramework(m, status), m.single, m.state, e)
  {
    hide Tell, Keep;
    var n := Notify(m, Notification(BroadcastInactive, status, true));
    NotifyAnswers(m, Notification(BroadcastInactive, status, true), m.single, m.state, e);
    NotifyKeeps(m, Notification(BroadcastInactive, status, true));
    KeepMembers(m.members, BroadcastInactive);
    if n.members != [] {
      HasSome(n.members, BroadcastActive, n.members[0]);
    }
    assert Answers(n, OnFramework(m, status), m.single, m.state, e);
    AnswersTrans(m, n, OnFramework(m, status), m.single, m.state, e);
  }

  lemma FrameworkAnswers(m: Machine, e: Event, status: Status)
    requires Shape(m)
    requires (e == Granted && status == GRANTED) || (e == Released && status == RELEASED) || (e == Denied && status == DENIED)
    ensures Answers(m, OnFramework(m, status), m.single, m.state, e)
  {
    match m.state {
      case ReleasedState =>
      case PendingState =>
        if e == Granted {
          NotifyAnswers(m, Notification(BroadcastActive, GRANTED, false), m.single, m.state, e);
        } else if e == Denied {
          NotifyAnswers(m, Notification(BroadcastAll, DENIED, true), m.single, m.state, e);
        }
      case AcquiredState =>
        if e == Released {
          NotifyAnswers(m, Notification(BroadcastAll, RELEASED, true), m.single, m.state, e);
        }
      case ReleasingState =>
        if e != Granted {
          CompletedAnswers(m, e, status);
        }
    }
  }

  lemma AddAnswers(m: Machine, c: Client, call: nat, single: bool, state: State)
    ensures Answers(m, Add(m, c, call), single, state, Subscribe(c))
  {
  }

  lemma SubscribeAnswers(m: Machine, c: Client, call: nat)
    requires Shape(m)
    ensures Answers(m, OnSubscribe(m, c, call), m.single, m.state, Subscribe(c))
  {
    var e := Subscribe(c);
    match m.state {
      case AcquiredState =>
        var n := Note(m, Told(None, c, GRANTED));
        assert n.log[|m.log|] == Told(None, c, GRANTED);
        AddAnswers(n, c, call, m.single, m.state);
        AnswersTrans(m, n, Add(n, c, call), m.single, m.state, e);
      case ReleasedState =>
        var a := Add(m, c, call);
        AddAnswers(m, c, call, m.single, m.state);
        assert a.members == [Member(c, false, call)];
        HasSome(a.members, BroadcastActive, a.members[0]);
        AnswersTrans(m, a, OnSubscribe(m, c, call), m.single, m.state, e);
      case _ =>
        AddAnswers(m, c, call, m.single, m.state);
    }
  }

  lemma RestartAnswers(m: Machine)
    ensures Answers(m, m.(members := [], log := m.log + Drops(m.members)), m.single, m.state, Restart)
  {
    var drops := Drops(m.members);
    DropsDropped(m.members);
    forall i | |m.log| <= i < |m.log + drops| ensures Fitting(m.single, m.state, Restart, (m.log + drops)[i]) {
      assert drops[i - |m.log|] in drops;
    }
  }

  /** What a step adds to the log after it has noted the event. */
  function Effects(m: Machine, e: Event): seq<Entry> {
    Step(m, e).log[|m.log| + 1..]
  }

  lemma TurnAwayAnswers(m: Machine, c: Client)
    requires m.single
    ensures Answers(m, Note(m, Told(None, c, DENIED)), m.single, m.state, Subscribe(c))
  {
  }

  lemma StepIsAnswer(m: Machine, e: Event)
    requires Shape(m)
    ensures Answers(Note(m, Took(m.state, e)), Step(m, e), m.single, m.state, e)
  {
    hide OnSubscribe, OnUnsubscribe, OnFramework, Fitting;
    var n := Note(m, Took(m.state, e));
    match e {
      case Subscribe(c) =>
        if m.single && m.members != [] {
          TurnAwayAnswers(n, c);
        } else {
          SubscribeAnswers(n, c, |m.log|);
        }
      case Unsubscribe(c) =>
        var k := Find(n.members, To(c));
        if k < |n.members| {
          UnsubscribeAnswers(n, k, c);
        }
      case Granted => FrameworkAnswers(n, e, GRANTED);
      case Released => FrameworkAnswers(n, e, RELEASED);
      case Denied => FrameworkAnswers(n, e, DENIED);
      case Restart => RestartAnswers(n);
    }
  }

  lemma StepAnswers(m: Machine, e: Event)
    requires Shape(m)
    ensures Step(m, e).log == m.log + [Took(m.state, e)] + Effects(m, e)
    ensures forall x :: x in Effects(m, e) ==> Fitting(m.single, m.state, e, x)
  {
    hide Step, Fitting;
    StepIsAnswer(m, e);
    var n := Note(m, Took(m.state, e));
    assert n.log == Step(m, e).log[..|n.log|];
  }

  function LastTook(log: seq<Entry>): (t: Option<Entry>)
    ensures t.Some? ==> t.value.Took?
  {
    if log == [] then None
    else if log[|log| - 1].Took? then Some(log[|log| - 1]) else LastTook(log[..|log| - 1])
  }

  lemma {:induction false} LastTookIs(log: seq<Entry>, took: Entry, more: seq<Entry>)
    requires took.Took? && forall x :: x in more ==> !x.Took?
    ensures LastTook(log + [took] + more) == Some(took)
  {
    var all := log + [took] + more;
    if more == [] {
      assert all == log + [took];
    } else {
      var k := |more| - 1;
      assert all[..|all| - 1] == log + [took] + more[..k];
      assert all[|all| - 1] == more[k];
      LastTookIs(log, took, more[..k]);
    }
  }

  /** Every notification in the log answers the last event before it. */
  ghost predicate AllDue(single: bool, log: seq<Entry>) {
    forall i :: 0 <= i < |log| && log[i].Told? ==> DueAt(single, log, i)
  }

  predicate DueAt(single: bool, log: seq<Entry>, i: nat)
    requires i < |log| && log[i].Told?
  {
    var t := LastTook(log[..i]);
    t.Some? && Due(single, t.value.state, t.value.event, log[i])
  }

  lemma MoreDue(single: bool, log: seq<Entry>, took: Entry, more: seq<Entry>)
    requires AllDue(single, log) && took.Took?
    requires forall x :: x in more ==> Fitting(single, took.state, took.event, x)
    ensures AllDue(single, log + [took] + more)
  {
    hide Due;
    var all := log + [took] + more;
    forall i | 0 <= i < |all| && all[i].Told? ensures DueAt(single, all, i) {
      if i < |log| {
        assert all[..i] == log[..i] && all[i] == log[i];
        assert DueAt(single, log, i);
      } else {
        var j := i - |log| - 1;
        assert all[i] == more[j] && more[j] in more;
        assert all[..i] == log + [took] + more[..j];
        assert forall x :: x in more[..j] ==> Fitting(single, took.state, took.event, x);
        LastTookIs(log, took, more[..j]);
      }
    }
  }

  lemma StepDue(m: Machine, e: Event)
    requires Shape(m) && AllDue(m.single, m.log)
    ensures AllDue(m.single, Step(m, e).log)
  {
    hide Step, AllDue, Fitting;
    StepAnswers(m, e);
    MoreDue(m.single, m.log, Took(m.state, e), Effects(m, e));
  }

  /**
   * In every run, each notification answers the last event before it: a member is told GRANTED only on a grant in
   * Pending, DENIED only on a denial and RELEASED only on a release that finds the machine waiting for it, and
   * UNSUBSCRIBE only when it unsubscribes. Who subscribes is told at once only GRANTED in Acquired, or DENIED by a
   * machine for one subscriber.
   */
  lemma {:induction false} EveryNoticeDue(single: bool, es: seq<Event>)
    ensures AllDue(single, Run(Init(single), es).log)
    decreases |es|
  {
    hide Step, AllDue;
    if es == [] {
      NothingDue(single);
    } else {
      var k := |es| - 1;
      EveryNoticeDue(single, es[..k]);
      ReachableShape(single, es[..k]);
      StepDue(Run(Init(single), es[..k]), es[k]);
    }
  }

  lemma NothingDue(single: bool)
    ensures AllDue(single, Init(single).log)
  {
  }

  // ----- every reason has its notification

  /** Among distinct members, a notification tells each one it is for exactly once, and nobody else. */
  lemma {:induction false} TellOnce(ms: seq<Member>, t: Target, s: Status, x: Member)
    requires Distinct(ms) && x in ms
    ensures multiset(Tell(ms, t, s))[Told(Some(x.since), x.client, s)] == if ForMe(x, t) then 1 else 0
  {
    var told := Told(Some(x.since), x.client, s);
    var rest := Tell(ms[1..], t, s);
    if ForMe(ms[0], t) {
      assert Tell(ms, t, s) == [Told(Some(ms[0].since), ms[0].client, s)] + rest;
    }
    if x == ms[0] {
      if told in rest {
        var y := TellFrom(ms[1..], t, s, told);
        EqualsEquivalence(y.client, ms[0].client, y.client);
      }
    } else {
      TellOnce(ms[1..], t, s, x);
      EqualsEquivalence(x.client, ms[0].client, x.client);
    }
  }

  /** How often the step tells member `x` this. */
  function Times(m: Machine, e: Event, x: Member, s: Status): nat {
    multiset(Effects(m, e))[Told(Some(x.since), x.client, s)]
  }

  /** The effects of a step that notifies and then perhaps calls the servicer. */
  lemma NotifyEffects(m: Machine, e: Event, n: Notification, tail: seq<Entry>)
    requires Distinct(m.members) && Deliverable(n.status) && (forall y :: y in tail ==> !y.Told?)
    requires Step(m, e).log == Notify(Note(m, Took(m.state, e)), n).log + tail
    ensures forall x :: x in m.members ==> Times(m, e, x, n.status) == if ForMe(x, n.target) then 1 else 0
  {
    hide Step, Tell;
    var told := Tell(m.members, n.target, n.status);
    assert Effects(m, e) == told + tail;
    forall x | x in m.members ensures Times(m, e, x, n.status) == if ForMe(x, n.target) then 1 else 0 {
      TellOnce(m.members, n.target, n.status, x);
      assert Told(Some(x.since), x.client, n.status) !in tail;
    }
  }

  /** The event ends the connection: everybody is told so, once, and the list is empty. */
  ghost predicate Closes(m: Machine, e: Event, s: Status) {
    && Step(m, e).state == ReleasedState && Step(m, e).members == []
    && forall x :: x in m.members ==> Times(m, e, x, s) == 1
  }

  lemma ClosesAll(m: Machine, e: Event, s: Status)
    requires Shape(m)
    requires (m.state == PendingState && e == Denied && s == DENIED) || (m.state == AcquiredState && e == Released && s == RELEASED)
    ensures Closes(m, e, s)
  {
    NotifyEffects(m, e, Notification(BroadcastAll, s, true), []);
    KeepNobody(m.members);
  }

  /** The event brings the connection: every active member is told so, once, and everybody stays. */
  ghost predicate Opens(m: Machine, e: Event) {
    && Step(m, e).state == AcquiredState && Step(m, e).members == m.members
    && forall x :: x in m.members ==> Times(m, e, x, GRANTED) == if x.IsInactive() then 0 else 1
  }

  lemma OpensAll(m: Machine)
    requires Shape(m) && m.state == PendingState
    ensures Opens(m, Granted)
  {
    NotifyEffects(m, Granted, Notification(BroadcastActive, GRANTED, false), []);
  }

  /** The event completes the close: the inactive members are told, once, and gone; for the others it starts again. */
  ghost predicate Completes(m: Machine, e: Event, s: Status) {
    var n := Step(m, e);
    && (forall x :: x in m.members ==> Times(m, e, x, s) == if x.IsInactive() then 1 else 0)
    && (forall x :: x in n.members <==> x in m.members && !x.IsInactive())
    && n.state == if n.members == [] then ReleasedState else PendingState
  }

  /** A release that completes tells the inactive members, and asks again if anybody is left. */
  lemma CompletedLog(m: Machine, e: Event, s: Status) returns (tail: seq<Entry>)
    requires m.state == ReleasingState
    requires (e == Denied && s == DENIED) || (e == Released && s == RELEASED)
    ensures var noted := Notify(Note(m, Took(m.state, e)), Notification(BroadcastInactive, s, true));
      && Step(m, e).log == noted.log + tail
      && Step(m, e).members == noted.members
      && Step(m, e).state == if noted.members == [] then ReleasedState else PendingState
    ensures forall y :: y in tail ==> !y.Told?
  {
    hide Notify;
    var noted := Notify(Note(m, Took(m.state, e)), Notification(BroadcastInactive, s, true));
    tail := if noted.members == [] then [] else Step(m, e).log[|noted.log|..];
  }

  lemma CompletesAll(m: Machine, e: Event, s: Status)
    requires Shape(m) && m.state == ReleasingState
    requires (e == Denied && s == DENIED) || (e == Released && s == RELEASED)
    ensures Completes(m, e, s)
  {
    hide Step, Tell, Times;
    KeepMembers(m.members, BroadcastInactive);
    var tail := CompletedLog(m, e, s);
    NotifyEffects(m, e, Notification(BroadcastInactive, s, true), tail);
  }

  /**
   * In every reachable state, what the framework reports reaches everybody it concerns: a grant in Pending, a denial
   * in Pending, a release in Acquired, and either of the last two in Releasing.
   */
  lemma EveryReasonTold(single: bool, es: seq<Event>)
    ensures var m := Run(Init(single), es);
      && (m.state == PendingState ==> Opens(m, Granted) && Closes(m, Denied, DENIED))
      && (m.state == AcquiredState ==> Closes(m, Released, RELEASED))
      && (m.state == ReleasingState ==> Completes(m, Denied, DENIED) && Completes(m, Released, RELEASED))
  {
    hide Opens, Closes, Completes;
    var m := Run(Init(single), es);
    ReachableShape(single, es);
    if m.state == PendingState {
      OpensAll(m);
      ClosesAll(m, Denied, DENIED);
    } else if m.state == AcquiredState {
      ClosesAll(m, Released, RELEASED);
    } else if m.state == ReleasingState {
      CompletesAll(m, Denied, DENIED);
      CompletesAll(m, Released, RELEASED);
    }
  }

  /** A WIFI member that unsubscribes turns inactive and is told nothing; any other is told UNSUBSCRIBE and gone. */
  ghost predicate Leaves(m: Machine, c: Client, x: Member) {
    var n := Step(m, Unsubscribe(c));
    if x.client.Wifi? then
      && (forall y :: y in n.members <==> (y in m.members && y != x) || y == x.(inactive := true))
      && forall y :: y in Effects(m, Unsubscribe(c)) ==> !y.Told?
    else
      && (forall y :: y in n.members <==> y in m.members && y != x)
      && Times(m, Unsubscribe(c), x, UNSUBSCRIBE) == 1
  }

  lemma LeaveMember(m: Machine, c: Client, x: Member)
    requires Shape(m) && x in m.members && x.client.Equals(c)
    ensures Leaves(m, c, x)
  {
    var n := Note(m, Took(m.state, Unsubscribe(c)));
    var k := Find(n.members, To(c));
    HasSome(n.members, To(c), x);
    EqualsEquivalence(x.client, c, n.members[k].client);
    EqualsEquivalence(n.members[k].client, c, x.client);
    OnlyMember(n.members, x, n.members[k]);
    var d := Close(n, k);
    var tail := Step(m, Unsubscribe(c)).log[|d.log|..];
    assert Step(m, Unsubscribe(c)).log == d.log + tail;
    assert Step(m, Unsubscribe(c)).members == d.members;
    if x.client.Wifi? {
      assert Effects(m, Unsubscribe(c)) == tail;
      FlagMember(m.members, k);
    } else {
      LeaveTold(m, c, k, tail);
    }
  }

  lemma FlagMember(ms: seq<Member>, k: nat)
    requires k < |ms| && Distinct(ms)
    ensures var ns := ms[k := ms[k].(inactive := true)];
      forall y :: y in ns <==> (y in ms && y != ms[k]) || y == ms[k].(inactive := true)
  {
    var x := ms[k];
    var ns := ms[k := x.(inactive := true)];
    forall y | y in ns ensures (y in ms && y != x) || y == x.(inactive := true) {
      var i :| 0 <= i < |ns| && ns[i] == y;
      if i != k {
        DistinctIndex(ms, i, k);
        EqualsEquivalence(x.client, x.client, x.client);
      }
    }
    forall y | (y in ms && y != x) || y == x.(inactive := true) ensures y in ns {
      if y in ms && y != x {
        var i :| 0 <= i < |ms| && ms[i] == y;
        assert ns[i] == y;
      } else {
        assert ns[k] == y;
      }
    }
  }

  lemma LeaveTold(m: Machine, c: Client, k: nat, tail: seq<Entry>)
    requires Distinct(m.members) && k < |m.members| && !m.members[k].client.Wifi?
    requires forall y :: y in tail ==> !y.Told?
    requires var d := Close(Note(m, Took(m.state, Unsubscribe(c))), k);
      Step(m, Unsubscribe(c)).log == d.log + tail && Step(m, Unsubscribe(c)).members == d.members
    ensures Times(m, Unsubscribe(c), m.members[k], UNSUBSCRIBE) == 1
    ensures forall y :: y in Step(m, Unsubscribe(c)).members <==> y in m.members && y != m.members[k]
  {
    hide Step;
    var x := m.members[k];
    EqualsEquivalence(x.client, x.client, x.client);
    NotifyEffects(m, Unsubscribe(c), Notification(To(x.client), UNSUBSCRIBE, true), tail);
    KeepMembers(m.members, To(x.client));
    forall y | y in m.members && y.client.Equals(x.client) ensures y == x {
      OnlyMember(m.members, y, x);
    }
  }

  /** In every reachable state: exactly the member that unsubscribes leaves, and a stranger changes nothing. */
  lemma EveryLeaveTold(single: bool, es: seq<Event>, c: Client)
    ensures var m := Run(Init(single), es);
      && (forall x :: x in m.members && x.client.Equals(c) ==> Leaves(m, c, x))
      && ((forall x :: x in m.members ==> !x.client.Equals(c)) ==>
            Step(m, Unsubscribe(c)) == Note(m, Took(m.state, Unsubscribe(c))))
  {
    hide Leaves;
    var m := Run(Init(single), es);
    ReachableShape(single, es);
    forall x | x in m.members && x.client.Equals(c) ensures Leaves(m, c, x) {
      LeaveMember(m, c, x);
    }
  }

  // ----- where it goes next

  ghost predicate SomeActive(ms: seq<Member>) {
    exists x :: x in ms && !x.IsInactive()
  }

  /**
   * An unsubscribe that leaves nobody ends in Released, one that leaves nobody active in Releasing; a release that
   * completes goes back to Pending if anybody is still active.
   */
  ghost predicate Moves(m: Machine, e: Event) {
    var n := Step(m, e);
    n.state ==
      match e
      case Subscribe(_) => if m.state == ReleasedState then PendingState else m.state
      case Unsubscribe(c) =>
        if forall x :: x in m.members ==> !x.client.Equals(c) then m.state
        else if n.members == [] then ReleasedState
        else if !SomeActive(n.members) then ReleasingState
        else m.state
      case Restart => m.state
      case _ =>
        match m.state
        case ReleasedState => ReleasedState
        case PendingState => if e == Granted then AcquiredState else if e == Denied then ReleasedState else PendingState
        case AcquiredState => if e == Released then ReleasedState else AcquiredState
        case ReleasingState =>
          if e == Granted then ReleasingState else if SomeActive(m.members) then PendingState else ReleasedState
  }

  lemma ActiveIs(ms: seq<Member>)
    ensures Has(ms, BroadcastActive) <==> SomeActive(ms)
  {
    if Has(ms, BroadcastActive) {
      assert ms[Find(ms, BroadcastActive)] in ms;
    }
  }

  lemma UnsubscribeMoves(m: Machine, c: Client)
    requires Shape(m)
    ensures Moves(m, Unsubscribe(c))
  {
    hide Close, SomeActive;
    var n := Note(m, Took(m.state, Unsubscribe(c)));
    var k := Find(n.members, To(c));
    if k < |n.members| {
      var d := Close(n, k);
      assert n.members[k] in m.members;
      CloseKeeps(n, k);
      ActiveIs(d.members);
    }
  }

  lemma FrameworkMoves(m: Machine, e: Event)
    requires Shape(m) && (e == Granted || e == Released || e == Denied)
    ensures Moves(m, e)
  {
    hide Tell, Keep;
    if m.state == ReleasingState && e != Granted {
      var s := if e == Released then RELEASED else DENIED;
      KeepMembers(m.members, BroadcastInactive);
      var tail := CompletedLog(m, e, s);
      var left := Step(m, e).members;
      assert left == Keep(m.members, BroadcastInactive);
      assert left != [] ==> left[0] in m.members && !left[0].IsInactive();
    }
  }

  lemma EveryMove(single: bool, es: seq<Event>, e: Event)
    ensures Moves(Run(Init(single), es), e)
  {
    var m := Run(Init(single), es);
    ReachableShape(single, es);
    match e {
      case Unsubscribe(c) => UnsubscribeMoves(m, c);
      case Subscribe(_) =>
      case Restart =>
      case _ => FrameworkMoves(m, e);
    }
  }

  // ----- on whose behalf

  /** The list goes from the newest member to the oldest. */
  ghost predicate NewestFirst(m: Machine) {
    && (forall x :: x in m.members ==> x.since < |m.log|)
    && Descending(m.members)
  }

  ghost predicate Descending(ms: seq<Member>) {
    ms == [] || ((forall y :: y in ms[1..] ==> y.since < ms[0].since) && Descending(ms[1..]))
  }

  lemma {:induction false} KeepDescending(ms: seq<Member>, t: Target)
    requires Descending(ms)
    ensures Descending(Keep(ms, t))
  {
    if ms != [] {
      KeepDescending(ms[1..], t);
      KeepMembers(ms[1..], t);
    }
  }

  lemma {:induction false} FlagDescending(ms: seq<Member>, k: nat)
    requires k < |ms| && Descending(ms)
    ensures Descending(ms[k := ms[k].(inactive := true)])
  {
    var ns := ms[k := ms[k].(inactive := true)];
    if k == 0 {
      assert ns[1..] == ms[1..];
    } else {
      assert ns[1..] == ms[1..][k - 1 := ms[k].(inactive := true)];
      FlagDescending(ms[1..], k - 1);
      forall y | y in ns[1..] ensures y.since < ns[0].since {
        assert y in ms[1..] || y == ms[1..][k - 1].(inactive := true);
      }
    }
  }

  lemma CloseNewest(m: Machine, k: nat)
    requires NewestFirst(m) && k < |m.members|
    ensures NewestFirst(Close(m, k))
  {
    FlagDescending(m.members, k);
    KeepDescending(m.members, To(m.members[k].client));
    KeepMembers(m.members, To(m.members[k].client));
  }

  lemma NotifyNewest(m: Machine, n: Notification)
    requires NewestFirst(m) && Deliverable(n.status)
    ensures NewestFirst(Notify(m, n))
  {
    KeepDescending(m.members, n.target);
    KeepMembers(m.members, n.target);
  }

  lemma FrameworkNewest(m: Machine, status: Status)
    requires NewestFirst(m) && (status == GRANTED || status == RELEASED || status == DENIED)
    ensures NewestFirst(OnFramework(m, status))
  {
    NotifyNewest(m, Notification(BroadcastActive, status, false));
    NotifyNewest(m, Notification(BroadcastAll, status, true));
    NotifyNewest(m, Notification(BroadcastInactive, status, true));
  }

  lemma AddNewest(m: Machine, c: Client, call: nat)
    requires NewestFirst(m) && call < |m.log| && forall x :: x in m.members ==> x.since < call
    ensures NewestFirst(Add(m, c, call))
  {
    var n := Add(m, c, call);
    if n != m {
      assert n.members[1..] == m.members;
    }
  }

  lemma SubscribeNewest(m: Machine, c: Client, call: nat)
    requires NewestFirst(m) && call < |m.log| && forall x :: x in m.members ==> x.since < call
    ensures NewestFirst(OnSubscribe(m, c, call))
  {
    AddNewest(m, c, call);
    AddNewest(CheckEmpty(m), c, call);
    AddNewest(Note(m, Told(None, c, GRANTED)), c, call);
  }

  lemma UnsubscribeNewest(m: Machine, k: nat)
    requires NewestFirst(m) && k < |m.members|
    ensures NewestFirst(OnUnsubscribe(m, k))
  {
    CloseNewest(m, k);
  }

  lemma StepNewest(m: Machine, e: Event)
    requires NewestFirst(m)
    ensures NewestFirst(Step(m, e))
  {
    var n := Note(m, Took(m.state, e));
    match e {
      case Subscribe(c) =>
        SubscribeNewest(n, c, |m.log|);
      case Unsubscribe(c) =>
        var k := Find(n.members, To(c));
        if k < |n.members| {
          UnsubscribeNewest(n, k);
        }
      case Granted => FrameworkNewest(n, GRANTED);
      case Released => FrameworkNewest(n, RELEASED);
      case Denied => FrameworkNewest(n, DENIED);
      case Restart =>
    }
  }

  lemma {:induction false} RunNewest(single: bool, es: seq<Event>)
    ensures NewestFirst(Run(Init(single), es))
    decreases |es|
  {
    hide Step, NewestFirst;
    if es == [] {
      InitNewest(single);
    } else {
      RunNewest(single, es[..|es| - 1]);
      StepNewest(Run(Init(single), es[..|es| - 1]), es[|es| - 1]);
    }
  }

  lemma InitNewest(single: bool)
    ensures NewestFirst(Init(single))
  {
  }

  lemma {:induction false} FirstIsNewest(ms: seq<Member>)
    requires Descending(ms)
    ensures var k := Find(ms, BroadcastActive);
      k < |ms| ==> forall y :: y in ms && !y.IsInactive() ==> y.since <= ms[k].since
  {
    if ms != [] && ms[0].IsInactive() {
      FirstIsNewest(ms[1..]);
    }
  }

  /** The client of the active member that subscribed last. */
  ghost predicate Newest(ms: seq<Member>, c: Client) {
    exists x :: x in ms && x.client == c && !x.IsInactive() && forall y :: y in ms && !y.IsInactive() ==> y.since <= x.since
  }

  predicate IsRequest(x: Entry) {
    x.Asked? && x.action.Request?
  }

  /** A request made on the way from `m` to `n` is for the first active member of the list it leaves. */
  ghost predicate ForFirst(m: Machine, n: Machine) {
    && m.log <= n.log
    && var k := Find(n.members, BroadcastActive);
       forall i :: |m.log| <= i < |n.log| && IsRequest(n.log[i]) ==>
         n.log[i].behalf == if k < |n.members| then Some(n.members[k].client) else None
  }

  /** No request at all is made. */
  ghost predicate NoRequest(m: Machine, n: Machine) {
    m.log <= n.log && forall i :: |m.log| <= i < |n.log| ==> !IsRequest(n.log[i])
  }

  lemma NotifyNoRequest(m: Machine, n: Notification)
    requires Deliverable(n.status)
    ensures NoRequest(m, Notify(m, n))
  {
    var told := Tell(m.members, n.target, n.status);
    TellTold(m.members, n.target, n.status);
    forall i | |m.log| <= i < |m.log + told| ensures !IsRequest((m.log + told)[i]) {
      assert told[i - |m.log|] in told;
    }
  }

  lemma AskForFirst(m: Machine, n: Machine, a: Action)
    requires NoRequest(m, n)
    ensures ForFirst(m, Ask(n, a))
  {
  }

  lemma QuietForFirst(m: Machine, n: Machine)
    requires NoRequest(m, n)
    ensures ForFirst(m, n)
  {
  }

  lemma FrameworkForFirst(m: Machine, status: Status)
    requires status == GRANTED || status == RELEASED || status == DENIED
    ensures ForFirst(m, OnFramework(m, status))
  {
    hide Notify, Ask, ForFirst;
    var active, all := Notification(BroadcastActive, status, false), Notification(BroadcastAll, status, true);
    var inactive := Notification(BroadcastInactive, status, true);
    NotifyNoRequest(m, active);
    NotifyNoRequest(m, all);
    NotifyNoRequest(m, inactive);
    QuietForFirst(m, m);
    QuietForFirst(m, CheckEmpty(m));
    QuietForFirst(m, Enter(Notify(m, active), AcquiredState));
    QuietForFirst(m, Enter(Notify(m, all), ReleasedState));
    QuietForFirst(m, Enter(Notify(m, inactive), ReleasedState));
    AskForFirst(m, Enter(Notify(m, inactive), PendingState), Request);
  }

  lemma CloseNoRequest(m: Machine, k: nat)
    requires k < |m.members|
    ensures NoRequest(m, Close(m, k))
  {
    NotifyNoRequest(m, Notification(To(m.members[k].client), UNSUBSCRIBE, true));
  }

  lemma UnsubscribeForFirst(m: Machine, k: nat)
    requires k < |m.members|
    ensures ForFirst(m, OnUnsubscribe(m, k))
  {
    hide Close, Ask, ForFirst, Has;
    CloseNoRequest(m, k);
    var n := Close(m, k);
    QuietForFirst(m, n);
    QuietForFirst(m, Enter(n, ReleasedState));
    QuietForFirst(m, Note(CheckEmpty(m), Told(Some(m.members[k].since), m.members[k].client, UNSUBSCRIBE)));
    AskForFirst(m, Enter(n, ReleasedState), Release);
    AskForFirst(m, Enter(n, ReleasingState), Release);
  }

  lemma SubscribeForFirst(m: Machine, c: Client, call: nat)
    ensures ForFirst(m, OnSubscribe(m, c, call))
  {
    hide Ask, ForFirst, Has;
    QuietForFirst(m, Add(m, c, call));
    QuietForFirst(m, Add(Note(m, Told(None, c, GRANTED)), c, call));
    AskForFirst(m, Enter(Add(CheckEmpty(m), c, call), PendingState), Request);
  }

  lemma RestartForFirst(m: Machine)
    ensures NoRequest(m, m.(members := [], log := m.log + Drops(m.members)))
  {
    var drops := Drops(m.members);
    DropsDropped(m.members);
    forall i | |m.log| <= i < |m.log + drops| ensures !IsRequest((m.log + drops)[i]) {
      assert drops[i - |m.log|] in drops;
    }
  }

  lemma StepForFirst(m: Machine, e: Event)
    ensures ForFirst(Note(m, Took(m.state, e)), Step(m, e))
  {
    var n := Note(m, Took(m.state, e));
    match e {
      case Subscribe(c) => SubscribeForFirst(n, c, |m.log|);
      case Unsubscribe(c) =>
        var k := Find(n.members, To(c));
        if k < |n.members| {
          UnsubscribeForFirst(n, k);
        }
      case Granted => FrameworkForFirst(n, GRANTED);
      case Released => FrameworkForFirst(n, RELEASED);
      case Denied => FrameworkForFirst(n, DENIED);
      case Restart => RestartForFirst(n);
    }
  }

  lemma StepAsks(m: Machine, e: Event, x: Entry)
    requires Shape(m) && NewestFirst(m) && x in Effects(m, e) && IsRequest(x)
    ensures x.behalf.Some? && Newest(Step(m, e).members, x.behalf.value)
  {
    hide Step;
    StepNewest(m, e);
    StepKeeps(m, e);
    StepForFirst(m, e);
    var n := Step(m, e);
    var i :| 0 <= i < |Effects(m, e)| && Effects(m, e)[i] == x;
    assert n.log[|m.log| + 1 + i] == x;
    FirstIsNewest(n.members);
  }

  /** In every run, a connection is requested on behalf of the active member that subscribed last. */
  lemma RequestedForNewest(single: bool, es: seq<Event>, e: Event, x: Entry)
    requires x in Effects(Run(Init(single), es), e) && IsRequest(x)
    ensures x.behalf.Some? && Newest(Step(Run(Init(single), es), e).members, x.behalf.value)
  {
    hide Step, Newest;
    ReachableShape(single, es);
    RunNewest(single, es);
    StepAsks(Run(Init(single), es), e, x);
  }
}
