/** Who has been told what, in every run. */
module AgpsGrants {
  import opened Common
  import opened AgpsModel
  import opened AgpsShape

  predicate IsGrant(e: Entry) {
    e.Told? && e.status == GRANTED
  }

  /** Nobody at all has been told GRANTED since position `j`. */
  ghost predicate NoGrantAfter(log: seq<Entry>, j: nat) {
    forall i :: j < i < |log| ==> !IsGrant(log[i])
  }

  /** `x` has been told GRANTED in its current membership, itself or when its client subscribed. */
  ghost predicate Informed(x: Member, log: seq<Entry>) {
    exists i :: x.since < i < |log| && IsGrant(log[i]) && log[i].client == x.client &&
      (log[i].to == None || log[i].to == Some(x.since))
  }

  /** A member comes from a subscribe call of its client. */
  ghost predicate Rooted(x: Member, log: seq<Entry>) {
    x.since < |log| && log[x.since].Took? && log[x.since].event == Subscribe(x.client)
  }

  ghost predicate Knows(state: State, x: Member, log: seq<Entry>) {
    match state
    case ReleasedState => false
    case PendingState => NoGrantAfter(log, x.since)
    case AcquiredState => !x.IsInactive() ==> Informed(x, log)
    case ReleasingState => !x.IsInactive() ==> NoGrantAfter(log, x.since)
  }

  ghost predicate Knowledge(m: Machine) {
    forall x :: x in m.members ==> Rooted(x, m.log) && Knows(m.state, x, m.log)
  }

  /** `n` extends the log of `m`, without a grant. */
  ghost predicate Quiet(m: Machine, n: Machine) {
    m.log <= n.log && NoGrantAfter(n.log, |m.log|) && (|m.log| < |n.log| ==> !IsGrant(n.log[|m.log|]))
  }

  lemma QuietKeeps(m: Machine, n: Machine, state: State, x: Member)
    requires Quiet(m, n) && Rooted(x, m.log) && Knows(state, x, m.log)
    ensures Rooted(x, n.log) && Knows(state, x, n.log)
  {
  }

  lemma NotifyQuiet(m: Machine, n: Notification)
    requires Terminal(n.status)
    ensures Quiet(m, Notify(m, n))
  {
    TellTold(m.members, n.target, n.status);
    var told := Tell(m.members, n.target, n.status);
    forall i | |m.log| <= i < |m.log + told| ensures !IsGrant((m.log + told)[i]) {
      assert told[i - |m.log|] in told;
    }
  }

  /** A member leaves or stays as it was, except that the one closing may turn inactive. */
  lemma CloseMembers(m: Machine, k: nat, y: Member)
    requires k < |m.members| && y in Close(m, k).members
    ensures y in m.members || y == m.members[k].(inactive := true)
  {
    KeepMembers(m.members, To(m.members[k].client));
  }

  lemma CloseQuiet(m: Machine, k: nat)
    requires k < |m.members|
    ensures Quiet(m, Close(m, k))
  {
    if !m.members[k].client.Wifi? {
      NotifyQuiet(m, Notification(To(m.members[k].client), UNSUBSCRIBE, true));
    }
  }

  lemma UnsubscribeKnows(m: Machine, k: nat)
    requires Shape(m) && Knowledge(m) && k < |m.members|
    ensures Knowledge(OnUnsubscribe(m, k))
  {
    var c := Close(m, k);
    var n := OnUnsubscribe(m, k);
    CloseQuiet(m, k);
    assert Quiet(m, n);
    forall y | y in n.members ensures Rooted(y, n.log) && Knows(n.state, y, n.log) {
      CloseMembers(m, k, y);
      var x := if y in m.members then y else m.members[k];
      QuietKeeps(m, n, m.state, x);
      if n.state == ReleasingState && m.state != ReleasingState && !y.IsInactive() {
        HasSome(c.members, BroadcastActive, y);
      }
    }
  }

  lemma SubscribeKnows(m: Machine, c: Client, call: nat)
    requires Shape(m) && Knowledge(m)
    requires call < |m.log| && m.log[call].Took? && m.log[call].event == Subscribe(c) && NoGrantAfter(m.log, call)
    ensures Knowledge(OnSubscribe(m, c, call))
  {
    var n := OnSubscribe(m, c, call);
    forall y | y in n.members ensures Rooted(y, n.log) && Knows(n.state, y, n.log) {
      if y in m.members {
        if m.state == AcquiredState {
          AcquiredKeeps(m, n, y);
        } else {
          QuietKeeps(m, n, m.state, y);
        }
      } else {
        assert y == Member(c, false, call);
        if m.state == AcquiredState {
          assert IsGrant(n.log[|m.log|]) && n.log[|m.log|].client == c;
        }
      }
    }
  }

  lemma AcquiredKeeps(m: Machine, n: Machine, x: Member)
    requires m.log <= n.log && Rooted(x, m.log) && Knows(AcquiredState, x, m.log)
    ensures Rooted(x, n.log) && Knows(AcquiredState, x, n.log)
  {
  }

  lemma GrantInforms(m: Machine, x: Member)
    requires m.state == PendingState && x in m.members && Rooted(x, m.log)
    ensures var n := OnFramework(m, GRANTED);
      Rooted(x, n.log) && Knows(AcquiredState, x, n.log)
  {
    var told := Tell(m.members, BroadcastActive, GRANTED);
    if !x.IsInactive() {
      TellReaches(m.members, BroadcastActive, GRANTED, x);
      var i :| 0 <= i < |told| && told[i] == Told(Some(x.since), x.client, GRANTED);
      assert (m.log + told)[|m.log| + i] == told[i];
    }
  }

  lemma ReleasingKnows(m: Machine, status: Status)
    requires Knowledge(m) && m.state == ReleasingState && (status == RELEASED || status == DENIED)
    ensures Knowledge(OnFramework(m, status))
  {
    var n := OnFramework(m, status);
    NotifyQuiet(m, Notification(BroadcastInactive, status, true));
    KeepMembers(m.members, BroadcastInactive);
    forall x | x in n.members ensures Rooted(x, n.log) && Knows(n.state, x, n.log) {
      QuietKeeps(m, n, m.state, x);
    }
  }

  lemma FrameworkKnows(m: Machine, status: Status)
    requires Shape(m) && Knowledge(m) && (status == GRANTED || status == RELEASED || status == DENIED)
    ensures Knowledge(OnFramework(m, status))
  {
    var n := OnFramework(m, status);
    if m.state == PendingState && status == GRANTED {
      forall x | x in m.members ensures Rooted(x, n.log) && Knows(n.state, x, n.log) {
        GrantInforms(m, x);
      }
    } else if m.state == ReleasingState && status != GRANTED {
      ReleasingKnows(m, status);
    } else if n.state == ReleasedState {
      KeepNobody(m.members);
    }
  }

  lemma StepKnows(m: Machine, e: Event)
    requires Shape(m) && Knowledge(m)
    ensures Knowledge(Step(m, e))
  {
    var n := Note(m, Took(m.state, e));
    assert Shape(n);
    forall x | x in n.members ensures Rooted(x, n.log) && Knows(n.state, x, n.log) {
      QuietKeeps(m, n, m.state, x);
    }
    match e {
      case Subscribe(c) =>
        if m.single && m.members != [] {
          var d := Note(n, Told(None, c, DENIED));
          forall x | x in n.members ensures Rooted(x, d.log) && Knows(n.state, x, d.log) {
            QuietKeeps(n, d, m.state, x);
          }
        } else {
          SubscribeKnows(n, c, |m.log|);
        }
      case Unsubscribe(c) =>
        var k := Find(n.members, To(c));
        if k < |n.members| {
          UnsubscribeKnows(n, k);
        }
      case Granted => FrameworkKnows(n, GRANTED);
      case Released => FrameworkKnows(n, RELEASED);
      case Denied => FrameworkKnows(n, DENIED);
      case Restart =>
    }
  }

  lemma {:induction false} RunKnows(single: bool, es: seq<Event>)
    ensures Knowledge(Run(Init(single), es))
    decreases |es|
  {
    if es != [] {
      var k := |es| - 1;
      RunKnows(single, es[..k]);
      ReachableShape(single, es[..k]);
      StepKnows(Run(Init(single), es[..k]), es[k]);
    }
  }

  /**
   * In every run, restarts included: in Pending nobody has been told GRANTED during the membership of any member,
   * in Acquired every active member has been told, and in Releasing nobody during that of an active member.
   */
  lemma {:induction false} GrantKnowledge(single: bool, es: seq<Event>)
    ensures var m := Run(Init(single), es);
      forall x :: x in m.members ==>
        && (m.state == PendingState ==> NoGrantAfter(m.log, x.since))
        && (m.state == AcquiredState && !x.IsInactive() ==> Informed(x, m.log))
        && (m.state == ReleasingState && !x.IsInactive() ==> NoGrantAfter(m.log, x.since))
  {
    RunKnows(single, es);
  }

  // ----- what goes out

  /** The calls a notification ends in: a message to a daemon, or an answer to the modem. */
  datatype Wire =
    | DataConn(sender: int, outcome: Outcome)
    | AtlClose(handle: int)
    | AtlOpen(handle: int, granted: bool)

  datatype Outcome = RequestSuccess | ReleaseSuccess | Failure

  const GPSONE_DAEMON := 2

  function Answer(status: Status): Outcome {
    if status == GRANTED then RequestSuccess else if status == DENIED then Failure else ReleaseSuccess
  }

  /** The three overrides of `notifyRsrcStatus`. A WIFI subscriber says nothing when it is unsubscribed. */
  function Send(c: Client, status: Status): Option<Wire> {
    if !Deliverable(status) then None
    else
      match c
      case Bit(_, _) => Some(DataConn(GPSONE_DAEMON, Answer(status)))
      case Atl(handle) => Some(if status == GRANTED || status == DENIED then AtlOpen(handle, status == GRANTED) else AtlClose(handle))
      case Wifi(sender, _, _) => if status == UNSUBSCRIBE then None else Some(DataConn(sender, Answer(status)))
  }

  /** A member's notification goes to the client that subscribed, and something is sent for it. */
  ghost predicate Addressed(e: Entry, log: seq<Entry>) {
    e.Told? ==>
      && Send(e.client, e.status).Some?
      && (e.to.Some? ==> e.to.value < |log| && log[e.to.value].Took? && log[e.to.value].event == Subscribe(e.client))
  }

  lemma {:induction false} TellFrom(ms: seq<Member>, t: Target, s: Status, e: Entry) returns (x: Member)
    requires e in Tell(ms, t, s)
    ensures x in ms && ForMe(x, t) && e == Told(Some(x.since), x.client, s)
  {
    if ForMe(ms[0], t) && e == Told(Some(ms[0].since), ms[0].client, s) {
      x := ms[0];
    } else {
      x := TellFrom(ms[1..], t, s, e);
    }
  }

  ghost predicate AllAddressed(m: Machine) {
    forall e :: e in m.log ==> Addressed(e, m.log)
  }

  lemma AddressedLater(m: Machine, log: seq<Entry>)
    requires AllAddressed(m) && m.log <= log
    ensures forall e :: e in m.log ==> Addressed(e, log)
  {
  }

  lemma NoteAddressed(m: Machine, e: Entry)
    requires AllAddressed(m) && (e.Told? ==> Send(e.client, e.status).Some? && e.to.None?)
    ensures AllAddressed(Note(m, e))
  {
  }

  lemma NotifyAddressed(m: Machine, n: Notification)
    requires AllAddressed(m) && Deliverable(n.status)
    requires forall x :: x in m.members ==> Rooted(x, m.log)
    requires n.status == UNSUBSCRIBE ==> forall x :: x in m.members && ForMe(x, n.target) ==> !x.client.Wifi?
    ensures AllAddressed(Notify(m, n))
  {
    var told := Tell(m.members, n.target, n.status);
    AddressedLater(m, m.log + told);
    forall e | e in told ensures Addressed(e, m.log + told) {
      var x := TellFrom(m.members, n.target, n.status, e);
      assert Rooted(x, m.log);
    }
  }

  lemma UnsubscribeAddressed(m: Machine, k: nat)
    requires Shape(m) && AllAddressed(m) && k < |m.members|
    requires forall x :: x in m.members ==> Rooted(x, m.log)
    ensures AllAddressed(OnUnsubscribe(m, k))
  {
    var c := m.members[k].client;
    if !c.Wifi? {
      forall x | x in m.members && ForMe(x, To(c)) ensures !x.client.Wifi? {
        OnlyMember(m.members, x, m.members[k]);
      }
      NotifyAddressed(m, Notification(To(c), UNSUBSCRIBE, true));
    }
    var n := Close(m, k);
    NoteAddressed(n, Ask(Enter(n, ReleasedState), Release).log[|n.log|]);
    NoteAddressed(n, Ask(Enter(n, ReleasingState), Release).log[|n.log|]);
  }

  lemma FrameworkAddressed(m: Machine, status: Status)
    requires Shape(m) && AllAddressed(m) && (status == GRANTED || status == RELEASED || status == DENIED)
    requires forall x :: x in m.members ==> Rooted(x, m.log)
    ensures AllAddressed(OnFramework(m, status))
  {
    NotifyAddressed(m, Notification(BroadcastActive, status, false));
    NotifyAddressed(m, Notification(BroadcastAll, status, true));
    var n := Notify(m, Notification(BroadcastInactive, status, true));
    NotifyAddressed(m, Notification(BroadcastInactive, status, true));
    NoteAddressed(n, Ask(Enter(n, PendingState), Request).log[|n.log|]);
  }

  lemma SubscribeAddressed(m: Machine, c: Client, call: nat)
    requires Shape(m) && AllAddressed(m)
    ensures AllAddressed(OnSubscribe(m, c, call))
  {
    NoteAddressed(m, Told(None, c, GRANTED));
    var n := if m.state == AcquiredState then Note(m, Told(None, c, GRANTED)) else m;
    NoteAddressed(n, Joined(call, c));
    var a := Add(n, c, call);
    NoteAddressed(a, Ask(Enter(a, PendingState), Request).log[|a.log|]);
  }

  lemma StepAddressed(m: Machine, e: Event)
    requires Shape(m) && AllAddressed(m) && Knowledge(m)
    ensures AllAddressed(Step(m, e))
  {
    var n := Note(m, Took(m.state, e));
    NoteAddressed(m, Took(m.state, e));
    forall x | x in n.members ensures Rooted(x, n.log) {
      assert Rooted(x, m.log);
    }
    match e {
      case Subscribe(c) =>
        NoteAddressed(n, Told(None, c, DENIED));
        SubscribeAddressed(n, c, |m.log|);
      case Unsubscribe(c) =>
        var k := Find(n.members, To(c));
        if k < |n.members| {
          UnsubscribeAddressed(n, k);
        }
      case Granted => FrameworkAddressed(n, GRANTED);
      case Released => FrameworkAddressed(n, RELEASED);
      case Denied => FrameworkAddressed(n, DENIED);
      case Restart =>
        DropsDropped(m.members);
        AddressedLater(n, n.log + Drops(m.members));
    }
  }

  /**
   * In every run: whatever a member is told goes to the client whose subscribe call added it, and every
   * notification sends something - although a WIFI subscriber would ignore an UNSUBSCRIBE.
   */
  lemma {:induction false} NotificationsAddressed(single: bool, es: seq<Event>)
    ensures AllAddressed(Run(Init(single), es))
    decreases |es|
  {
    if es != [] {
      var k := |es| - 1;
      NotificationsAddressed(single, es[..k]);
      ReachableShape(single, es[..k]);
      RunKnows(single, es[..k]);
      StepAddressed(Run(Init(single), es[..k]), es[k]);
    }
  }
}
