/** Conservation over whole runs: connection requests, and memberships. */
module AgpsBalance {
  import opened Common
  import opened AgpsModel
  import opened AgpsShape

  function Sum(log: seq<Entry>, weigh: Entry -> int): int {
    if log == [] then 0 else weigh(log[0]) + Sum(log[1..], weigh)
  }

  lemma {:induction false} SumConcat(a: seq<Entry>, b: seq<Entry>, weigh: Entry -> int)
    ensures Sum(a + b, weigh) == Sum(a, weigh) + Sum(b, weigh)
  {
    if a == [] {
      assert a + b == b;
    } else {
      assert (a + b)[1..] == a[1..] + b;
      SumConcat(a[1..], b, weigh);
    }
  }

  lemma SumNote(m: Machine, e: Entry, weigh: Entry -> int)
    ensures Sum(Note(m, e).log, weigh) == Sum(m.log, weigh) + weigh(e)
  {
    SumConcat(m.log, [e], weigh);
    assert Sum([e], weigh) == weigh(e) + Sum([], weigh);
  }

  lemma {:induction false} SumZero(log: seq<Entry>, weigh: Entry -> int)
    requires forall e :: e in log ==> weigh(e) == 0
    ensures Sum(log, weigh) == 0
  {
    if log != [] {
      SumZero(log[1..], weigh);
    }
  }

  // ----- connection requests

  /** The servicer holds a connection for each REQUEST not yet released, denied while pending, or revoked. */
  function Connection(e: Entry): int {
    match e
    case Asked(Request, _) => 1
    case Asked(Release, _) => -1
    case Took(PendingState, Denied) => -1
    case Took(AcquiredState, Released) => -1
    case _ => 0
  }

  predicate Connected(state: State) {
    state == PendingState || state == AcquiredState
  }

  ghost predicate Balanced(m: Machine) {
    Sum(m.log, Connection) == if Connected(m.state) then 1 else 0
  }

  lemma NotifyBalance(m: Machine, n: Notification)
    requires Deliverable(n.status)
    ensures Sum(Notify(m, n).log, Connection) == Sum(m.log, Connection)
  {
    var told := Tell(m.members, n.target, n.status);
    TellTold(m.members, n.target, n.status);
    SumZero(told, Connection);
    SumConcat(m.log, told, Connection);
  }

  lemma AddBalance(m: Machine, c: Client, call: nat)
    ensures Sum(Add(m, c, call).log, Connection) == Sum(m.log, Connection)
  {
    if !Has(m.members, To(c)) {
      SumNote(m, Joined(call, c), Connection);
    }
  }

  /** Every call the machine makes while the log stays clean reaches the servicer. */
  lemma AskBalance(m: Machine, a: Action)
    requires Clean(Ask(m, a).log)
    ensures Sum(Ask(m, a).log, Connection) == Sum(m.log, Connection) + (if a.Request? then 1 else -1)
  {
    var e := Ask(m, a).log[|m.log|];
    assert e in Ask(m, a).log;
    SumNote(m, e, Connection);
  }

  lemma SubscribeBalance(m: Machine, c: Client, call: nat)
    requires Balanced(m) && Shape(m) && (m.single ==> m.members == [])
    ensures Balanced(OnSubscribe(m, c, call))
  {
    SubscribeKeeps(m, c, call);
    var n := if m.state == AcquiredState then Note(m, Told(None, c, GRANTED)) else m;
    SumNote(m, Told(None, c, GRANTED), Connection);
    AddBalance(n, c, call);
    if m.state == ReleasedState {
      AskBalance(Enter(Add(m, c, call), PendingState), Request);
    }
  }

  lemma UnsubscribeBalance(m: Machine, k: nat)
    requires Balanced(m) && Shape(m) && k < |m.members|
    ensures Balanced(OnUnsubscribe(m, k))
  {
    UnsubscribeKeeps(m, k);
    var n := Close(m, k);
    if !m.members[k].client.Wifi? {
      NotifyBalance(m, Notification(To(m.members[k].client), UNSUBSCRIBE, true));
    }
    if m.state != ReleasingState {
      if n.members == [] {
        AskBalance(Enter(n, ReleasedState), Release);
      } else if !Has(n.members, BroadcastActive) {
        AskBalance(Enter(n, ReleasingState), Release);
      }
    }
  }

  /** The event itself has already been weighed. */
  lemma FrameworkBalance(m: Machine, status: Status)
    requires Shape(m) && (status == GRANTED || status == RELEASED || status == DENIED)
    requires Sum(m.log, Connection) ==
      if (m.state == PendingState && status == DENIED) || (m.state == AcquiredState && status == RELEASED) then 0
      else if Connected(m.state) then 1 else 0
    ensures Balanced(OnFramework(m, status))
  {
    FrameworkKeeps(m, status);
    if m.state == PendingState && status != RELEASED {
      NotifyBalance(m, Notification(if status == GRANTED then BroadcastActive else BroadcastAll, status, status == DENIED));
    } else if m.state == AcquiredState && status == RELEASED {
      NotifyBalance(m, Notification(BroadcastAll, RELEASED, true));
    } else if m.state == ReleasingState && status != GRANTED {
      var n := Notification(BroadcastInactive, status, true);
      NotifyBalance(m, n);
      if Notify(m, n).members != [] {
        AskBalance(Enter(Notify(m, n), PendingState), Request);
      }
    }
  }

  lemma StepBalance(m: Machine, e: Event)
    requires Balanced(m) && Shape(m)
    ensures Balanced(Step(m, e))
  {
    var n := Note(m, Took(m.state, e));
    SumNote(m, Took(m.state, e), Connection);
    match e {
      case Subscribe(c) =>
        if m.single && m.members != [] {
          SumNote(n, Told(None, c, DENIED), Connection);
        } else {
          SubscribeBalance(n, c, |m.log|);
        }
      case Unsubscribe(c) =>
        var k := Find(n.members, To(c));
        if k < |n.members| {
          UnsubscribeBalance(n, k);
        }
      case Granted => FrameworkBalance(n, GRANTED);
      case Released => FrameworkBalance(n, RELEASED);
      case Denied => FrameworkBalance(n, DENIED);
      case Restart =>
        DropsDropped(m.members);
        SumZero(Drops(m.members), Connection);
        SumConcat(n.log, Drops(m.members), Connection);
    }
  }

  /**
   * In every run, restarts included: REQUESTs sent, less RELEASEs sent, less DENIEDs taken in Pending, less
   * RELEASEDs taken in Acquired, is 1 in Pending and Acquired and 0 in Released and Releasing.
   */
  lemma {:induction false} ConnectionsBalance(single: bool, es: seq<Event>)
    ensures var m := Run(Init(single), es);
      Sum(m.log, Connection) == if Connected(m.state) then 1 else 0
    decreases |es|
  {
    if es != [] {
      var k := |es| - 1;
      ConnectionsBalance(single, es[..k]);
      ReachableShape(single, es[..k]);
      StepBalance(Run(Init(single), es[..k]), es[k]);
    }
  }

  // ----- memberships

  /** Entry `e` in the life of the clone added by call `j`: it joins once, and leaves once if at all. */
  function Life(j: nat): Entry -> int {
    (e: Entry) =>
      match e
      case Joined(since, _) => if since == j then 1 else 0
      case Told(Some(to), _, status) => if to == j && Terminal(status) then -1 else 0
      case Dropped(since) => if since == j then -1 else 0
      case _ => 0
  }

  function JoinsOf(j: nat): Entry -> int {
    (e: Entry) => if e.Joined? && e.since == j then 1 else 0
  }

  function ClosesOf(j: nat): Entry -> int {
    (e: Entry) => if e.Told? && e.to == Some(j) && Terminal(e.status) then 1 else 0
  }

  function DropsOf(j: nat): Entry -> int {
    (e: Entry) => if e.Dropped? && e.since == j then 1 else 0
  }

  /** How many members were added by call `j`. */
  function Present(ms: seq<Member>, j: nat): nat {
    if ms == [] then 0 else (if ms[0].since == j then 1 else 0) + Present(ms[1..], j)
  }

  lemma {:induction false} PresentAppend(ms: seq<Member>, ns: seq<Member>, j: nat)
    ensures Present(ms + ns, j) == Present(ms, j) + Present(ns, j)
  {
    if ms == [] {
      assert ms + ns == ns;
    } else {
      assert (ms + ns)[1..] == ms[1..] + ns;
      PresentAppend(ms[1..], ns, j);
    }
  }

  lemma {:induction false} FlagPresent(ms: seq<Member>, k: nat, j: nat)
    requires k < |ms|
    ensures Present(ms[k := ms[k].(inactive := true)], j) == Present(ms, j)
  {
    if k == 0 {
      assert ms[0 := ms[0].(inactive := true)][1..] == ms[1..];
    } else {
      FlagPresent(ms[1..], k - 1, j);
      assert ms[k := ms[k].(inactive := true)][1..] == ms[1..][k - 1 := ms[k].(inactive := true)];
    }
  }

  /** Those a terminal notification removes are exactly those it is told to. */
  lemma {:induction false} TellRemoves(ms: seq<Member>, t: Target, s: Status, j: nat)
    requires Terminal(s)
    ensures Present(ms, j) == Present(Keep(ms, t), j) - Sum(Tell(ms, t, s), Life(j))
  {
    if ms != [] {
      TellRemoves(ms[1..], t, s, j);
    }
  }

  lemma {:induction false} DropsRemove(ms: seq<Member>, j: nat)
    ensures Present(ms, j) == -Sum(Drops(ms), Life(j))
  {
    if ms != [] {
      DropsRemove(ms[1..], j);
    }
  }

  /** A machine whose members and log agree on the clone added by call `j`. */
  ghost predicate Agrees(m: Machine, j: nat) {
    Sum(m.log, Life(j)) == Present(m.members, j)
  }

  lemma NotifyAgrees(m: Machine, n: Notification, j: nat)
    requires Deliverable(n.status) && Agrees(m, j) && (n.postNotifyDelete <==> Terminal(n.status))
    ensures Agrees(Notify(m, n), j)
  {
    var told := Tell(m.members, n.target, n.status);
    SumConcat(m.log, told, Life(j));
    if Terminal(n.status) {
      TellRemoves(m.members, n.target, n.status, j);
    } else {
      TellTold(m.members, n.target, n.status);
      SumZero(told, Life(j));
    }
  }

  lemma AddAgrees(m: Machine, c: Client, call: nat, j: nat)
    requires Agrees(m, j)
    ensures Agrees(Add(m, c, call), j)
  {
    if !Has(m.members, To(c)) {
      SumNote(m, Joined(call, c), Life(j));
      PresentAppend([Member(c, false, call)], m.members, j);
    }
  }

  lemma AskAgrees(m: Machine, a: Action, j: nat)
    requires Agrees(m, j)
    ensures Agrees(Ask(m, a), j)
  {
    SumNote(m, Ask(m, a).log[|m.log|], Life(j));
  }

  lemma UnsubscribeAgrees(m: Machine, k: nat, j: nat)
    requires Agrees(m, j) && k < |m.members| && m.state != ReleasedState
    ensures Agrees(OnUnsubscribe(m, k), j)
  {
    var n := Close(m, k);
    if m.members[k].client.Wifi? {
      FlagPresent(m.members, k, j);
    } else {
      NotifyAgrees(m, Notification(To(m.members[k].client), UNSUBSCRIBE, true), j);
    }
    AskAgrees(Enter(n, ReleasedState), Release, j);
    AskAgrees(Enter(n, ReleasingState), Release, j);
  }

  lemma FrameworkAgrees(m: Machine, status: Status, j: nat)
    requires Agrees(m, j) && Shape(m) && (status == GRANTED || status == RELEASED || status == DENIED)
    ensures Agrees(OnFramework(m, status), j)
  {
    if m.state == PendingState && status != RELEASED {
      NotifyAgrees(m, Notification(if status == GRANTED then BroadcastActive else BroadcastAll, status, status == DENIED), j);
    } else if m.state == AcquiredState && status == RELEASED {
      NotifyAgrees(m, Notification(BroadcastAll, RELEASED, true), j);
    } else if m.state == ReleasingState && status != GRANTED {
      var n := Notification(BroadcastInactive, status, true);
      NotifyAgrees(m, n, j);
      AskAgrees(Enter(Notify(m, n), PendingState), Request, j);
    }
  }

  lemma SubscribeAgrees(m: Machine, c: Client, call: nat, j: nat)
    requires Agrees(m, j) && Shape(m)
    ensures Agrees(OnSubscribe(m, c, call), j)
  {
    SumNote(m, Told(None, c, GRANTED), Life(j));
    var n := if m.state == AcquiredState then Note(m, Told(None, c, GRANTED)) else m;
    AddAgrees(n, c, call, j);
    AskAgrees(Enter(Add(n, c, call), PendingState), Request, j);
  }

  lemma StepAgrees(m: Machine, e: Event, j: nat)
    requires Agrees(m, j) && Shape(m)
    ensures Agrees(Step(m, e), j)
  {
    var n := Note(m, Took(m.state, e));
    SumNote(m, Took(m.state, e), Life(j));
    match e {
      case Subscribe(c) =>
        SumNote(n, Told(None, c, DENIED), Life(j));
        SubscribeAgrees(n, c, |m.log|, j);
      case Unsubscribe(c) =>
        var k := Find(n.members, To(c));
        if k < |n.members| {
          UnsubscribeAgrees(n, k, j);
        }
      case Granted => FrameworkAgrees(n, GRANTED, j);
      case Released => FrameworkAgrees(n, RELEASED, j);
      case Denied => FrameworkAgrees(n, DENIED, j);
      case Restart =>
        SumConcat(n.log, Drops(m.members), Life(j));
        DropsRemove(m.members, j);
    }
  }

  /** A measure that only sees clones joining. */
  ghost predicate SeesJoins(weigh: Entry -> int) {
    forall e: Entry :: !e.Joined? ==> weigh(e) == 0
  }

  lemma AskUnseen(m: Machine, a: Action, weigh: Entry -> int)
    requires SeesJoins(weigh)
    ensures Sum(Ask(m, a).log, weigh) == Sum(m.log, weigh)
  {
    SumNote(m, Ask(m, a).log[|m.log|], weigh);
  }

  lemma NotifyUnseen(m: Machine, n: Notification, weigh: Entry -> int)
    requires SeesJoins(weigh) && Deliverable(n.status)
    ensures Sum(Notify(m, n).log, weigh) == Sum(m.log, weigh)
  {
    var told := Tell(m.members, n.target, n.status);
    TellTold(m.members, n.target, n.status);
    SumZero(told, weigh);
    SumConcat(m.log, told, weigh);
  }

  lemma UnsubscribeUnseen(m: Machine, k: nat, weigh: Entry -> int)
    requires SeesJoins(weigh) && k < |m.members| && m.state != ReleasedState
    ensures Sum(OnUnsubscribe(m, k).log, weigh) == Sum(m.log, weigh)
  {
    NotifyUnseen(m, Notification(To(m.members[k].client), UNSUBSCRIBE, true), weigh);
    AskUnseen(Enter(Close(m, k), ReleasedState), Release, weigh);
    AskUnseen(Enter(Close(m, k), ReleasingState), Release, weigh);
  }

  lemma FrameworkUnseen(m: Machine, status: Status, weigh: Entry -> int)
    requires SeesJoins(weigh) && Shape(m) && (status == GRANTED || status == RELEASED || status == DENIED)
    ensures Sum(OnFramework(m, status).log, weigh) == Sum(m.log, weigh)
  {
    NotifyUnseen(m, Notification(BroadcastActive, status, false), weigh);
    NotifyUnseen(m, Notification(BroadcastAll, status, true), weigh);
    var n := Notification(BroadcastInactive, status, true);
    NotifyUnseen(m, n, weigh);
    AskUnseen(Enter(Notify(m, n), PendingState), Request, weigh);
  }

  lemma SubscribeSeen(m: Machine, c: Client, call: nat, weigh: Entry -> int)
    requires SeesJoins(weigh) && Shape(m)
    ensures var more := Sum(OnSubscribe(m, c, call).log, weigh) - Sum(m.log, weigh);
      more == 0 || more == weigh(Joined(call, c))
  {
    var n := if m.state == AcquiredState then Note(m, Told(None, c, GRANTED)) else m;
    SumNote(m, Told(None, c, GRANTED), weigh);
    SumNote(n, Joined(call, c), weigh);
    AskUnseen(Enter(Add(n, c, call), PendingState), Request, weigh);
  }

  /** A step adds at most one clone, and signs it with the position of its own call. */
  lemma StepSeen(m: Machine, e: Event, weigh: Entry -> int)
    requires SeesJoins(weigh) && Shape(m)
    ensures var more := Sum(Step(m, e).log, weigh) - Sum(m.log, weigh);
      more == 0 || (e.Subscribe? && more == weigh(Joined(|m.log|, e.client)))
  {
    var n := Note(m, Took(m.state, e));
    SumNote(m, Took(m.state, e), weigh);
    match e {
      case Subscribe(c) =>
        SumNote(n, Told(None, c, DENIED), weigh);
        SubscribeSeen(n, c, |m.log|, weigh);
      case Unsubscribe(c) =>
        var k := Find(n.members, To(c));
        if k < |n.members| {
          UnsubscribeUnseen(n, k, weigh);
        }
      case Granted => FrameworkUnseen(n, GRANTED, weigh);
      case Released => FrameworkUnseen(n, RELEASED, weigh);
      case Denied => FrameworkUnseen(n, DENIED, weigh);
      case Restart =>
        DropsDropped(m.members);
        SumZero(Drops(m.members), weigh);
        SumConcat(n.log, Drops(m.members), weigh);
    }
  }

  lemma {:induction false} JoinsOnce(single: bool, es: seq<Event>, j: nat)
    ensures var m := Run(Init(single), es);
      && 0 <= Sum(m.log, JoinsOf(j)) <= 1
      && (j >= |m.log| ==> Sum(m.log, JoinsOf(j)) == 0)
    decreases |es|
  {
    if es != [] {
      var k := |es| - 1;
      JoinsOnce(single, es[..k], j);
      ReachableShape(single, es[..k]);
      StepSeen(Run(Init(single), es[..k]), es[k], JoinsOf(j));
    }
  }

  lemma {:induction false} LifeSplits(log: seq<Entry>, j: nat)
    ensures Sum(log, Life(j)) == Sum(log, JoinsOf(j)) - Sum(log, ClosesOf(j)) - Sum(log, DropsOf(j))
    ensures Sum(log, ClosesOf(j)) >= 0 && Sum(log, DropsOf(j)) >= 0
  {
    if log != [] {
      LifeSplits(log[1..], j);
    }
  }

  lemma {:induction false} RunAgrees(single: bool, es: seq<Event>, j: nat)
    ensures Agrees(Run(Init(single), es), j)
    decreases |es|
  {
    if es != [] {
      var k := |es| - 1;
      RunAgrees(single, es[..k], j);
      ReachableShape(single, es[..k]);
      StepAgrees(Run(Init(single), es[..k]), es[k], j);
    }
  }

  /**
   * In every run, the clone added by call `j` - there is at most one - is in exactly one place: still listed,
   * closed by exactly one terminal notification, or dropped exactly once at a modem restart.
   */
  lemma EachMembershipEndsOnce(single: bool, es: seq<Event>, j: nat)
    ensures var m := Run(Init(single), es);
      && Present(m.members, j) + Sum(m.log, ClosesOf(j)) + Sum(m.log, DropsOf(j)) == Sum(m.log, JoinsOf(j))
      && 0 <= Sum(m.log, JoinsOf(j)) <= 1
      && Sum(m.log, ClosesOf(j)) >= 0 && Sum(m.log, DropsOf(j)) >= 0
  {
    var m := Run(Init(single), es);
    RunAgrees(single, es, j);
    JoinsOnce(single, es, j);
    LifeSplits(m.log, j);
  }
}
