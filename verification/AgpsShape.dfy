/** Which lists go with which states, in every run. */
module AgpsShape {
  import opened Common
  import opened AgpsModel

  /** No two members are equal in the sense of `equals`. */
  ghost predicate Distinct(ms: seq<Member>) {
    ms == [] || ((forall m :: m in ms[1..] ==> !m.client.Equals(ms[0].client)) && Distinct(ms[1..]))
  }

  /**
   * The gate of sendRsrcRequest never swallowed a call, requests and only requests were made on behalf of a
   * subscriber, and the error of the Released state never showed.
   */
  ghost predicate Clean(log: seq<Entry>) {
    forall e :: e in log ==>
      && !e.Suppressed? && !e.ListNotEmptyError?
      && (e.Asked? ==> (e.action.Request? <==> e.behalf.Some?))
  }

  /** Holds in every reachable state, modem restarts included. */
  ghost predicate Shape(m: Machine) {
    && (m.state == ReleasedState ==> m.members == [])
    && (m.single ==> |m.members| <= 1)
    && Distinct(m.members)
    && Clean(m.log)
  }

  /** Holds in addition as long as the modem does not restart. */
  ghost predicate Tight(m: Machine) {
    match m.state
    case ReleasedState => m.members == []
    case PendingState => Has(m.members, BroadcastActive)
    case AcquiredState => Has(m.members, BroadcastActive)
    case ReleasingState => Has(m.members, BroadcastInactive)
  }

  // ----- the list primitives

  lemma HasSome(ms: seq<Member>, t: Target, m: Member)
    requires m in ms && ForMe(m, t)
    ensures Has(ms, t)
  {
  }

  lemma {:induction false} KeepMembers(ms: seq<Member>, t: Target)
    ensures forall m :: m in Keep(ms, t) <==> m in ms && !ForMe(m, t)
    ensures |Keep(ms, t)| <= |ms|
  {
    if ms != [] {
      KeepMembers(ms[1..], t);
    }
  }

  lemma {:induction false} TellTold(ms: seq<Member>, t: Target, s: Status)
    ensures forall e :: e in Tell(ms, t, s) ==> e.Told? && e.to.Some? && e.status == s
  {
    if ms != [] {
      TellTold(ms[1..], t, s);
    }
  }

  /** Everybody a notification is for gets it. */
  lemma {:induction false} TellReaches(ms: seq<Member>, t: Target, s: Status, m: Member)
    requires m in ms && ForMe(m, t)
    ensures Told(Some(m.since), m.client, s) in Tell(ms, t, s)
  {
    if m != ms[0] {
      TellReaches(ms[1..], t, s, m);
    }
  }

  lemma {:induction false} DropsDropped(ms: seq<Member>)
    ensures forall e :: e in Drops(ms) ==> e.Dropped?
  {
    if ms != [] {
      DropsDropped(ms[1..]);
    }
  }

  lemma {:induction false} KeepDistinct(ms: seq<Member>, t: Target)
    requires Distinct(ms)
    ensures Distinct(Keep(ms, t))
  {
    if ms != [] {
      KeepDistinct(ms[1..], t);
      KeepMembers(ms[1..], t);
    }
  }

  lemma {:induction false} FlagDistinct(ms: seq<Member>, k: nat)
    requires k < |ms| && Distinct(ms)
    ensures Distinct(ms[k := ms[k].(inactive := true)])
  {
    var ns := ms[k := ms[k].(inactive := true)];
    if k == 0 {
      assert ns[1..] == ms[1..];
    } else {
      assert ns[1..] == ms[1..][k - 1 := ms[k].(inactive := true)];
      FlagDistinct(ms[1..], k - 1);
      forall m | m in ns[1..] ensures !m.client.Equals(ms[0].client) {
        assert m in ms[1..] || m == ms[1..][k - 1].(inactive := true);
      }
    }
  }

  /** `equals` is symmetric and transitive on clients, so a client stands for at most one member. */
  lemma EqualsEquivalence(a: Client, b: Client, c: Client)
    ensures a.Equals(a)
    ensures a.Equals(b) ==> b.Equals(a)
    ensures a.Equals(b) && b.Equals(c) ==> a.Equals(c)
  {
  }

  /** strncmp: the two agree up to and with the first terminator, or everywhere. */
  ghost predicate SameText(a: seq<byte>, b: seq<byte>)
    requires |a| == |b|
  {
    forall i :: 0 <= i < |a| && (forall j :: 0 <= j < i ==> a[j] == b[j] != 0) ==> a[i] == b[i]
  }

  lemma {:induction false} CStringSame(a: seq<byte>, b: seq<byte>)
    requires |a| == |b|
    ensures CString(a) == CString(b) <==> SameText(a, b)
  {
    if a != [] {
      var x, y := a[1..], b[1..];
      CStringSame(x, y);
      assert a[0] != 0 ==> CString(a)[1..] == CString(x) && CString(a)[0] == a[0];
      assert b[0] != 0 ==> CString(b)[1..] == CString(y) && CString(b)[0] == b[0];
      if a[0] == b[0] != 0 {
        if SameText(x, y) {
          forall i | 0 <= i < |a| && (forall j :: 0 <= j < i ==> a[j] == b[j] != 0) ensures a[i] == b[i] {
            if i > 0 {
              assert forall j :: 0 <= j < i - 1 ==> x[j] == a[j + 1] == b[j + 1] == y[j] != 0;
              assert x[i - 1] == y[i - 1];
            }
          }
        }
        if SameText(a, b) {
          forall i | 0 <= i < |x| && (forall j :: 0 <= j < i ==> x[j] == y[j] != 0) ensures x[i] == y[i] {
            assert forall j :: 0 <= j < i + 1 ==> a[j] == b[j] != 0 by {
              assert forall j :: 1 <= j < i + 1 ==> a[j] == x[j - 1] && b[j] == y[j - 1];
            }
            assert a[i + 1] == b[i + 1];
          }
        }
      } else {
        assert SameText(a, b) ==> a[0] == b[0];
      }
    }
  }

  /**
   * Two clients are equal if they have one ID, whatever their kinds - except two IPv6 clients, whose IPv4 address is
   * INADDR_NONE: of them the IPv6 address decides.
   */
  lemma EqualsMeans(a: Client, b: Client)
    ensures a.Equals(b) <==>
      if a.Bit? && b.Bit? && a.ipv4 == -1 && b.ipv4 == -1 then SameText(a.ipv6, b.ipv6) else a.ID() == b.ID()
    ensures a.ID() == if a.Bit? then a.ipv4 else if a.Atl? then a.handle else a.sender
  {
    if a.Bit? && b.Bit? {
      CStringSame(a.ipv6, b.ipv6);
    }
  }

  /** Among distinct members, an addressed notification reaches exactly the member it was made for. */
  lemma {:induction false} AddressedToOne(ms: seq<Member>, k: nat)
    requires k < |ms| && Distinct(ms)
    ensures Tell(ms, To(ms[k].client), UNSUBSCRIBE) == [Told(Some(ms[k].since), ms[k].client, UNSUBSCRIBE)]
    ensures Keep(ms, To(ms[k].client)) == ms[..k] + ms[k + 1..]
  {
    var t := To(ms[k].client);
    if k == 0 {
      NobodyMatches(ms[1..], t, UNSUBSCRIBE);
      assert ms[..0] + ms[1..] == ms[1..];
    } else {
      assert ms[k] == ms[1..][k - 1];
      AddressedToOne(ms[1..], k - 1);
      assert ms[..k] + ms[k + 1..] == [ms[0]] + (ms[1..][..k - 1] + ms[1..][k..]);
    }
  }

  /** A notification that is for nobody tells and removes nobody. */
  lemma {:induction false} NobodyMatches(ms: seq<Member>, t: Target, s: Status)
    requires forall m :: m in ms ==> !ForMe(m, t)
    ensures Tell(ms, t, s) == [] && Keep(ms, t) == ms
  {
    if ms != [] {
      NobodyMatches(ms[1..], t, s);
    }
  }

  lemma {:induction false} DistinctIndex(ms: seq<Member>, i: nat, k: nat)
    requires i < |ms| && k < |ms| && i != k && Distinct(ms)
    ensures !ms[i].client.Equals(ms[k].client)
  {
    if i == 0 {
      assert ms[k] in ms[1..];
      EqualsEquivalence(ms[i].client, ms[k].client, ms[i].client);
    } else if k == 0 {
      assert ms[i] in ms[1..];
    } else {
      DistinctIndex(ms[1..], i - 1, k - 1);
    }
  }

  /** Equal members are one member. */
  lemma OnlyMember(ms: seq<Member>, x: Member, y: Member)
    requires Distinct(ms) && x in ms && y in ms && x.client.Equals(y.client)
    ensures x == y
  {
    var i :| 0 <= i < |ms| && ms[i] == x;
    var k :| 0 <= k < |ms| && ms[k] == y;
    if i != k {
      DistinctIndex(ms, i, k);
    }
  }

  /** The gate lets a release pass exactly if nobody is active, and a request exactly if somebody is. */
  lemma GateIs(m: Machine, action: Action)
    ensures var n := Ask(m, action);
      && |n.log| == |m.log| + 1 && n.state == m.state && n.members == m.members
      && var active := exists x :: x in m.members && !x.IsInactive();
         if active == action.Request? then n.log[|m.log|].Asked? && n.log[|m.log|].action == action
         else n.log[|m.log|] == Suppressed(action)
  {
    var k := Find(m.members, BroadcastActive);
    if k < |m.members| {
      assert m.members[k] in m.members;
    }
  }

  /** The error of the Released state shows whenever its list is not empty. */
  lemma ErrorIs(m: Machine)
    ensures ListNotEmptyError in CheckEmpty(m).log <==> m.members != [] || ListNotEmptyError in m.log
  {
  }

  // ----- Step keeps the shape

  lemma AddKeeps(m: Machine, c: Client, call: nat)
    requires Distinct(m.members) && Clean(m.log) && (m.single ==> m.members == [])
    ensures var n := Add(m, c, call);
      && Distinct(n.members) && Clean(n.log) && (n.single ==> |n.members| <= 1)
      && n.state == m.state && n.single == m.single
      && n.members != []
      && (Has(m.members, BroadcastActive) || m.members == [] ==> Has(n.members, BroadcastActive))
      && (Has(m.members, BroadcastInactive) ==> Has(n.members, BroadcastInactive))
  {
  }

  lemma NotifyKeeps(m: Machine, n: Notification)
    requires Deliverable(n.status) && Distinct(m.members) && Clean(m.log)
    ensures Distinct(Notify(m, n).members) && Clean(Notify(m, n).log)
    ensures |Notify(m, n).members| <= |m.members|
  {
    KeepDistinct(m.members, n.target);
    KeepMembers(m.members, n.target);
    TellTold(m.members, n.target, n.status);
  }

  lemma CloseKeeps(m: Machine, k: nat)
    requires k < |m.members| && Distinct(m.members) && Clean(m.log)
    ensures var n := Close(m, k);
      && Distinct(n.members) && Clean(n.log) && |n.members| <= |m.members|
      && n.state == m.state && n.single == m.single
  {
    if m.members[k].client.Wifi? {
      FlagDistinct(m.members, k);
    } else {
      NotifyKeeps(m, Notification(To(m.members[k].client), UNSUBSCRIBE, true));
    }
  }

  /** An inactive member stays: only a member that need not wait for its close to complete is removed. */
  lemma CloseKeepsInactive(m: Machine, k: nat)
    requires k < |m.members| && Distinct(m.members) && Has(m.members, BroadcastInactive)
    ensures Has(Close(m, k).members, BroadcastInactive)
  {
    var n := Close(m, k);
    if m.members[k].client.Wifi? {
      HasSome(n.members, BroadcastInactive, n.members[k]);
    } else {
      AddressedToOne(m.members, k);
      var i := Find(m.members, BroadcastInactive);
      assert n.members[if i < k then i else i - 1] == m.members[i];
      HasSome(n.members, BroadcastInactive, m.members[i]);
    }
  }

  /** A member is active or inactive. */
  lemma LetGoKeeps(m: Machine)
    requires Distinct(m.members) && Clean(m.log) && (m.single ==> |m.members| <= 1)
    requires m.state == PendingState || m.state == AcquiredState
    ensures Shape(LetGo(m)) && Tight(LetGo(m))
  {
  }

  /** Once the inactive members are gone, everyone left is active. */
  lemma ReleasedInReleasing(m: Machine, status: Status)
    requires Shape(m) && m.state == ReleasingState && (status == RELEASED || status == DENIED)
    ensures Shape(OnFramework(m, status)) && Tight(OnFramework(m, status))
  {
    var n := Notify(m, Notification(BroadcastInactive, status, true));
    NotifyKeeps(m, Notification(BroadcastInactive, status, true));
    KeepMembers(m.members, BroadcastInactive);
    if n.members != [] {
      HasSome(n.members, BroadcastActive, n.members[0]);
    }
  }

  lemma {:induction false} KeepNobody(ms: seq<Member>)
    ensures Keep(ms, BroadcastAll) == []
  {
    if ms != [] {
      KeepNobody(ms[1..]);
    }
  }

  lemma FrameworkKeeps(m: Machine, status: Status)
    requires Shape(m) && (status == GRANTED || status == RELEASED || status == DENIED)
    ensures Shape(OnFramework(m, status))
    ensures Tight(m) ==> Tight(OnFramework(m, status))
  {
    if m.state == ReleasingState && status != GRANTED {
      ReleasedInReleasing(m, status);
    } else if m.state == PendingState && status == GRANTED {
      NotifyKeeps(m, Notification(BroadcastActive, GRANTED, false));
    } else if m.state == PendingState || m.state == AcquiredState {
      NotifyKeeps(m, Notification(BroadcastAll, status, true));
      KeepNobody(m.members);
    }
  }

  lemma SubscribeKeeps(m: Machine, c: Client, call: nat)
    requires Shape(m) && (m.single ==> m.members == [])
    ensures Shape(OnSubscribe(m, c, call))
    ensures Tight(m) ==> Tight(OnSubscribe(m, c, call))
  {
    AddKeeps(if m.state == AcquiredState then Note(m, Told(None, c, GRANTED)) else m, c, call);
  }

  lemma UnsubscribeKeeps(m: Machine, k: nat)
    requires Shape(m) && k < |m.members|
    ensures Shape(OnUnsubscribe(m, k))
    ensures Tight(m) ==> Tight(OnUnsubscribe(m, k))
  {
    CloseKeeps(m, k);
    if m.state == ReleasingState {
      if Tight(m) {
        CloseKeepsInactive(m, k);
      }
    } else {
      LetGoKeeps(Close(m, k));
    }
  }

  lemma StepKeeps(m: Machine, e: Event)
    requires Shape(m)
    ensures Shape(Step(m, e))
    ensures Tight(m) && !e.Restart? ==> Tight(Step(m, e))
  {
    var n := Note(m, Took(m.state, e));
    match e {
      case Subscribe(c) =>
        if !(m.single && m.members != []) {
          SubscribeKeeps(n, c, |m.log|);
        }
      case Unsubscribe(c) =>
        var k := Find(n.members, To(c));
        if k < |n.members| {
          UnsubscribeKeeps(n, k);
        }
      case Granted => FrameworkKeeps(n, GRANTED);
      case Released => FrameworkKeeps(n, RELEASED);
      case Denied => FrameworkKeeps(n, DENIED);
      case Restart => DropsDropped(m.members);
    }
  }

  lemma {:induction false} RunKeeps(m: Machine, es: seq<Event>)
    requires Shape(m)
    ensures Shape(Run(m, es))
    ensures Tight(m) && Restart !in es ==> Tight(Run(m, es))
    decreases |es|
  {
    if es != [] {
      var k := |es| - 1;
      RunKeeps(m, es[..k]);
      StepKeeps(Run(m, es[..k]), es[k]);
    }
  }

  /**
   * In every run, restarts included: Released has an empty list, so its error is never logged; no call to the
   * servicer is suppressed; members are pairwise unequal.
   */
  lemma {:induction false} ReachableShape(single: bool, es: seq<Event>)
    ensures Shape(Run(Init(single), es))
  {
    RunKeeps(Init(single), es);
  }

  /** Between restarts: which lists go with which state. */
  lemma ReachableTight(single: bool, es: seq<Event>)
    requires Restart !in es
    ensures var m := Run(Init(single), es);
      && (m.state == ReleasedState <==> m.members == [])
      && (m.state == PendingState || m.state == AcquiredState ==> exists x :: x in m.members && !x.IsInactive())
      && (m.state == ReleasingState ==> exists x :: x in m.members && x.IsInactive())
  {
    RunKeeps(Init(single), es);
    var m := Run(Init(single), es);
    if m.state == ReleasingState {
      assert m.members[Find(m.members, BroadcastInactive)] in m.members;
    } else if m.state != ReleasedState {
      assert m.members[Find(m.members, BroadcastActive)] in m.members;
    }
  }
}
