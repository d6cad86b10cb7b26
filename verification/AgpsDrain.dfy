/** Unsubscribing everybody closes the connection. */
module AgpsDrain {
  import opened Common
  import opened AgpsModel
  import opened AgpsShape

  function Unsubscribes(cs: seq<Client>): (es: seq<Event>)
    ensures |es| == |cs|
  {
    seq(|cs|, i requires 0 <= i < |cs| => Unsubscribe(cs[i]))
  }

  /** After the member at `k` has closed, an active member is one that was there and is not that one. */
  lemma {:induction false} FlagGone(ms: seq<Member>, k: nat, y: Member)
    requires k < |ms| && Distinct(ms) && ms[k].client.Wifi?
    requires y in ms[k := ms[k].(inactive := true)] && !y.IsInactive()
    ensures y in ms && !y.client.Equals(ms[k].client)
  {
    var ns := ms[k := ms[k].(inactive := true)];
    var i :| 0 <= i < |ns| && ns[i] == y;
    assert i != k && y == ms[i];
    if y.client.Equals(ms[k].client) {
      DistinctIndex(ms, i, k);
    }
  }

  lemma StepUnsubscribes(m: Machine, u: Client, y: Member)
    requires Shape(m)
    requires y in Step(m, Unsubscribe(u)).members && !y.IsInactive()
    ensures y in m.members && !y.client.Equals(u)
  {
    var n := Note(m, Took(m.state, Unsubscribe(u)));
    var k := Find(n.members, To(u));
    if k == |n.members| {
      if y.client.Equals(u) {
        HasSome(n.members, To(u), y);
      }
    } else {
      var c := n.members[k].client;
      assert Step(m, Unsubscribe(u)).members == Close(n, k).members;
      if c.Wifi? {
        FlagGone(n.members, k, y);
      } else {
        KeepMembers(n.members, To(c));
      }
      EqualsEquivalence(y.client, u, c);
      EqualsEquivalence(c, u, c);
    }
  }

  lemma UnsubscribesLast(m: Machine, cs: seq<Client>)
    requires cs != []
    ensures var k := |cs| - 1;
      Run(m, Unsubscribes(cs)) == Step(Run(m, Unsubscribes(cs[..k])), Unsubscribe(cs[k]))
  {
    assert Unsubscribes(cs)[..|cs| - 1] == Unsubscribes(cs[..|cs| - 1]);
  }

  /** Whoever is still active afterwards was active before and did not unsubscribe. */
  lemma {:induction false} StillActive(m: Machine, cs: seq<Client>, y: Member)
    requires Shape(m) && y in Run(m, Unsubscribes(cs)).members && !y.IsInactive()
    ensures y in m.members && forall c :: c in cs ==> !y.client.Equals(c)
    decreases |cs|
  {
    if cs != [] {
      var k := |cs| - 1;
      RunKeeps(m, Unsubscribes(cs[..k]));
      UnsubscribesLast(m, cs);
      StepUnsubscribes(Run(m, Unsubscribes(cs[..k])), cs[k], y);
      StillActive(m, cs[..k], y);
      forall c | c in cs ensures !y.client.Equals(c) {
        assert c in cs[..k] || c == cs[k];
      }
    }
  }

  /** One RELEASED or DENIED empties the Releasing state when nobody is active. */
  lemma {:induction false} AllInactive(ms: seq<Member>)
    requires forall x :: x in ms ==> x.IsInactive()
    ensures Keep(ms, BroadcastInactive) == []
  {
    if ms != [] {
      AllInactive(ms[1..]);
    }
  }

  lemma Emptied(m: Machine, last: Event)
    requires Shape(m) && Tight(m) && (last == Released || last == Denied)
    requires forall x :: x in m.members ==> x.IsInactive()
    ensures m.state == ReleasedState || m.state == ReleasingState
    ensures Step(m, last).state == ReleasedState && Step(m, last).members == []
  {
    AllInactive(m.members);
    StepKeeps(m, last);
  }

  /**
   * From any state reachable without a restart, once every member has unsubscribed, in any order and with any
   * other unsubscribes in between, the machine is in Released or Releasing, and one RELEASED or DENIED leaves
   * it in Released with an empty list.
   */
  lemma {:induction false} Drains(single: bool, es: seq<Event>, cs: seq<Client>, last: Event)
    requires Restart !in es && (last == Released || last == Denied)
    requires forall x :: x in Run(Init(single), es).members ==> exists c :: c in cs && x.client.Equals(c)
    ensures var n := Run(Run(Init(single), es), Unsubscribes(cs));
      && (n.state == ReleasedState || n.state == ReleasingState)
      && Step(n, last).state == ReleasedState && Step(n, last).members == []
  {
    var m := Run(Init(single), es);
    var us := Unsubscribes(cs);
    var n := Run(m, us);
    RunKeeps(Init(single), es);
    RunKeeps(m, us);
    forall y | y in n.members ensures y.IsInactive() {
      if !y.IsInactive() {
        StillActive(m, cs, y);
      }
    }
    Emptied(n, last);
  }
}
