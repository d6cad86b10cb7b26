/** A subscriber gets the connection it asks for, and exactly when it does not. */
module AgpsService {
  import opened Common
  import opened AgpsModel
  import opened AgpsShape
  import opened AgpsGrants

  /** `equals` compares IDs across kinds; only clients of one kind answer to the same daemon or modem call. */
  predicate SameKind(a: Client, b: Client) {
    a.Bit? == b.Bit? && a.Atl? == b.Atl?
  }

  /** What is sent for one of two equal clients of one kind is what would be sent for the other. */
  lemma SameWire(a: Client, b: Client, status: Status)
    requires a.Equals(b) && SameKind(a, b)
    ensures Send(a, status) == Send(b, status)
  {
  }

  predicate Stands(x: Member, c: Client) {
    x.client.Equals(c) && SameKind(x.client, c) && !x.IsInactive()
  }

  /** The client is an active member, of its own kind. */
  ghost predicate Listed(ms: seq<Member>, c: Client) {
    exists x :: x in ms && Stands(x, c)
  }

  /** No member keeps the client out of the list: an equal one is inactive or of another kind. */
  ghost predicate Admitted(ms: seq<Member>, c: Client) {
    forall x :: x in ms && x.client.Equals(c) ==> Stands(x, c)
  }

  /** The connection is up and the client is an active member, of its own kind, that has been told so. */
  ghost predicate HasService(m: Machine, c: Client) {
    m.state == AcquiredState && exists x :: x in m.members && Stands(x, c) && Informed(x, m.log)
  }

  /** What a caller can see before it subscribes: a machine for one subscriber turns away a second one. */
  ghost predicate Serves(m: Machine, c: Client) {
    if m.single && m.members != [] then Listed(m.members, c) else Admitted(m.members, c)
  }

  function ReleasedIfReleasing(m: Machine): Machine {
    if m.state == ReleasingState then Step(m, Released) else m
  }

  function GrantedIfPending(m: Machine): Machine {
    if m.state == PendingState then Step(m, Granted) else m
  }

  /** A client subscribes, and the framework answers what it is waited for: a release if one is on, then a grant. */
  function AskAndGrant(m: Machine, c: Client): Machine {
    GrantedIfPending(ReleasedIfReleasing(Step(m, Subscribe(c))))
  }

  ghost predicate Good(m: Machine) {
    Shape(m) && Knowledge(m)
  }

  lemma StepGood(m: Machine, e: Event)
    requires Good(m)
    ensures Good(Step(m, e))
  {
    StepKeeps(m, e);
    StepKnows(m, e);
  }

  /** Adding makes the client an active member of its own kind, unless an equal member keeps it out. */
  lemma Adding(m: Machine, c: Client, call: nat)
    requires Distinct(m.members)
    ensures Listed(Add(m, c, call).members, c) <==> Admitted(m.members, c)
  {
    var n := Add(m, c, call);
    EqualsEquivalence(c, c, c);
    var k := Find(m.members, To(c));
    if k < |m.members| {
      forall x | x in m.members && x.client.Equals(c) ensures x == m.members[k] {
        EqualsEquivalence(m.members[k].client, c, x.client);
        EqualsEquivalence(x.client, c, m.members[k].client);
        OnlyMember(m.members, x, m.members[k]);
      }
    } else {
      assert n.members[0] == Member(c, false, call) && Stands(n.members[0], c);
      forall x | x in m.members ensures !x.client.Equals(c) {
        if x.client.Equals(c) {
          HasSome(m.members, To(c), x);
        }
      }
    }
  }

  /** Subscribing leads out of Released, and to an active membership exactly if the machine serves the client. */
  lemma Subscribing(m: Machine, c: Client)
    requires Good(m)
    ensures var n := Step(m, Subscribe(c));
      n.state != ReleasedState && (Listed(n.members, c) <==> Serves(m, c))
  {
    if !(m.single && m.members != []) {
      Adding(m, c, |m.log|);
      var n := Note(m, Took(m.state, Subscribe(c)));
      var t := if m.state == AcquiredState then Note(n, Told(None, c, GRANTED)) else n;
      assert Step(m, Subscribe(c)).members == Add(t, c, |m.log|).members == Add(m, c, |m.log|).members;
    }
  }

  lemma Releasing(m: Machine, c: Client)
    requires Good(m) && m.state != ReleasedState
    ensures var n := ReleasedIfReleasing(m);
      && n.state != ReleasingState
      && (Listed(m.members, c) ==> n.state != ReleasedState)
      && (Listed(n.members, c) <==> Listed(m.members, c))
  {
    if m.state == ReleasingState {
      var kept := Keep(m.members, BroadcastInactive);
      KeepMembers(m.members, BroadcastInactive);
      assert ReleasedIfReleasing(m).members == kept;
      if Listed(m.members, c) {
        var x :| x in m.members && Stands(x, c);
        assert x in kept;
      }
    }
  }

  lemma Granting(m: Machine)
    ensures var n := GrantedIfPending(m);
      n.members == m.members && n.state == if m.state == PendingState then AcquiredState else m.state
  {
  }

  /**
   * From every reachable state, restarts included: a client that subscribes ends up an active member that has
   * been told GRANTED, once the framework answers, if and only if every member equal to it is active and of its
   * own kind - or, where a second subscriber is turned away, it is the active member already.
   */
  lemma {:induction false} ServedIffAdmitted(single: bool, es: seq<Event>, c: Client)
    ensures var m := Run(Init(single), es);
      HasService(AskAndGrant(m, c), c) <==> Serves(m, c)
  {
    var m := Run(Init(single), es);
    ReachableShape(single, es);
    RunKnows(single, es);
    var a := Step(m, Subscribe(c));
    var b := ReleasedIfReleasing(a);
    var g := GrantedIfPending(b);
    StepGood(m, Subscribe(c));
    Subscribing(m, c);
    StepGood(a, Released);
    Releasing(a, c);
    StepGood(b, Granted);
    Granting(b);
    if Listed(g.members, c) {
      var x :| x in g.members && Stands(x, c);
      assert Knows(AcquiredState, x, g.log);
    }
  }
}
