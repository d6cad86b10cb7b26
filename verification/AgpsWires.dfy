/** What the daemons and the modem may conclude from what the AGPS state machine sends them. */
module AgpsWires {
  import opened Common
  import opened AgpsModel
  import opened AgpsShape
  import opened AgpsGrants
  import opened AgpsNotices

  /** The values of GPSONE_LOC_API_IF_REQUEST_SUCCESS, _RELEASE_SUCCESS and _FAILURE. */
  function Code(o: Outcome): int {
    match o
    case RequestSuccess => 0xF0
    case ReleaseSuccess => 0xF1
    case Failure => 0xF2
  }

  /** "You have the connection." */
  predicate Positive(w: Wire) {
    match w
    case DataConn(_, o) => Code(o) == 0xF0
    case AtlOpen(_, granted) => granted
    case AtlClose(_) => false
  }

  /** "You do not get it." */
  predicate Negative(w: Wire) {
    match w
    case DataConn(_, o) => Code(o) == 0xF2
    case AtlOpen(_, granted) => !granted
    case AtlClose(_) => false
  }

  /** "You no longer have it." */
  predicate Closing(w: Wire) {
    match w
    case DataConn(_, o) => Code(o) == 0xF1
    case AtlOpen(_, _) => false
    case AtlClose(_) => true
  }

  /** The modem hears of ATL handles, the GPSONE daemon of BIT addresses, and each WIFI daemon of its own. */
  predicate ReachesOwner(c: Client, w: Wire) {
    match c
    case Bit(_, _) => w.DataConn? && w.sender == 2
    case Atl(handle) => !w.DataConn? && w.handle == handle
    case Wifi(sender, _, _) => w.DataConn? && w.sender == sender
  }

  /** What a step of `m` that sends `w` about `x` has done. */
  ghost predicate Truthful(m: Machine, e: Event, x: Entry, w: Wire)
    requires x.Told?
  {
    && ReachesOwner(x.client, w)
    && (Positive(w) || Negative(w) || Closing(w))
    && (Positive(w) ==> Step(m, e).state == AcquiredState && (e == Granted || e == Subscribe(x.client)))
    && (Negative(w) ==>
          if x.to.Some? then e == Denied && Step(m, e).state != AcquiredState
          else e == Subscribe(x.client) && m.single && m.members != [])
    && (Closing(w) ==> x.to.Some? && (e == Released || (e.Unsubscribe? && x.client.Equals(e.client))))
  }

  lemma OneMeaning(w: Wire)
    ensures !(Positive(w) && Negative(w)) && !(Negative(w) && Closing(w)) && !(Positive(w) && Closing(w))
  {
  }

  /** Who subscribes to a machine that holds a connection finds it still in Acquired. */
  lemma GrantState(m: Machine, e: Event, x: Entry)
    requires Shape(m) && x in Effects(m, e) && x.Told? && x.status == GRANTED
    ensures Step(m, e).state == AcquiredState && (e == Granted || e == Subscribe(x.client))
  {
    StepAnswers(m, e);
    assert Fitting(m.single, m.state, e, x);
  }

  lemma DeniedState(m: Machine, e: Event, x: Entry)
    requires Shape(m) && x in Effects(m, e) && x.Told? && x.status == DENIED
    ensures if x.to.Some? then e == Denied && Step(m, e).state != AcquiredState
            else e == Subscribe(x.client) && m.single && m.members != []
  {
    StepAnswers(m, e);
    assert Fitting(m.single, m.state, e, x);
    if x.to.None? && !(m.single && m.members != []) {
      NotTurnedAway(m, x.client, x);
    }
  }

  /** Only a machine for one subscriber that has one turns somebody away. */
  lemma NotTurnedAway(m: Machine, c: Client, x: Entry)
    requires Shape(m) && !(m.single && m.members != []) && x in Effects(m, Subscribe(c))
    ensures x.Told? ==> x.status == GRANTED
  {
    hide OnSubscribe;
    var n := Note(m, Took(m.state, Subscribe(c)));
    var r := OnSubscribe(n, c, |m.log|);
    SubscribeGrants(n, c, |m.log|);
    var i :| 0 <= i < |Effects(m, Subscribe(c))| && Effects(m, Subscribe(c))[i] == x;
    assert r.log[|n.log| + i] == x;
  }

  lemma SubscribeGrants(m: Machine, c: Client, call: nat)
    requires Shape(m)
    ensures var r := OnSubscribe(m, c, call);
      forall i :: |m.log| <= i < |r.log| && r.log[i].Told? ==> r.log[i].status == GRANTED
  {
    hide Has, Find;
  }

  /**
   * In every run, whatever is sent is true and reaches its owner: success only by a step that ends with the
   * connection, failure only on a denial or to an extra subscriber, a close only on a release or an unsubscribe.
   * What a WIFI subscriber would be sent for an unsubscribe is nothing, and it is never told of one.
   */
  lemma EveryWireTrue(single: bool, es: seq<Event>, e: Event, x: Entry)
    requires x in Effects(Run(Init(single), es), e) && x.Told?
    ensures var m := Run(Init(single), es);
      var w := Send(x.client, x.status);
      w.Some? && Truthful(m, e, x, w.value)
  {
    hide Step;
    var m := Run(Init(single), es);
    ReachableShape(single, es);
    StepAnswers(m, e);
    assert Fitting(m.single, m.state, e, x);
    WifiHearsOfItsOwn(single, es, e, x);
    if x.status == GRANTED {
      GrantState(m, e, x);
    } else if x.status == DENIED {
      DeniedState(m, e, x);
    }
  }

  lemma WifiHearsOfItsOwn(single: bool, es: seq<Event>, e: Event, x: Entry)
    requires x in Effects(Run(Init(single), es), e) && x.Told?
    ensures Send(x.client, x.status).Some?
  {
    hide Step;
    var m := Run(Init(single), es);
    assert (es + [e])[..|es|] == es;
    assert Run(Init(single), es + [e]) == Step(m, e);
    NotificationsAddressed(single, es + [e]);
    assert x in Step(m, e).log;
    assert Addressed(x, Step(m, e).log);
  }

  /** Nothing that is due is kept back: each of the three answers is sent for every member it concerns. */
  lemma EveryAnswerSent(c: Client)
    ensures Send(c, GRANTED).Some? && Positive(Send(c, GRANTED).value)
    ensures Send(c, DENIED).Some? && Negative(Send(c, DENIED).value)
    ensures Send(c, RELEASED).Some? && Closing(Send(c, RELEASED).value)
    ensures !c.Wifi? ==> Send(c, UNSUBSCRIBE).Some? && Closing(Send(c, UNSUBSCRIBE).value)
    ensures Send(c, SUBSCRIBE).None? && Send(c, STATUS_MAX).None?
  {
  }
}
