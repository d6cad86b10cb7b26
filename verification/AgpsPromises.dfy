/** What every run of the model keeps is kept by the state machine object, at every moment between two calls. */
module AgpsPromises {
  import opened AgpsModel
  import opened AgpsShape
  import opened AgpsBalance
  import opened AgpsGrants
  import AgpsMachine

  lemma ObjectKeeps(a: AgpsMachine.AgpsStateMachine, j: nat)
    requires a.Valid()
    ensures var m := a.View();
      && Shape(m) && Balanced(m) && Knowledge(m) && AllAddressed(m)
      && Present(m.members, j) + Sum(m.log, ClosesOf(j)) + Sum(m.log, DropsOf(j)) == Sum(m.log, JoinsOf(j))
      && 0 <= Sum(m.log, JoinsOf(j)) <= 1
  {
    ReachableShape(a.mEnforceSingleSubscriber, a.events);
    ConnectionsBalance(a.mEnforceSingleSubscriber, a.events);
    RunKnows(a.mEnforceSingleSubscriber, a.events);
    NotificationsAddressed(a.mEnforceSingleSubscriber, a.events);
    EachMembershipEndsOnce(a.mEnforceSingleSubscriber, a.events, j);
  }

  /** A machine from its creation through any events: what the model does with them. */
  method Drive(single: bool, es: seq<Event>) returns (a: AgpsMachine.AgpsStateMachine)
    ensures fresh(a) && a.Valid() && a.View() == Run(Init(single), es)
  {
    a := new AgpsMachine.AgpsStateMachine(single);
    for i := 0 to |es|
      invariant fresh(a) && fresh(a.mSubscribers) && fresh(a.mSubscribers.added) && fresh(a.clones)
      invariant a.Valid() && a.View() == Run(Init(single), es[..i])
    {
      assert es[..i + 1][..i] == es[..i];
      Perform(a, es[i]);
    }
    assert es[..|es|] == es;
  }

  method Perform(a: AgpsMachine.AgpsStateMachine, e: Event)
    requires a.Valid()
    modifies a, a.mSubscribers, a.mSubscribers.added`next, a.mSubscribers.added`prev, a.clones`mIsInactive
    ensures a.Valid() && a.View() == Step(old(a.View()), e)
    ensures fresh(a.mSubscribers.added - old(a.mSubscribers.added)) && fresh(a.clones - old(a.clones))
  {
    hide Step, AgpsMachine.AgpsStateMachine.Linked;
    match e {
      case Subscribe(c) =>
        var s := new AgpsMachine.Subscriber(c, 0);
        a.SubscribeRsrc(s);
      case Unsubscribe(c) =>
        var s := new AgpsMachine.Subscriber(c, 0);
        var found := a.UnsubscribeRsrc(s);
      case Granted => a.OnRsrcEvent(GRANTED);
      case Released => a.OnRsrcEvent(RELEASED);
      case Denied => a.OnRsrcEvent(DENIED);
      case Restart => a.DropAllSubscribers();
    }
  }
}
