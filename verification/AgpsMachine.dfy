/**
 * The AGPS state machine as objects: subscribers on the heap, kept in the doubly linked list, and methods that
 * update both in place. Each public method does exactly one step of AgpsModel.
 */
module AgpsMachine {
  import opened Common
  import opened LinkedList
  import opened AgpsModel
  import opened AgpsShape

  class Subscriber {
    const client: Client
    ghost const since: nat
    var mIsInactive: bool

    constructor (client: Client, ghost since: nat)
      ensures this.client == client && this.since == since && !mIsInactive
    {
      this.client := client;
      this.since := since;
      mIsInactive := false;
    }

    ghost function View(): Member
      reads `mIsInactive
    {
      Member(client, mIsInactive, since)
    }

    predicate WaitForCloseComplete() {
      client.Wifi?
    }

    predicate IsInactive()
      reads `mIsInactive
    {
      client.Wifi? && mIsInactive
    }

    predicate ForMe(target: Target)
      reads `mIsInactive
      ensures ForMe(target) == AgpsModel.ForMe(View(), target)
    {
      match target
      case To(c) => client.Equals(c)
      case BroadcastAll => true
      case BroadcastActive => !IsInactive()
      case BroadcastInactive => IsInactive()
    }

    /** Only a WIFI subscriber has something to set. */
    method SetInactive()
      modifies `mIsInactive
      ensures mIsInactive == (old(mIsInactive) || client.Wifi?)
    {
      if client.Wifi? {
        mIsInactive := true;
      }
    }

    /** A clone starts out active, whatever it is a clone of. */
    method Clone(ghost since: nat) returns (s: Subscriber)
      ensures fresh(s) && s.View() == Member(client, false, since)
    {
      s := new Subscriber(client, since);
    }
  }

  function ClientOf(s: Subscriber?): Option<Client> {
    if s == null then None else Some(s.client)
  }

  ghost function Views(ss: seq<Subscriber>): (ms: seq<Member>)
    reads ss`mIsInactive
    ensures |ms| == |ss|
  {
    if ss == [] then [] else [ss[0].View()] + Views(ss[1..])
  }

  // ----- searches and the filter they amount to

  /** A search of the objects and a search of the members they stand for stop at the same place. */
  lemma {:induction false} FindFirst(ss: seq<Subscriber>, t: Target, k: nat)
    requires k <= |ss| && forall i :: 0 <= i < k ==> !ss[i].ForMe(t)
    requires k < |ss| ==> ss[k].ForMe(t)
    ensures Find(Views(ss), t) == k
  {
    if k > 0 {
      FindFirst(ss[1..], t, k - 1);
    }
  }

  /** One successful pass of the search tells the first match and takes it out; the rest is as it was. */
  lemma {:induction false} OnePass(ms: seq<Member>, t: Target, s: Status, k: nat)
    requires k < |ms| && ForMe(ms[k], t) && forall i :: 0 <= i < k ==> !ForMe(ms[i], t)
    ensures Tell(ms, t, s) == Tell(ms[..k + 1], t, s) + Tell(ms[..k] + ms[k + 1..], t, s)
    ensures Keep(ms, t) == Keep(ms[..k] + ms[k + 1..], t)
  {
    var rest := ms[..k] + ms[k + 1..];
    if k == 0 {
      assert rest == ms[1..];
      assert ms[..1] == [ms[0]];
    } else {
      OnePass(ms[1..], t, s, k - 1);
      assert ms[..k + 1] == [ms[0]] + ms[1..][..k];
      assert rest == [ms[0]] + (ms[1..][..k - 1] + ms[1..][k..]);
    }
  }

  lemma {:induction false} ViewsConcat(a: seq<Subscriber>, b: seq<Subscriber>)
    ensures Views(a + b) == Views(a) + Views(b)
  {
    if a == [] {
      assert a + b == b;
    } else {
      assert (a + b)[1..] == a[1..] + b;
      ViewsConcat(a[1..], b);
    }
  }

  lemma ViewsCons(s: Subscriber, c: seq<Subscriber>)
    ensures Views([s] + c) == [s.View()] + Views(c)
  {
  }

  lemma {:induction false} ViewsParts(c: seq<Subscriber>, k: nat)
    requires k < |c|
    ensures Views(c[..k + 1]) == Views(c)[..k + 1]
    ensures Views(c[..k] + c[k + 1..]) == Views(c)[..k] + Views(c)[k + 1..]
  {
    assert c == c[..k] + c[k..] && c == c[..k + 1] + c[k + 1..];
    ViewsConcat(c[..k], c[k..]);
    ViewsConcat(c[..k + 1], c[k + 1..]);
    ViewsConcat(c[..k], c[k + 1..]);
  }

  lemma {:induction false} ViewsIndex(c: seq<Subscriber>, k: nat)
    requires k < |c|
    ensures Views(c)[k] == c[k].View()
  {
    if k > 0 {
      ViewsIndex(c[1..], k - 1);
    }
  }

  twostate lemma {:induction false} SameViews(c: seq<Subscriber>)
    requires forall s :: s in c ==> s.mIsInactive == old(s.mIsInactive)
    ensures Views(c) == old(Views(c))
  {
    if c != [] {
      SameViews(c[1..]);
    }
  }

  lemma {:induction false} ViewsAt(c: seq<Subscriber>, ms: seq<Member>)
    ensures Views(c) == ms <==> ViewedAs(c, ms)
  {
    if c != [] && |ms| == |c| {
      ViewsAt(c[1..], ms[1..]);
      assert ms == [ms[0]] + ms[1..];
    }
  }

  /** The members that the subscribers stand for, one by one. */
  ghost predicate ViewedAs(c: seq<Subscriber>, ms: seq<Member>)
    reads c
  {
    |ms| == |c| && forall i :: 0 <= i < |c| ==> ms[i] == c[i].View()
  }

  /** Subscribers that stand for distinct members are distinct objects. */
  lemma DistinctObjects(c: seq<Subscriber>, ms: seq<Member>, k: nat)
    requires ViewedAs(c, ms) && Distinct(ms) && k < |c|
    ensures forall i :: 0 <= i < |c| && i != k ==> c[i] != c[k]
  {
    forall i | 0 <= i < |c| && i != k ensures c[i] != c[k] {
      DistinctIndex(ms, i, k);
      EqualsEquivalence(ms[i].client, ms[i].client, ms[i].client);
    }
  }

  lemma TakeViews(c: seq<Subscriber>, target: Target, k: nat)
    requires k <= |c| && forall i :: 0 <= i < k ==> !c[i].ForMe(target)
    requires k < |c| ==> c[k].ForMe(target)
    ensures k < |c| <==> Has(Views(c), target)
    ensures Views(if k < |c| then c[..k + 1] else c) == UpToFirst(Views(c), target)
    ensures Views(if k < |c| then c[..k] + c[k + 1..] else c) == WithoutFirst(Views(c), target)
  {
    FindFirst(c, target, k);
    if k < |c| {
      ViewsParts(c, k);
    }
  }

  class AgpsStateMachine {
    const mEnforceSingleSubscriber: bool
    var mState: State
    const mSubscribers: List<Subscriber>
    ghost var log: seq<Entry>
    ghost var events: seq<Event>       // the calls of the public methods so far
    ghost var clones: set<Subscriber>  // every clone ever added: the only subscribers these methods change

    /** The list is well formed; holds inside the methods too. Hidden in those that only pass it on. */
    ghost predicate Linked()
      reads `clones, mSubscribers, mSubscribers.Nodes
    {
      && mSubscribers.Valid()
      && forall e :: e in mSubscribers.added ==> e.data in clones
    }

    lemma ListedInClones(k: nat)
      requires Linked() && k < |mSubscribers.Contents()|
      ensures mSubscribers.Contents()[k] in clones
    {
    }

    ghost function Members(): seq<Member>
      reads mSubscribers`Nodes, mSubscribers.Contents()`mIsInactive
    {
      Views(mSubscribers.Contents())
    }

    ghost function View(): Machine
      reads this, mSubscribers`Nodes, mSubscribers.Contents()`mIsInactive
    {
      Machine(mEnforceSingleSubscriber, mState, Members(), log)
    }

    constructor (enforceSingleSubscriber: bool)
      ensures Valid() && View() == Init(enforceSingleSubscriber)
      ensures fresh(mSubscribers) && mSubscribers.Nodes == [] && mSubscribers.added == {} && clones == {}
    {
      mEnforceSingleSubscriber := enforceSingleSubscriber;
      mState := ReleasedState;
      mSubscribers := new List<Subscriber>();
      log, events := [], [];
      clones := {};
    }

    /** What the machine does to the outside world goes into the log. */
    ghost method Record(e: Entry)
      requires Linked()
      modifies `log
      ensures Linked() && View() == Note(old(View()), e) && Members() == old(Members())
    {
      RecordAll([e]);
    }

    ghost method RecordAll(more: seq<Entry>)
      requires Linked()
      modifies `log
      ensures Linked() && log == old(log) + more
      ensures Members() == old(Members()) && View() == old(View()).(log := log)
    {
      ghost var ms := Members();
      log := log + more;
      assert Members() == ms;
    }

    method HasSubscribers() returns (has: bool)
      requires Linked()
      ensures has <==> View().members != []
    {
      var empty := mSubscribers.Empty();
      has := !empty;
    }

    /** A search that removes nothing: the first subscriber that `target` is for. */
    method FindSubscriber(target: Target) returns (s: Option<Subscriber>, ghost k: nat)
      requires Linked()
      ensures k == Find(Members(), target)
      ensures s == if k < |mSubscribers.Contents()| then Some(mSubscribers.Contents()[k]) else None
      ensures s.Some? ==> s.value.client == Members()[k].client
    {
      var err, visited, elem;
      err, s, visited, elem, k := mSubscribers.Scan(None, (x: Subscriber) reads x => x.ForMe(target), true);
      FindFirst(mSubscribers.Contents(), target, k);
      if s.Some? {
        ViewsIndex(mSubscribers.Contents(), k);
      }
    }

    /** `notifySubscribers`: with deletion, search from the head until no search succeeds. */
    method NotifySubscribers(n: Notification)
      requires Linked() && Deliverable(n.status)
      modifies `log, mSubscribers, mSubscribers.added`next, mSubscribers.added`prev
      ensures Linked() && View() == Notify(old(View()), n)
      ensures mSubscribers.added == old(mSubscribers.added)
    {
      if n.postNotifyDelete {
        NotifyAndDelete(n);
      } else {
        var err, s, visited, elem, k := mSubscribers.Scan(None, (x: Subscriber) => false, false);
        RecordAll(Tell(Views(visited), n.target, n.status));
      }
    }

    method NotifyAndDelete(n: Notification)
      requires Linked() && Deliverable(n.status) && n.postNotifyDelete
      modifies `log, mSubscribers, mSubscribers.added`next, mSubscribers.added`prev
      ensures Linked() && Members() == Keep(old(Members()), n.target)
      ensures log == old(log) + Tell(old(Members()), n.target, n.status)
      ensures mSubscribers.added == old(mSubscribers.added)
    {
      ghost var ms := Members();
      var again := true;
      while again
        invariant Linked()
        invariant mSubscribers.added == old(mSubscribers.added)
        invariant Halfway(ms, old(log), Members(), log, n)
        invariant !again ==> !Has(Members(), n.target)
        decreases |mSubscribers.Nodes|, again
      {
        ghost var now, sent := Members(), log;
        again := NotifyFirst(n);
        PassHalfway(ms, old(log), now, sent, n);
      }
      NobodyMatches(Members(), n.target, n.status);
      assert log + [] == log;
    }

    /** `visited` are the subscribers the callback is called on. */
    method TakeFirst(target: Target) returns (s: Option<Subscriber>, visited: seq<Subscriber>)
      requires Linked()
      modifies mSubscribers, mSubscribers.added`next, mSubscribers.added`prev
      ensures Linked() && mSubscribers.added == old(mSubscribers.added)
      ensures s.Some? <==> Has(old(Members()), target)
      ensures s.Some? ==> |mSubscribers.Nodes| < |old(mSubscribers.Nodes)|
      ensures Views(visited) == UpToFirst(old(Members()), target)
      ensures Members() == WithoutFirst(old(Members()), target)
    {
      ghost var c := mSubscribers.Contents();
      ghost var k;
      var err;
      err, s, visited, k := mSubscribers.Search(None, (x: Subscriber) reads x => x.ForMe(target), true, true);
      TakeViews(c, target, k);
    }

    /** One pass of the deleting loop: a search that takes out what it finds, telling those it visits. */
    method NotifyFirst(n: Notification) returns (found: bool)
      requires Linked() && Deliverable(n.status)
      modifies `log, mSubscribers, mSubscribers.added`next, mSubscribers.added`prev
      ensures Linked() && mSubscribers.added == old(mSubscribers.added)
      ensures found <==> Has(old(Members()), n.target)
      ensures found ==> |mSubscribers.Nodes| < |old(mSubscribers.Nodes)|
      ensures Members() == WithoutFirst(old(Members()), n.target)
      ensures log == old(log) + Tell(UpToFirst(old(Members()), n.target), n.target, n.status)
    {
      var s, visited := TakeFirst(n.target);
      RecordAll(Tell(Views(visited), n.target, n.status));
      found := s.Some?;
    }

    /** `addSubscriber`: a clone goes to the head of the list unless an equal subscriber is there already. */
    method AddSubscriber(subscriber: Subscriber, ghost call: nat)
      requires Linked()
      modifies `clones, `log, mSubscribers, mSubscribers.added`next, mSubscribers.added`prev
      ensures Linked() && View() == Add(old(View()), subscriber.client, call)
      ensures fresh(mSubscribers.added - old(mSubscribers.added))
      ensures fresh(clones - old(clones))
    {
      hide AgpsStateMachine.Linked;
      var s, k := FindSubscriber(To(subscriber.client));
      if s.None? {
        InsertClone(subscriber, call);
      }
    }

    method InsertClone(subscriber: Subscriber, ghost call: nat)
      requires Linked() && !Has(Members(), To(subscriber.client))
      modifies `clones, `log, mSubscribers, mSubscribers.added`next, mSubscribers.added`prev
      ensures Linked() && View() == Add(old(View()), subscriber.client, call)
      ensures fresh(mSubscribers.added - old(mSubscribers.added))
      ensures fresh(clones - old(clones))
    {
      hide Add, Has;
      ghost var v := View();
      AddNew(v, subscriber.client, call);
      var clone := subscriber.Clone(call);
      clones := clones + {clone};
      assert Members() == v.members;
      PushClone(clone);
      Record(Joined(call, subscriber.client));
    }

    method PushClone(clone: Subscriber)
      requires Linked() && clone in clones
      modifies mSubscribers, mSubscribers.added`next, mSubscribers.added`prev
      ensures Linked() && Members() == [clone.View()] + old(Members())
      ensures fresh(mSubscribers.added - old(mSubscribers.added))
    {
      ghost var c := mSubscribers.Contents();
      var err := mSubscribers.Add(Some(clone), true, true);
      SameViews(c);
      ViewsCons(clone, c);
    }

    method HasActiveSubscribers() returns (has: bool)
      requires Linked()
      ensures has == Has(Members(), BroadcastActive)
    {
      var s, k := FindSubscriber(BroadcastActive);
      has := s.Some?;
    }

    /** `sendRsrcRequest`. */
    method SendRsrcRequest(action: Action)
      requires Linked()
      modifies `log
      ensures Linked() && View() == Ask(old(View()), action)
    {
      hide AgpsStateMachine.Linked;
      var s, k := FindSubscriber(BroadcastActive);
      if s.None? == action.Release? {
        Record(Asked(action, if s.None? then None else Some(s.value.client)));
      } else {
        Record(Suppressed(action));
      }
    }

    /** The part of the UNSUBSCRIBE case that three states share; `data` is in the list, at `k`. */
    method CloseSubscriber(data: Subscriber, ghost k: nat)
      requires Linked() && k < |Members()| && data == mSubscribers.Contents()[k] && Distinct(Members())
      modifies `log, mSubscribers, mSubscribers.added`next, mSubscribers.added`prev, data`mIsInactive
      ensures Linked() && View() == Close(old(View()), k)
      ensures mSubscribers.added == old(mSubscribers.added)
    {
      ViewsIndex(mSubscribers.Contents(), k);
      if data.WaitForCloseComplete() {
        MarkInactive(data, k);
      } else {
        NotifySubscribers(Notification(To(data.client), UNSUBSCRIBE, true));
      }
    }

    method MarkInactive(data: Subscriber, ghost k: nat)
      requires Linked() && k < |Members()| && data == mSubscribers.Contents()[k] && Distinct(Members())
      requires data.client.Wifi?
      modifies data`mIsInactive
      ensures Linked() && Members() == old(Members())[k := old(Members())[k].(inactive := true)]
    {
      ghost var c, ms := mSubscribers.Contents(), Members();
      ViewsAt(c, ms);
      FlagOne(data, c, ms, k);
      ViewsAt(c, ms[k := ms[k].(inactive := true)]);
    }

    static method FlagOne(data: Subscriber, ghost c: seq<Subscriber>, ghost ms: seq<Member>, ghost k: nat)
      requires ViewedAs(c, ms) && k < |c| && data == c[k] && data.client.Wifi? && Distinct(ms)
      modifies data`mIsInactive
      ensures ViewedAs(c, ms[k := ms[k].(inactive := true)])
    {
      DistinctObjects(c, ms, k);
      data.SetInactive();
    }

    /** The end of the UNSUBSCRIBE case in Pending and Acquired. */
    method LetGoOfResource() returns (next: State)
      requires Linked()
      modifies `log
      ensures Linked() && Enter(View(), next) == LetGo(old(View()))
    {
      hide AgpsStateMachine.Linked;
      next := mState;
      var has := HasSubscribers();
      if !has {
        next := ReleasedState;
        SendRsrcRequest(Release);
      } else {
        var active := HasActiveSubscribers();
        if !active {
          next := ReleasingState;
          SendRsrcRequest(Release);
        }
      }
    }

    // ----- the four states

    method ReleasedOnRsrcEvent(event: Status, data: Subscriber?, ghost call: nat, ghost k: nat) returns (next: State)
      requires Linked() && mState == ReleasedState
      requires event != STATUS_MAX && (event == SUBSCRIBE ==> data != null)
      requires event == UNSUBSCRIBE ==> k < |Members()| && data == mSubscribers.Contents()[k]
      modifies `clones, `log, mSubscribers, mSubscribers.added`next, mSubscribers.added`prev
      ensures Linked() && fresh(mSubscribers.added - old(mSubscribers.added)) && fresh(clones - old(clones))
      ensures Enter(View(), next) == OnEvent(old(View()), event, ClientOf(data), call, k)
    {
      hide AgpsStateMachine.Linked, OnEvent, ReleasedCases;
      ghost var m := View();
      CheckListEmpty();
      next := ReleasedSwitch(event, data, call, k);
      InReleased(m, event, ClientOf(data), call, k);
    }

    /** What the Released state does after its check. */
    method ReleasedSwitch(event: Status, data: Subscriber?, ghost call: nat, ghost k: nat) returns (next: State)
      requires Linked() && mState == ReleasedState && (event == SUBSCRIBE ==> data != null)
      requires event == UNSUBSCRIBE ==> k < |Members()| && data == mSubscribers.Contents()[k]
      modifies `clones, `log, mSubscribers, mSubscribers.added`next, mSubscribers.added`prev
      ensures Linked() && fresh(mSubscribers.added - old(mSubscribers.added)) && fresh(clones - old(clones))
      ensures Enter(View(), next) == ReleasedCases(old(View()), event, ClientOf(data), call, k)
    {
      hide AgpsStateMachine.Linked;
      next := mState;
      match event {
        case SUBSCRIBE =>
          next := FirstSubscriber(data, call);
        case UNSUBSCRIBE =>
          TellUnsubscribed(data, k);
        case _ =>
      }
    }

    /** The direct notification in Released; it removes nothing. */
    method TellUnsubscribed(data: Subscriber, ghost k: nat)
      requires Linked() && k < |Members()| && data == mSubscribers.Contents()[k]
      modifies `log
      ensures Linked() && View() == Note(old(View()), Told(Some(old(Members())[k].since), old(Members())[k].client, UNSUBSCRIBE))
    {
      ViewsIndex(mSubscribers.Contents(), k);
      Record(Told(Some(data.since), data.client, UNSUBSCRIBE));
    }

    method CheckListEmpty()
      requires Linked()
      modifies `log
      ensures Linked() && View() == CheckEmpty(old(View())) && Members() == old(Members())
    {
      var has := HasSubscribers();
      if has {
        Record(ListNotEmptyError);
      }
    }

    /** A subscriber that arrives in Released. */
    method FirstSubscriber(data: Subscriber, ghost call: nat) returns (next: State)
      requires Linked()
      modifies `clones, `log, mSubscribers, mSubscribers.added`next, mSubscribers.added`prev
      ensures Linked() && fresh(mSubscribers.added - old(mSubscribers.added)) && fresh(clones - old(clones))
      ensures var v := old(View());
        Enter(View(), next) == Ask(Enter(Add(v, data.client, call), PendingState), Request)
    {
      next := PendingState;
      AddSubscriber(data, call);
      AskEnter(View(), PendingState, Request);
      SendRsrcRequest(Request);
    }

    method PendingOnRsrcEvent(event: Status, data: Subscriber?, ghost call: nat, ghost k: nat) returns (next: State)
      requires Linked() && mState == PendingState && Distinct(Members())
      requires event != STATUS_MAX && (event == SUBSCRIBE ==> data != null)
      requires event == UNSUBSCRIBE ==> k < |Members()| && data == mSubscribers.Contents()[k]
      modifies `clones, `log, mSubscribers, mSubscribers.added`next, mSubscribers.added`prev, clones`mIsInactive
      ensures Linked() && fresh(mSubscribers.added - old(mSubscribers.added)) && fresh(clones - old(clones))
      ensures Enter(View(), next) == OnEvent(old(View()), event, ClientOf(data), call, k)
    {
      hide AgpsStateMachine.Linked;
      next := mState;
      match event {
        case SUBSCRIBE =>
          AddSubscriber(data, call);
        case UNSUBSCRIBE =>
          ListedInClones(k);
          CloseSubscriber(data, k);
          next := LetGoOfResource();
        case GRANTED =>
          next := AcquiredState;
          NotifySubscribers(Notification(BroadcastActive, event, false));
        case DENIED =>
          next := ReleasedState;
          NotifySubscribers(Notification(BroadcastAll, event, true));
        case _ =>
      }
    }

    method AcquiredOnRsrcEvent(event: Status, data: Subscriber?, ghost call: nat, ghost k: nat) returns (next: State)
      requires Linked() && mState == AcquiredState && Distinct(Members())
      requires event != STATUS_MAX && (event == SUBSCRIBE ==> data != null)
      requires event == UNSUBSCRIBE ==> k < |Members()| && data == mSubscribers.Contents()[k]
      modifies `clones, `log, mSubscribers, mSubscribers.added`next, mSubscribers.added`prev, clones`mIsInactive
      ensures Linked() && fresh(mSubscribers.added - old(mSubscribers.added)) && fresh(clones - old(clones))
      ensures Enter(View(), next) == OnEvent(old(View()), event, ClientOf(data), call, k)
    {
      hide AgpsStateMachine.Linked;
      next := mState;
      match event {
        case SUBSCRIBE =>
          GrantAtOnce(data, call);
        case UNSUBSCRIBE =>
          ListedInClones(k);
          CloseSubscriber(data, k);
          next := LetGoOfResource();
        case RELEASED =>
          next := ReleasedState;
          NotifySubscribers(Notification(BroadcastAll, event, true));
        case _ =>
      }
    }

    /** A subscriber that arrives in Acquired. */
    method GrantAtOnce(data: Subscriber, ghost call: nat)
      requires Linked()
      modifies `clones, `log, mSubscribers, mSubscribers.added`next, mSubscribers.added`prev
      ensures Linked() && fresh(mSubscribers.added - old(mSubscribers.added)) && fresh(clones - old(clones))
      ensures View() == Add(Note(old(View()), Told(None, data.client, GRANTED)), data.client, call)
    {
      hide AgpsStateMachine.Linked;
      Record(Told(None, data.client, GRANTED));
      AddSubscriber(data, call);
    }

    method ReleasingOnRsrcEvent(event: Status, data: Subscriber?, ghost call: nat, ghost k: nat) returns (next: State)
      requires Linked() && mState == ReleasingState && Distinct(Members())
      requires event != STATUS_MAX && (event == SUBSCRIBE ==> data != null)
      requires event == UNSUBSCRIBE ==> k < |Members()| && data == mSubscribers.Contents()[k]
      modifies `clones, `log, mSubscribers, mSubscribers.added`next, mSubscribers.added`prev, clones`mIsInactive
      ensures Linked() && fresh(mSubscribers.added - old(mSubscribers.added)) && fresh(clones - old(clones))
      ensures Enter(View(), next) == OnEvent(old(View()), event, ClientOf(data), call, k)
    {
      hide AgpsStateMachine.Linked;
      next := mState;
      match event {
        case SUBSCRIBE =>
          AddSubscriber(data, call);
        case UNSUBSCRIBE =>
          ListedInClones(k);
          next := CloseInReleasing(data, k);
        case DENIED =>
          next := ReleaseInactive(event);
        case RELEASED =>
          next := ReleaseInactive(event);
        case _ =>
      }
    }

    method CloseInReleasing(data: Subscriber, ghost k: nat) returns (next: State)
      requires Linked() && mState == ReleasingState && Distinct(Members())
      requires k < |Members()| && data == mSubscribers.Contents()[k]
      modifies `log, mSubscribers, mSubscribers.added`next, mSubscribers.added`prev, data`mIsInactive
      ensures Linked() && mSubscribers.added == old(mSubscribers.added)
      ensures Enter(View(), next) == OnUnsubscribe(old(View()), k)
    {
      hide AgpsStateMachine.Linked;
      next := mState;
      CloseSubscriber(data, k);
      var has := HasSubscribers();
      if !has {
        next := ReleasedState;
      }
    }

    /** The common case of RELEASED and DENIED in Releasing. */
    method ReleaseInactive(event: Status) returns (next: State)
      requires Linked() && mState == ReleasingState && (event == RELEASED || event == DENIED)
      modifies `log, mSubscribers, mSubscribers.added`next, mSubscribers.added`prev
      ensures Linked() && mSubscribers.added == old(mSubscribers.added)
      ensures Enter(View(), next) == OnFramework(old(View()), event)
    {
      hide AgpsStateMachine.Linked;
      InReleasing(View(), event);
      NotifySubscribers(Notification(BroadcastInactive, event, true));
      var has := HasSubscribers();
      if has {
        next := PendingState;
        SendRsrcRequest(Request);
      } else {
        next := ReleasedState;
      }
    }

    /** `mStatePtr->onRsrcEvent`. */
    method StateOnRsrcEvent(event: Status, data: Subscriber?, ghost call: nat, ghost k: nat) returns (next: State)
      requires Linked() && Distinct(Members())
      requires event != STATUS_MAX && (event == SUBSCRIBE ==> data != null)
      requires event == UNSUBSCRIBE ==> k < |Members()| && data == mSubscribers.Contents()[k]
      modifies `clones, `log, mSubscribers, mSubscribers.added`next, mSubscribers.added`prev, clones`mIsInactive
      ensures Linked() && fresh(mSubscribers.added - old(mSubscribers.added)) && fresh(clones - old(clones))
      ensures Enter(View(), next) == OnEvent(old(View()), event, ClientOf(data), call, k)
    {
      hide AgpsStateMachine.Linked;
      match mState {
        case ReleasedState => next := ReleasedOnRsrcEvent(event, data, call, k);
        case PendingState => next := PendingOnRsrcEvent(event, data, call, k);
        case AcquiredState => next := AcquiredOnRsrcEvent(event, data, call, k);
        case ReleasingState => next := ReleasingOnRsrcEvent(event, data, call, k);
      }
    }

    method DispatchRsrcEvent(event: Status, data: Subscriber?, ghost call: nat, ghost k: nat)
      requires Linked() && Distinct(Members())
      requires event != STATUS_MAX && (event == SUBSCRIBE ==> data != null)
      requires event == UNSUBSCRIBE ==> k < |Members()| && data == mSubscribers.Contents()[k]
      modifies this, mSubscribers, mSubscribers.added`next, mSubscribers.added`prev, clones`mIsInactive
      ensures Linked() && fresh(mSubscribers.added - old(mSubscribers.added)) && fresh(clones - old(clones))
      ensures View() == OnEvent(old(View()), event, ClientOf(data), call, k)
      ensures events == old(events)
    {
      hide AgpsStateMachine.Linked;
      var next := StateOnRsrcEvent(event, data, call, k);
      ghost var ms := Members();
      mState := next;
      assert Members() == ms;
    }

    method DispatchSubscribe(subscriber: Subscriber)
      requires Linked() && Distinct(Members())
      modifies this, mSubscribers, mSubscribers.added`next, mSubscribers.added`prev, clones`mIsInactive
      ensures Linked() && View() == Step(old(View()), Subscribe(subscriber.client)) && events == old(events)
      ensures fresh(mSubscribers.added - old(mSubscribers.added)) && fresh(clones - old(clones))
    {
      hide AgpsStateMachine.Linked;
      ghost var call := |log|;
      Record(Took(mState, Subscribe(subscriber.client)));
      var has := HasSubscribers();
      if mEnforceSingleSubscriber && has {
        Record(Told(None, subscriber.client, DENIED));
      } else {
        DispatchRsrcEvent(SUBSCRIBE, subscriber, call, 0);
      }
    }

    method DispatchUnsubscribe(client: Client) returns (found: bool)
      requires Linked() && Distinct(Members())
      modifies this, mSubscribers, mSubscribers.added`next, mSubscribers.added`prev, clones`mIsInactive
      ensures Linked() && View() == Step(old(View()), Unsubscribe(client)) && events == old(events)
      ensures found == Has(old(Members()), To(client))
      ensures fresh(mSubscribers.added - old(mSubscribers.added)) && fresh(clones - old(clones))
    {
      hide AgpsStateMachine.Linked;
      var s, k := FindSubscriber(To(client));
      found := s.Some?;
      UnsubscribeFound(client, s, k);
    }

    /** The rest of `unsubscribeRsrc`, after the search has found `s`, or nobody. */
    method UnsubscribeFound(client: Client, s: Option<Subscriber>, ghost k: nat)
      requires Linked() && Distinct(Members())
      requires k == Find(Members(), To(client))
      requires s == if k < |mSubscribers.Contents()| then Some(mSubscribers.Contents()[k]) else None
      requires s.Some? ==> s.value.client == Members()[k].client
      modifies this, mSubscribers, mSubscribers.added`next, mSubscribers.added`prev, clones`mIsInactive
      ensures Linked() && View() == Step(old(View()), Unsubscribe(client)) && events == old(events)
      ensures fresh(mSubscribers.added - old(mSubscribers.added)) && fresh(clones - old(clones))
    {
      hide AgpsStateMachine.Linked;
      ghost var m := View();
      UnsubscribeStep(m, client);
      Record(Took(mState, Unsubscribe(client)));
      if s.Some? {
        DispatchRsrcEvent(UNSUBSCRIBE, s.value, 0, k);
      }
    }

    method DispatchFramework(event: Status)
      requires Linked() && Distinct(Members()) && FromFramework(event)
      modifies this, mSubscribers, mSubscribers.added`next, mSubscribers.added`prev, clones`mIsInactive
      ensures Linked() && View() == Step(old(View()), Arrival(event)) && events == old(events)
      ensures fresh(mSubscribers.added - old(mSubscribers.added)) && fresh(clones - old(clones))
    {
      hide AgpsStateMachine.Linked;
      Record(Took(mState, Arrival(event)));
      DispatchRsrcEvent(event, null, 0, 0);
    }

    // ----- the public methods

    /** The machine is where its events lead, so that what holds in every run of the model holds of it. */
    ghost predicate Valid()
      reads this, mSubscribers, mSubscribers.Nodes, mSubscribers.Contents()`mIsInactive
    {
      Linked() && View() == Run(Init(mEnforceSingleSubscriber), events)
    }

    lemma ValidDistinct()
      requires Valid()
      ensures Linked() && Distinct(Members())
    {
      ReachableShape(mEnforceSingleSubscriber, events);
    }

    /** The methods that follow have done one step since they were called in state `m`. */
    ghost method Advance(m: Machine, e: Event)
      requires m == Run(Init(mEnforceSingleSubscriber), events)
      requires Linked() && View() == Step(m, e)
      modifies `events
      ensures Valid() && View() == old(View()) && Members() == old(Members())
    {
      ghost var v := View();
      events := RunMore(mEnforceSingleSubscriber, events, e);
      assert View() == v;
    }

    /** `onRsrcEvent`; an event that does not come from the framework is ignored with a warning. */
    method OnRsrcEvent(event: Status)
      requires Valid()
      modifies this, mSubscribers, mSubscribers.added`next, mSubscribers.added`prev, clones`mIsInactive
      ensures Valid() && fresh(mSubscribers.added - old(mSubscribers.added)) && fresh(clones - old(clones))
      ensures View() == if FromFramework(event) then Step(old(View()), Arrival(event)) else old(View())
    {
      hide AgpsStateMachine.Linked;
      if FromFramework(event) {
        ghost var m := View();
        ValidDistinct();
        DispatchFramework(event);
        Advance(m, Arrival(event));
      }
    }

    method SubscribeRsrc(subscriber: Subscriber)
      requires Valid()
      modifies this, mSubscribers, mSubscribers.added`next, mSubscribers.added`prev, clones`mIsInactive
      ensures Valid() && View() == Step(old(View()), Subscribe(subscriber.client))
      ensures fresh(mSubscribers.added - old(mSubscribers.added)) && fresh(clones - old(clones))
    {
      hide AgpsStateMachine.Linked;
      ghost var m := View();
      ValidDistinct();
      DispatchSubscribe(subscriber);
      Advance(m, Subscribe(subscriber.client));
    }

    method UnsubscribeRsrc(subscriber: Subscriber) returns (found: bool)
      requires Valid()
      modifies this, mSubscribers, mSubscribers.added`next, mSubscribers.added`prev, clones`mIsInactive
      ensures Valid() && View() == Step(old(View()), Unsubscribe(subscriber.client))
      ensures found == Has(old(Members()), To(subscriber.client))
      ensures fresh(mSubscribers.added - old(mSubscribers.added)) && fresh(clones - old(clones))
    {
      hide AgpsStateMachine.Linked;
      ghost var m := View();
      ValidDistinct();
      found := DispatchUnsubscribe(subscriber.client);
      Advance(m, Unsubscribe(subscriber.client));
    }

    /** `dropAllSubscribers`, at modem restart: the state stays as it is. */
    method DropAllSubscribers()
      requires Valid()
      modifies this, mSubscribers
      ensures Valid() && View() == Step(old(View()), Restart)
      ensures mSubscribers.added == old(mSubscribers.added) && clones == old(clones)
    {
      ghost var m := View();
      DropThem();
      Advance(m, Restart);
    }

    method DropThem()
      requires Linked()
      modifies `log, mSubscribers
      ensures Linked() && View() == Step(old(View()), Restart)
      ensures mSubscribers.added == old(mSubscribers.added)
    {
      RecordAll([Took(mState, Restart)] + Drops(Members()));
      mSubscribers.Flush();
    }
  }

  /** A run with one event more. */
  ghost function RunMore(single: bool, es: seq<Event>, e: Event): (more: seq<Event>)
    ensures Run(Init(single), more) == Step(Run(Init(single), es), e)
  {
    assert (es + [e])[..|es|] == es;
    es + [e]
  }

  predicate FromFramework(event: Status) {
    event == GRANTED || event == RELEASED || event == DENIED
  }

  function Arrival(event: Status): Event
    requires FromFramework(event)
  {
    if event == GRANTED then Granted else if event == RELEASED then Released else Denied
  }

  lemma AddNew(m: Machine, c: Client, call: nat)
    requires !Has(m.members, To(c))
    ensures Add(m, c, call) == Machine(m.single, m.state, [Member(c, false, call)] + m.members, m.log + [Joined(call, c)])
  {
  }

  lemma UnsubscribeStep(m: Machine, c: Client)
    ensures var n := Note(m, Took(m.state, Unsubscribe(c)));
      var k := Find(m.members, To(c));
      Step(m, Unsubscribe(c)) == if k < |m.members| then OnEvent(n, UNSUBSCRIBE, Some(m.members[k].client), 0, k) else n
  {
  }

  /** The switch in the Released state. */
  function ReleasedCases(m: Machine, event: Status, c: Option<Client>, call: nat, k: nat): Machine
    requires event == SUBSCRIBE ==> c.Some?
    requires event == UNSUBSCRIBE ==> k < |m.members|
  {
    if event == SUBSCRIBE then Ask(Enter(Add(m, c.value, call), PendingState), Request)
    else if event == UNSUBSCRIBE then Note(m, Told(Some(m.members[k].since), m.members[k].client, UNSUBSCRIBE))
    else m
  }

  lemma InReleased(m: Machine, event: Status, c: Option<Client>, call: nat, k: nat)
    requires m.state == ReleasedState && event != STATUS_MAX
    requires event == SUBSCRIBE ==> c.Some?
    requires event == UNSUBSCRIBE ==> k < |m.members|
    ensures OnEvent(m, event, c, call, k) == ReleasedCases(CheckEmpty(m), event, c, call, k)
  {
  }

  lemma InReleasing(m: Machine, event: Status)
    requires m.state == ReleasingState && (event == RELEASED || event == DENIED)
    ensures var n := Notify(m, Notification(BroadcastInactive, event, true));
      OnFramework(m, event) ==
        if n.members == [] then Enter(n, ReleasedState) else Enter(Ask(n, Request), PendingState)
  {
    AskEnter(Notify(m, Notification(BroadcastInactive, event, true)), PendingState, Request);
  }

  /** The request does not depend on the state the machine is in. */
  lemma AskEnter(m: Machine, state: State, a: Action)
    ensures Ask(Enter(m, state), a) == Enter(Ask(m, a), state)
  {
  }

  /** What a state does with an event, whatever the event. */
  function OnEvent(m: Machine, event: Status, c: Option<Client>, call: nat, k: nat): Machine
    requires event != STATUS_MAX
    requires event == SUBSCRIBE ==> c.Some?
    requires event == UNSUBSCRIBE ==> k < |m.members|
  {
    if event == SUBSCRIBE then OnSubscribe(m, c.value, call)
    else if event == UNSUBSCRIBE then OnUnsubscribe(m, k)
    else OnFramework(m, event)
  }

  function UpToFirst(ms: seq<Member>, target: Target): seq<Member> {
    if Has(ms, target) then ms[..Find(ms, target) + 1] else ms
  }

  function WithoutFirst(ms: seq<Member>, target: Target): seq<Member> {
    var k := Find(ms, target);
    if k < |ms| then ms[..k] + ms[k + 1..] else ms
  }

  /** With members `now` and log `sent`, a notification that began with `ms` and `log` is on its way. */
  ghost predicate Halfway(ms: seq<Member>, log: seq<Entry>, now: seq<Member>, sent: seq<Entry>, n: Notification) {
    && Keep(now, n.target) == Keep(ms, n.target)
    && sent + Tell(now, n.target, n.status) == log + Tell(ms, n.target, n.status)
  }

  lemma PassHalfway(ms: seq<Member>, log: seq<Entry>, now: seq<Member>, sent: seq<Entry>, n: Notification)
    requires Halfway(ms, log, now, sent, n)
    ensures Halfway(ms, log, WithoutFirst(now, n.target), sent + Tell(UpToFirst(now, n.target), n.target, n.status), n)
    ensures !Has(now, n.target) ==> !Has(WithoutFirst(now, n.target), n.target)
  {
    if Has(now, n.target) {
      OnePass(now, n.target, n.status, Find(now, n.target));
    } else {
      NobodyMatches(now, n.target, n.status);
    }
    var a := Tell(UpToFirst(now, n.target), n.target, n.status);
    var b := Tell(WithoutFirst(now, n.target), n.target, n.status);
    assert (sent + a) + b == sent + (a + b);
  }
}
