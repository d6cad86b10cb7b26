/**
 * What the AGPS state machine of gps/libloc_api_50001/loc_eng_agps.cpp does to its state, its subscriber list
 * and the outside world, one external event at a time. The log records everything it does, in order.
 */
module AgpsModel {
  import opened Common

  const INADDR_NONE: int := -1

  /** The characters of a C string: what strncmp compares. */
  function CString(bytes: seq<byte>): seq<byte>
  {
    if bytes == [] || bytes[0] == 0 then [] else [bytes[0]] + CString(bytes[1..])
  }

  /** BIT subscribers are known by their addresses, ATL ones by a connection handle, WIFI ones by sender. */
  datatype AnyClient =
    | Bit(ipv4: int, ipv6: seq<byte>)
    | Atl(handle: int)
    | Wifi(sender: int, ssid: Option<string>, password: Option<string>)
  {
    function ID(): int {
      match this
      case Bit(ipv4, _) => ipv4
      case Atl(handle) => handle
      case Wifi(sender, _, _) => sender
    }

    /** `equals`, the override of the receiver's class. */
    predicate Equals(s: AnyClient) {
      && ID() == s.ID()
      && (Bit? && ID() == INADDR_NONE ==> s.Bit? && CString(ipv6) == CString(s.ipv6))
    }
  }

  /** Only a BIT subscriber may carry the ID INADDR_NONE, so that `equals` never casts another kind to BIT. */
  type Client = c: AnyClient | (c.Bit? ==> |c.ipv6| == 16) && (!c.Bit? ==> c.ID() != INADDR_NONE)
    witness Atl(0)

  datatype Status = SUBSCRIBE | UNSUBSCRIBE | GRANTED | RELEASED | DENIED | STATUS_MAX

  datatype State = ReleasedState | PendingState | AcquiredState | ReleasingState

  /** A clone in the list. `since` is the position in the log of the subscribe call that added it. */
  datatype Member = Member(client: Client, inactive: bool, since: nat) {
    predicate IsInactive() { client.Wifi? && inactive }
  }

  datatype Target = To(client: Client) | BroadcastAll | BroadcastActive | BroadcastInactive

  datatype Notification = Notification(target: Target, status: Status, postNotifyDelete: bool)

  predicate ForMe(m: Member, target: Target) {
    match target
    case To(c) => m.client.Equals(c)
    case BroadcastAll => true
    case BroadcastActive => !m.IsInactive()
    case BroadcastInactive => m.IsInactive()
  }

  /** `notifyRsrcStatus` returns true for these; a subscriber ignores the other two. */
  predicate Deliverable(status: Status) {
    status != SUBSCRIBE && status != STATUS_MAX
  }

  predicate Terminal(status: Status) {
    status == UNSUBSCRIBE || status == RELEASED || status == DENIED
  }

  datatype Action = Request | Release

  datatype Event = Subscribe(client: Client) | Unsubscribe(client: Client) | Granted | Released | Denied | Restart

  datatype Entry =
    | Took(state: State, event: Event)                       // an external event arrives
    | Asked(action: Action, behalf: Option<Client>)          // the servicer is called
    | Suppressed(action: Action)                             // the gate of sendRsrcRequest swallows a call
    | Told(to: Option<nat>, client: Client, status: Status)    // a member, or None: the caller's own object
    | Joined(since: nat, client: Client)                     // a clone enters the list
    | Dropped(since: nat)                                    // a clone is flushed at modem restart
    | ListNotEmptyError                                      // the error log of the Released state

  datatype Machine = Machine(single: bool, state: State, members: seq<Member>, log: seq<Entry>)

  function Init(single: bool): Machine {
    Machine(single, ReleasedState, [], [])
  }

  /** The first member a search for `target` meets, |ms| if there is none. */
  function Find(ms: seq<Member>, target: Target): (k: nat)
    ensures k <= |ms|
    ensures forall i :: 0 <= i < k ==> !ForMe(ms[i], target)
    ensures k < |ms| ==> ForMe(ms[k], target)
  {
    if ms == [] || ForMe(ms[0], target) then 0 else 1 + Find(ms[1..], target)
  }

  predicate Has(ms: seq<Member>, target: Target) {
    Find(ms, target) < |ms|
  }

  /** One notification to each member it is for, in list order. */
  function Tell(ms: seq<Member>, target: Target, status: Status): seq<Entry> {
    if ms == [] then []
    else if ForMe(ms[0], target) then
      [Told(Some(ms[0].since), ms[0].client, status)] + Tell(ms[1..], target, status)
    else Tell(ms[1..], target, status)
  }

  /** The members a notification is not for, in list order. */
  function Keep(ms: seq<Member>, target: Target): seq<Member> {
    if ms == [] then []
    else if ForMe(ms[0], target) then Keep(ms[1..], target)
    else [ms[0]] + Keep(ms[1..], target)
  }

  function Drops(ms: seq<Member>): seq<Entry> {
    if ms == [] then [] else [Dropped(ms[0].since)] + Drops(ms[1..])
  }

  function Note(m: Machine, e: Entry): Machine {
    m.(log := m.log + [e])
  }

  function Enter(m: Machine, state: State): Machine {
    m.(state := state)
  }

  function Notify(m: Machine, n: Notification): (r: Machine)
    requires Deliverable(n.status)
    ensures m.log <= r.log && r.single == m.single
  {
    m.(log := m.log + Tell(m.members, n.target, n.status),
       members := if n.postNotifyDelete then Keep(m.members, n.target) else m.members)
  }

  /** `call` is the position of the subscribe call in the log. */
  function Add(m: Machine, c: Client, call: nat): (r: Machine)
    ensures m.log <= r.log && r.single == m.single
  {
    if Has(m.members, To(c)) then m
    else Note(m.(members := [Member(c, false, call)] + m.members), Joined(call, c))
  }

  /** `sendRsrcRequest`: a release needs no active member left, a request needs one to ask for. */
  function Ask(m: Machine, action: Action): (r: Machine)
    ensures m.log <= r.log && r.single == m.single
  {
    var k := Find(m.members, BroadcastActive);
    if (k == |m.members|) == action.Release? then
      Note(m, Asked(action, if k < |m.members| then Some(m.members[k].client) else None))
    else Note(m, Suppressed(action))
  }

  function SetInactive(m: Machine, k: nat): (r: Machine)
    requires k < |m.members|
    ensures m.log <= r.log && r.single == m.single
  {
    m.(members := m.members[k := m.members[k].(inactive := true)])
  }

  /** `waitForCloseComplete` and what an unsubscribing member gets done to it in three of the states. */
  function Close(m: Machine, k: nat): (r: Machine)
    requires k < |m.members|
    ensures m.log <= r.log && r.single == m.single
  {
    var c := m.members[k].client;
    if c.Wifi? then SetInactive(m, k) else Notify(m, Notification(To(c), UNSUBSCRIBE, true))
  }

  /** The end of the UNSUBSCRIBE case in Pending and Acquired. */
  function LetGo(m: Machine): (r: Machine)
    ensures m.log <= r.log && r.single == m.single
  {
    if m.members == [] then Ask(Enter(m, ReleasedState), Release)
    else if !Has(m.members, BroadcastActive) then Ask(Enter(m, ReleasingState), Release)
    else m
  }

  /** The check with which the Released state begins. */
  function CheckEmpty(m: Machine): (r: Machine)
    ensures m.log <= r.log && r.single == m.single
  {
    if m.members != [] then Note(m, ListNotEmptyError) else m
  }

  function OnSubscribe(m: Machine, c: Client, call: nat): (r: Machine)
    ensures m.log <= r.log && r.single == m.single
  {
    match m.state
    case ReleasedState => Ask(Enter(Add(CheckEmpty(m), c, call), PendingState), Request)
    case PendingState => Add(m, c, call)
    case AcquiredState => Add(Note(m, Told(None, c, GRANTED)), c, call)
    case ReleasingState => Add(m, c, call)
  }

  /** `k` is the member that unsubscribes. */
  function OnUnsubscribe(m: Machine, k: nat): (r: Machine)
    requires k < |m.members|
    ensures m.log <= r.log && r.single == m.single
  {
    match m.state
    case ReleasedState => Note(CheckEmpty(m), Told(Some(m.members[k].since), m.members[k].client, UNSUBSCRIBE))
    case PendingState => LetGo(Close(m, k))
    case AcquiredState => LetGo(Close(m, k))
    case ReleasingState =>
      var n := Close(m, k);
      if n.members == [] then Enter(n, ReleasedState) else n
  }

  function OnFramework(m: Machine, status: Status): (r: Machine)
    requires status == GRANTED || status == RELEASED || status == DENIED
    ensures m.log <= r.log && r.single == m.single
  {
    match m.state
    case ReleasedState => CheckEmpty(m)
    case PendingState =>
      if status == GRANTED then Enter(Notify(m, Notification(BroadcastActive, GRANTED, false)), AcquiredState)
      else if status == DENIED then Enter(Notify(m, Notification(BroadcastAll, DENIED, true)), ReleasedState)
      else m
    case AcquiredState =>
      if status == RELEASED then Enter(Notify(m, Notification(BroadcastAll, RELEASED, true)), ReleasedState)
      else m
    case ReleasingState =>
      if status == GRANTED then m
      else
        var n := Notify(m, Notification(BroadcastInactive, status, true));
        if n.members != [] then Ask(Enter(n, PendingState), Request) else Enter(n, ReleasedState)
  }

  /** One external event: a subscribe or unsubscribe call, a framework event, or a modem restart. */
  function Step(before: Machine, e: Event): (r: Machine)
    ensures before.log < r.log && r.single == before.single
  {
    var call := |before.log|;
    var m := Note(before, Took(before.state, e));
    match e
    case Subscribe(c) =>
      if m.single && m.members != [] then Note(m, Told(None, c, DENIED)) else OnSubscribe(m, c, call)
    case Unsubscribe(c) =>
      var k := Find(m.members, To(c));
      if k < |m.members| then OnUnsubscribe(m, k) else m
    case Granted => OnFramework(m, GRANTED)
    case Released => OnFramework(m, RELEASED)
    case Denied => OnFramework(m, DENIED)
    case Restart => m.(members := [], log := m.log + Drops(m.members))
  }

  function Run(m: Machine, es: seq<Event>): (r: Machine)
    ensures m.log <= r.log && r.single == m.single
    decreases |es|
  {
    if es == [] then m else Step(Run(m, es[..|es| - 1]), es[|es| - 1])
  }
}
