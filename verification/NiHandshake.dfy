/**
 * The network-initiated request handshake of gps/libloc_api_50001/loc_eng_ni.cpp between two engine restarts:
 * the deferred-action thread runs the request handler, every accepted request has a thread of its own, and any
 * number of user threads respond. Each action is one access to a shared variable, or one section under tLock
 * that touches only what tLock guards.
 */
module NiHandshake {
  import opened Common

  /** Requests are numbered in order of arrival, and so are their pass-through blocks. */
  type Block = nat
  type Response = int
  const GPS_NI_RESPONSE_NORESP := 3

  datatype Inform = Inform(resp: Response, block: Option<Block>)

  /** Where the request handler stands, with the request it works on. */
  datatype HandlerPc =
    | Idle
    | SawNull(b: Block)       // has read rawRequest == NULL
    | Saved(b: Block)         // has written rawRequest
    | Numbered(b: Block)      // has read reqID into the notification
    | Timed(b: Block)         // has written respTimeLeft
    | Spawned(b: Block)       // has tried to create the thread

  /** Where the thread of a request stands; from AtTop to ToUnlock it holds tLock. */
  datatype ThreadPc =
    | Created
    | AtTop
    | Waiting
    | Woken
    | Reset
    | SawRequest
    | Built(msg: Inform)
    | ToUnlock(out: Option<Inform>)
    | Unlocked(out: Option<Inform>)
    | TimeCleared(out: Option<Inform>)
    | ReadId(out: Option<Inform>, id: int)
    | ToSend(out: Option<Inform>)
    | Exited
  {
    /** Has looked at rawRequest for the last time, and taken what was there. */
    predicate Past() {
      !Early()
    }

    predicate Holding() {
      AtTop? || Woken? || Reset? || SawRequest? || Built? || ToUnlock?
    }

    /** Has still to look at rawRequest, or to take what is there. */
    predicate Early() {
      Created? || AtTop? || Waiting? || Woken? || Reset? || SawRequest? || Built?
    }
  }

  datatype Answer = SawId(resp: Response) | SawRequestToo(resp: Response)

  /**
   * What has become of the requests so far. `dataless` are those that came with a NULL pass-through pointer, `freed`
   * and `ignored` the refused ones with and without data, `unspawned` those whose thread could not be created.
   */
  datatype Register = Register(arrived: nat, dataless: set<Block>, accepted: set<Block>, freed: set<Block>,
                               ignored: set<Block>, unspawned: set<Block>)

  /** `taker` says which request's thread has taken a block out of rawRequest. */
  datatype Ni = Ni(rawRequest: Option<Block>, respRecvd: bool, resp: Response, respTimeLeft: int, reqID: int,
                   lock: Option<Block>, handler: HandlerPc, threads: map<Block, ThreadPc>,
                   responders: map<nat, Answer>, reg: Register, taker: map<Block, Block>, sent: seq<Inform>)

  datatype Action =
    | Arrive(hasData: bool)               // the handler is entered with the next request and reads rawRequest
    | Handler(timeLeft: int, created: bool) // its next access; `created` is whether pthread_create succeeds
    | Thread(b: Block, timedOut: bool)    // the next access of that request's thread
    | Respond(user: nat, id: int, resp: Response) // loc_eng_ni_respond is entered and reads reqID
    | Responder(user: nat)                // its next access

  /** `loc_eng_ni_init`. */
  function Init(): Ni {
    Ni(None, false, 0, 0, 0, None, Idle, map[], map[], Register(0, {}, {}, {}, {}, {}), map[], [])
  }

  function HandlerStep(s: Ni, timeLeft: int, created: bool): Ni {
    match s.handler
    case Idle => s
    case SawNull(b) => s.(rawRequest := if b in s.reg.dataless then None else Some(b), handler := Saved(b))
    case Saved(b) => s.(handler := Numbered(b))
    case Numbered(b) => s.(respTimeLeft := timeLeft, handler := Timed(b))
    case Timed(b) =>
      if created then s.(threads := s.threads[b := Created], handler := Spawned(b))
      else s.(reg := s.reg.(unspawned := s.reg.unspawned + {b}), handler := Spawned(b))
    case Spawned(b) => s.(handler := Idle)
  }

  function Move(s: Ni, b: Block, pc: ThreadPc): Ni {
    s.(threads := s.threads[b := pc])
  }

  /** Writes NULL to rawRequest; whatever was there is now the thread's. */
  function Take(s: Ni, b: Block): Ni {
    if s.rawRequest.None? then s
    else s.(rawRequest := None, taker := s.taker[s.rawRequest.value := b])
  }

  /** From the creation of the thread to its taking what is in rawRequest. */
  function WorkStep(s: Ni, b: Block, timedOut: bool): Ni
    requires b in s.threads
  {
    match s.threads[b]
    case Created => if s.lock.None? then Move(s.(lock := Some(b)), b, AtTop) else s
    case AtTop => if s.respRecvd then Move(s, b, Woken) else Move(s.(lock := None), b, Waiting)
    case Waiting =>
      if s.lock.Some? then s
      else if timedOut then Move(s.(lock := Some(b), resp := GPS_NI_RESPONSE_NORESP), b, Woken)
      else Move(s.(lock := Some(b)), b, AtTop)
    case Woken => Move(s.(respRecvd := false), b, Reset)
    case Reset => Move(s, b, if s.rawRequest.Some? then SawRequest else ToUnlock(None))
    case SawRequest => Move(s, b, Built(Inform(s.resp, s.rawRequest)))
    case Built(msg) => Move(Take(s, b), b, ToUnlock(Some(msg)))
    case _ => s
  }

  /** Where the rest of the thread goes. */
  function LeavePc(pc: ThreadPc, id: int): ThreadPc {
    match pc
    case ToUnlock(out) => Unlocked(out)
    case Unlocked(out) => TimeCleared(out)
    case TimeCleared(out) => ReadId(out, id)
    case ReadId(out, _) => ToSend(out)
    case ToSend(_) => Exited
    case _ => pc
  }

  /** What it does on its way. */
  function LeaveEffect(s: Ni, pc: ThreadPc): Ni {
    match pc
    case ToUnlock(_) => s.(lock := None)
    case Unlocked(_) => s.(respTimeLeft := 0)
    case ReadId(_, id) => s.(reqID := id + 1)
    case ToSend(out) => if out.Some? then s.(sent := s.sent + [out.value]) else s
    case _ => s
  }

  /** The rest of the thread. */
  function LeaveStep(s: Ni, b: Block): Ni
    requires b in s.threads
  {
    Move(LeaveEffect(s, s.threads[b]), b, LeavePc(s.threads[b], s.reqID))
  }

  function ThreadStep(s: Ni, b: Block, timedOut: bool): Ni
    requires b in s.threads
  {
    if s.threads[b].Past() then LeaveStep(s, b) else WorkStep(s, b, timedOut)
  }

  function ResponderStep(s: Ni, user: nat): Ni
    requires user in s.responders
  {
    match s.responders[user]
    case SawId(resp) =>
      if s.rawRequest.Some? then s.(responders := s.responders[user := SawRequestToo(resp)])
      else s.(responders := s.responders - {user})
    case SawRequestToo(resp) =>
      if s.lock.Some? then s
      else s.(resp := resp, respRecvd := true, responders := s.responders - {user})
  }

  function Registered(r: Register, hasData: bool, busy: bool): Register {
    var b := r.arrived;
    var n := r.(arrived := b + 1, dataless := if hasData then r.dataless else r.dataless + {b});
    if !busy then n.(accepted := r.accepted + {b})
    else if hasData then n.(freed := r.freed + {b})
    else n.(ignored := r.ignored + {b})
  }

  function ArriveStep(s: Ni, hasData: bool): Ni {
    s.(reg := Registered(s.reg, hasData, s.rawRequest.Some?),
       handler := if s.rawRequest.Some? then s.handler else SawNull(s.reg.arrived))
  }

  /** One access; an action that cannot happen changes nothing. */
  function Step(s: Ni, a: Action): Ni {
    match a
    case Arrive(hasData) => if s.handler.Idle? then ArriveStep(s, hasData) else s
    case Handler(timeLeft, created) => HandlerStep(s, timeLeft, created)
    case Thread(b, timedOut) => if b in s.threads then ThreadStep(s, b, timedOut) else s
    case Respond(user, id, resp) =>
      if user in s.responders || id != s.reqID then s
      else s.(responders := s.responders[user := SawId(resp)])
    case Responder(user) => if user in s.responders then ResponderStep(s, user) else s
  }

  function Run(s: Ni, acts: seq<Action>): Ni
    decreases |acts|
  {
    if acts == [] then s else Step(Run(s, acts[..|acts| - 1]), acts[|acts| - 1])
  }

  function Informs(sent: seq<Inform>, b: Block): nat {
    if sent == [] then 0
    else Informs(sent[..|sent| - 1], b) + (if sent[|sent| - 1].block == Some(b) then 1 else 0)
  }

  // ----- what every access keeps

  /** Accepted, and its thread not yet asked for. */
  predicate Starting(s: Ni, b: Block) {
    b in s.reg.accepted && b !in s.threads && b !in s.reg.unspawned
  }

  predicate HandlerOk(s: Ni) {
    match s.handler
    case Idle => true
    case Spawned(_) => true
    case SawNull(b) => s.rawRequest == None && Starting(s, b) && b !in s.taker
    case Saved(b) => (s.rawRequest.Some? ==> s.rawRequest == Some(b)) && Starting(s, b)
    case Numbered(b) => (s.rawRequest.Some? ==> s.rawRequest == Some(b)) && Starting(s, b)
    case Timed(b) => (s.rawRequest.Some? ==> s.rawRequest == Some(b)) && Starting(s, b)
  }

  /** The handler still has to start the thread of `b`. */
  predicate Preparing(s: Ni, b: Block) {
    !s.handler.Idle? && !s.handler.Spawned? && s.handler.b == b
  }

  /** What a thread carries away is a block that it has taken. */
  predicate CarryOk(s: Ni, b: Block, out: Option<Inform>) {
    out.Some? ==> out.value.block.Some? && out.value.block.value in s.taker && s.taker[out.value.block.value] == b
  }

  /** The block of request `b`, if it came with one, has been taken. */
  predicate Taken(s: Ni, b: Block) {
    b in s.reg.dataless || b in s.taker
  }

  ghost predicate ThreadOk(s: Ni, b: Block) {
    b in s.threads ==>
      match s.threads[b]
      case Created => true
      case AtTop => true
      case Waiting => true
      case Woken => true
      case Reset => true
      case SawRequest => s.rawRequest.Some?
      case Built(msg) => s.rawRequest.Some? && msg.block == s.rawRequest
      case ToUnlock(out) => CarryOk(s, b, out) && Taken(s, b)
      case Unlocked(out) => CarryOk(s, b, out) && Taken(s, b)
      case TimeCleared(out) => CarryOk(s, b, out) && Taken(s, b)
      case ReadId(out, _) => CarryOk(s, b, out) && Taken(s, b)
      case ToSend(out) => CarryOk(s, b, out) && Taken(s, b)
      case Exited => Taken(s, b)
  }

  /** The thread that has taken block `x` carries it until it exits. */
  ghost predicate TakerOk(s: Ni, x: Block) {
    x in s.taker ==>
      && x in s.reg.accepted && x !in s.reg.dataless && s.taker[x] in s.threads
      && var pc := s.threads[s.taker[x]];
         pc.Past() && (pc.Exited? || (pc.out.Some? && pc.out.value.block == Some(x)))
  }

  /** What is in rawRequest is a block of an accepted request that nobody has taken. */
  predicate RawOk(s: Ni) {
    s.rawRequest.Some? ==>
      s.rawRequest.value in s.reg.accepted && s.rawRequest.value !in s.reg.dataless && s.rawRequest.value !in s.taker
  }

  /** Every block of an accepted request is still to be saved, in rawRequest, or taken. */
  ghost predicate Tracked(s: Ni) {
    forall b :: b in s.reg.accepted ==> Taken(s, b) || s.rawRequest == Some(b) || s.handler == SawNull(b)
  }

  /** tLock is held by exactly the thread that is between taking and giving it back, so by one at a time. */
  ghost predicate LockHeld(s: Ni) {
    && (forall b :: b in s.threads ==> (s.threads[b].Holding() <==> s.lock == Some(b)))
    && (s.lock.Some? ==> s.lock.value in s.threads)
  }

  ghost predicate Claims(s: Ni) {
    && HandlerOk(s) && RawOk(s) && Tracked(s) && LockHeld(s)
    && (forall b :: b in s.threads ==> ThreadOk(s, b))
    && (forall x :: x in s.taker ==> TakerOk(s, x))
  }

  /** Every request that arrived was accepted, or refused in the way that fits its data. */
  ghost predicate Sorted(r: Register) {
    && r.accepted !! r.freed !! r.ignored
    && (forall b :: 0 <= b < r.arrived <==> b in r.accepted || b in r.freed || b in r.ignored)
    && r.freed !! r.dataless && r.ignored <= r.dataless
    && (forall b :: b in r.dataless ==> b < r.arrived)
  }

  /** Who is accepted gets a thread unless creation fails. */
  ghost predicate Staffed(s: Ni) {
    && (forall b :: b in s.threads ==> b in s.reg.accepted && b !in s.reg.unspawned)
    && s.reg.unspawned <= s.reg.accepted
    && (forall b :: b in s.reg.accepted ==> b in s.threads || b in s.reg.unspawned || Preparing(s, b))
  }

  ghost predicate Books(s: Ni) {
    Sorted(s.reg) && Staffed(s)
  }

  /** As long as every request comes with data, a thread takes the block of its own request. */
  ghost predicate OwnTaker(s: Ni) {
    s.reg.dataless == {} ==> forall x :: x in s.taker ==> s.taker[x] == x
  }

  predicate Done(s: Ni, b: Block) {
    b in s.threads && s.threads[b].Exited?
  }

  /** `b` has been answered exactly once if the thread that took it has exited, and not at all before. */
  ghost predicate Answered(s: Ni, b: Block) {
    Informs(s.sent, b) == if b in s.taker && Done(s, s.taker[b]) then 1 else 0
  }

  lemma SendCounts(sent: seq<Inform>, msg: Inform, b: Block)
    ensures Informs(sent + [msg], b) == Informs(sent, b) + (if msg.block == Some(b) then 1 else 0)
  {
  }

  lemma WorkTouches(s: Ni, b: Block, timedOut: bool)
    requires b in s.threads && !s.threads[b].Past()
    ensures var n := WorkStep(s, b, timedOut);
      && n.threads == s.threads[b := n.threads[b]]
      && n.handler == s.handler && n.reg == s.reg && n.sent == s.sent
      && n.rawRequest == (if s.threads[b].Built? then None else s.rawRequest)
      && n.taker == (if s.threads[b].Built? then Take(s, b).taker else s.taker)
      && (s.threads[b].Built? ==> n.threads[b] == ToUnlock(Some(s.threads[b].msg)))
      && !n.threads[b].Exited?
  {
    assert s.threads == s.threads[b := s.threads[b]];
  }

  lemma LeaveGoesOn(pc: ThreadPc, id: int)
    requires pc.Past()
    ensures var next := LeavePc(pc, id);
      next.Past() && (next.Exited? <==> pc.Exited? || pc.ToSend?) && (!next.Exited? ==> next.out == pc.out)
  {
  }

  lemma LeaveTouches(s: Ni, b: Block)
    requires b in s.threads && s.threads[b].Past()
    ensures var n := LeaveStep(s, b);
      && n.handler == s.handler && n.reg == s.reg && n.rawRequest == s.rawRequest && n.taker == s.taker
      && b in n.threads && n.threads == s.threads[b := n.threads[b]]
      && var pc, next := s.threads[b], n.threads[b];
         next.Past() && (next.Exited? <==> pc.Exited? || pc.ToSend?) && (!next.Exited? ==> next.out == pc.out)
  {
    hide LeavePc;
    LeaveGoesOn(s.threads[b], s.reqID);
  }

  lemma LeaveSends(s: Ni, b: Block)
    requires b in s.threads
    ensures var pc := s.threads[b];
      LeaveStep(s, b).sent == s.sent + (if pc.ToSend? && pc.out.Some? then [pc.out.value] else [])
  {
    assert s.sent + [] == s.sent;
  }

  /** What an access of the thread of `b` may change. */
  lemma ThreadTouches(s: Ni, b: Block, timedOut: bool)
    requires b in s.threads
    ensures var n := ThreadStep(s, b, timedOut);
      && n.threads == s.threads[b := n.threads[b]]
      && n.handler == s.handler && n.reg == s.reg
      && n.rawRequest == (if s.threads[b].Built? then None else s.rawRequest)
      && n.taker == (if s.threads[b].Built? then Take(s, b).taker else s.taker)
  {
    hide WorkStep, LeaveStep;
    if s.threads[b].Past() {
      LeaveTouches(s, b);
    } else {
      WorkTouches(s, b, timedOut);
    }
  }

  lemma WorkLock(s: Ni, b: Block, timedOut: bool)
    requires b in s.threads && (s.threads[b].Holding() <==> s.lock == Some(b))
    ensures LockMoved(s, WorkStep(s, b, timedOut), b)
  {
  }

  lemma LeaveLock(s: Ni, b: Block)
    requires b in s.threads && (s.threads[b].Holding() <==> s.lock == Some(b))
    ensures LockMoved(s, LeaveStep(s, b), b)
  {
  }

  /** A thread takes tLock only when it is free, and gives back only its own. */
  ghost predicate LockMoved(s: Ni, n: Ni, b: Block) {
    && b in n.threads && (n.threads[b].Holding() <==> n.lock == Some(b))
    && (s.lock.Some? && s.lock != Some(b) ==> n.lock == s.lock)
    && (n.lock != Some(b) ==> n.lock == if s.lock == Some(b) then None else s.lock)
  }

  /** The thread itself: by the time it is past rawRequest, the block of its own request is taken. */
  lemma ThreadOwn(s: Ni, b: Block, timedOut: bool)
    requires b in s.threads && ThreadOk(s, b) && RawOk(s)
    requires Taken(s, b) || s.rawRequest == Some(b)
    ensures ThreadOk(ThreadStep(s, b, timedOut), b)
  {
  }

  /** How far a thread is, and what it carries. */
  lemma ThreadGoesOn(s: Ni, b: Block, timedOut: bool)
    requires b in s.threads
    ensures var pc, next := s.threads[b], ThreadStep(s, b, timedOut).threads[b];
      && (pc.Past() ==> next.Past() && (next.Exited? || (!pc.Exited? && next.out == pc.out)))
      && (pc.Built? ==> next == ToUnlock(Some(pc.msg)))
  {
    hide WorkStep, LeaveStep;
    if s.threads[b].Past() {
      LeaveTouches(s, b);
    } else {
      WorkTouches(s, b, timedOut);
    }
  }

  /** What the rest of the state is to another thread, and to the blocks taken, after an access of `b`. */
  lemma OthersKeep(s: Ni, b: Block, timedOut: bool)
    requires Claims(s) && b in s.threads
    ensures var n := ThreadStep(s, b, timedOut);
      forall c :: c in n.threads && c != b ==> ThreadOk(n, c)
  {
    hide ThreadStep, HandlerOk, TakerOk;
    var n := ThreadStep(s, b, timedOut);
    ThreadTouches(s, b, timedOut);
    forall c | c in n.threads && c != b ensures ThreadOk(n, c) {
      assert ThreadOk(s, c);
    }
  }

  lemma TakersKeep(s: Ni, b: Block, timedOut: bool)
    requires Claims(s) && b in s.threads
    ensures var n := ThreadStep(s, b, timedOut);
      forall x :: x in n.taker ==> TakerOk(n, x)
  {
    hide ThreadStep, HandlerOk;
    var n := ThreadStep(s, b, timedOut);
    ThreadTouches(s, b, timedOut);
    ThreadGoesOn(s, b, timedOut);
    assert ThreadOk(s, b);
    forall x | x in n.taker ensures TakerOk(n, x) {
      if x in s.taker {
        assert TakerOk(s, x);
      }
    }
  }

  /** A thread's own block is taken or still in rawRequest. */
  lemma OwnBlock(s: Ni, b: Block)
    requires Claims(s) && Books(s) && b in s.threads
    ensures Taken(s, b) || s.rawRequest == Some(b)
  {
    assert b in s.reg.accepted;
  }

  lemma LockKept(s: Ni, b: Block, timedOut: bool)
    requires LockHeld(s) && b in s.threads
    ensures LockHeld(ThreadStep(s, b, timedOut))
  {
    hide WorkStep, LeaveStep;
    ThreadTouches(s, b, timedOut);
    if s.threads[b].Past() {
      LeaveLock(s, b);
    } else {
      WorkLock(s, b, timedOut);
    }
  }

  lemma ThreadClaims(s: Ni, b: Block, timedOut: bool)
    requires Claims(s) && Books(s) && b in s.threads
    ensures Claims(ThreadStep(s, b, timedOut))
  {
    hide ThreadStep, ThreadOk, TakerOk, LockHeld;
    ThreadTouches(s, b, timedOut);
    OwnBlock(s, b);
    ThreadOwn(s, b, timedOut);
    OthersKeep(s, b, timedOut);
    TakersKeep(s, b, timedOut);
    LockKept(s, b, timedOut);
  }

  lemma ThreadTakesOwn(s: Ni, b: Block, timedOut: bool)
    requires Claims(s) && Books(s) && OwnTaker(s) && b in s.threads
    ensures OwnTaker(ThreadStep(s, b, timedOut))
  {
    hide ThreadStep;
    ThreadTouches(s, b, timedOut);
    OwnBlock(s, b);
    assert TakerOk(s, b);
  }

  /** The only access that sends is the last one. */
  lemma ThreadSends(s: Ni, b: Block, timedOut: bool)
    requires b in s.threads
    ensures var n, pc := ThreadStep(s, b, timedOut), s.threads[b];
      && n.sent == s.sent + (if pc.ToSend? && pc.out.Some? then [pc.out.value] else [])
      && (n.threads[b].Exited? <==> pc.Exited? || pc.ToSend?)
  {
    hide WorkStep, LeaveStep;
    if s.threads[b].Past() {
      LeaveTouches(s, b);
      LeaveSends(s, b);
    } else {
      WorkTouches(s, b, timedOut);
    }
  }

  lemma ThreadAnswers(s: Ni, b: Block, timedOut: bool, x: Block)
    requires Claims(s) && b in s.threads && Answered(s, x)
    ensures Answered(ThreadStep(s, b, timedOut), x)
  {
    hide ThreadStep, HandlerOk, LockHeld, Informs;
    ThreadTouches(s, b, timedOut);
    ThreadSends(s, b, timedOut);
    assert ThreadOk(s, b) && TakerOk(s, x);
    if s.threads[b].ToSend? && s.threads[b].out.Some? {
      var msg := s.threads[b].out.value;
      assert TakerOk(s, msg.block.value);
      SendCounts(s.sent, msg, x);
    } else {
      assert s.sent + [] == s.sent;
    }
  }

  /** What an access of the handler leaves alone. */
  lemma HandlerTouches(s: Ni, timeLeft: int, created: bool)
    requires HandlerOk(s)
    ensures var n := HandlerStep(s, timeLeft, created);
      && n.taker == s.taker && n.lock == s.lock && n.sent == s.sent
      && n.reg == s.reg.(unspawned := n.reg.unspawned)
      && n.rawRequest == (if s.handler.SawNull? && s.handler.b !in s.reg.dataless then Some(s.handler.b) else s.rawRequest)
      && (s.rawRequest.Some? ==> n.rawRequest == s.rawRequest)
  {
  }

  lemma HandlerMoves(s: Ni, timeLeft: int, created: bool)
    requires HandlerOk(s)
    ensures HandlerOk(HandlerStep(s, timeLeft, created))
  {
  }

  lemma HandlerTracks(s: Ni, timeLeft: int, created: bool)
    requires HandlerOk(s) && RawOk(s) && Tracked(s)
    ensures var n := HandlerStep(s, timeLeft, created);
      RawOk(n) && Tracked(n)
  {
    HandlerTouches(s, timeLeft, created);
  }

  lemma HandlerThreads(s: Ni, timeLeft: int, created: bool)
    requires HandlerOk(s)
    ensures var n := HandlerStep(s, timeLeft, created);
      && (forall c :: c in s.threads ==> c in n.threads)
      && (forall c :: c in n.threads ==> n.threads[c] == if c in s.threads then s.threads[c] else Created)
  {
  }

  lemma HandlerClaims(s: Ni, timeLeft: int, created: bool)
    requires Claims(s) && Books(s)
    ensures Claims(HandlerStep(s, timeLeft, created))
  {
    hide HandlerStep, HandlerOk, RawOk, Tracked, Books;
    var n := HandlerStep(s, timeLeft, created);
    HandlerTouches(s, timeLeft, created);
    HandlerMoves(s, timeLeft, created);
    HandlerTracks(s, timeLeft, created);
    HandlerThreads(s, timeLeft, created);
    forall c | c in n.threads ensures ThreadOk(n, c) {
      if c in s.threads {
        assert ThreadOk(s, c);
      }
    }
    forall x | x in n.taker ensures TakerOk(n, x) {
      assert TakerOk(s, x);
    }
  }

  lemma HandlerBooks(s: Ni, timeLeft: int, created: bool)
    requires HandlerOk(s) && Books(s)
    ensures Books(HandlerStep(s, timeLeft, created))
  {
    hide HandlerStep, HandlerOk, Staffed;
    HandlerTouches(s, timeLeft, created);
    HandlerStaffs(s, timeLeft, created);
  }

  lemma HandlerStaffs(s: Ni, timeLeft: int, created: bool)
    requires HandlerOk(s) && Staffed(s)
    ensures Staffed(HandlerStep(s, timeLeft, created))
  {
    var n := HandlerStep(s, timeLeft, created);
    assert !s.handler.Timed? ==> n.threads == s.threads && n.reg == s.reg;
    forall b | b in n.reg.accepted ensures b in n.threads || b in n.reg.unspawned || Preparing(n, b) {
      assert b in s.threads || b in s.reg.unspawned || Preparing(s, b);
    }
  }

  lemma ArriveClaims(s: Ni, hasData: bool)
    requires Claims(s) && Books(s) && s.handler.Idle?
    ensures Claims(ArriveStep(s, hasData)) && Books(ArriveStep(s, hasData))
  {
    var n := ArriveStep(s, hasData);
    assert s.reg.arrived !in s.reg.accepted && s.reg.arrived !in s.reg.freed && s.reg.arrived !in s.reg.ignored;
    forall c | c in n.threads ensures ThreadOk(n, c) {
      assert ThreadOk(s, c);
    }
    forall x | x in n.taker ensures TakerOk(n, x) {
      assert TakerOk(s, x);
    }
    forall b | b in n.reg.accepted ensures b in n.threads || b in n.reg.unspawned || Preparing(n, b) {
      assert b in s.reg.accepted ==> b in s.threads || b in s.reg.unspawned || Preparing(s, b);
    }
  }

  /** What a response may change. */
  lemma ResponseTouches(s: Ni, a: Action)
    requires a.Respond? || a.Responder?
    ensures var n := Step(s, a);
      n == s.(resp := n.resp, respRecvd := n.respRecvd, responders := n.responders)
  {
  }

  lemma ResponseKeeps(s: Ni, a: Action)
    requires Claims(s) && Books(s) && (a.Respond? || a.Responder?)
    ensures Claims(Step(s, a)) && Books(Step(s, a))
  {
    hide Step;
    var n := Step(s, a);
    ResponseTouches(s, a);
    forall c | c in n.threads ensures ThreadOk(n, c) {
      assert ThreadOk(s, c);
    }
    forall x | x in n.taker ensures TakerOk(n, x) {
      assert TakerOk(s, x);
    }
    forall b | b in n.reg.accepted ensures b in n.threads || b in n.reg.unspawned || Preparing(n, b) {
      assert b in s.threads || b in s.reg.unspawned || Preparing(s, b);
    }
  }

  lemma StepKeeps(s: Ni, a: Action)
    requires Claims(s) && Books(s)
    ensures Claims(Step(s, a)) && Books(Step(s, a))
  {
    hide ThreadStep, HandlerStep, ArriveStep, ResponderStep, Claims;
    match a {
      case Arrive(hasData) =>
        if s.handler.Idle? {
          ArriveClaims(s, hasData);
        }
      case Handler(timeLeft, created) =>
        HandlerClaims(s, timeLeft, created);
        ClaimsHandler(s);
        HandlerBooks(s, timeLeft, created);
      case Thread(b, timedOut) =>
        if b in s.threads {
          ThreadClaims(s, b, timedOut);
          ThreadTouches(s, b, timedOut);
        }
      case _ => ResponseKeeps(s, a);
    }
  }

  lemma ClaimsHandler(s: Ni)
    requires Claims(s)
    ensures HandlerOk(s)
  {
  }

  lemma StepOwnTaker(s: Ni, a: Action)
    requires Claims(s) && Books(s) && OwnTaker(s)
    ensures OwnTaker(Step(s, a))
  {
    hide ThreadStep, Claims, Books;
    if a.Thread? && a.b in s.threads {
      ThreadTakesOwn(s, a.b, a.timedOut);
    }
  }

  lemma ThreadStepIs(s: Ni, a: Action)
    requires a.Thread? && a.b in s.threads
    ensures Step(s, a) == ThreadStep(s, a.b, a.timedOut)
  {
  }

  lemma OthersSendNothing(s: Ni, a: Action)
    requires HandlerOk(s) && (a.Thread? ==> a.b !in s.threads)
    ensures var n := Step(s, a);
      && n.taker == s.taker && n.sent == s.sent
      && forall c :: c in s.threads ==> c in n.threads && n.threads[c] == s.threads[c]
  {
    hide HandlerStep;
    match a {
      case Handler(timeLeft, created) =>
        HandlerTouches(s, timeLeft, created);
        HandlerThreads(s, timeLeft, created);
      case _ =>
    }
  }

  lemma StepAnswers(s: Ni, a: Action, x: Block)
    requires Claims(s) && Answered(s, x)
    ensures Answered(Step(s, a), x)
  {
    hide Step, Informs;
    if a.Thread? && a.b in s.threads {
      ThreadStepIs(s, a);
      ThreadAnswers(s, a.b, a.timedOut, x);
    } else {
      OthersSendNothing(s, a);
      assert TakerOk(s, x);
    }
  }

  lemma {:induction false} RunKeeps(acts: seq<Action>)
    ensures var s := Run(Init(), acts);
      Claims(s) && Books(s) && OwnTaker(s)
    decreases |acts|
  {
    hide Claims, Books, OwnTaker, Step;
    if acts == [] {
      InitKeeps();
    } else {
      var before := Run(Init(), acts[..|acts| - 1]);
      RunKeeps(acts[..|acts| - 1]);
      StepKeeps(before, acts[|acts| - 1]);
      StepOwnTaker(before, acts[|acts| - 1]);
    }
  }

  lemma InitKeeps()
    ensures Claims(Init()) && Books(Init()) && OwnTaker(Init())
  {
  }

  lemma {:induction false} RunAnswers(acts: seq<Action>, x: Block)
    ensures Answered(Run(Init(), acts), x)
    decreases |acts|
  {
    hide Claims, Books, Step;
    if acts != [] {
      RunKeeps(acts[..|acts| - 1]);
      RunAnswers(acts[..|acts| - 1], x);
      StepAnswers(Run(Init(), acts[..|acts| - 1]), acts[|acts| - 1], x);
    }
  }

  // ----- main results

  /**
   * Mutual exclusion: under every interleaving at most one thread is in its locked section, and whatever another
   * action does meanwhile, it leaves the response that tLock guards alone.
   */
  lemma {:induction false} LockExcludes(acts: seq<Action>, a: Action)
    ensures var s := Run(Init(), acts);
      && LockHeld(s)
      && (s.lock.Some? && (a.Thread? ==> s.lock != Some(a.b)) ==>
            Step(s, a).respRecvd == s.respRecvd && Step(s, a).resp == s.resp && Step(s, a).lock == s.lock)
  {
    var s := Run(Init(), acts);
    RunKeeps(acts);
    if s.lock.Some? && (a.Thread? ==> s.lock != Some(a.b)) {
      OthersWait(s, a);
    }
  }

  lemma OthersWait(s: Ni, a: Action)
    requires LockHeld(s) && s.lock.Some? && (a.Thread? ==> s.lock != Some(a.b))
    ensures Step(s, a).respRecvd == s.respRecvd && Step(s, a).resp == s.resp && Step(s, a).lock == s.lock
  {
    hide ThreadStep, HandlerStep;
    match a {
      case Handler(timeLeft, created) => HandlerWaits(s, timeLeft, created);
      case Thread(b, timedOut) =>
        if b in s.threads {
          ThreadWaits(s, b, timedOut);
        }
      case _ =>
    }
  }

  lemma HandlerWaits(s: Ni, timeLeft: int, created: bool)
    ensures var n := HandlerStep(s, timeLeft, created);
      n.respRecvd == s.respRecvd && n.resp == s.resp && n.lock == s.lock
  {
  }

  lemma ThreadWaits(s: Ni, b: Block, timedOut: bool)
    requires b in s.threads && !s.threads[b].Holding() && s.lock.Some?
    ensures var n := ThreadStep(s, b, timedOut);
      n.respRecvd == s.respRecvd && n.resp == s.resp && n.lock == s.lock
  {
  }

  /**
   * In every interleaving: nobody is answered twice or unasked. By the time the thread of a request has exited, its
   * block has been taken, and it has been answered exactly if whoever took it has exited; that is the thread
   * itself as long as every request comes with data.
   */
  lemma AnsweredOnceByExit(acts: seq<Action>, b: Block)
    ensures var s := Run(Init(), acts);
      && Informs(s.sent, b) <= 1
      && (Informs(s.sent, b) > 0 ==> b in s.reg.accepted && b !in s.reg.freed && b !in s.reg.dataless)
      && (Done(s, b) && b !in s.reg.dataless ==>
            b in s.taker && (Informs(s.sent, b) == 1 <==> Done(s, s.taker[b])))
      && (Done(s, b) && s.reg.dataless == {} ==> Informs(s.sent, b) == 1)
  {
    RunKeeps(acts);
    RunAnswers(acts, b);
    var s := Run(Init(), acts);
    if b in s.threads {
      assert ThreadOk(s, b);
    }
    if b in s.taker {
      assert TakerOk(s, b);
    }
  }

  /** Every request that has arrived is accepted, or refused at once: then its block is freed, if it has one. */
  lemma {:induction false} AcceptedOrFreed(acts: seq<Action>, b: Block)
    ensures var s := Run(Init(), acts);
      && (b < s.reg.arrived <==> b in s.reg.accepted || b in s.reg.freed || b in s.reg.ignored)
      && !(b in s.reg.accepted && (b in s.reg.freed || b in s.reg.ignored))
      && (b in s.reg.freed ==> b !in s.reg.dataless) && (b in s.reg.ignored ==> b in s.reg.dataless)
  {
    RunKeeps(acts);
  }

  /** All has come to rest: the handler is idle and every thread has exited. */
  ghost predicate Quiet(s: Ni) {
    s.handler.Idle? && forall b :: b in s.threads ==> s.threads[b].Exited?
  }

  /**
   * When all is quiet, an accepted request with data has been answered if and only if its block is not left in
   * rawRequest. It is answered if its thread could be created, and only then if every request came with data.
   */
  lemma QuietAnswered(acts: seq<Action>, b: Block)
    requires var s := Run(Init(), acts);
      Quiet(s) && b in s.reg.accepted && b !in s.reg.dataless
    ensures var s := Run(Init(), acts);
      && (Informs(s.sent, b) == 1 <==> s.rawRequest != Some(b))
      && (b in s.threads ==> Informs(s.sent, b) == 1)
      && (s.reg.dataless == {} ==> (Informs(s.sent, b) == 1 <==> b !in s.reg.unspawned))
  {
    RunKeeps(acts);
    RunAnswers(acts, b);
    var s := Run(Init(), acts);
    if b in s.threads {
      assert ThreadOk(s, b);
    }
    if b in s.taker {
      assert TakerOk(s, b);
    }
  }

  /**
   * A request that arrives is accepted if and only if the block of every accepted one has been taken out of
   * rawRequest - by the thread of its own request, if every request came with data. Otherwise its own block is
   * freed on the spot.
   */
  lemma AcceptedIffNoneOutstanding(acts: seq<Action>, hasData: bool)
    requires Run(Init(), acts).handler.Idle?
    ensures var s := Run(Init(), acts);
      var n := Step(s, Arrive(hasData));
      var free := forall b :: b in s.reg.accepted ==> Taken(s, b);
      && (free ==> n.reg.accepted == s.reg.accepted + {s.reg.arrived} && n.reg.freed == s.reg.freed)
      && (!free ==> n.reg.accepted == s.reg.accepted && n.reg.freed == if hasData then s.reg.freed + {s.reg.arrived} else s.reg.freed)
      && (s.reg.dataless == {} ==>
            (free <==> forall b :: b in s.reg.accepted ==> b in s.threads && s.threads[b].Past()))
  {
    RunKeeps(acts);
    var s := Run(Init(), acts);
    assert s.rawRequest.Some? ==> !Taken(s, s.rawRequest.value);
    forall b | b in s.reg.accepted && s.reg.dataless == {}
      ensures Taken(s, b) <==> b in s.threads && s.threads[b].Past()
    {
      TakenIffPast(s, b);
    }
  }

  lemma TakenIffPast(s: Ni, b: Block)
    requires Claims(s) && OwnTaker(s) && s.reg.dataless == {}
    ensures Taken(s, b) <==> b in s.threads && s.threads[b].Past()
  {
    if b in s.taker {
      assert TakerOk(s, b);
    }
    if b in s.threads {
      assert ThreadOk(s, b);
    }
  }

  lemma {:induction false} RunConcat(s: Ni, a: seq<Action>, b: seq<Action>)
    ensures Run(s, a + b) == Run(Run(s, a), b)
    decreases |b|
  {
    hide Step;
    if b == [] {
      assert a + b == a;
    } else {
      assert (a + b)[..|a + b| - 1] == a + b[..|b| - 1];
      RunConcat(s, a, b[..|b| - 1]);
    }
  }

  /** The block in rawRequest has no thread of its own, and no other thread will look at it. */
  ghost predicate Stuck(s: Ni, b: Block) {
    && s.rawRequest == Some(b) && b in s.reg.unspawned
    && forall c :: c in s.threads ==> s.threads[c].Past()
  }

  lemma StuckStays(s: Ni, a: Action, b: Block)
    requires Claims(s) && Books(s) && Stuck(s, b)
    ensures Stuck(Step(s, a), b) && Step(s, a).reg.accepted == s.reg.accepted
  {
    hide ThreadStep, ThreadOk, TakerOk, LockHeld;
    if a.Thread? && a.b in s.threads {
      ThreadTouches(s, a.b, a.timedOut);
      ThreadGoesOn(s, a.b, a.timedOut);
    }
  }

  lemma {:induction false} StuckFrom(s: Ni, more: seq<Action>, b: Block)
    requires Claims(s) && Books(s) && Stuck(s, b)
    ensures var n := Run(s, more);
      Claims(n) && Books(n) && Stuck(n, b) && n.reg.accepted == s.reg.accepted
    decreases |more|
  {
    hide Claims, Books, Stuck, Step;
    if more != [] {
      var k := |more| - 1;
      StuckFrom(s, more[..k], b);
      StuckStays(Run(s, more[..k]), more[k], b);
      StepKeeps(Run(s, more[..k]), more[k]);
    }
  }

  /**
   * A request whose thread cannot be created blocks every later one for good, once no other thread has still to
   * look at rawRequest - at once, if every request so far came with data.
   */
  lemma StuckForever(acts: seq<Action>, more: seq<Action>, b: Block)
    requires var s := Run(Init(), acts);
      b in s.reg.unspawned && (Stuck(s, b) || s.reg.dataless == {})
    ensures var s := Run(Init(), acts);
      var n := Run(Init(), acts + more);
      && n.rawRequest == Some(b) && Informs(n.sent, b) == 0
      && n.reg.accepted == s.reg.accepted
  {
    var s := Run(Init(), acts);
    RunKeeps(acts);
    if s.reg.dataless == {} {
      UnspawnedStuck(s, b);
    }
    StuckFrom(s, more, b);
    RunConcat(Init(), acts, more);
    RunAnswers(acts + more, b);
  }

  lemma UnspawnedStuck(s: Ni, b: Block)
    requires Claims(s) && Books(s) && OwnTaker(s) && s.reg.dataless == {} && b in s.reg.unspawned
    ensures Stuck(s, b)
  {
    TakenIffPast(s, b);
    assert s.rawRequest == Some(b);
    forall c | c in s.threads ensures s.threads[c].Past() {
      OwnBlock(s, c);
      TakenIffPast(s, c);
    }
  }
}
