/** Whole runs of the network-initiated request handshake: what is answered, and when an answer is missing. */
module NiRuns {
  import opened Common
  import opened NiHandshake

  function Repeat(a: Action, n: nat): (acts: seq<Action>)
    ensures |acts| == n
  {
    seq(n, i => a)
  }

  function Again(s: Ni, a: Action, n: nat): Ni {
    if n == 0 then s else Step(Again(s, a, n - 1), a)
  }

  lemma {:induction false} RunAgain(s: Ni, a: Action, n: nat)
    ensures Run(s, Repeat(a, n)) == Again(s, a, n)
  {
    hide Step;
    if n > 0 {
      assert Repeat(a, n)[..n - 1] == Repeat(a, n - 1);
      RunAgain(s, a, n - 1);
    }
  }

  lemma RunOne(s: Ni, a: Action)
    ensures Run(s, [a]) == Step(s, a)
  {
    hide Step;
    assert [a][..0] == [];
  }

  /** A request that arrives while nothing is going on, and the handler's five accesses after that. */
  function Request(hasData: bool, timeLeft: int, created: bool): seq<Action> {
    [Arrive(hasData)] + Repeat(Handler(timeLeft, created), 5)
  }

  function AfterRequest(s: Ni, hasData: bool, timeLeft: int, created: bool): Ni {
    var b := s.reg.arrived;
    var r := Registered(s.reg, hasData, false);
    s.(reg := if created then r else r.(unspawned := r.unspawned + {b}),
       rawRequest := if hasData then Some(b) else None,
       respTimeLeft := timeLeft,
       threads := if created then s.threads[b := Created] else s.threads)
  }

  lemma RequestRuns(s: Ni, hasData: bool, timeLeft: int, created: bool)
    requires s.handler.Idle? && s.rawRequest.None? && s.reg.arrived !in s.reg.dataless
    ensures Run(s, Request(hasData, timeLeft, created)) == AfterRequest(s, hasData, timeLeft, created)
  {
    var h := Handler(timeLeft, created);
    RunConcat(s, [Arrive(hasData)], Repeat(h, 5));
    RunOne(s, Arrive(hasData));
    var a := Step(s, Arrive(hasData));
    RunAgain(a, h, 5);
    HandlerRuns(a, s.reg.arrived, timeLeft, created);
  }

  lemma HandlerSaves(s: Ni, b: Block, timeLeft: int, created: bool)
    requires s.handler == SawNull(b)
    ensures Again(s, Handler(timeLeft, created), 3) ==
      s.(rawRequest := if b in s.reg.dataless then None else Some(b), respTimeLeft := timeLeft, handler := Timed(b))
  {
    var h := Handler(timeLeft, created);
    AgainOne(s, h);
    assert Again(s, h, 2) == Step(Again(s, h, 1), h);
  }

  lemma HandlerSpawns(s: Ni, b: Block, timeLeft: int, created: bool)
    requires s.handler == Timed(b)
    ensures Again(s, Handler(timeLeft, created), 2) ==
      s.(handler := Idle,
         reg := if created then s.reg else s.reg.(unspawned := s.reg.unspawned + {b}),
         threads := if created then s.threads[b := Created] else s.threads)
  {
    AgainOne(s, Handler(timeLeft, created));
  }

  lemma HandlerRuns(s: Ni, b: Block, timeLeft: int, created: bool)
    requires s.handler == SawNull(b)
    ensures Again(s, Handler(timeLeft, created), 5) ==
      s.(rawRequest := if b in s.reg.dataless then None else Some(b), respTimeLeft := timeLeft, handler := Idle,
         reg := if created then s.reg else s.reg.(unspawned := s.reg.unspawned + {b}),
         threads := if created then s.threads[b := Created] else s.threads)
  {
    hide Step, Again;
    HandlerSaves(s, b, timeLeft, created);
    AgainMore(s, Handler(timeLeft, created), 3, 2);
    HandlerSpawns(Again(s, Handler(timeLeft, created), 3), b, timeLeft, created);
  }

  /** Creating the thread fails: all is quiet, and the accepted request has no answer. */
  lemma UnspawnedUnanswered(timeLeft: int)
    ensures var s := Run(Init(), Request(true, timeLeft, false));
      Quiet(s) && 0 in s.reg.accepted && s.reg.unspawned == {0} && Informs(s.sent, 0) == 0
  {
    RequestRuns(Init(), true, timeLeft, false);
  }

  lemma MoveMove(s: Ni, b: Block, p: ThreadPc, q: ThreadPc)
    ensures Move(Move(s, b, p), b, q) == Move(s, b, q)
  {
  }

  predicate Started(s: Ni, b: Block) {
    b in s.threads && s.threads[b].Created? && s.lock.None? && !s.respRecvd
  }

  /** A thread that waits until its time is out: four accesses up to its looking at rawRequest. */
  lemma WaitsInVain(s: Ni, b: Block)
    requires Started(s, b)
    ensures Again(s, Thread(b, true), 4) == Move(s.(lock := Some(b), resp := GPS_NI_RESPONSE_NORESP), b, Reset)
  {
    hide LeaveStep, HandlerStep, ArriveStep, ResponderStep;
    var t := Thread(b, true);
    var held := s.(lock := Some(b));
    assert Again(s, t, 1) == Move(held, b, AtTop);
    MoveMove(s, b, AtTop, Waiting);
    assert Again(s, t, 2) == Move(s, b, Waiting);
    var out := held.(resp := GPS_NI_RESPONSE_NORESP);
    MoveMove(out, b, Waiting, Woken);
    assert Again(s, t, 3) == Move(out, b, Woken);
    MoveMove(out, b, Woken, Reset);
  }

  lemma AgainMore(s: Ni, a: Action, m: nat, n: nat)
    ensures Again(s, a, m + n) == Again(Again(s, a, m), a, n)
  {
    hide Step;
    if n > 0 {
      AgainMore(s, a, m, n - 1);
    }
  }

  lemma BuildsMessage(s: Ni, b: Block, x: Block, late: bool)
    requires b in s.threads && s.threads[b].Reset? && s.rawRequest == Some(x)
    ensures Again(s, Thread(b, late), 2) == Move(s, b, Built(Inform(s.resp, Some(x))))
  {
    hide LeaveStep, HandlerStep, ArriveStep, ResponderStep;
    AgainOne(s, Thread(b, late));
    assert Step(s, Thread(b, late)) == Move(s, b, SawRequest);
    MoveMove(s, b, SawRequest, Built(Inform(s.resp, Some(x))));
  }

  lemma TakesBlock(s: Ni, b: Block, x: Block, msg: Inform, late: bool)
    requires s.rawRequest == Some(x)
    ensures Again(Move(s, b, Built(msg)), Thread(b, late), 2) ==
      Move(s.(lock := None, rawRequest := None, taker := s.taker[x := b]), b, Unlocked(Some(msg)))
  {
    var taken := s.(rawRequest := None, taker := s.taker[x := b]);
    AgainOne(Move(s, b, Built(msg)), Thread(b, late));
    MoveMove(taken, b, Built(msg), ToUnlock(Some(msg)));
    assert Step(Move(s, b, Built(msg)), Thread(b, late)) == Move(taken, b, ToUnlock(Some(msg)));
    LeaveOnce(taken, b, ToUnlock(Some(msg)), late);
  }

  /** It takes whatever it finds. */
  lemma TakesFound(s: Ni, b: Block, x: Block, late: bool)
    requires b in s.threads && s.threads[b].Reset? && s.rawRequest == Some(x)
    ensures Again(s, Thread(b, late), 4) ==
      Move(s.(lock := None, rawRequest := None, taker := s.taker[x := b]), b, Unlocked(Some(Inform(s.resp, Some(x)))))
  {
    hide Step, Again, Move;
    AgainMore(s, Thread(b, late), 2, 2);
    BuildsMessage(s, b, x, late);
    TakesBlock(s, b, x, Inform(s.resp, Some(x)), late);
  }

  lemma LeaveOnce(s: Ni, b: Block, pc: ThreadPc, late: bool)
    requires pc.Past()
    ensures Step(Move(s, b, pc), Thread(b, late)) == Move(LeaveEffect(s, pc), b, LeavePc(pc, s.reqID))
  {
    MoveMove(LeaveEffect(s, pc), b, pc, LeavePc(pc, s.reqID));
  }

  /** After the lock: the time is cleared, the next request gets the next number, and the message goes out. */
  lemma LeavesNow(s: Ni, b: Block, out: Option<Inform>, late: bool)
    ensures Again(Move(s, b, Unlocked(out)), Thread(b, late), 4) ==
      Move(s.(respTimeLeft := 0, reqID := s.reqID + 1, sent := if out.Some? then s.sent + [out.value] else s.sent), b, Exited)
  {
    hide Step, Move;
    var t, m := Thread(b, late), Move(s, b, Unlocked(out));
    var clear := s.(respTimeLeft := 0);
    var counted := clear.(reqID := s.reqID + 1);
    LeaveOnce(s, b, Unlocked(out), late);
    assert Again(m, t, 1) == Move(clear, b, TimeCleared(out));
    LeaveOnce(clear, b, TimeCleared(out), late);
    assert Again(m, t, 2) == Move(clear, b, ReadId(out, s.reqID));
    LeaveOnce(clear, b, ReadId(out, s.reqID), late);
    assert Again(m, t, 3) == Move(counted, b, ToSend(out));
    LeaveOnce(counted, b, ToSend(out), late);
  }

  /** Finding nothing, it leaves without a message. */
  lemma LeavesEmpty(s: Ni, b: Block)
    requires b in s.threads && s.threads[b].Reset? && s.rawRequest.None?
    ensures Again(s, Thread(b, true), 6) ==
      Move(s.(lock := None, respTimeLeft := 0, reqID := s.reqID + 1), b, Exited)
  {
    hide Step, Move, Again;
    AgainMore(s, Thread(b, true), 1, 5);
    FindsNothing(s, b);
    LeavesLock(s, b);
  }

  lemma LeavesLock(s: Ni, b: Block)
    ensures Again(Move(s, b, ToUnlock(None)), Thread(b, true), 5) ==
      Move(s.(lock := None, respTimeLeft := 0, reqID := s.reqID + 1), b, Exited)
  {
    hide Step, Move, Again;
    var m, t := Move(s, b, ToUnlock(None)), Thread(b, true);
    AgainMore(m, t, 1, 4);
    AgainOne(m, t);
    LeaveOnce(s, b, ToUnlock(None), true);
    LeavesNow(s.(lock := None), b, None, true);
  }

  lemma FindsNothing(s: Ni, b: Block)
    requires b in s.threads && s.threads[b].Reset? && s.rawRequest.None?
    ensures Again(s, Thread(b, true), 1) == Move(s, b, ToUnlock(None))
  {
    hide Again, LeaveStep;
    AgainOne(s, Thread(b, true));
  }

  lemma AgainOne(s: Ni, a: Action)
    ensures Again(s, a, 1) == Step(s, a)
  {
    hide Step;
  }

  /**
   * A request without data, then one with data, whose block the thread of the first takes: the thread of the second
   * is done, and its request has not been answered.
   */
  lemma TakenOver(timeLeft: int)
    ensures var acts := Request(false, timeLeft, true) + Request(true, timeLeft, true) +
                        Repeat(Thread(0, true), 8) + Repeat(Thread(1, true), 10);
      var s := Run(Init(), acts);
      && Done(s, 1) && 1 !in s.reg.dataless && s.taker == map[1 := 0] && Informs(s.sent, 1) == 0
  {
    hide Run, Step;
    var first, second := Request(false, timeLeft, true), Request(true, timeLeft, true);
    RequestRuns(Init(), false, timeLeft, true);
    var a := AfterRequest(Init(), false, timeLeft, true);
    RequestRuns(a, true, timeLeft, true);
    var b := AfterRequest(a, true, timeLeft, true);
    RunConcat(Init(), first, second);
    WaitsInVain(b, 0);
    AgainMore(b, Thread(0, true), 4, 4);
    TakesFound(Again(b, Thread(0, true), 4), 0, 1, true);
    RunAgain(b, Thread(0, true), 8);
    RunConcat(Init(), first + second, Repeat(Thread(0, true), 8));
    var c := Again(b, Thread(0, true), 8);
    WaitsInVain(c, 1);
    AgainMore(c, Thread(1, true), 4, 6);
    LeavesEmpty(Again(c, Thread(1, true), 4), 1);
    RunAgain(c, Thread(1, true), 10);
    RunConcat(Init(), first + second + Repeat(Thread(0, true), 8), Repeat(Thread(1, true), 10));
  }

  // ----- runs in which the answer comes

  /** A thread that comes to wait gives the lock back. */
  lemma GoesToWait(s: Ni, b: Block)
    requires Started(s, b)
    ensures Again(s, Thread(b, false), 2) == Move(s, b, Waiting)
  {
    hide LeaveStep, HandlerStep, ArriveStep, ResponderStep;
    AgainOne(s, Thread(b, false));
    assert Step(s, Thread(b, false)) == Move(s.(lock := Some(b)), b, AtTop);
    MoveMove(s, b, AtTop, Waiting);
  }

  /** Woken for nothing, it waits on: only a response or the end of its time lets it go. */
  lemma WakesForNothing(s: Ni, b: Block)
    requires b in s.threads && s.threads[b].Waiting? && s.lock.None? && !s.respRecvd
    ensures Again(s, Thread(b, false), 2) == s
  {
    hide LeaveStep, HandlerStep, ArriveStep, ResponderStep;
    AgainOne(s, Thread(b, false));
    assert Step(s, Thread(b, false)) == Move(s.(lock := Some(b)), b, AtTop);
    MoveMove(s, b, AtTop, Waiting);
    assert s.threads[b := Waiting] == s.threads;
  }

  /** A response lets it go, and is then used up. */
  lemma HearsResponse(s: Ni, b: Block)
    requires b in s.threads && s.threads[b].Waiting? && s.lock.None? && s.respRecvd
    ensures Again(s, Thread(b, false), 3) == Move(s.(lock := Some(b), respRecvd := false), b, Reset)
  {
    hide LeaveStep, HandlerStep, ArriveStep, ResponderStep;
    var t := Thread(b, false);
    var held := s.(lock := Some(b));
    AgainOne(s, t);
    assert Step(s, t) == Move(held, b, AtTop);
    MoveMove(held, b, AtTop, Woken);
    assert Again(s, t, 2) == Move(held, b, Woken);
    MoveMove(held.(respRecvd := false), b, Woken, Reset);
  }

  /** From the look at rawRequest to the end, undisturbed: the block goes out with the response there is. */
  lemma Informed(s: Ni, b: Block, x: Block, late: bool)
    requires b in s.threads && s.threads[b].Reset? && s.rawRequest == Some(x)
    ensures Again(s, Thread(b, late), 8) ==
      Move(s.(lock := None, rawRequest := None, taker := s.taker[x := b], respTimeLeft := 0, reqID := s.reqID + 1,
              sent := s.sent + [Inform(s.resp, Some(x))]), b, Exited)
  {
    hide Step, Again, Move;
    AgainMore(s, Thread(b, late), 4, 4);
    TakesFound(s, b, x, late);
    LeavesNow(s.(lock := None, rawRequest := None, taker := s.taker[x := b]), b, Some(Inform(s.resp, Some(x))), late);
  }

  /** The user's answer to the request that is on, with its number: three accesses. */
  lemma Responds(s: Ni, user: nat, resp: Response)
    requires user !in s.responders && s.rawRequest.Some? && s.lock.None?
    ensures Run(s, [Respond(user, s.reqID, resp)] + Repeat(Responder(user), 2)) == s.(resp := resp, respRecvd := true)
  {
    hide ThreadStep, HandlerStep, ArriveStep;
    RunConcat(s, [Respond(user, s.reqID, resp)], Repeat(Responder(user), 2));
    RunOne(s, Respond(user, s.reqID, resp));
    var a := s.(responders := s.responders[user := SawId(resp)]);
    assert Step(s, Respond(user, s.reqID, resp)) == a;
    RunAgain(a, Responder(user), 2);
    AgainOne(a, Responder(user));
    var b := s.(responders := s.responders[user := SawRequestToo(resp)]);
    assert a.responders[user := SawRequestToo(resp)] == b.responders;
    assert Step(a, Responder(user)) == b;
    assert b.responders - {user} == s.responders;
  }

  /** An answer with another number, or when no request is on, changes nothing. */
  lemma StrayResponse(s: Ni, user: nat, id: int, resp: Response)
    requires user !in s.responders
    ensures id != s.reqID ==> Step(s, Respond(user, id, resp)) == s
    ensures id == s.reqID && s.rawRequest.None? ==> Step(Step(s, Respond(user, id, resp)), Responder(user)) == s
  {
    hide ThreadStep, HandlerStep, ArriveStep;
    assert s.responders[user := SawId(resp)] - {user} == s.responders;
  }

  /** The user answers in time: exactly that answer goes out, for exactly that request, and all is as before it. */
  lemma UserAnswers(timeLeft: int, user: nat, resp: Response)
    ensures var acts := Request(true, timeLeft, true) + Repeat(Thread(0, false), 2) +
                        ([Respond(user, 0, resp)] + Repeat(Responder(user), 2)) + Repeat(Thread(0, false), 11);
      var s := Run(Init(), acts);
      && Done(s, 0) && s.sent == [Inform(resp, Some(0))]
      && s.rawRequest.None? && s.lock.None? && !s.respRecvd && s.respTimeLeft == 0 && s.reqID == 1
  {
    hide Run, Step;
    var t := Thread(0, false);
    var request, answer := Request(true, timeLeft, true), [Respond(user, 0, resp)] + Repeat(Responder(user), 2);
    RequestRuns(Init(), true, timeLeft, true);
    var a := AfterRequest(Init(), true, timeLeft, true);
    RunConcat(Init(), request, Repeat(t, 2));
    RunAgain(a, t, 2);
    GoesToWait(a, 0);
    var b := Move(a, 0, Waiting);
    RunConcat(Init(), request + Repeat(t, 2), answer);
    Responds(b, user, resp);
    var c := b.(resp := resp, respRecvd := true);
    RunConcat(Init(), request + Repeat(t, 2) + answer, Repeat(t, 11));
    RunAgain(c, t, 11);
    AgainMore(c, t, 3, 8);
    HearsResponse(c, 0);
    Informed(Move(c.(lock := Some(0), respRecvd := false), 0, Reset), 0, 0, false);
  }

  /** Nobody answers in time: "no response", which is 3, goes out. */
  lemma NobodyAnswers(timeLeft: int)
    ensures var s := Run(Init(), Request(true, timeLeft, true) + Repeat(Thread(0, true), 12));
      && Done(s, 0) && s.sent == [Inform(3, Some(0))]
      && s.rawRequest.None? && s.lock.None? && !s.respRecvd && s.respTimeLeft == 0 && s.reqID == 1
  {
    hide Run, Step;
    var t := Thread(0, true);
    RequestRuns(Init(), true, timeLeft, true);
    var a := AfterRequest(Init(), true, timeLeft, true);
    RunConcat(Init(), Request(true, timeLeft, true), Repeat(t, 12));
    RunAgain(a, t, 12);
    AgainMore(a, t, 4, 8);
    WaitsInVain(a, 0);
    Informed(Again(a, t, 4), 0, 0, true);
  }
}
