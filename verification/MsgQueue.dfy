/**
 * The message queue of gps/utils/msg_q.c as a monitor: every label is one critical section of one thread,
 * or a condition-variable wakeup. Any number of threads, in any interleaving, is a sequence of labels.
 */
module MsgQueue {
  type Tid = nat

  /** How a message left the queue. */
  datatype Fate<M> = Received(tid: Tid, msg: M) | Flushed(msg: M)

  /**
   * `queue` is the list content, oldest first. `waiting` holds the receivers blocked in pthread_cond_wait,
   * `woken` those released from it that have not yet run again. `sent` and `gone` are the history: the
   * accepted messages and how messages left, both in order.
   */
  datatype Monitor<M> = Monitor(queue: seq<M>, unblocked: bool, waiting: set<Tid>, woken: set<Tid>,
                                sent: seq<M>, gone: seq<Fate<M>>)

  datatype Label<M> =
    | Send(msg: M, mallocOk: bool, wakes: set<Tid>)
    | Enter(tid: Tid)
    | Resume(tid: Tid)
    | Spurious(tid: Tid)
    | Flush
    | Unblock

  function Init<M>(): Monitor<M> {
    Monitor([], false, {}, {}, [], [])
  }

  /** pthread_cond_signal wakes at least one waiting thread if there is one. */
  predicate Signalled<M>(m: Monitor<M>, wakes: set<Tid>) {
    wakes <= m.waiting && (m.waiting != {} ==> wakes != {})
  }

  predicate Enabled<M>(m: Monitor<M>, l: Label<M>) {
    match l
    case Send(_, _, wakes) => m.unblocked || Signalled(m, wakes)
    case Enter(t) => t !in m.waiting && t !in m.woken
    case Resume(t) => t in m.woken
    case Spurious(t) => t in m.waiting
    case Flush => true
    case Unblock => true
  }

  /** The test of the wait loop and what follows it: wait, or take the oldest message if there is one. */
  function TakeOrWait<M>(m: Monitor<M>, t: Tid): Monitor<M> {
    if m.queue == [] then
      if m.unblocked then m else m.(waiting := m.waiting + {t})
    else
      m.(queue := m.queue[1..], gone := m.gone + [Received(t, m.queue[0])])
  }

  function FlushedAll<M>(q: seq<M>): (fates: seq<Fate<M>>)
    ensures |fates| == |q|
  {
    seq(|q|, i requires 0 <= i < |q| => Flushed(q[i]))
  }

  function Step<M>(m: Monitor<M>, l: Label<M>): Monitor<M>
    requires Enabled(m, l)
  {
    match l
    case Send(msg, mallocOk, wakes) =>
      if m.unblocked then m
      else
        var added := if mallocOk then m.(queue := m.queue + [msg], sent := m.sent + [msg]) else m;
        added.(waiting := m.waiting - wakes, woken := m.woken + wakes)
    case Enter(t) => if m.unblocked then m else TakeOrWait(m, t)
    case Resume(t) => TakeOrWait(m.(woken := m.woken - {t}), t)
    case Spurious(t) => m.(waiting := m.waiting - {t}, woken := m.woken + {t})
    case Flush => m.(queue := [], gone := m.gone + FlushedAll(m.queue))
    case Unblock =>
      if m.unblocked then m
      else m.(unblocked := true, waiting := {}, woken := m.woken + m.waiting)
  }

  /** A run of any labels; a label that is not enabled is skipped. */
  function Run<M>(m: Monitor<M>, ls: seq<Label<M>>): Monitor<M>
    decreases |ls|
  {
    if ls == [] then m
    else
      var before := Run(m, ls[..|ls| - 1]);
      var l := ls[|ls| - 1];
      if Enabled(before, l) then Step(before, l) else before
  }

  function Messages<M>(gone: seq<Fate<M>>): (ms: seq<M>)
    ensures |ms| == |gone|
  {
    seq(|gone|, i requires 0 <= i < |gone| => gone[i].msg)
  }

  ghost predicate NoLostWakeup<M>(m: Monitor<M>) {
    m.waiting != {} ==> |m.queue| <= |m.woken|
  }

  ghost predicate InOrder<M>(m: Monitor<M>) {
    m.sent == Messages(m.gone) + m.queue
  }

  ghost predicate Inv<M>(m: Monitor<M>) {
    && NoLostWakeup(m)
    && InOrder(m)
    && m.waiting !! m.woken
    && (m.unblocked ==> m.waiting == {})
  }

  lemma StepKeepsWakeup<M>(m: Monitor<M>, l: Label<M>)
    requires Inv(m) && Enabled(m, l)
    ensures NoLostWakeup(Step(m, l))
    ensures Step(m, l).waiting !! Step(m, l).woken
    ensures Step(m, l).unblocked ==> Step(m, l).waiting == {}
  {
  }

  lemma StepKeepsOrder<M>(m: Monitor<M>, l: Label<M>)
    requires Inv(m) && Enabled(m, l)
    ensures InOrder(Step(m, l))
  {
  }

  lemma {:induction false} RunKeeps<M>(m: Monitor<M>, ls: seq<Label<M>>)
    requires Inv(m)
    ensures Inv(Run(m, ls))
    decreases |ls|
  {
    if ls != [] {
      var l := ls[|ls| - 1];
      var before := Run(m, ls[..|ls| - 1]);
      RunKeeps(m, ls[..|ls| - 1]);
      if Enabled(before, l) {
        StepKeepsWakeup(before, l);
        StepKeepsOrder(before, l);
      }
    }
  }

  /** In every run of any threads, no wakeup is lost. */
  lemma WakeupsNotLost<M>(ls: seq<Label<M>>)
    ensures var m := Run<M>(Init(), ls);
      m.waiting != {} ==> |m.queue| <= |m.woken| && (m.queue != [] ==> m.woken != {})
  {
    RunKeeps<M>(Init(), ls);
  }

  /** In every run, what left the queue is a prefix of the accepted sends, in order and once each. */
  lemma {:induction false} FirstInFirstOut<M>(ls: seq<Label<M>>)
    ensures var m := Run<M>(Init(), ls);
      && |m.gone| <= |m.sent|
      && Messages(m.gone) == m.sent[..|m.gone|]
      && m.queue == m.sent[|m.gone|..]
  {
    RunKeeps<M>(Init(), ls);
  }

  /**
   * The messages that were sent: those of the sends that could happen, had memory for their list element, and came
   * before the queue was unblocked, in order.
   */
  ghost function Accepted<M>(ls: seq<Label<M>>): seq<M>
    decreases |ls|
  {
    if ls == [] then []
    else
      var before := ls[..|ls| - 1];
      match ls[|ls| - 1]
      case Send(msg, mallocOk, wakes) =>
        if mallocOk && Unblock !in before && Signalled(Run(Init(), before), wakes) then Accepted(before) + [msg]
        else Accepted(before)
      case _ => Accepted(before)
  }

  lemma {:induction false} UnblockedIff<M>(ls: seq<Label<M>>)
    ensures Run<M>(Init(), ls).unblocked <==> Unblock in ls
    decreases |ls|
  {
    if ls != [] {
      UnblockedIff(ls[..|ls| - 1]);
      assert ls == ls[..|ls| - 1] + [ls[|ls| - 1]];
    }
  }

  /** In every run, what counts as sent is what was sent: no accepted message gets lost on its way into the queue. */
  lemma {:induction false} SentAreAccepted<M>(ls: seq<Label<M>>)
    ensures Run<M>(Init(), ls).sent == Accepted(ls)
    decreases |ls|
  {
    if ls != [] {
      SentAreAccepted(ls[..|ls| - 1]);
      UnblockedIff(ls[..|ls| - 1]);
    }
  }

  /** In every run, each accepted message has been received or flushed, or is still queued; order is that of sending. */
  lemma AcceptedAreDelivered<M>(ls: seq<Label<M>>)
    ensures var m := Run<M>(Init(), ls);
      Accepted(ls) == Messages(m.gone) + m.queue
  {
    SentAreAccepted(ls);
    RunKeeps<M>(Init(), ls);
  }

  /** A flush takes every queued message, in order, and leaves none. */
  lemma FlushLeavesNone<M>(m: Monitor<M>)
    ensures var n := Step(m, Flush);
      && n.queue == [] && |n.gone| == |m.gone| + |m.queue| && n.gone[..|m.gone|] == m.gone
      && forall i :: 0 <= i < |m.queue| ==> n.gone[|m.gone| + i] == Flushed(m.queue[i])
  {
  }

  lemma {:induction false} RunConcat<M>(m: Monitor<M>, a: seq<Label<M>>, b: seq<Label<M>>)
    ensures Run(m, a + b) == Run(Run(m, a), b)
    decreases |b|
  {
    if b == [] {
      assert a + b == a;
    } else {
      assert (a + b)[..|a + b| - 1] == a + b[..|b| - 1];
      RunConcat(m, a, b[..|b| - 1]);
    }
  }

  lemma {:induction false} StaysUnblocked<M>(m: Monitor<M>, ls: seq<Label<M>>)
    requires m.unblocked
    ensures Run(m, ls).unblocked && Run(m, ls).sent == m.sent
    decreases |ls|
  {
    if ls != [] {
      StaysUnblocked(m, ls[..|ls| - 1]);
    }
  }

  /** After an unblock, whatever the threads go on to do, nobody waits and nothing more is accepted. */
  lemma NobodyWaitsAfterUnblock<M>(before: seq<Label<M>>, after: seq<Label<M>>)
    ensures var m := Run<M>(Init(), before + [Unblock] + after);
      m.unblocked && m.waiting == {} && m.sent == Run<M>(Init(), before).sent
  {
    var s := Run<M>(Init(), before);
    var u := Run<M>(Init(), before + [Unblock]);
    assert (before + [Unblock])[..|before|] == before;
    assert u == Step(s, Unblock);
    RunConcat<M>(Init(), before + [Unblock], after);
    StaysUnblocked(u, after);
    RunKeeps<M>(Init(), before + [Unblock] + after);
  }

  /** Every woken receiver runs once, in the given order. */
  function Resumes<M>(ts: seq<Tid>): (ls: seq<Label<M>>)
    ensures |ls| == |ts|
  {
    seq(|ts|, i requires 0 <= i < |ts| => Resume(ts[i]))
  }

  ghost predicate Distinct<T>(s: seq<T>) {
    forall i, j :: 0 <= i < j < |s| ==> s[i] != s[j]
  }

  function After<M>(q: seq<M>, n: nat): seq<M> {
    if n <= |q| then q[n..] else []
  }

  lemma {:induction false} ResumesDrain<M>(m: Monitor<M>, ts: seq<Tid>)
    requires Distinct(ts) && forall t :: t in ts ==> t in m.woken
    ensures var n := Run(m, Resumes<M>(ts));
      && (forall t :: t in n.woken <==> t in m.woken && t !in ts)
      && n.queue == After(m.queue, |ts|)
    decreases |ts|
  {
    var ls := Resumes<M>(ts);
    if ts != [] {
      var k := |ts| - 1;
      assert ls[..k] == Resumes<M>(ts[..k]);
      ResumesDrain(m, ts[..k]);
      ResumesOne(Run(m, ls[..k]), ts[k]);
      assert ts == ts[..k] + [ts[k]];
    }
  }

  lemma ResumesOne<M>(m: Monitor<M>, t: Tid)
    requires t in m.woken
    ensures var n := Step(m, Resume(t));
      n.woken == m.woken - {t} && n.queue == After(m.queue, 1)
  {
  }

  /**
   * Progress: once every woken receiver of a reachable state has run, in any order, a receiver still waits
   * only if the queue is empty, and the queue got shorter by one message per receiver while it lasted.
   */
  lemma DrainedBeforeWaiting<M>(ls: seq<Label<M>>, ts: seq<Tid>)
    requires Distinct(ts) && (set t | t in ts) == Run<M>(Init(), ls).woken
    ensures var m := Run<M>(Init(), ls);
      var n := Run(m, Resumes<M>(ts));
      && n.woken == {}
      && (n.waiting != {} ==> n.queue == [])
      && n.queue == After(m.queue, |ts|)
  {
    var m := Run<M>(Init(), ls);
    forall t | t in ts ensures t in m.woken {
      assert t in set u | u in ts;
    }
    RunKeeps<M>(Init(), ls);
    ResumesDrain(m, ts);
    RunKeeps(m, Resumes<M>(ts));
  }
}
