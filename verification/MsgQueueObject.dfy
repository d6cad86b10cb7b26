/** The `msg_q` object over the heap list; each critical section refines one label of the monitor. */
module MsgQueueObject {
  import opened Common
  import opened LinkedList
  import opened MsgQueue

  /** The list is filled at the head and emptied at the tail, so the queue is the list read backwards. */
  ghost function Reverse<M>(s: seq<M>): (r: seq<M>)
    ensures |r| == |s|
  {
    seq(|s|, i requires 0 <= i < |s| => s[|s| - 1 - i])
  }

  lemma ReverseAdd<M>(c: seq<M>, x: M)
    ensures Reverse([x] + c) == Reverse(c) + [x]
  {
  }

  lemma ReverseRemove<M>(c: seq<M>)
    requires c != []
    ensures Reverse(c)[0] == c[|c| - 1] && Reverse(c[..|c| - 1]) == Reverse(c)[1..]
  {
  }

  /** What msg_q_rcv gives its caller, or that the thread went to wait. */
  datatype Outcome<M> = Waits | Returns(err: ListError, data: Option<M>)

  /** What a receive does to the queue: the oldest message goes to the thread, or the thread waits, or neither. */
  ghost predicate Taken<M>(r: Outcome<M>, t: Tid, before: seq<M>, after: seq<M>, gone: seq<Fate<M>>, goneAfter: seq<Fate<M>>,
                         waiting: set<Tid>, waitingAfter: set<Tid>) {
    if r.Returns? && r.err.Success? then
      before != [] && after == before[1..] && goneAfter == gone + [Received(t, before[0])] && waitingAfter == waiting
    else
      after == before && goneAfter == gone && waitingAfter == if r.Waits? then waiting + {t} else waiting
  }

  class MsgQ<M(==)> {
    const list: List<M>
    var unblocked: bool
    var waiting: set<Tid>
    var woken: set<Tid>
    ghost var sent: seq<M>
    ghost var gone: seq<Fate<M>>
    ghost var labels: seq<Label<M>>  // the critical sections and wakeups so far

    /** The queue is where its labels lead, so that what holds in every run of the monitor holds of it. */
    ghost predicate Valid()
      reads this, list, list.Nodes
    {
      list.Valid() && View() == Run<M>(Init(), labels)
    }

    ghost function Queue(): seq<M>
      reads list`Nodes
    {
      Reverse(list.Contents())
    }

    ghost function View(): Monitor<M>
      reads this, list`Nodes
    {
      Monitor(Queue(), unblocked, waiting, woken, sent, gone)
    }

    /** A queue over an empty list. */
    constructor (list: List<M>)
      requires list.Valid() && list.Nodes == []
      ensures Valid() && View() == MsgQueue.Init() && this.list == list
    {
      this.list := list;
      unblocked := false;
      waiting, woken := {}, {};
      sent, gone, labels := [], [], [];
    }

    /** `msg_q_init`; `hasOutput` is false when `msg_q_data` is NULL, the others when what they name fails. */
    static method Create(hasOutput: bool, callocOk: bool, listOk: bool, mutexOk: bool, condOk: bool)
      returns (err: ListError, q: MsgQ?<M>)
      ensures err == if !hasOutput then InvalidParameter
                     else if callocOk && listOk && mutexOk && condOk then Success else FailureGeneral
      ensures q != null <==> err.Success?
      ensures q != null ==>
        fresh(q) && fresh(q.list) && q.Valid() && q.View() == MsgQueue.Init() && q.list.added == {}
    {
      if !hasOutput {
        return InvalidParameter, null;
      }
      if !callocOk {
        return FailureGeneral, null;
      }
      var e, list := List<M>.Init(true, listOk);
      if !e.Success? || !mutexOk || !condOk {
        return FailureGeneral, null;
      }
      q := new MsgQ(list);
      err := Success;
    }

    /** Every property of runs is one of the object. */
    lemma History()
      requires Valid()
      ensures NoLostWakeup(View()) && InOrder(View()) && (unblocked ==> waiting == {})
    {
      RunKeeps<M>(Init(), labels);
    }

    /** A thread waiting in pthread_cond_wait returns without having been signalled. */
    method SpuriousWakeup(t: Tid)
      requires Valid() && t in waiting
      modifies this
      ensures Valid() && View() == Step(old(View()), Spurious(t))
      ensures waiting == old(waiting) - {t} && woken == old(woken) + {t}
      ensures Queue() == old(Queue()) && sent == old(sent) && gone == old(gone) && unblocked == old(unblocked)
    {
      waiting, woken := waiting - {t}, woken + {t};
      labels := RunMore(labels, Spurious(t));
    }

    /** `msg_q_snd`; `wakes` are the threads that pthread_cond_signal releases. */
    method Snd(msg: Option<M>, owned: bool, mallocOk: bool, wakes: set<Tid>) returns (err: ListError)
      requires Valid() && (unblocked || Signalled(View(), wakes))
      modifies this, list, list.added`next, list.added`prev
      ensures Valid() && fresh(list.added - old(list.added))
      ensures err == if msg.None? then InvalidParameter else if old(unblocked) then UnavailableResource
                     else if mallocOk then Success else FailureGeneral
      ensures View() == if msg.None? then old(View()) else Step(old(View()), Send(msg.value, mallocOk, wakes))
      ensures Queue() == if err.Success? then old(Queue()) + [msg.value] else old(Queue())
      ensures sent == if err.Success? then old(sent) + [msg.value] else old(sent)
      ensures gone == old(gone) && unblocked == old(unblocked)
      ensures var signals := msg.Some? && !unblocked;
        && waiting == (if signals then old(waiting) - wakes else old(waiting))
        && woken == (if signals then old(woken) + wakes else old(woken))
    {
      if msg.None? {
        return InvalidParameter;
      }
      err := SndLocked(msg.value, owned, mallocOk, wakes);
      labels := RunMore(labels, Send(msg.value, mallocOk, wakes));
    }

    /** The section of `msg_q_snd` under the mutex. */
    method SndLocked(msg: M, owned: bool, mallocOk: bool, wakes: set<Tid>) returns (err: ListError)
      requires list.Valid() && (unblocked || Signalled(View(), wakes))
      modifies `sent, `waiting, `woken, list, list.added`next, list.added`prev
      ensures list.Valid() && fresh(list.added - old(list.added))
      ensures err == if old(unblocked) then UnavailableResource else if mallocOk then Success else FailureGeneral
      ensures View() == Step(old(View()), Send(msg, mallocOk, wakes))
      ensures Queue() == if err.Success? then old(Queue()) + [msg] else old(Queue())
      ensures sent == if err.Success? then old(sent) + [msg] else old(sent)
      ensures waiting == (if unblocked then old(waiting) else old(waiting) - wakes)
      ensures woken == (if unblocked then old(woken) else old(woken) + wakes)
    {
      if unblocked {
        return UnavailableResource;
      }
      err := Enqueue(msg, owned, mallocOk);
      ghost var q := Queue();
      waiting, woken := waiting - wakes, woken + wakes;
      assert Queue() == q;
    }

    /** The list part of `msg_q_snd`. */
    method Enqueue(msg: M, owned: bool, mallocOk: bool) returns (err: ListError)
      requires list.Valid()
      modifies `sent, list, list.added`next, list.added`prev
      ensures list.Valid() && fresh(list.added - old(list.added))
      ensures err == if mallocOk then Success else FailureGeneral
      ensures Queue() == if mallocOk then old(Queue()) + [msg] else old(Queue())
      ensures sent == if mallocOk then old(sent) + [msg] else old(sent)
    {
      ReverseAdd(list.Contents(), msg);
      err := list.Add(Some(msg), owned, mallocOk);
      if err.Success? {
        sent := sent + [msg];
      }
    }

    /** The list part of `msg_q_rcv`. */
    method Dequeue(prior: Option<M>) returns (err: ListError, data: Option<M>)
      requires list.Valid()
      modifies list, list.added`next, list.added`prev
      ensures list.Valid() && list.added == old(list.added)
      ensures old(Queue()) == [] ==> err == UnavailableResource && data == prior && Queue() == []
      ensures old(Queue()) != [] ==>
        err == Success && data == Some(old(Queue())[0]) && Queue() == old(Queue())[1..]
    {
      if list.Nodes != [] {
        ReverseRemove(list.Contents());
      }
      err, data := list.Remove(prior, true);
    }

    /** The head of the wait loop of `msg_q_rcv`, and the removal that follows it. */
    method TryTake(t: Tid, prior: Option<M>) returns (r: Outcome<M>)
      requires list.Valid()
      modifies `waiting, `gone, list, list.added`next, list.added`prev
      ensures list.added == old(list.added)
      ensures list.Valid() && View() == TakeOrWait(old(View()), t)
      ensures Taken(r, t, old(Queue()), Queue(), old(gone), gone, old(waiting), waiting)
      ensures r == var q := old(View()).queue;
        if q != [] then Returns(Success, Some(q[0]))
        else if old(unblocked) then Returns(UnavailableResource, prior) else Waits
    {
      var empty := list.Empty();
      if empty && !unblocked {
        waiting := waiting + {t};
        return Waits;
      }
      var err, data := Dequeue(prior);
      if err.Success? {
        gone := gone + [Received(t, data.value)];
      }
      r := Returns(err, data);
    }

    /** `msg_q_rcv` up to its first wait or its return; `hasOutput` is false when `msg_obj` is NULL. */
    method RcvEnter(t: Tid, prior: Option<M>, hasOutput: bool) returns (r: Outcome<M>)
      requires Valid() && t !in waiting && t !in woken
      modifies this, list, list.added`next, list.added`prev
      ensures list.added == old(list.added)
      ensures Valid() && View() == if hasOutput then Step(old(View()), Enter(t)) else old(View())
      ensures Taken(r, t, old(Queue()), Queue(), old(gone), gone, old(waiting), waiting)
      ensures sent == old(sent) && unblocked == old(unblocked) && woken == old(woken)
      ensures r == var q := old(View()).queue;
        if !hasOutput then Returns(InvalidParameter, prior)
        else if old(unblocked) then Returns(UnavailableResource, prior)
        else if q == [] then Waits else Returns(Success, Some(q[0]))
    {
      if !hasOutput {
        return Returns(InvalidParameter, prior);
      }
      if unblocked {
        labels := RunMore(labels, Enter(t));
        return Returns(UnavailableResource, prior);
      }
      r := TryTake(t, prior);
      labels := RunMore(labels, Enter(t));
    }

    /** `msg_q_rcv` from the return of pthread_cond_wait to the next wait or its return. */
    method RcvResume(t: Tid, prior: Option<M>) returns (r: Outcome<M>)
      requires Valid() && t in woken
      modifies this, list, list.added`next, list.added`prev
      ensures list.added == old(list.added)
      ensures Valid() && View() == Step(old(View()), Resume(t))
      ensures Taken(r, t, old(Queue()), Queue(), old(gone), gone, old(waiting), waiting)
      ensures sent == old(sent) && unblocked == old(unblocked) && woken == old(woken) - {t}
      ensures r == var q := old(View()).queue;
        if q != [] then Returns(Success, Some(q[0]))
        else if old(unblocked) then Returns(UnavailableResource, prior) else Waits
    {
      r := ResumeLocked(t, prior);
      labels := RunMore(labels, Resume(t));
    }

    /** The pass of the wait loop, back under the mutex. */
    method ResumeLocked(t: Tid, prior: Option<M>) returns (r: Outcome<M>)
      requires list.Valid() && t in woken
      modifies `waiting, `woken, `gone, list, list.added`next, list.added`prev
      ensures list.added == old(list.added)
      ensures list.Valid() && View() == Step(old(View()), Resume(t))
      ensures Taken(r, t, old(Queue()), Queue(), old(gone), gone, old(waiting), waiting) && woken == old(woken) - {t}
      ensures r == var q := old(View()).queue;
        if q != [] then Returns(Success, Some(q[0]))
        else if old(unblocked) then Returns(UnavailableResource, prior) else Waits
    {
      hide TakeOrWait;
      ghost var q := Queue();
      woken := woken - {t};
      assert Queue() == q;
      r := TryTake(t, prior);
    }

    /** `msg_q_flush`. */
    method FlushAll()
      requires Valid()
      modifies this, list, list.added`next, list.added`prev
      ensures list.added == old(list.added)
      ensures Valid() && View() == Step(old(View()), Flush)
      ensures Queue() == [] && |gone| == |old(gone)| + |old(Queue())| && gone[..|old(gone)|] == old(gone)
      ensures forall i :: 0 <= i < |old(Queue())| ==> gone[|old(gone)| + i] == Flushed(old(Queue())[i])
      ensures sent == old(sent) && unblocked == old(unblocked) && waiting == old(waiting) && woken == old(woken)
    {
      FlushLocked();
      labels := RunMore(labels, Flush);
    }

    /** The section of `msg_q_flush` under the mutex. */
    method FlushLocked()
      requires list.Valid()
      modifies `gone, list
      ensures list.Valid() && list.added == old(list.added)
      ensures View() == Step(old(View()), Flush)
    {
      gone := gone + FlushedAll(Queue());
      list.Flush();
    }

    /** `msg_q_unblock`: pthread_cond_broadcast wakes every waiting thread. */
    method UnblockAll() returns (err: ListError)
      requires Valid()
      modifies this
      ensures Valid() && View() == Step(old(View()), Unblock)
      ensures unblocked && sent == old(sent) && gone == old(gone) && Queue() == old(Queue())
      ensures !old(unblocked) ==> waiting == {} && woken == old(woken) + old(waiting)
      ensures err == if old(unblocked) then UnavailableResource else Success
    {
      if unblocked {
        labels := RunMore(labels, Unblock);
        return UnavailableResource;
      }
      unblocked := true;
      waiting, woken := {}, woken + waiting;
      err := Success;
      labels := RunMore(labels, Unblock);
    }
  }

  /** A queue from its creation through any interleaving: what the monitor does with these labels. */
  method Drive<M(==)>(ls: seq<Label<M>>) returns (q: MsgQ<M>)
    ensures fresh(q) && q.Valid() && q.View() == Run<M>(Init(), ls)
  {
    var err, made := MsgQ<M>.Create(true, true, true, true, true);
    q := made;
    for i := 0 to |ls|
      invariant fresh(q) && fresh(q.list) && fresh(q.list.added)
      invariant q.Valid() && q.View() == Run<M>(Init(), ls[..i])
    {
      assert ls[..i + 1][..i] == ls[..i];
      Perform(q, ls[i]);
    }
    assert ls[..|ls|] == ls;
  }

  /** One critical section or wakeup, if it can happen. */
  method Perform<M(==)>(q: MsgQ<M>, l: Label<M>)
    requires q.Valid()
    modifies q, q.list, q.list.added`next, q.list.added`prev
    ensures q.Valid() && fresh(q.list.added - old(q.list.added))
    ensures q.View() == if Enabled(old(q.View()), l) then Step(old(q.View()), l) else old(q.View())
  {
    match l {
      case Send(msg, mallocOk, wakes) =>
        if q.unblocked || (wakes <= q.waiting && (q.waiting != {} ==> wakes != {})) {
          var err := q.Snd(Some(msg), true, mallocOk, wakes);
        }
      case Enter(t) =>
        if t !in q.waiting && t !in q.woken {
          var r := q.RcvEnter(t, None, true);
        }
      case Resume(t) =>
        if t in q.woken {
          var r := q.RcvResume(t, None);
        }
      case Spurious(t) =>
        if t in q.waiting {
          q.SpuriousWakeup(t);
        }
      case Flush =>
        q.FlushAll();
      case Unblock =>
        var err := q.UnblockAll();
    }
  }

  /** A run with one label more. */
  ghost function RunMore<M>(ls: seq<Label<M>>, l: Label<M>): (more: seq<Label<M>>)
    ensures Run<M>(Init(), more) ==
      if Enabled(Run<M>(Init(), ls), l) then Step(Run<M>(Init(), ls), l) else Run<M>(Init(), ls)
  {
    assert (ls + [l])[..|ls|] == ls;
    ls + [l]
  }
}
