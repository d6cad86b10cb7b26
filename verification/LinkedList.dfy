/** The doubly linked heap list of gps/utils/linked_list.c, refined to a sequence. */
module LinkedList {
  import opened Common

  datatype ListError = Success | FailureGeneral | InvalidParameter | UnavailableResource

  /** `list_element`: `data` is the data pointer, `owned` says whether a dealloc function came with it. */
  class Element<T> {
    var next: Element?<T>
    var prev: Element?<T>
    const data: T
    const owned: bool

    constructor (data: T, owned: bool)
      ensures this.data == data && this.owned == owned
      ensures next == null && prev == null
    {
      this.data := data;
      this.owned := owned;
      next := null;
      prev := null;
    }
  }

  /** The data pointers of a row of elements. */
  ghost function Datas<T>(nodes: seq<Element<T>>): (s: seq<T>)
    ensures |s| == |nodes|
    ensures forall i :: 0 <= i < |nodes| ==> s[i] == nodes[i].data
  {
    seq(|nodes|, i requires 0 <= i < |nodes| => nodes[i].data)
  }

  lemma DatasRemove<T>(nodes: seq<Element<T>>, k: nat)
    requires k < |nodes|
    ensures Datas(nodes[..k] + nodes[k + 1..]) == Datas(nodes)[..k] + Datas(nodes)[k + 1..]
  {
  }

  ghost predicate NoRepeats<T>(nodes: seq<Element<T>>) {
    forall i, j :: 0 <= i < j < |nodes| ==> nodes[i] != nodes[j]
  }

  ghost function Elements<T>(nodes: seq<Element<T>>): set<Element<T>> {
    set e | e in nodes
  }

  /** The elements that come with a dealloc function, in order. */
  ghost function Owned<T>(nodes: seq<Element<T>>): seq<Element<T>> {
    if nodes == [] then []
    else
      var last := nodes[|nodes| - 1];
      Owned(nodes[..|nodes| - 1]) + (if last.owned then [last] else [])
  }

  lemma {:induction false} OwnedOnce<T>(nodes: seq<Element<T>>)
    requires NoRepeats(nodes)
    ensures NoRepeats(Owned(nodes))
    ensures forall e :: e in Owned(nodes) <==> e in nodes && e.owned
  {
    if nodes != [] {
      var k := |nodes| - 1;
      OwnedOnce(nodes[..k]);
      assert nodes == nodes[..k] + [nodes[k]];
      assert nodes[k] !in nodes[..k];
    }
  }

  /**
   * Where the data pointers of elements no longer listed have gone: handed out to a caller, deallocated, or
   * dropped for want of a dealloc function. `deallocated` has an entry for each call of a dealloc function.
   */
  datatype Account<T> = Account(handedOut: set<Element<T>>, deallocated: seq<Element<T>>, dropped: set<Element<T>>)

  /** Every element ever added is in exactly one place, and no dealloc function is called twice for it. */
  ghost predicate Settled<T>(added: set<Element<T>>, listed: set<Element<T>>, a: Account<T>) {
    var gone := Elements(a.deallocated);
    && listed !! a.handedOut !! gone !! a.dropped
    && added == listed + a.handedOut + gone + a.dropped
    && NoRepeats(a.deallocated)
    && (forall e :: e in a.deallocated ==> e.owned)
    && (forall e :: e in a.dropped ==> !e.owned)
  }

  /** A search that unlinks an element hands its data out if the caller takes it, and deallocates it if it can. */
  ghost function Unlisted<T>(a: Account<T>, elem: Element<T>, copyOut: bool): Account<T> {
    if copyOut then a.(handedOut := a.handedOut + {elem})
    else if elem.owned then a.(deallocated := a.deallocated + [elem])
    else a.(dropped := a.dropped + {elem})
  }

  /** A flush goes from the head on. */
  ghost function Flushed<T>(a: Account<T>, nodes: seq<Element<T>>): Account<T> {
    a.(deallocated := a.deallocated + Owned(nodes), dropped := a.dropped + set e | e in nodes && !e.owned)
  }

  lemma ListedAdded<T>(added: set<Element<T>>, nodes: seq<Element<T>>, a: Account<T>)
    requires Settled(added, Elements(nodes), a)
    ensures forall e :: e in nodes ==> e in added
  {
  }

  lemma UnlistedSettles<T>(added: set<Element<T>>, nodes: seq<Element<T>>, a: Account<T>, k: nat, copyOut: bool)
    requires NoRepeats(nodes) && k < |nodes| && Settled(added, Elements(nodes), a)
    ensures Settled(added, Elements(nodes[..k] + nodes[k + 1..]), Unlisted(a, nodes[k], copyOut))
  {
    var rest := nodes[..k] + nodes[k + 1..];
    assert Elements(nodes) == Elements(rest) + {nodes[k]};
    var b := Unlisted(a, nodes[k], copyOut);
    if !copyOut && nodes[k].owned {
      assert Elements(b.deallocated) == Elements(a.deallocated) + {nodes[k]};
    }
  }

  lemma FlushedSettles<T>(added: set<Element<T>>, nodes: seq<Element<T>>, a: Account<T>)
    requires NoRepeats(nodes) && Settled(added, Elements(nodes), a)
    ensures Settled(added, {}, Flushed(a, nodes))
  {
    OwnedOnce(nodes);
    var b := Flushed(a, nodes);
    assert Elements(b.deallocated) == Elements(a.deallocated) + set e | e in nodes && e.owned;
    forall i, j | 0 <= i < j < |b.deallocated| ensures b.deallocated[i] != b.deallocated[j] {
      if i < |a.deallocated| <= j {
        assert b.deallocated[i] in a.deallocated && b.deallocated[j] in nodes;
      }
    }
  }

  /** What the loop of `linked_list_flush` does with one element. */
  lemma FlushOne<T>(a: Account<T>, nodes: seq<Element<T>>, i: nat)
    requires i < |nodes|
    ensures Flushed(a, nodes[..i + 1]) == Unlisted(Flushed(a, nodes[..i]), nodes[i], false)
  {
    assert nodes[..i + 1] == nodes[..i] + [nodes[i]];
    assert nodes[..i + 1][..i] == nodes[..i];
  }

  lemma AddedSettles<T>(added: set<Element<T>>, nodes: seq<Element<T>>, a: Account<T>, elem: Element<T>)
    requires Settled(added, Elements(nodes), a) && elem !in added
    ensures Settled(added + {elem}, Elements([elem] + nodes), a)
  {
    assert Elements([elem] + nodes) == Elements(nodes) + {elem};
  }

  /** `list_state`, with the sequence of elements it stands for and an account of every element ever added. */
  class List<T(==)> {
    var head: Element?<T>
    var tail: Element?<T>

    ghost var Nodes: seq<Element<T>>
    ghost var added: set<Element<T>>
    ghost var account: Account<T>

    /** next and prev are inverse, head and tail are exact, and no element occurs twice. */
    ghost predicate WellLinked()
      reads `head, `tail, `Nodes, Nodes
    {
      && (Nodes == [] ==> head == null && tail == null)
      && (Nodes != [] ==>
            && head == Nodes[0] && tail == Nodes[|Nodes| - 1]
            && Nodes[0].prev == null && Nodes[|Nodes| - 1].next == null)
      && (forall i {:trigger Nodes[i].prev} :: 1 <= i < |Nodes| ==> Nodes[i].prev == Nodes[i - 1])
      && (forall i {:trigger Nodes[i].next} :: 0 <= i < |Nodes| - 1 ==> Nodes[i].next == Nodes[i + 1])
      && NoRepeats(Nodes)
    }

    /** Every element ever added, with its data pointer, is in exactly one place. */
    ghost predicate Accounted()
      reads `Nodes, `added, `account
    {
      Settled(added, Elements(Nodes), account)
    }

    ghost predicate Valid()
      reads this, Nodes
    {
      WellLinked() && Accounted()
    }

    /** The listed data pointers, head first. */
    ghost function Contents(): (s: seq<T>)
      reads `Nodes
      ensures |s| == |Nodes|
    {
      Datas(Nodes)
    }

    constructor ()
      ensures Valid() && Contents() == [] && Nodes == []
      ensures added == {} && account == Account({}, [], {})
    {
      head := null;
      tail := null;
      Nodes := [];
      added := {};
      account := Account({}, [], {});
    }

    /** `linked_list_init`; `hasOutput` is false when `list_data` is NULL, and `callocOk` when calloc fails. */
    static method Init(hasOutput: bool, callocOk: bool) returns (err: ListError, list: List?<T>)
      ensures err == if !hasOutput then InvalidParameter else if !callocOk then FailureGeneral else Success
      ensures list != null <==> err.Success?
      ensures list != null ==> fresh(list) && list.Valid() && list.Nodes == [] && list.added == {}
    {
      if !hasOutput {
        return InvalidParameter, null;
      }
      if !callocOk {
        return FailureGeneral, null;
      }
      list := new List();
      err := Success;
    }

    /** The pointer writes of `linked_list_add`. */
    method LinkHead(elem: Element<T>)
      requires WellLinked() && elem !in Nodes && elem.next == null && elem.prev == null
      modifies `head, `tail, `Nodes, Nodes`prev, elem`next, elem`prev
      ensures WellLinked() && Nodes == [elem] + old(Nodes)
      ensures Contents() == [elem.data] + old(Contents())
    {
      var tmp := head;
      head := elem;
      head.next := tmp;
      if tmp != null {
        tmp.prev := head;
      } else {
        tail := head;
      }
      Nodes := [elem] + Nodes;
    }

    /** The successful part of `linked_list_add`. */
    method Insert(data: T, owned: bool)
      requires Valid()
      modifies this, added`next, added`prev
      ensures Valid() && Nodes != [] && fresh(Nodes[0]) && Nodes == [Nodes[0]] + old(Nodes)
      ensures Nodes[0].data == data && Nodes[0].owned == owned
      ensures Contents() == [data] + old(Contents())
      ensures added == old(added) + {Nodes[0]}
      ensures account == old(account)
    {
      var elem := new Element(data, owned);
      AddedSettles(added, Nodes, account, elem);
      LinkHead(elem);
      added := added + {elem};
    }

    /** The pointer writes of `linked_list_remove`. */
    method UnlinkTail()
      requires WellLinked() && Nodes != []
      modifies `head, `tail, `Nodes, Nodes`next, Nodes`prev
      ensures WellLinked() && Nodes == old(Nodes)[..|old(Nodes)| - 1]
    {
      ghost var k := |Nodes| - 1;
      assert k >= 1 ==> Nodes[k].prev == Nodes[k - 1];
      tail := tail.prev;
      if tail != null {
        tail.next := null;
      } else {
        head := tail;
      }
      Nodes := Nodes[..k];
    }

    /** The pointer writes of the `rm_if_found` branch of `linked_list_search`. */
    method Unlink(elem: Element<T>, ghost k: nat)
      requires WellLinked() && k < |Nodes| && Nodes[k] == elem
      modifies `head, `tail, `Nodes, Nodes`next, Nodes`prev
      ensures WellLinked() && Nodes == old(Nodes)[..k] + old(Nodes)[k + 1..]
    {
      ghost var rest := Nodes[..k] + Nodes[k + 1..];
      assert NoRepeats(rest);
      assert k >= 1 ==> Nodes[k].prev == Nodes[k - 1] && Nodes[k - 1].next == elem;
      assert k < |Nodes| - 1 ==> Nodes[k].next == Nodes[k + 1] && Nodes[k + 1].prev == elem;
      if elem.prev == null {
        head := elem.next;
      } else {
        elem.prev.next := elem.next;
      }
      if elem.next == null {
        tail := elem.prev;
      } else {
        elem.next.prev := elem.prev;
      }
      elem.prev, elem.next := null, null;
      Nodes := rest;
    }

    /** `linked_list_add`; `mallocOk` is false when malloc fails. */
    method Add(data: Option<T>, owned: bool, mallocOk: bool) returns (err: ListError)
      requires Valid()
      modifies this, added`next, added`prev
      ensures Valid()
      ensures err == if data.None? then InvalidParameter else if !mallocOk then FailureGeneral else Success
      ensures err.Success? ==>
        && Nodes != [] && fresh(Nodes[0]) && Nodes == [Nodes[0]] + old(Nodes)
        && Nodes[0].data == data.value && Nodes[0].owned == owned
        && Contents() == [data.value] + old(Contents())
        && added == old(added) + {Nodes[0]}
      ensures !err.Success? ==> Nodes == old(Nodes) && added == old(added)
      ensures account == old(account)
    {
      if data.None? {
        err := InvalidParameter;
      } else if !mallocOk {
        err := FailureGeneral;
      } else {
        Insert(data.value, owned);
        err := Success;
      }
    }

    /**
     * `linked_list_remove`: hands out the tail, the oldest pointer; an empty list writes nothing. `hasOutput` is
     * false when `data_obj` is NULL.
     */
    method Remove(prior: Option<T>, hasOutput: bool) returns (err: ListError, data: Option<T>)
      requires Valid()
      modifies this, added`next, added`prev
      ensures Valid()
      ensures err == if !hasOutput then InvalidParameter else if old(Nodes) == [] then UnavailableResource else Success
      ensures !err.Success? ==> data == prior && Nodes == old(Nodes) && account == old(account)
      ensures err.Success? ==>
        var last := |old(Nodes)| - 1;
        && data == Some(old(Contents())[last])
        && Nodes == old(Nodes)[..last]
        && Contents() == old(Contents())[..last]
        && account == Unlisted(old(account), old(Nodes)[last], true)
        && old(Nodes)[last] in account.handedOut && account.deallocated == old(account).deallocated
      ensures added == old(added)
    {
      if !hasOutput {
        err, data := InvalidParameter, prior;
      } else if tail == null {
        err, data := UnavailableResource, prior;
      } else {
        err, data := Success, Some(tail.data);
        Extract();
      }
    }

    /** The successful part of `linked_list_remove`. */
    method Extract()
      requires Valid() && Nodes != []
      modifies this, added`next, added`prev
      ensures Valid() && Nodes == old(Nodes)[..|old(Nodes)| - 1]
      ensures Contents() == old(Contents())[..|old(Nodes)| - 1]
      ensures added == old(added) && account == Unlisted(old(account), old(Nodes)[|old(Nodes)| - 1], true)
    {
      ghost var k := |Nodes| - 1;
      ghost var last := Nodes[k];
      assert Nodes[..k] + Nodes[k + 1..] == Nodes[..k];
      UnlistedSettles(added, Nodes, account, k, true);
      UnlinkTail();
      account := Unlisted(account, last, true);
    }

    /** `linked_list_empty`. */
    method Empty() returns (empty: bool)
      requires Valid()
      ensures empty <==> Contents() == []
    {
      empty := head == null;
    }

    /** `linked_list_flush`: from the head on, deallocates what it may and drops the rest. */
    method Flush()
      requires Valid()
      modifies this
      ensures Valid() && Contents() == [] && Nodes == []
      ensures account == Flushed(old(account), old(Nodes)) && account.handedOut == old(account).handedOut
      ensures forall e :: e in account.deallocated <==> e in old(account).deallocated || (e in old(Nodes) && e.owned)
      ensures added == old(added)
    {
      FlushedSettles(added, Nodes, account);
      OwnedOnce(Nodes);
      ghost var i := 0;
      while head != null
        invariant 0 <= i <= |Nodes|
        invariant head == if i < |Nodes| then Nodes[i] else null
        invariant account == Flushed(old(account), Nodes[..i])
        invariant added == old(added) && Nodes == old(Nodes)
        decreases |Nodes| - i
      {
        var tmp := head.next;
        FlushOne(old(account), Nodes, i);
        if head.owned {
          account := account.(deallocated := account.deallocated + [head]);
        } else {
          account := account.(dropped := account.dropped + {head});
        }
        head := tmp;
        i := i + 1;
      }
      assert Nodes[..i] == Nodes;
      tail := null;
      Nodes := [];
    }

    /**
     * `linked_list_search`. `equal` is called on the elements from the head up to the first it accepts, at
     * index `k`; `visited` lists the pointers it was called on. `copyOut` is false when `data_p` is NULL.
     */
    method Search(prior: Option<T>, equal: T ~> bool, copyOut: bool, remove: bool)
      returns (err: ListError, data: Option<T>, visited: seq<T>, ghost k: nat)
      requires Valid()
      requires forall i :: 0 <= i < |Nodes| ==> equal.requires(Nodes[i].data)
      modifies this, added`next, added`prev
      ensures Valid()
      ensures k <= |old(Nodes)|
      ensures forall i :: 0 <= i < k ==> !old(equal(Nodes[i].data))
      ensures k < |old(Nodes)| ==> old(equal(Nodes[k].data))
      ensures visited == Visited(old(Contents()), k)
      ensures err == if old(Contents()) == [] then UnavailableResource else Success
      ensures data == Found(old(Contents()), k, copyOut, prior)
      ensures added == old(added)
      ensures !remove || k == |old(Nodes)| ==> unchanged(this) && unchanged(Nodes)
      ensures remove && k < |old(Nodes)| ==>
        && Nodes == old(Nodes)[..k] + old(Nodes)[k + 1..]
        && Contents() == old(Contents())[..k] + old(Contents())[k + 1..]
        && account == Unlisted(old(account), old(Nodes)[k], copyOut)
        && account.handedOut == old(account).handedOut + (if copyOut then {old(Nodes)[k]} else {})
        && account.deallocated ==
             old(account).deallocated + (if !copyOut && old(Nodes)[k].owned then [old(Nodes)[k]] else [])
    {
      var tmp;
      err, data, visited, tmp, k := Scan(prior, equal, copyOut);
      if tmp != null && remove {
        Delete(tmp, copyOut, k);
      }
    }

    /**
     * The loop of `linked_list_search`, and all of it when `rm_if_found` is false: changes nothing. `elem` is the
     * element the callback accepted.
     */
    method Scan(prior: Option<T>, equal: T ~> bool, copyOut: bool)
      returns (err: ListError, data: Option<T>, visited: seq<T>, elem: Element?<T>, ghost k: nat)
      requires WellLinked()
      requires forall i :: 0 <= i < |Nodes| ==> equal.requires(Nodes[i].data)
      ensures k <= |Nodes| && elem == if k < |Nodes| then Nodes[k] else null
      ensures forall i :: 0 <= i < k ==> !equal(Nodes[i].data)
      ensures k < |Nodes| ==> equal(Nodes[k].data)
      ensures visited == Visited(Contents(), k)
      ensures err == if Contents() == [] then UnavailableResource else Success
      ensures data == Found(Contents(), k, copyOut, prior)
    {
      data, visited, elem, k := prior, [], null, 0;
      if tail == null {
        return UnavailableResource, data, visited, elem, k;
      }
      elem := head;
      if copyOut {
        data := None;
      }
      while elem != null
        invariant k <= |Nodes|
        invariant elem == if k < |Nodes| then Nodes[k] else null
        invariant forall i :: 0 <= i < k ==> !equal(Nodes[i].data)
        invariant visited == Contents()[..k]
        invariant data == if copyOut then None else prior
        decreases |Nodes| - k
      {
        visited := visited + [elem.data];
        if equal(elem.data) {
          if copyOut {
            data := Some(elem.data);
          }
          break;
        }
        elem := elem.next;
        k := k + 1;
      }
      err := Success;
    }

    /** The callback runs on everything up to and including the first match. */
    static function Visited(c: seq<T>, k: nat): seq<T> {
      if k < |c| then c[..k + 1] else c
    }

    /** What `*data_p` holds after a search; an empty list leaves it as it was. */
    static function Found(c: seq<T>, k: nat, copyOut: bool, prior: Option<T>): Option<T> {
      if c == [] || !copyOut then prior else if k < |c| then Some(c[k]) else None
    }

    /** Where the data pointer of an unlinked element goes. */
    method GiveAway(elem: Element<T>, copyOut: bool)
      modifies `account
      ensures account == Unlisted(old(account), elem, copyOut)
      ensures account.handedOut == old(account).handedOut + (if copyOut then {elem} else {})
      ensures account.deallocated == old(account).deallocated + (if !copyOut && elem.owned then [elem] else [])
      ensures account.dropped == old(account).dropped + (if !copyOut && !elem.owned then {elem} else {})
    {
      if !copyOut {
        if elem.owned {
          account := account.(deallocated := account.deallocated + [elem]);
        } else {
          account := account.(dropped := account.dropped + {elem});
        }
      } else {
        account := account.(handedOut := account.handedOut + {elem});
      }
    }

    /** The `rm_if_found` branch of `linked_list_search`. */
    method Delete(elem: Element<T>, copyOut: bool, ghost k: nat)
      requires Valid() && k < |Nodes| && Nodes[k] == elem
      modifies this, added`next, added`prev
      ensures Valid() && Nodes == old(Nodes)[..k] + old(Nodes)[k + 1..]
      ensures Contents() == old(Contents())[..k] + old(Contents())[k + 1..]
      ensures added == old(added)
      ensures account == Unlisted(old(account), elem, copyOut)
      ensures account.handedOut == old(account).handedOut + (if copyOut then {elem} else {})
      ensures account.deallocated == old(account).deallocated + (if !copyOut && elem.owned then [elem] else [])
      ensures account.dropped == old(account).dropped + (if !copyOut && !elem.owned then {elem} else {})
    {
      ListedAdded(added, Nodes, account);
      hide Settled, Unlisted;
      DatasRemove(Nodes, k);
      UnlistedSettles(added, Nodes, account, k, copyOut);
      Unlink(elem, k);
      GiveAway(elem, copyOut);
    }
  }
}
