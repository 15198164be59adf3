/**
 * The queue of src/Queue.c: a circular doubly linked list threaded through nodes that the callers own, with
 * the queue's own head as the node before the first and after the last.
 */
module IntrusiveQueue {
  import opened Common

  class QueueEntry {
    var prev: QueueEntry?
    var next: QueueEntry?
    const owner: nat
    /** The queue the entry is in, if any. */
    ghost var home: Queue?

    /** QueueEntryInit */
    constructor (owner: nat)
      ensures this.owner == owner && Unlinked() && home == null
    {
      this.owner := owner;
      home := null;
      prev := null;
      next := null;
    }

    predicate Unlinked()
      reads this
    {
      prev == null && next == null
    }
  }

  class Queue {
    const head: QueueEntry
    var length: nat
    /** The linked entries, first to last. */
    ghost var entries: seq<QueueEntry>

    /** QueueInit */
    constructor ()
      ensures Valid() && Empty() && fresh(head)
    {
      head := new QueueEntry(0);
      length := 0;
      entries := [];
      new;
      head.prev := head;
      head.next := head;
    }

    ghost function Repr(): set<object>
      reads this
    {
      {this, head} + set e | e in entries
    }

    /** The nodes es in this order form a ring with the head. */
    ghost predicate Ring(es: seq<QueueEntry>)
      reads head, es
    {
      NextUpTo(es, -1) && PrevUpTo(es, -1)
    }

    /** The next links of the ring of es are right, but for those of places gap and gap + 1. */
    ghost predicate NextUpTo(es: seq<QueueEntry>, gap: int)
      reads head, es
    {
      forall i {:trigger NodeAt(this, es, i).next} :: 0 <= i <= |es| && (gap < 0 || (i != gap && i != gap + 1)) ==>
        NodeAt(this, es, i).next == NodeAt(this, es, i + 1)
    }

    /** The prev links of the ring of es are right, but for those of places gap + 1 and gap + 2. */
    ghost predicate PrevUpTo(es: seq<QueueEntry>, gap: int)
      reads head, es
    {
      forall i {:trigger NodeAt(this, es, i).prev} :: 1 <= i <= |es| + 1 && (gap < 0 || (i != gap + 1 && i != gap + 2)) ==>
        NodeAt(this, es, i).prev == NodeAt(this, es, i - 1)
    }

    ghost predicate Valid()
      reads Repr()
    {
      && head !in entries && Unique(entries) && length == |entries| && Ring(entries)
      && (forall e :: e in entries ==> e.home == this)
    }

    /** As QueueInit leaves it. */
    ghost predicate Empty()
      reads this, head
    {
      entries == [] && length == 0 && head.prev == head.next == head
    }

    lemma EmptyIsValid()
      requires Empty()
      ensures Valid() && entries == []
    {
    }

    /** The queue as the rest of the kernel uses it: the owners, first to last. */
    ghost function Contents(): seq<nat>
      reads this
    {
      OwnersOf(entries)
    }

    /** The nodes of the ring are different ones, but for the head at both ends. */
    lemma Distinct(i: int, j: int)
      requires head !in entries && Unique(entries) && 0 <= i < j <= |entries| + 1 && (i, j) != (0, |entries| + 1)
      ensures NodeAt(this, entries, i) != NodeAt(this, entries, j)
    {
    }

    /** A linked entry has neither link null. */
    lemma LinkedEntry(k: nat)
      requires Valid() && k < |entries|
      ensures entries[k].next == NodeAt(this, entries, k + 2) && NodeAt(this, entries, k + 2).prev == entries[k]
      ensures entries[k].prev == NodeAt(this, entries, k) && NodeAt(this, entries, k).next == entries[k]
      ensures !entries[k].Unlinked()
    {
      assert NodeAt(this, entries, k + 1) == entries[k];
    }

    lemma EntriesLinked()
      requires Valid()
      ensures forall e :: e in entries ==> e.prev != null && e.next != null
    {
      forall e | e in entries ensures e.prev != null && e.next != null {
        var k :| 0 <= k < |entries| && entries[k] == e;
        LinkedEntry(k);
      }
    }

    /** Taking the node between gap and gap + 2 out leaves a ring. */
    lemma RingWithout(es: seq<QueueEntry>, gap: nat)
      requires gap < |es| && NextUpTo(es, gap) && PrevUpTo(es, gap)
      requires NodeAt(this, es, gap).next == NodeAt(this, es, gap + 2) && NodeAt(this, es, gap + 2).prev == NodeAt(this, es, gap)
      ensures Ring(RemoveAt(es, gap))
    {
      var es' := RemoveAt(es, gap);
      forall i | 0 <= i <= |es'| ensures NodeAt(this, es', i).next == NodeAt(this, es', i + 1) {
        var j := if i <= gap then i else i + 1;
        assert NodeAt(this, es', i) == NodeAt(this, es, j);
        assert NodeAt(this, es', i + 1) == NodeAt(this, es, if i < gap then i + 1 else i + 2);
        assert i != gap ==> NodeAt(this, es, j).next == NodeAt(this, es, j + 1);
      }
      forall i | 1 <= i <= |es'| + 1 ensures NodeAt(this, es', i).prev == NodeAt(this, es', i - 1) {
        var j := if i <= gap then i else i + 1;
        assert NodeAt(this, es', i) == NodeAt(this, es, j);
        assert NodeAt(this, es', i - 1) == NodeAt(this, es, if i <= gap + 1 then i - 1 else i);
        assert i != gap + 1 ==> NodeAt(this, es, j).prev == NodeAt(this, es, j - 1);
      }
    }

    /** QueueIsEmpty */
    method IsEmpty() returns (empty: bool)
      requires Valid()
      ensures empty <==> entries == []
    {
      empty := length == 0;
    }

    /** QueuePushBack */
    method PushBack(e: QueueEntry)
      requires Valid() && e !in Repr()
      modifies this, head, e, if entries == [] then head else entries[|entries| - 1]
      ensures Valid() && entries == old(entries) + [e] && !e.Unlinked()
      ensures Contents() == old(Contents()) + [e.owner]
    {
      ghost var n, es := |entries|, entries;
      ghost var last := NodeAt(this, es, n);
      assert NodeAt(this, es, n + 1) == head;
      assert head.prev == last && last.next == head;
      forall i | 0 <= i < n ensures NodeAt(this, es, i) != last {
        Distinct(i, n);
      }
      e.prev := head.prev;
      e.next := head;
      head.prev.next := e;
      head.prev := e;
      e.home := this;
      length := length + 1;
      entries := entries + [e];
      assert forall i :: 0 <= i <= n ==> NodeAt(this, entries, i) == NodeAt(this, es, i);
      assert NodeAt(this, entries, n + 1) == e && NodeAt(this, entries, n + 2) == head;
      assert forall i {:trigger NodeAt(this, es, i).next} :: 0 <= i < n ==> NodeAt(this, es, i).next == NodeAt(this, es, i + 1);
      assert forall i {:trigger NodeAt(this, es, i).prev} :: 1 <= i <= n ==> NodeAt(this, es, i).prev == NodeAt(this, es, i - 1);
    }

    /** The four assignments of QueueRemove take entry k out of the ring. */
    method Unlink(e: QueueEntry, ghost k: nat)
      requires Valid() && k < |entries| && entries[k] == e && e.prev != null && e.next != null
      modifies Repr()
      ensures Valid() && e.Unlinked() && e.home == null && entries == RemoveAt(old(entries), k)
      ensures forall x :: x in entries ==> x in old(entries)
      ensures forall x :: x in old(entries) && x != e ==> x in entries
    {
      LinkedEntry(k);
      ghost var n, es := |entries|, entries;
      ghost var before, after := NodeAt(this, es, k), NodeAt(this, es, k + 2);
      Distinct(k, k + 1);
      Distinct(k + 1, k + 2);
      forall i | 0 <= i <= n && i != k && i != k + 1 ensures NodeAt(this, es, i) != before && NodeAt(this, es, i) != e {
        if i < k { Distinct(i, k); Distinct(i, k + 1); } else { Distinct(k, i); Distinct(k + 1, i); }
      }
      forall i | 1 <= i <= n + 1 && i != k + 1 && i != k + 2 ensures NodeAt(this, es, i) != after && NodeAt(this, es, i) != e {
        if i < k + 1 { Distinct(i, k + 2); Distinct(i, k + 1); } else { Distinct(k + 2, i); Distinct(k + 1, i); }
      }
      e.prev.next := e.next;
      e.next.prev := e.prev;
      e.prev := null;
      e.next := null;
      e.home := null;
      length := length - 1;
      RingWithout(es, k);
      RemovedUnique<QueueEntry>(es, k);
      entries := RemoveAt(es, k);
    }

    /** QueueRemove: an entry that is in no queue stays so. */
    method Remove(e: QueueEntry)
      requires Valid() && (e in entries || e.Unlinked())
      modifies Repr()
      ensures Valid() && e.Unlinked() && (e in old(entries) ==> e.home == null)
      ensures forall x :: x in entries ==> x in old(entries)
      ensures forall x :: x in old(entries) && x != e ==> x in entries
      ensures entries == if e in old(entries) then Without<QueueEntry>(old(entries), e) else old(entries)
    {
      if e in entries {
        ghost var k :| 0 <= k < |entries| && entries[k] == e;
        LinkedEntry(k);
        WithoutAt<QueueEntry>(entries, k);
      }
      if e.prev == null || e.next == null {
        return;
      }
      ghost var k :| 0 <= k < |entries| && entries[k] == e;
      Unlink(e, k);
    }

    /** QueuePopFront */
    method PopFront() returns (e: QueueEntry?)
      requires Valid()
      modifies Repr()
      ensures Valid()
      ensures old(entries) == [] ==> e == null && entries == []
      ensures old(entries) != [] ==>
        e == old(entries)[0] && e.Unlinked() && e.home == null && entries == old(entries)[1..]
        && e.owner == old(Contents())[0] && Contents() == old(Contents())[1..]
    {
      var empty := IsEmpty();
      if empty {
        return null;
      }
      LinkedEntry(0);
      e := head.next;
      Remove(e);
    }
  }

  /** Place i of the ring of queue q as it was when its entries were es. */
  ghost function NodeAt(q: Queue, es: seq<QueueEntry>, i: int): QueueEntry {
    if 1 <= i <= |es| then es[i - 1] else q.head
  }

  ghost function OwnersOf(es: seq<QueueEntry>): seq<nat> {
    seq(|es|, i requires 0 <= i < |es| => es[i].owner)
  }

  lemma RemovedUnique<T>(s: seq<T>, k: nat)
    requires Unique(s) && k < |s|
    ensures Unique(RemoveAt(s, k)) && s[k] !in RemoveAt(s, k)
    ensures forall x :: x in RemoveAt(s, k) ==> x in s
    ensures forall x :: x in s && x != s[k] ==> x in RemoveAt(s, k)
  {
    var r := RemoveAt(s, k);
    assert forall i :: 0 <= i < k ==> r[i] == s[i];
    assert forall i :: k <= i < |r| ==> r[i] == s[i + 1];
    forall x | x in s && x != s[k] ensures x in r {
      var j :| 0 <= j < |s| && s[j] == x;
      assert j < k ==> r[j] == x;
      assert j > k ==> r[j - 1] == x;
    }
  }

  // ---------- all the queues of the kernel at once ----------

  ghost function Heads(queues: set<Queue>): set<QueueEntry> {
    set q <- queues :: q.head
  }

  /**
   * The queues share nothing, and the links of any of the callers' nodes are null exactly when it is in none of them.
   */
  ghost predicate Consistent(queues: set<Queue>, nodes: set<QueueEntry>)
    reads queues, Heads(queues), nodes
  {
    && (forall q, e :: q in queues && e in q.entries ==> e in nodes)
    && (forall q :: q in queues ==> q.Valid() && q.head !in nodes)
    && (forall q, r :: q in queues && r in queues && q != r ==> q.head != r.head)
    && (forall e :: e in nodes ==> (e.Unlinked() <==> e.home == null))
    && (forall e :: e in nodes && e.home != null ==> e.home in queues && e in e.home.entries)
  }

  /** Null links mean that the node is in no queue; set links, that it is in exactly one. */
  lemma NullLinksMeanUnqueued(queues: set<Queue>, nodes: set<QueueEntry>, e: QueueEntry)
    requires Consistent(queues, nodes) && e in nodes
    ensures e.Unlinked() <==> forall q :: q in queues ==> e !in q.entries
    ensures forall q, r :: q in queues && r in queues && e in q.entries && e in r.entries ==> q == r
  {
    if !e.Unlinked() {
      assert e.home in queues && e in e.home.entries;
    }
  }

  /** A node whose links are null can be pushed on any queue, and no other queue notices. */
  method PushOn(q: Queue, e: QueueEntry, ghost queues: set<Queue>, ghost nodes: set<QueueEntry>)
    requires Consistent(queues, nodes) && q in queues && e in nodes && e.Unlinked()
    modifies q, q.Repr(), e
    ensures Consistent(queues, nodes)
    ensures q.entries == old(q.entries) + [e] && q.Contents() == old(q.Contents()) + [e.owner]
    ensures forall r :: r in queues && r != q ==> r.entries == old(r.entries) && r.Contents() == old(r.Contents())
  {
    NothingShared(q, queues, nodes);
    assert forall r :: r in queues ==> e !in r.entries;
    q.PushBack(e);
    assert forall r :: r in queues && r != q ==> r.entries == old(r.entries);
    q.EntriesLinked();
  }

  lemma NothingShared(q: Queue, queues: set<Queue>, nodes: set<QueueEntry>)
    requires Consistent(queues, nodes) && q in queues
    ensures forall r :: r in queues && r != q ==> r.Repr() !! q.Repr()
  {
    forall r | r in queues && r != q ensures r.Repr() !! q.Repr() {
      forall e | e in r.entries ensures e !in q.entries {
        assert e.home == r;
      }
    }
  }

  /** QueueRemove called with the queue the node is in, wherever it stands in it. */
  method RemoveFrom(q: Queue, e: QueueEntry, ghost queues: set<Queue>, ghost nodes: set<QueueEntry>)
    requires Consistent(queues, nodes) && q in queues && e in q.entries
    modifies q.Repr()
    ensures Consistent(queues, nodes) && e.Unlinked() && q.entries == Without<QueueEntry>(old(q.entries), e)
    ensures Unique(old(q.Contents())) ==> q.Contents() == Without(old(q.Contents()), e.owner)
    ensures forall r :: r in queues && r != q ==> r.entries == old(r.entries) && r.Contents() == old(r.Contents())
  {
    ghost var was := q.entries;
    NothingShared(q, queues, nodes);
    q.Remove(e);
    q.EntriesLinked();
    assert forall r :: r in queues && r != q ==> r.entries == old(r.entries);
    if Unique(OwnersOf(was)) {
      OwnersOfWithout(was, e);
    }
  }

  /** QueuePopFront of one of many queues. */
  method PopFrom(q: Queue, ghost queues: set<Queue>, ghost nodes: set<QueueEntry>) returns (e: QueueEntry?)
    requires Consistent(queues, nodes) && q in queues
    modifies q.Repr()
    ensures Consistent(queues, nodes)
    ensures old(q.entries) == [] ==> e == null && q.entries == []
    ensures old(q.entries) != [] ==> e == old(q.entries)[0] && q.entries == old(q.entries)[1..]
    ensures forall r :: r in queues && r != q ==> r.entries == old(r.entries)
  {
    NothingShared(q, queues, nodes);
    ghost var was := q.entries;
    q.EntriesLinked();
    e := q.PopFront();
    assert was != [] ==> forall x :: x in was <==> x == was[0] || x in was[1..];
    assert forall r :: r in queues && r != q ==> r.entries == old(r.entries);
    q.EntriesLinked();
  }

  /** A node that is in no queue can come and go. */
  lemma OneMoreNode(queues: set<Queue>, nodes: set<QueueEntry>, e: QueueEntry)
    requires Consistent(queues, nodes) && e.Unlinked() && e.home == null && e !in Heads(queues)
    ensures Consistent(queues, nodes + {e})
  {
    forall q | q in queues ensures q.head != e {
      assert q.head in Heads(queues);
    }
  }

  lemma OneNodeLess(queues: set<Queue>, nodes: set<QueueEntry>, e: QueueEntry)
    requires Consistent(queues, nodes) && forall q :: q in queues ==> e !in q.entries
    ensures Consistent(queues, nodes - {e})
  {
  }

  /** Queues that are new and empty, and nodes that are new. */
  lemma AllNew(queues: set<Queue>, nodes: set<QueueEntry>)
    requires forall q :: q in queues ==> q.Valid() && q.entries == [] && q.head !in nodes
    requires forall q, r :: q in queues && r in queues && q != r ==> q.head != r.head
    requires forall e :: e in nodes ==> e.Unlinked() && e.home == null
    ensures Consistent(queues, nodes)
  {
  }

  lemma {:induction false} OwnersOfWithout(es: seq<QueueEntry>, e: QueueEntry)
    requires e in es && Unique(OwnersOf(es))
    ensures OwnersOf(Without<QueueEntry>(es, e)) == Without(OwnersOf(es), e.owner)
  {
    var os := OwnersOf(es);
    assert os[0] == es[0].owner && os[1..] == OwnersOf(es[1..]);
    if es[0] != e {
      var k :| 0 <= k < |es| && es[k] == e;
      assert os[k] == e.owner && e in es[1..];
      assert forall i :: 0 <= i < |es| - 1 ==> os[1..][i] == os[i + 1];
      OwnersOfWithout(es[1..], e);
    }
  }
}
