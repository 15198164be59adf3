/**
 * All the queues processes are linked in, as the pointer structure of src/Queue.c: the ready queue and the wait
 * queues, and of every PCB the entry for the one and the entry for the others. Towards the rest of the kernel they
 * are sequences of pids.
 */
module KernelQueues {
  import opened Common
  import opened KernelState
  import opened IntrusiveQueue

  /** The entries es are those of the processes pids, in this order. */
  ghost predicate ListedAs(es: seq<QueueEntry>, entry: map<Pid, QueueEntry>, pids: seq<Pid>) {
    |pids| == |es| && forall i :: 0 <= i < |pids| ==> pids[i] in entry && entry[pids[i]] == es[i]
  }

  /** The entry of each process is its own. */
  ghost predicate Owned(entry: map<Pid, QueueEntry>) {
    forall p :: p in entry ==> entry[p].owner == p
  }

  /** Every process has two entries of its own. */
  ghost predicate Paired(readyEntry: map<Pid, QueueEntry>, blockEntry: map<Pid, QueueEntry>) {
    && readyEntry.Keys == blockEntry.Keys && Owned(readyEntry) && Owned(blockEntry)
    && forall p, r :: p in readyEntry && r in blockEntry ==> readyEntry[p] != blockEntry[r]
  }

  class Queues {
    const ready: Queue
    const waits: map<QueueId, Queue>
    /** ready_entry and block_entry of every PCB. */
    var readyEntry: map<Pid, QueueEntry>
    var blockEntry: map<Pid, QueueEntry>
    /** What the queues come to, and what they are made of. */
    ghost var readyPids: seq<Pid>
    ghost var waitPids: map<QueueId, seq<Pid>>
    ghost var Repr: set<object>

    /** QueueInit of every queue; the processes there are so far get their entries. */
    constructor (ids: set<QueueId>, pids: set<Pid>)
      ensures Valid() && waits.Keys == ids && readyEntry.Keys == pids && fresh(Repr)
      ensures readyPids == [] && waitPids.Keys == ids && forall q :: q in ids ==> waitPids[q] == []
    {
      hide Consistent, ListedAs, Paired;
      ghost var os;
      var r, w, es, fs;
      r, w, es, fs, os := MakeAll(ids, pids);
      ready, waits, readyEntry, blockEntry := r, w, es, fs;
      readyPids, waitPids := [], map q | q in ids :: [];
      Repr := os;
      new;
      NothingListed(readyEntry);
      NothingListed(blockEntry);
    }

    ghost function All(): set<Queue> {
      {ready} + waits.Values
    }

    ghost function Nodes(): set<QueueEntry>
      reads this`readyEntry, this`blockEntry
    {
      readyEntry.Values + blockEntry.Values
    }

    /** No two queues are the same, and no two entries. */
    ghost predicate Named()
      reads this`readyEntry, this`blockEntry
    {
      && ready !in waits.Values && (forall q, r :: q in waits && r in waits && q != r ==> waits[q] != waits[r])
      && Paired(readyEntry, blockEntry)
    }

    /** Each queue links entries of its kind, and they are those of the sequence. */
    ghost predicate Listed()
      reads this, All()
    {
      && ListedAs(ready.entries, readyEntry, readyPids)
      && waitPids.Keys == waits.Keys && forall q :: q in waits ==> ListedAs(waits[q].entries, blockEntry, waitPids[q])
    }

    ghost predicate Valid()
      reads this, Repr
    {
      && Held() && Named() && Consistent(All(), Nodes()) && Listed()
    }

    /** Repr has all the queues and entries. */
    ghost predicate Held()
      reads this`Repr, this`readyEntry, this`blockEntry
    {
      All() <= Repr && Heads(All()) <= Repr && Nodes() <= Repr && this !in Repr
    }

    /** One wait queue has changed; `waitPids` follows. */
    ghost method Relist(q: QueueId, pids: seq<Pid>)
      requires Named() && Held() && Consistent(All(), Nodes()) && ListedAs(ready.entries, readyEntry, readyPids)
      requires waitPids.Keys == waits.Keys && q in waits && ListedAs(waits[q].entries, blockEntry, pids)
      requires forall r :: r in waits && r != q ==> ListedAs(waits[r].entries, blockEntry, waitPids[r])
      modifies this`waitPids
      ensures Valid() && waitPids == old(waitPids)[q := pids]
    {
      hide Consistent, Named, ListedAs;
      waitPids := waitPids[q := pids];
    }

    lemma Footprint(q: Queue)
      requires Valid() && q in All()
      ensures this !in Repr && q in Repr && q.head in Repr && q.Repr() <= Repr && forall e :: e in Nodes() ==> e in Repr
    {
      assert q.head in Heads(All());
    }

    lemma EntriesOf(p: Pid)
      requires Named() && p in readyEntry
      ensures p in blockEntry && readyEntry[p] in Nodes() && blockEntry[p] in Nodes()
      ensures Owned(readyEntry) && Owned(blockEntry)
    {
    }

    lemma Different()
      requires Named()
      ensures ready in All() && forall q :: q in waits ==> waits[q] in All() && waits[q] != ready
      ensures forall q, r :: q in waits && r in waits && q != r ==> waits[q] != waits[r]
    {
    }

    /** The test of src/process.c:216: the links of a ready entry are null exactly if its process is not in the ready queue. */
    lemma ReadyLinked(p: Pid)
      requires Valid() && p in readyEntry
      ensures readyEntry[p].Unlinked() <==> p !in readyPids
      ensures readyEntry[p] in ready.entries <==> p in readyPids
    {
      hide Consistent;
      EntriesOf(p);
      NullLinksMeanUnqueued(All(), Nodes(), readyEntry[p]);
      LinkedIff(ready.entries, readyEntry, readyPids, p);
      forall q | q in waits ensures readyEntry[p] !in waits[q].entries {
        assert ListedAs(waits[q].entries, blockEntry, waitPids[q]);
      }
    }

    /** The test of src/process.c:351: the links of a block entry are null exactly if its process is in no wait queue. */
    lemma BlockLinked(p: Pid)
      requires Valid() && p in readyEntry
      ensures blockEntry[p].Unlinked() <==> forall q :: q in waits ==> p !in waitPids[q]
      ensures forall q :: q in waits ==> (blockEntry[p] in waits[q].entries <==> p in waitPids[q])
    {
      hide Consistent;
      EntriesOf(p);
      Different();
      NullLinksMeanUnqueued(All(), Nodes(), blockEntry[p]);
      forall q | q in waits ensures blockEntry[p] in waits[q].entries <==> p in waitPids[q] {
        assert ListedAs(waits[q].entries, blockEntry, waitPids[q]);
        LinkedIff(waits[q].entries, blockEntry, waitPids[q], p);
      }
    }

    // ---------- the ready queue ----------

    /** The end of ProcessMakeReady: only an entry whose links are null is pushed. */
    method MakeReady(p: Pid)
      requires Valid() && p in readyEntry
      modifies this`readyPids, Repr
      ensures Valid() && readyPids == if p in old(readyPids) then old(readyPids) else old(readyPids) + [p]
      ensures Repr == old(Repr) && readyEntry == old(readyEntry) && waitPids == old(waitPids)
    {
      hide Consistent, Named, ListedAs, Owned, Paired;
      var e := readyEntry[p];
      EntriesOf(p);
      Different();
      ReadyLinked(p);
      Footprint(ready);
      if e.prev == null && e.next == null {
        ghost var was := ready.entries;
        PushOn(ready, e, All(), Nodes());
        ListedPush(was, readyEntry, readyPids, p);
        readyPids := readyPids + [p];
      }
    }

    /** ProcessNextReady */
    method NextReady() returns (p: Option<Pid>)
      requires Valid()
      modifies this`readyPids, Repr
      ensures Valid()
      ensures old(readyPids) == [] ==> p == None && readyPids == []
      ensures old(readyPids) != [] ==> p == Some(old(readyPids)[0]) && p.value in readyEntry && readyPids == old(readyPids)[1..]
      ensures Repr == old(Repr) && readyEntry == old(readyEntry) && waitPids == old(waitPids)
    {
      hide Consistent, Named, ListedAs;
      Different();
      Footprint(ready);
      ghost var was := ready.entries;
      ListedPop(was, readyEntry, readyPids);
      OwnedAll();
      var e := PopFrom(ready, All(), Nodes());
      if e == null {
        return None;
      }
      readyPids := readyPids[1..];
      p := Some(e.owner);
    }

    /** What ProcessDestroy does to the ready queue. */
    method Unready(p: Pid)
      requires Valid() && p in readyEntry
      modifies this`readyPids, Repr
      ensures Valid() && readyPids == Without(old(readyPids), p)
      ensures Repr == old(Repr) && readyEntry == old(readyEntry) && waitPids == old(waitPids)
    {
      hide Consistent, Named, ListedAs, Owned, Paired;
      var e := readyEntry[p];
      EntriesOf(p);
      Different();
      ReadyLinked(p);
      Footprint(ready);
      if e.prev != null {
        ghost var was := ready.entries;
        LinkedIsIn(ready, p);
        ListedWithout(was, readyEntry, readyPids, p);
        RemoveFrom(ready, e, All(), Nodes());
        readyPids := Without(readyPids, p);
      } else {
        BothOrNone(ready, p);
        WithoutAbsent(readyPids, p);
      }
    }

    // ---------- the wait queues ----------

    method IsEmpty(q: QueueId) returns (empty: bool)
      requires Valid() && q in waits
      ensures empty <==> waitPids[q] == []
    {
      empty := waits[q].IsEmpty();
    }

    /** QueuePushBack of a block entry. */
    method Block(q: QueueId, p: Pid)
      requires Valid() && q in waits && p in readyEntry && forall r :: r in waits ==> p !in waitPids[r]
      modifies this`waitPids, Repr
      ensures Valid() && waitPids == old(waitPids)[q := old(waitPids[q]) + [p]]
      ensures Repr == old(Repr) && readyEntry == old(readyEntry) && readyPids == old(readyPids)
    {
      hide Consistent, Named, ListedAs, Owned, Paired, Held;
      EntriesOf(p);
      var e := blockEntry[p];
      Different();
      BlockLinked(p);
      Footprint(waits[q]);
      ghost var was := waits[q].entries;
      PushOn(waits[q], e, All(), Nodes());
      ListedPush(was, blockEntry, waitPids[q], p);
      Relist(q, waitPids[q] + [p]);
    }

    /** QueuePopFront of a wait queue. */
    method Wake(q: QueueId) returns (p: Option<Pid>)
      requires Valid() && q in waits
      modifies this`waitPids, Repr
      ensures Valid()
      ensures old(waitPids[q]) == [] ==> p == None && waitPids == old(waitPids)
      ensures old(waitPids[q]) != [] ==>
        p == Some(old(waitPids[q])[0]) && p.value in readyEntry && waitPids == old(waitPids)[q := old(waitPids[q])[1..]]
      ensures Repr == old(Repr) && readyEntry == old(readyEntry) && readyPids == old(readyPids)
    {
      hide Consistent, Named, ListedAs, Held;
      Different();
      Footprint(waits[q]);
      ghost var was := waits[q].entries;
      ListedPop(was, blockEntry, waitPids[q]);
      OwnedAll();
      var e := PopFrom(waits[q], All(), Nodes());
      if e == null {
        return None;
      }
      Relist(q, waitPids[q][1..]);
      p := Some(e.owner);
    }

    /** What ProcessDestroy does to the wait queue the process is in, if it is in one. */
    method Unblock(q: QueueId, p: Pid)
      requires Valid() && q in waits && p in readyEntry && forall r :: r in waits && p in waitPids[r] ==> r == q
      modifies this`waitPids, Repr
      ensures Valid() && waitPids == old(waitPids)[q := Without(old(waitPids[q]), p)]
      ensures Repr == old(Repr) && readyEntry == old(readyEntry) && readyPids == old(readyPids)
    {
      hide Consistent, Named, ListedAs, Owned, Paired, Held;
      EntriesOf(p);
      var e := blockEntry[p];
      Different();
      BlockLinked(p);
      Footprint(waits[q]);
      BothOrNone(waits[q], p);
      if e.prev != null {
        ghost var was := waits[q].entries;
        ListedWithout(was, blockEntry, waitPids[q], p);
        RemoveFrom(waits[q], e, All(), Nodes());
        Relist(q, Without(waitPids[q], p));
      } else {
        WithoutAbsent(waitPids[q], p);
        assert waitPids[q := waitPids[q]] == waitPids;
      }
    }

    lemma OwnedAll()
      requires Named()
      ensures Owned(readyEntry) && Owned(blockEntry) && readyEntry.Keys == blockEntry.Keys
    {
    }

    /** An entry has both links or none. */
    lemma BothOrNone(q: Queue, p: Pid)
      requires Valid() && p in readyEntry
      ensures var e := readyEntry[p]; e.prev == null <==> e.next == null
      ensures var e := blockEntry[p]; e.prev == null <==> e.next == null
    {
      EntriesOf(p);
      forall e | e in Nodes() ensures e.prev == null <==> e.next == null {
        if e.home != null {
          e.home.EntriesLinked();
        }
      }
    }

    lemma LinkedIsIn(q: Queue, p: Pid)
      requires Valid() && p in readyEntry && readyEntry[p].prev != null
      ensures readyEntry[p] in ready.entries
    {
      ReadyLinked(p);
    }

    // ---------- PCBs come and go ----------

    /** QueueEntryInit of the entries of a new PCB. */
    method Add(p: Pid)
      requires Valid() && p !in readyEntry
      modifies this`readyEntry, this`blockEntry, this`Repr
      ensures Valid() && readyEntry.Keys == old(readyEntry.Keys) + {p} && fresh(Repr - old(Repr))
      ensures readyPids == old(readyPids) && waitPids == old(waitPids)
    {
      hide Consistent, ListedAs, Paired, Owned;
      var e := new QueueEntry(p);
      var f := new QueueEntry(p);
      ghost var nodes := Nodes();
      OneMoreNode(All(), nodes, e);
      OneMoreNode(All(), nodes + {e}, f);
      PairedWith(readyEntry, blockEntry, p, e, f);
      ValuesWith(readyEntry, p, e);
      ValuesWith(blockEntry, p, f);
      assert readyEntry[p := e].Values + blockEntry[p := f].Values == nodes + {e} + {f};
      ListedMore(ready.entries, readyEntry, readyPids, p, e);
      forall q | q in waits ensures ListedAs(waits[q].entries, blockEntry[p := f], waitPids[q]) {
        ListedMore(waits[q].entries, blockEntry, waitPids[q], p, f);
      }
      readyEntry, blockEntry := readyEntry[p := e], blockEntry[p := f];
      Repr := Repr + {e, f};
    }

    /** A PCB is freed: its entries are in no queue any more. */
    method Drop(p: Pid)
      requires Valid() && p in readyEntry && p !in readyPids && forall q :: q in waits ==> p !in waitPids[q]
      modifies this`readyEntry, this`blockEntry
      ensures Valid() && readyEntry.Keys == old(readyEntry.Keys) - {p}
      ensures Repr == old(Repr) && readyPids == old(readyPids) && waitPids == old(waitPids)
    {
      hide Consistent, ListedAs;
      ghost var nodes, e, f := Nodes(), readyEntry[p], blockEntry[p];
      InNoQueue(p);
      OneNodeLess(All(), nodes, e);
      OneNodeLess(All(), nodes - {e}, f);
      ValuesWithout(readyEntry, p);
      ValuesWithout(blockEntry, p);
      assert (readyEntry - {p}).Values + (blockEntry - {p}).Values == nodes - {e} - {f};
      ListedLess(ready.entries, readyEntry, readyPids, p);
      forall q | q in waits ensures ListedAs(waits[q].entries, blockEntry - {p}, waitPids[q]) {
        ListedLess(waits[q].entries, blockEntry, waitPids[q], p);
      }
      readyEntry, blockEntry := readyEntry - {p}, blockEntry - {p};
    }

    lemma InNoQueue(p: Pid)
      requires Valid() && p in readyEntry && p !in readyPids && forall q :: q in waits ==> p !in waitPids[q]
      ensures forall q :: q in All() ==> readyEntry[p] !in q.entries && blockEntry[p] !in q.entries
    {
      hide Consistent;
      ReadyLinked(p);
      BlockLinked(p);
      EntriesOf(p);
      NullLinksMeanUnqueued(All(), Nodes(), readyEntry[p]);
      NullLinksMeanUnqueued(All(), Nodes(), blockEntry[p]);
    }
  }

  lemma PairedWith(readyEntry: map<Pid, QueueEntry>, blockEntry: map<Pid, QueueEntry>, p: Pid, e: QueueEntry, f: QueueEntry)
    requires Paired(readyEntry, blockEntry) && p !in readyEntry && e.owner == f.owner == p
    requires e != f && e !in blockEntry.Values && f !in readyEntry.Values
    ensures p !in blockEntry && Paired(readyEntry[p := e], blockEntry[p := f])
  {
  }

  lemma NothingListed(entry: map<Pid, QueueEntry>)
    ensures ListedAs([], entry, [])
  {
  }

  lemma ValuesWith(entry: map<Pid, QueueEntry>, p: Pid, e: QueueEntry)
    requires p !in entry
    ensures entry[p := e].Values == entry.Values + {e}
  {
    var more := entry[p := e];
    assert more[p] == e;
    forall x | x in entry.Values ensures x in more.Values {
      var r :| r in entry && entry[r] == x;
      assert more[r] == x;
    }
  }

  lemma ValuesWithout(entry: map<Pid, QueueEntry>, p: Pid)
    requires Owned(entry) && p in entry
    ensures (entry - {p}).Values == entry.Values - {entry[p]}
  {
    var less := entry - {p};
    forall x | x in entry.Values && x != entry[p] ensures x in less.Values {
      var r :| r in entry && entry[r] == x;
      assert less[r] == x;
    }
    forall x | x in less.Values ensures x in entry.Values && x != entry[p] {
      var r :| r in less && less[r] == x;
      assert entry[r].owner == r && entry[p].owner == p;
    }
  }

  lemma ListedMore(es: seq<QueueEntry>, entry: map<Pid, QueueEntry>, pids: seq<Pid>, p: Pid, e: QueueEntry)
    requires ListedAs(es, entry, pids) && p !in entry
    ensures ListedAs(es, entry[p := e], pids)
  {
  }

  lemma ListedLess(es: seq<QueueEntry>, entry: map<Pid, QueueEntry>, pids: seq<Pid>, p: Pid)
    requires ListedAs(es, entry, pids) && p !in pids
    ensures ListedAs(es, entry - {p}, pids)
  {
  }

  lemma ListedPush(es: seq<QueueEntry>, entry: map<Pid, QueueEntry>, pids: seq<Pid>, p: Pid)
    requires ListedAs(es, entry, pids) && p in entry
    ensures ListedAs(es + [entry[p]], entry, pids + [p])
  {
  }

  lemma ListedPop(es: seq<QueueEntry>, entry: map<Pid, QueueEntry>, pids: seq<Pid>)
    requires ListedAs(es, entry, pids)
    ensures es == [] <==> pids == []
    ensures es != [] ==> pids[0] in entry && entry[pids[0]] == es[0] && ListedAs(es[1..], entry, pids[1..])
  {
  }

  lemma {:induction false} ListedWithout(es: seq<QueueEntry>, entry: map<Pid, QueueEntry>, pids: seq<Pid>, p: Pid)
    requires ListedAs(es, entry, pids) && Owned(entry) && p in entry
    ensures ListedAs(Without<QueueEntry>(es, entry[p]), entry, Without(pids, p))
  {
    if es != [] {
      assert entry[pids[0]].owner == pids[0] && entry[p].owner == p;
      ListedPop(es, entry, pids);
      ListedWithout(es[1..], entry, pids[1..], p);
    }
  }

  /** An entry is linked exactly if its pid is listed. */
  lemma LinkedIff(es: seq<QueueEntry>, entry: map<Pid, QueueEntry>, pids: seq<Pid>, p: Pid)
    requires ListedAs(es, entry, pids) && Owned(entry) && p in entry
    ensures entry[p] in es <==> p in pids
  {
    if entry[p] in es {
      var i :| 0 <= i < |es| && es[i] == entry[p];
      assert entry[pids[i]].owner == p;
    }
    if p in pids {
      var i :| 0 <= i < |pids| && pids[i] == p;
      assert es[i] == entry[p];
    }
  }

  /** Empty queues and entries in none of them. */
  method MakeAll(ids: set<QueueId>, pids: set<Pid>)
    returns (r: Queue, w: map<QueueId, Queue>, es: map<Pid, QueueEntry>, fs: map<Pid, QueueEntry>, ghost os: set<object>)
    ensures fresh(os) && w.Keys == ids && r !in w.Values && (forall p, q :: p in w && q in w && p != q ==> w[p] != w[q])
    ensures es.Keys == pids && Paired(es, fs)
    ensures {r} + w.Values <= os && Heads({r} + w.Values) <= os && es.Values + fs.Values <= os
    ensures r.entries == [] && (forall q :: q in w ==> w[q].entries == []) && Consistent({r} + w.Values, es.Values + fs.Values)
  {
    hide Consistent, Owned, Paired, Queue.Valid, Queue.Empty;
    ghost var ps, qs, objects;
    es, ps := MakeEntries(pids);
    fs, qs := MakeEntries(pids);
    PairedAtFirst(es, fs, ps, qs);
    r := new Queue();
    w, objects := MakeQueues(ids, r);
    NewObjects(r, w, objects);
    QueuesApart(r, w);
    os := {r, r.head} + objects + ps + qs;
    forall q | q in {r} + w.Values ensures q.Empty() && q.head !in es.Values + fs.Values {
      assert q == r || exists id :: id in w && w[id] == q;
    }
    forall q | q in {r} + w.Values ensures q.Valid() && q.entries == [] {
      q.EmptyIsValid();
    }
    AllNew({r} + w.Values, es.Values + fs.Values);
  }

  lemma PairedAtFirst(es: map<Pid, QueueEntry>, fs: map<Pid, QueueEntry>, ps: set<object>, qs: set<object>)
    requires es.Keys == fs.Keys && Owned(es) && Owned(fs) && es.Values <= ps && fs.Values <= qs && ps !! qs
    ensures Paired(es, fs)
  {
    forall p, r | p in es && r in fs ensures es[p] != fs[r] {
      assert es[p] in es.Values && fs[r] in fs.Values;
    }
  }

  lemma NewObjects(r: Queue, w: map<QueueId, Queue>, os: set<object>)
    requires forall q :: q in w ==> w[q] in os && w[q].head in os
    ensures {r} + w.Values <= {r, r.head} + os && Heads({r} + w.Values) <= {r, r.head} + os
  {
  }

  lemma QueuesApart(r: Queue, w: map<QueueId, Queue>)
    requires forall q :: q in w ==> w[q].head != r.head
    requires forall p, q :: p in w && q in w && p != q ==> w[p].head != w[q].head
    ensures forall q, q' :: q in {r} + w.Values && q' in {r} + w.Values && q != q' ==> q.head != q'.head
  {
  }

  /** Different empty queues, one for each id, none of them r. */
  method MakeQueues(ids: set<QueueId>, r: Queue) returns (m: map<QueueId, Queue>, ghost os: set<object>)
    ensures m.Keys == ids && r !in m.Values && fresh(os)
    ensures forall q :: q in m ==> m[q] in os && m[q].head in os && m[q].Empty() && m[q].head != r.head
    ensures forall p, q :: p in m && q in m && p != q ==> m[p] != m[q] && m[p].head != m[q].head
  {
    m, os := map[], {};
    var left := ids;
    while left != {}
      invariant left <= ids && m.Keys == ids - left && fresh(os)
      invariant forall q :: q in m ==> m[q] in os && m[q].head in os && m[q].Empty() && m[q] != r && m[q].head != r.head
      invariant forall p, q :: p in m && q in m && p != q ==> m[p] != m[q] && m[p].head != m[q].head
      modifies {}
      decreases |left|
    {
      var q :| q in left;
      var made := new Queue();
      m, left, os := m[q := made], left - {q}, os + {made, made.head};
    }
  }

  /** An entry with null links for each pid. */
  method MakeEntries(pids: set<Pid>) returns (m: map<Pid, QueueEntry>, ghost os: set<object>)
    ensures m.Keys == pids && Owned(m) && m.Values <= os && fresh(os)
    ensures forall p :: p in m ==> m[p].Unlinked() && m[p].home == null
  {
    m, os := map[], {};
    var left := pids;
    while left != {}
      invariant left <= pids && m.Keys == pids - left && Owned(m) && fresh(os)
      invariant forall p :: p in m ==> m[p] in os && m[p].Unlinked() && m[p].home == null
      modifies {}
      decreases |left|
    {
      var p :| p in left;
      var e := new QueueEntry(p);
      m, left, os := m[p := e], left - {p}, os + {e};
    }
  }
}
