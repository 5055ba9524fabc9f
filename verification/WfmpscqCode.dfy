/**
 wfmpscq_enqueue and wfmpscq_dequeue as they are written, with their loops, for calls that do not overlap:
 the table of rings is one FIFO.
 */
module WfmpscqCode {
  import opened Common
  import opened Cyclic
  import opened Ring
  import W = Wfmpscq

  /** An accepted message that was not dequeued: its writer, its id, and the message. */
  datatype Entry = Entry(w: int, id: int, msg: Msg)

  // ----- Sequences of entries

  /** The entries of writer w, in order. */
  function Mine(fifo: seq<Entry>, w: int): seq<Entry> {
    if fifo == [] then [] else (if fifo[0].w == w then [fifo[0]] else []) + Mine(fifo[1..], w)
  }

  /** fifo without the first entry of writer w. */
  function Remove(fifo: seq<Entry>, w: int): seq<Entry> {
    if fifo == [] then [] else if fifo[0].w == w then fifo[1..] else [fifo[0]] + Remove(fifo[1..], w)
  }

  ghost predicate Increasing(fifo: seq<Entry>) {
    forall i, j :: 0 <= i < j < |fifo| ==> fifo[i].id < fifo[j].id
  }

  lemma {:induction false} MineAppend(fifo: seq<Entry>, e: Entry, w: int)
    ensures Mine(fifo + [e], w) == Mine(fifo, w) + if e.w == w then [e] else []
  {
    if fifo != [] {
      MineAppend(fifo[1..], e, w);
      assert (fifo + [e])[1..] == fifo[1..] + [e];
    }
  }

  lemma {:induction false} MineMembers(fifo: seq<Entry>, w: int)
    ensures forall e :: e in Mine(fifo, w) <==> e in fifo && e.w == w
  {
    if fifo != [] {
      MineMembers(fifo[1..], w);
      assert forall e :: e in fifo <==> e == fifo[0] || e in fifo[1..];
    }
  }

  lemma {:induction false} MineRemove(fifo: seq<Entry>, w: int, v: int)
    requires Mine(fifo, w) != []
    ensures Mine(Remove(fifo, w), v) == if v == w then Mine(fifo, w)[1..] else Mine(fifo, v)
    ensures |Remove(fifo, w)| == |fifo| - 1
  {
    if fifo[0].w != w {
      MineRemove(fifo[1..], w, v);
      assert Remove(fifo, w)[1..] == Remove(fifo[1..], w);
    }
  }

  lemma {:induction false} RemoveMembers(fifo: seq<Entry>, w: int)
    ensures forall e :: e in Remove(fifo, w) ==> e in fifo
  {
    if fifo != [] && fifo[0].w != w {
      RemoveMembers(fifo[1..], w);
    }
  }

  lemma {:induction false} RemoveIncreasing(fifo: seq<Entry>, w: int)
    requires Increasing(fifo)
    ensures Increasing(Remove(fifo, w))
  {
    if fifo != [] && fifo[0].w != w {
      RemoveIncreasing(fifo[1..], w);
      RemoveMembers(fifo[1..], w);
      var rest := Remove(fifo[1..], w);
      forall j | 0 <= j < |rest| ensures fifo[0].id < rest[j].id { assert rest[j] in fifo[1..]; }
    }
  }

  /** The queue to read at is the one of the entry with the least id. */
  lemma LeastFront(fifo: seq<Entry>, q: int)
    requires Increasing(fifo) && fifo != [] && Mine(fifo, q) != []
    requires Mine(fifo, q)[0].id <= fifo[0].id
    ensures q == fifo[0].w && Mine(fifo, q)[0] == fifo[0]
  {
    MineMembers(fifo, q);
    var e := Mine(fifo, q)[0];
    assert e in fifo;
    var i :| 0 <= i < |fifo| && fifo[i] == e;
  }

  /** Up to the documented limit the ids of n accepted messages increase. */
  ghost predicate OrderedUpTo(fifo: seq<Entry>, n: nat) {
    n <= W.MAXID ==> Increasing(fifo) && forall i :: 0 <= i < |fifo| ==> 0 <= fifo[i].id < n
  }

  lemma OrderedAppend(fifo: seq<Entry>, n: nat, e: Entry)
    requires OrderedUpTo(fifo, n) && e.id == n % W.TWO_TO_THE_32
    ensures OrderedUpTo(fifo + [e], n + 1)
  {
    if n < W.MAXID { Small(n, W.TWO_TO_THE_32); }
  }

  lemma OrderedRemove(fifo: seq<Entry>, n: nat, w: int)
    requires OrderedUpTo(fifo, n)
    ensures OrderedUpTo(Remove(fifo, w), n)
  {
    if n <= W.MAXID {
      RemoveIncreasing(fifo, w);
      RemoveMembers(fifo, w);
      var rest := Remove(fifo, w);
      forall i | 0 <= i < |rest| ensures 0 <= rest[i].id < n { assert rest[i] in fifo; }
    }
  }

  /** fifo holds the last |fifo| of n ids. */
  ghost predicate LastGiven(fifo: seq<Entry>, n: nat) {
    |fifo| <= n && forall i :: 0 <= i < |fifo| ==> fifo[i].id == (n - |fifo| + i) % W.TWO_TO_THE_32
  }

  lemma LastGivenAppend(fifo: seq<Entry>, n: nat, e: Entry)
    requires LastGiven(fifo, n) && e.id == n % W.TWO_TO_THE_32
    ensures LastGiven(fifo + [e], n + 1)
  {
  }

  /** Taking the entry with the least id takes the first one; if the ids are the last ones given, they stay so. */
  lemma TakesFirst(fifo: seq<Entry>, n: nat, q: int)
    requires OrderedUpTo(fifo, n) && n <= W.MAXID && fifo != [] && Mine(fifo, q) != []
    requires Mine(fifo, q)[0].id <= Mine(fifo, fifo[0].w)[0].id
    ensures Mine(fifo, q)[0] == fifo[0] && Remove(fifo, q) == fifo[1..]
    ensures LastGiven(fifo, n) ==> LastGiven(fifo[1..], n) && fifo[0].id == n - |fifo|
  {
    LeastFront(fifo, q);
    if LastGiven(fifo, n) { Small(n - |fifo|, W.TWO_TO_THE_32); }
  }

  // ----- The table

  class Table {
    const numWriter: nat
    const numSlots: nat
    var idCnt: nat
    const heads: array<int>
    const tails: array<int>
    const ids: array2<int>
    const data: array2<Msg>
    var lastqueue: int

    /** The accepted messages that were not dequeued, in the order of their ids. */
    ghost var fifo: seq<Entry>

    /** How many messages were accepted so far. */
    ghost var accepted: nat

    /** The initial state of wfmpscq_get. */
    constructor (numWriter: nat, numSlots: nat)
      requires numWriter >= 1 && numSlots >= 1
      ensures Arrays() && Valid() && Dense() && fifo == [] && accepted == 0 && lastqueue == 0
      ensures this.numWriter == numWriter && this.numSlots == numSlots
      ensures fresh(heads) && fresh(tails) && fresh(ids) && fresh(data)
    {
      this.numWriter, this.numSlots := numWriter, numSlots;
      idCnt, lastqueue, fifo, accepted := 0, 0, [], 0;
      heads, tails := new int[numWriter](_ => 0), new int[numWriter](_ => 0);
      ids, data := new int[numWriter, numSlots], new Msg[numWriter, numSlots];
      new;
      Small(0, numSlots);
      Small(0, W.TWO_TO_THE_64);
    }

    ghost predicate Arrays() {
      && numWriter >= 1 && numSlots >= 1
      && heads.Length == tails.Length == numWriter && heads != tails
      && ids.Length0 == data.Length0 == numWriter && ids.Length1 == data.Length1 == numSlots
    }

    /** The slots of ring w. */
    ghost function Row(w: int): (row: seq<Entry>)
      requires Arrays() && 0 <= w < numWriter
      reads ids, data
      ensures |row| == numSlots
      ensures forall k :: 0 <= k < numSlots ==> row[k] == Entry(w, ids[w, k], data[w, k])
    {
      seq(numSlots, k requires 0 <= k < numSlots reads ids, data => Entry(w, ids[w, k], data[w, k]))
    }

    /** Ring w holds the entries of writer w. */
    ghost predicate RingOk(w: int)
      requires Arrays() && 0 <= w < numWriter
      reads this`fifo, heads, tails, ids, data
    {
      Holds(Row(w), heads[w], tails[w], Mine(fifo, w))
    }

    ghost predicate Valid()
      requires Arrays()
      reads this, heads, tails, ids, data
    {
      0 <= lastqueue < numWriter && Stored()
    }

    /** The rings hold fifo; up to the documented limit its ids increase. */
    ghost predicate Stored()
      requires Arrays()
      reads this`fifo, this`idCnt, this`accepted, heads, tails, ids, data
    {
      Rings() && Ids()
    }

    ghost predicate Rings()
      requires Arrays()
      reads this`fifo, heads, tails, ids, data
    {
      && (forall i :: 0 <= i < |fifo| ==> 0 <= fifo[i].w < numWriter)
      && (forall w :: 0 <= w < numWriter ==> RingOk(w))
    }

    ghost predicate Ids()
      reads this`fifo, this`idCnt, this`accepted
    {
      idCnt == accepted % W.TWO_TO_THE_64 && OrderedUpTo(fifo, accepted)
    }

    /** The pending ids are the last ones given: so it is as long as only the merge by id dequeues. */
    ghost predicate Dense()
      reads this`fifo, this`accepted
    {
      LastGiven(fifo, accepted)
    }

    /**
     wfmpscq_enqueue of writer w. It fails exactly when the ring of w holds numSlots - 1 messages, and then it
     takes no id; else the id is the number of messages accepted before, as an unsigned int.
     */
    method Enqueue(w: nat, msg: Msg) returns (ok: bool)
      requires Arrays() && Valid() && w < numWriter
      modifies this`idCnt, this`fifo, this`accepted, tails, ids, data
      ensures Valid()
      ensures ok <==> |old(Mine(fifo, w))| < numSlots - 1
      ensures ok ==> fifo == old(fifo) + [Entry(w, old(accepted) % W.TWO_TO_THE_32, msg)]
      ensures ok ==> accepted == old(accepted) + 1
      ensures !ok ==> fifo == old(fifo) && accepted == old(accepted) && idCnt == old(idCnt)
      ensures old(Dense()) ==> Dense()
    {
      assert RingOk(w);
      TailTells(Row(w), heads[w], tails[w], Mine(fifo, w));
      var head, tail := heads[w], tails[w];
      if (tail + 1) % numSlots == head {
        return false;
      }
      var id := NextId();
      Put(w, tail, id, msg);
      OrderedAppend(old(fifo), old(accepted), Entry(w, id, msg));
      if old(Dense()) { LastGivenAppend(old(fifo), old(accepted), Entry(w, id, msg)); }
      return true;
    }

    /** Lines 96-107: the message goes to the tail of ring w. */
    method Put(w: nat, tail: nat, id: nat, msg: Msg)
      requires Arrays() && Rings() && w < numWriter && tail == tails[w] < numSlots
      requires |Mine(fifo, w)| < numSlots - 1
      modifies this`fifo, tails, ids, data
      ensures Rings() && fifo == old(fifo) + [Entry(w, id, msg)]
    {
      ghost var e := Entry(w, id, msg);
      assert RingOk(w);
      HoldsAppend(Row(w), heads[w], tail, Mine(fifo, w), e);
      WriteSlot(w, tail, id, msg);
      tails[w] := (tail + 1) % numSlots;
      fifo := fifo + [e];
      assert forall v :: 0 <= v < numWriter && v != w ==> Row(v) == old(Row(v));
      forall v | 0 <= v < numWriter && v != w ensures RingOk(v) {
        assert old(RingOk(v));
        MineAppend(old(fifo), e, v);
      }
      assert RingOk(w) by {
        MineAppend(old(fifo), e, w);
      }
    }

    /** Line 94: the 64 bit counter, read into an unsigned int. */
    method NextId() returns (id: nat)
      requires idCnt == accepted % W.TWO_TO_THE_64
      modifies this`idCnt, this`accepted
      ensures id == old(accepted) % W.TWO_TO_THE_32 && accepted == old(accepted) + 1
      ensures idCnt == accepted % W.TWO_TO_THE_64
    {
      W.LowBits(accepted);
      Next(accepted, W.TWO_TO_THE_64);
      id := idCnt % W.TWO_TO_THE_32;
      idCnt := (idCnt + 1) % W.TWO_TO_THE_64;
      accepted := accepted + 1;
    }

    /** Lines 98-102: the message and its id go to slot k of ring w. */
    method WriteSlot(w: nat, k: nat, id: int, msg: Msg)
      requires Arrays() && w < numWriter && k < numSlots
      modifies ids, data
      ensures Row(w) == old(Row(w))[k := Entry(w, id, msg)]
      ensures forall v :: 0 <= v < numWriter && v != w ==> Row(v) == old(Row(v))
    {
      data[w, k] := msg;
      ids[w, k] := id;
      assert Row(w) == old(Row(w))[k := Entry(w, id, msg)];
      forall v | 0 <= v < numWriter && v != w ensures Row(v) == old(Row(v)) {
      }
    }

    /** Lines 163-170: the front message of ring q. */
    method TakeFrom(q: int) returns (msg: Msg)
      requires Arrays() && Valid() && 0 <= q < numWriter && Mine(fifo, q) != []
      modifies this`fifo, heads
      ensures Valid()
      ensures fifo == Remove(old(fifo), q) && msg == old(Mine(fifo, q))[0].msg
    {
      OrderedRemove(fifo, accepted, q);
      msg := MoveHead(q);
    }

    /** The same for the rings alone. */
    method MoveHead(q: int) returns (msg: Msg)
      requires Arrays() && Rings() && 0 <= q < numWriter && Mine(fifo, q) != []
      modifies this`fifo, heads
      ensures Rings()
      ensures fifo == Remove(old(fifo), q) && msg == old(Mine(fifo, q))[0].msg
    {
      assert RingOk(q);
      TailTells(Row(q), heads[q], tails[q], Mine(fifo, q));
      HoldsDrop(Row(q), heads[q], tails[q], Mine(fifo, q));
      var head := heads[q];
      msg := data[q, head];
      heads[q] := (head + 1) % numSlots;
      fifo := Remove(fifo, q);
      RemoveMembers(old(fifo), q);
      assert forall v :: 0 <= v < numWriter ==> Row(v) == old(Row(v));
      forall v | 0 <= v < numWriter && v != q ensures RingOk(v) {
        assert old(RingOk(v));
        MineRemove(old(fifo), q, v);
      }
      assert RingOk(q) by {
        MineRemove(old(fifo), q, q);
      }
      forall i | 0 <= i < |fifo| ensures fifo[i] in old(fifo) { assert fifo[i] in fifo; }
    }

    /** Lines 123-135: the least id at the front of a ring, and the ring; -1 if all rings are empty. */
    method LeastId() returns (minId: int, queue: int)
      requires Arrays() && Stored() && accepted <= W.MAXID
      ensures queue == -1 ==> forall w :: 0 <= w < numWriter ==> Mine(fifo, w) == []
      ensures queue != -1 ==> 0 <= queue < numWriter && Mine(fifo, queue) != [] && minId == Mine(fifo, queue)[0].id
      ensures forall w :: 0 <= w < numWriter && Mine(fifo, w) != [] ==> minId <= Mine(fifo, w)[0].id
    {
      minId, queue := W.MAXID, -1;
      var i := 0;
      while i < numWriter
        invariant 0 <= i <= numWriter
        invariant queue == -1 ==> minId == W.MAXID && forall w :: 0 <= w < i ==> Mine(fifo, w) == []
        invariant queue != -1 ==> 0 <= queue < i && Mine(fifo, queue) != [] && minId == Mine(fifo, queue)[0].id
        invariant forall w :: 0 <= w < i && Mine(fifo, w) != [] ==> minId <= Mine(fifo, w)[0].id
      {
        FrontSlot(i);
        var head, tail := heads[i], tails[i];
        var id := ids[i, head];
        if head != tail && id < minId {
          minId, queue := id, i;
        }
        i := i + 1;
      }
    }

    /**
     wfmpscq_dequeue with DQSTR_IDABSOLUTE: it returns the message with the least id, which is the one that was
     accepted first. If the pending ids are dense, that id is the number of messages dequeued before.
     */
    method DequeueById() returns (r: Option<(int, Msg)>)
      requires Arrays() && Valid() && accepted <= W.MAXID
      modifies this`fifo, heads
      ensures Valid()
      ensures r == None <==> old(fifo) == []
      ensures r == None ==> fifo == old(fifo)
      ensures r.Some? ==> fifo == old(fifo)[1..] && r.value == (old(fifo)[0].id, old(fifo)[0].msg)
      ensures old(Dense()) ==> Dense() && (r.Some? ==> r.value.0 == accepted - |old(fifo)|)
    {
      var minId, queue := LeastId();
      if fifo != [] {
        assert 0 <= fifo[0].w < numWriter;
        assert Mine(fifo, fifo[0].w)[0] == fifo[0];
      }
      if queue == -1 {
        return None;
      }
      MineMembers(fifo, queue);
      TakesFirst(fifo, accepted, queue);
      var msg := TakeFrom(queue);
      return Some((minId, msg));
    }

    /** What the dequeuer sees of ring w. */
    lemma FrontSlot(w: int)
      requires Arrays() && Stored() && 0 <= w < numWriter
      ensures 0 <= heads[w] < numSlots
      ensures heads[w] == tails[w] <==> Mine(fifo, w) == []
      ensures accepted <= W.MAXID && Mine(fifo, w) != [] ==> Mine(fifo, w)[0].id < accepted
      ensures Mine(fifo, w) != [] ==> ids[w, heads[w]] == Mine(fifo, w)[0].id
    {
      assert RingOk(w);
      TailTells(Row(w), heads[w], tails[w], Mine(fifo, w));
      MineMembers(fifo, w);
      assert Mine(fifo, w) != [] ==> Mine(fifo, w)[0] in fifo;
    }

    /** Lines 138-149: the first ring after lastqueue, in cyclic order, that is not empty; -1 if there is none. */
    method NextQueue() returns (queue: int)
      requires Arrays() && Valid()
      modifies this`lastqueue
      ensures Valid()
      ensures queue == -1 ==> lastqueue == old(lastqueue) && forall w :: 0 <= w < numWriter ==> Mine(fifo, w) == []
      ensures queue != -1 ==> queue == lastqueue && Mine(fifo, queue) != []
      ensures queue != -1 ==>
                forall w :: 0 <= w < numWriter && Mine(fifo, w) != [] ==>
                  W.Distance(old(lastqueue), queue, numWriter) <= W.Distance(old(lastqueue), w, numWriter)
    {
      ghost var last, n := lastqueue, numWriter;
      queue := -1;
      var i := 0;
      while i < numWriter
        invariant 0 <= i <= numWriter && 0 <= lastqueue < numWriter
        invariant lastqueue == if last + i < n then last + i else last + i - n
        invariant forall w :: 0 <= w < n && W.Distance(last, w, n) < i ==> Mine(fifo, w) == []
      {
        Next(lastqueue, numWriter);
        Small(lastqueue, numWriter);
        lastqueue := (lastqueue + 1) % numWriter;
        FrontSlot(lastqueue);
        if heads[lastqueue] != tails[lastqueue] {
          return lastqueue;
        }
        i := i + 1;
      }
    }

    /**
     wfmpscq_dequeue with DQSTR_ROUNDROBIN: it returns the front message of the first ring after lastqueue, in
     cyclic order, that is not empty, and leaves lastqueue there.
     */
    method DequeueRoundRobin() returns (r: Option<(int, Msg)>)
      requires Arrays() && Valid()
      modifies this`fifo, this`lastqueue, heads
      ensures Valid()
      ensures r == None <==> forall w :: 0 <= w < numWriter ==> Mine(old(fifo), w) == []
      ensures r == None ==> fifo == old(fifo) && lastqueue == old(lastqueue)
      ensures r.Some? ==>
                && Mine(old(fifo), lastqueue) != []
                && r.value == (Mine(old(fifo), lastqueue)[0].id, Mine(old(fifo), lastqueue)[0].msg)
                && fifo == Remove(old(fifo), lastqueue)
                && forall w :: 0 <= w < numWriter && Mine(old(fifo), w) != [] ==>
                     W.Distance(old(lastqueue), lastqueue, numWriter) <= W.Distance(old(lastqueue), w, numWriter)
    {
      var queue := NextQueue();
      if queue == -1 {
        return None;
      }
      FrontSlot(queue);
      var id := ids[queue, heads[queue]];
      var msg := TakeFrom(queue);
      return Some((id, msg));
    }
  }
}
