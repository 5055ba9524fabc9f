/**
 The functions of src/lfmpscq.c on arrays and with their loops, for calls that run while no other process takes
 a step. The check that tail has not changed since it was read (line 137) and the results of the CAS always
 succeed then, and are left out. Another enqueuer may have stopped just before its last line: then tail is one
 node behind, perhaps behind head, on a slot that this enqueuer still names.
 */
module LfmpscqCode {
  import opened Common
  import opened Counting
  import opened Pool

  class Queue {
    const numSlots: nat
    const maxUser: nat

    // shared
    var head: int
    var tail: int
    const used: array<bool>
    const next: array<int>
    const data: array<Msg>
    const sharedIdxs: array<int>

    // RList, RCnt and TmpList of the consumer
    const RList: array<int>
    var RCnt: nat
    const TmpList: array<int>

    /** The slots from head to the last node. */
    ghost var chain: seq<int>

    /** The initial state of lfmpscq_get. */
    constructor (numSlots: nat, maxUser: nat)
      requires numSlots >= 1
      ensures Arrays() && Valid() && Contents() == []
      ensures this.numSlots == numSlots && this.maxUser == maxUser
      ensures fresh(used) && fresh(next) && fresh(data) && fresh(sharedIdxs) && fresh(RList) && fresh(TmpList)
    {
      this.numSlots, this.maxUser := numSlots, maxUser;
      head, tail, RCnt, chain := 0, 0, 0, [0];
      used := new bool[numSlots](n => n == 0);
      next := new int[numSlots](_ => UNDEFINED_NODE);
      data := new Msg[numSlots];
      sharedIdxs := new int[maxUser](_ => UNDEFINED_NODE);
      RList, TmpList := new int[numSlots], new int[numSlots];
    }

    ghost predicate Arrays() {
      && numSlots >= 1
      && used.Length == next.Length == data.Length == RList.Length == TmpList.Length == numSlots
      && sharedIdxs.Length == maxUser
      && RList != TmpList && RList != next && RList != sharedIdxs
      && TmpList != next && TmpList != sharedIdxs && next != sharedIdxs
    }

    ghost predicate Retired()
      requires Arrays()
      reads this`RCnt, RList, used
    {
      RCnt <= maxUser && Listed()
    }

    /** RList holds different slots in use. */
    ghost predicate Listed()
      requires Arrays()
      reads this`RCnt, RList, used
    {
      && RCnt <= numSlots
      && Distinct(RList[..RCnt])
      && (forall n :: n in RList[..RCnt] ==> 0 <= n < numSlots && used[n])
    }

    ghost predicate List()
      requires Arrays()
      reads this`head, this`chain, used, next
    {
      && |chain| >= 1 && head == chain[0]
      && Distinct(chain)
      && (forall k :: 0 <= k < |chain| ==> 0 <= chain[k] < numSlots && used[chain[k]])
      && (forall k :: 0 <= k < |chain| - 1 ==> next[chain[k]] == chain[k + 1])
      && next[chain[|chain| - 1]] == UNDEFINED_NODE
    }

    /** tail is the last node, or a slot before it that the enqueuer of the last node still names. */
    ghost predicate TailOk()
      requires Arrays() && |chain| >= 1
      reads this`tail, this`chain, used, next, sharedIdxs
    {
      var last := chain[|chain| - 1];
      tail == last || (0 <= tail < numSlots && used[tail] && next[tail] == last && last >= 0 && tail in sharedIdxs[..])
    }

    /** Every slot is free, on the list or retired. */
    ghost predicate Valid()
      requires Arrays()
      reads this, used, next, RList, sharedIdxs
    {
      Retired() && List() && TailOk() && Covered()
    }

    ghost predicate Covered()
      requires Arrays() && RCnt <= numSlots
      reads this`chain, this`RCnt, RList, used
    {
      && (forall n :: n in RList[..RCnt] ==> n !in chain)
      && (forall n :: 0 <= n < numSlots && used[n] ==> n in chain || n in RList[..RCnt])
    }

    /** The messages in the queue, front first. */
    ghost function Contents(): seq<Msg>
      requires Arrays() && List()
      reads this`head, this`chain, used, next, data
    {
      Messages(chain, data[..])
    }

    ghost predicate AllUsed()
      requires Arrays()
      reads used
    {
      forall n :: 0 <= n < numSlots ==> used[n]
    }

    /** If no slot is free, then the messages, the dummy and the retired slots make up the pool. */
    lemma FullBound()
      requires Arrays() && Valid() && AllUsed()
      ensures numSlots <= |Contents()| + 1 + RCnt
    {
      forall n | n in Below(numSlots) ensures n in Values(chain) + Values(RList[..RCnt]) { assert used[n]; }
      BelowSize(numSlots);
      SubsetSize(Below(numSlots), Values(chain) + Values(RList[..RCnt]));
      ValuesSize(chain);
      ValuesSize(RList[..RCnt]);
      MessagesLength(chain, data[..]);
    }

    /** Lines 131-158. */
    method Append(userID: nat, node: int)
      requires Arrays() && List() && TailOk() && userID < maxUser
      requires 0 <= node < numSlots && used[node] && node !in chain && next[node] == UNDEFINED_NODE && node != tail
      modifies this`tail, this`chain, next, sharedIdxs
      ensures List() && chain == old(chain) + [node] && tail == node
      ensures forall n :: 0 <= n < numSlots && n != old(chain)[|old(chain)| - 1] ==> next[n] == old(next[n])
      ensures sharedIdxs[..] == old(sharedIdxs[..])[userID := old(chain)[|old(chain)| - 1]]
    {
      var t;
      ghost var last := chain[|chain| - 1];
      while true
        invariant tail == last || (0 <= tail < numSlots && next[tail] == last >= 0)
        invariant forall k :: 0 <= k < maxUser && k != userID ==> sharedIdxs[k] == old(sharedIdxs[k])
        modifies this`tail, sharedIdxs
        decreases if tail == last then 0 else 1
      {
        t := tail;
        sharedIdxs[userID] := t;
        var tNext := next[t];
        if tNext != UNDEFINED_NODE {
          tail := tNext;
          continue;
        }
        break;
      }
      next[t] := node;
      chain := chain + [node];
      tail := node;
    }

    /**
     lfmpscq_enqueue of user userID, whose getFreeSlot begins at cursor. It uses one slot that was free. It fails
     only if no slot is free, and then numSlots is at most the number of messages, one dummy and a retired slot
     for each user.
     */
    method Enqueue(userID: nat, cursor: int, msg: Msg) returns (ok: bool, cursor': int)
      requires Arrays() && Valid() && userID < maxUser && 0 <= cursor < numSlots
      modifies this`tail, this`chain, used, next, data, sharedIdxs
      ensures Valid() && 0 <= cursor' < numSlots
      ensures ok ==> Contents() == old(Contents()) + [msg]
      ensures ok <==> old(!AllUsed())
      ensures ok ==> chain == old(chain) + [cursor'] && tail == cursor'
      ensures ok ==> !old(used[..])[cursor'] && used[..] == old(used[..])[cursor' := true]
      ensures !ok ==> chain == old(chain) && tail == old(tail) && used[..] == old(used[..]) && cursor' == cursor
      ensures ok ==> sharedIdxs[..] == old(sharedIdxs[..])[userID := old(chain)[|old(chain)| - 1]]
      ensures !ok ==> Contents() == old(Contents()) && numSlots <= |Contents()| + 1 + maxUser
    {
      var node;
      node, cursor' := Claim(cursor);
      if node == -1 {
        FullBound();
        return false, cursor';
      }
      Insert(userID, node, msg);
      return true, cursor';
    }

    /** Lines 121-158. */
    method Insert(userID: nat, node: int, msg: Msg)
      requires Arrays() && Retired() && List() && TailOk() && Claimed(node) && userID < maxUser
      requires forall n :: n in RList[..RCnt] ==> n !in chain
      modifies this`tail, this`chain, next, data, sharedIdxs
      ensures Valid() && Contents() == old(Contents()) + [msg]
      ensures chain == old(chain) + [node] && tail == node
      ensures sharedIdxs[..] == old(sharedIdxs[..])[userID := old(chain)[|old(chain)| - 1]]
    {
      Fill(node, msg);
      Append(userID, node);
      assert chain[..|chain| - 1] == old(chain);
    }

    /** Line 117: the claimed slot is neither on the list nor retired, and it is not the one that tail names. */
    method Claim(cursor: int) returns (node: int, cursor': int)
      requires Arrays() && Valid() && 0 <= cursor < numSlots
      modifies used
      ensures 0 <= cursor' < numSlots
      ensures Retired() && List() && TailOk()
      ensures node == -1 <==> old(AllUsed())
      ensures node == -1 ==> Valid() && AllUsed() && used[..] == old(used[..]) && cursor' == cursor
      ensures node != -1 ==> Claimed(node) && cursor' == node
      ensures node != -1 ==> !old(used[..])[node] && used[..] == old(used[..])[node := true]
    {
      node, cursor' := GetFreeSlot(used, cursor);
      if node != -1 {
        forall n | n in RList[..RCnt] || n in chain ensures n != node && used[n] { assert old(used[n]); }
        assert forall k :: 0 <= k < |chain| ==> chain[k] in chain;
      }
    }

    ghost predicate Claimed(node: int)
      requires Arrays()
      reads this`RCnt, this`chain, this`tail, used, RList
    {
      && RCnt <= numSlots && 0 <= node < numSlots && used[node]
      && node !in chain && node !in RList[..RCnt] && node != tail
      && forall n :: 0 <= n < numSlots && used[n] ==> n in chain || n in RList[..RCnt] || n == node
    }

    /** Lines 122-123. */
    method Fill(node: int, msg: Msg)
      requires Arrays() && Retired() && List() && TailOk() && Claimed(node)
      modifies next, data
      ensures Retired() && List() && TailOk() && Contents() == old(Contents())
      ensures next[node] == UNDEFINED_NODE && data[node] == msg
    {
      data[node] := msg;
      next[node] := UNDEFINED_NODE;
      forall k | 0 <= k < |chain|
        ensures chain[k] != node && data[..][chain[k]] == old(data[..])[chain[k]]
      {
        assert chain[k] in chain;
      }
      MessagesSame(chain, old(data[..]), data[..]);
    }

    /** There is room for the old head: no slot of the list is in RList. */
    lemma RoomToRetire(h: int)
      requires Arrays() && Retired() && 0 <= h < numSlots && h !in RList[..RCnt]
      ensures RCnt < numSlots
    {
      var a := RList[..RCnt] + [h];
      assert forall k :: 0 <= k < RCnt ==> a[k] in RList[..RCnt];
      Pigeonhole(a, numSlots);
    }

    /** Lines 170-193: only slots of RList that no shared index names are changed. */
    method SweepList()
      requires Arrays() && Listed()
      modifies this`RCnt, RList, TmpList, used, next
      ensures Retired()
      ensures RList[..RCnt] == Named(old(RList[..RCnt]), sharedIdxs[..])
      ensures used[..] == Cleared(old(used[..]), old(RList[..RCnt]), sharedIdxs[..], false)
      ensures forall n :: 0 <= n < numSlots ==>
                if n in old(RList[..RCnt]) && n !in sharedIdxs[..]
                then !used[n] else used[n] == old(used[n]) && next[n] == old(next[n])
    {
      ghost var list, idxs := RList[..RCnt], sharedIdxs[..];
      RCnt := Sweep(RList, RCnt, TmpList, sharedIdxs, used, next);
      NamedMembers(list, idxs);
      NamedDistinct(list, idxs);
      NamedFits(list, idxs);
      forall n | 0 <= n < numSlots
        ensures if n in list && n !in idxs then !used[n] else used[n] == old(used[n]) && next[n] == old(next[n])
      {
        assert used[..][n] == used[n] && next[..][n] == next[n];
      }
    }

    /** Keeps exactly the retired slots that some shared index names, of the old ones and the new one. */
    method RetireNode(h: int)
      requires Arrays() && Retired() && List() && TailOk() && 0 <= h < numSlots && used[h] && RCnt < numSlots
      requires h !in chain && h !in RList[..RCnt] && forall n :: n in RList[..RCnt] ==> n !in chain
      requires forall n :: 0 <= n < numSlots && used[n] ==> n in chain || n in RList[..RCnt] || n == h
      modifies this`RCnt, RList, TmpList, used, next
      ensures Valid()
      ensures RList[..RCnt] == Named(old(RList[..RCnt]) + [h], sharedIdxs[..])
      ensures used[..] == Cleared(old(used[..]), old(RList[..RCnt]) + [h], sharedIdxs[..], false)
    {
      RList[RCnt] := h;
      RCnt := RCnt + 1;
      assert RList[..RCnt] == old(RList[..RCnt]) + [h];
      SweepValid();
    }

    /** The sweep touches neither the list nor the slot that tail names. */
    method SweepValid()
      requires Arrays() && Listed() && List() && TailOk() && Covered()
      modifies this`RCnt, RList, TmpList, used, next
      ensures Valid()
      ensures RList[..RCnt] == Named(old(RList[..RCnt]), sharedIdxs[..])
      ensures used[..] == Cleared(old(used[..]), old(RList[..RCnt]), sharedIdxs[..], false)
    {
      ghost var list, before := RList[..RCnt], used[..];
      SweepList();
      NamedMembers(list, sharedIdxs[..]);
      forall n | 0 <= n < numSlots && used[n] ensures n in chain || n in RList[..RCnt] {
        assert used[..][n] && before[n];
      }
      forall k | 0 <= k < |chain| ensures chain[k] !in list { assert chain[k] in chain; }
      assert tail in list ==> tail in sharedIdxs[..];
    }

    /** Lines 203-216. */
    method Pop() returns (h: int, msg: Option<Msg>)
      requires Arrays() && Valid()
      modifies this`head, this`chain
      ensures h == old(head) && List()
      ensures msg == None <==> old(Contents()) == []
      ensures msg == None ==> Valid() && Contents() == old(Contents()) && chain == old(chain)
      ensures msg.Some? ==> chain == old(chain)[1..] && TailOk() && old(Contents()) == [msg.value] + Contents()
    {
      h := head;
      var hNext := next[h];
      assert |chain| > 1 ==> hNext == chain[1];
      if hNext == UNDEFINED_NODE {
        return h, None;
      }
      MessagesFront(chain, data[..]);
      msg := Some(data[hNext]);
      head := hNext;
      chain := chain[1..];
    }

    /**
     lfmpscq_dequeue: it reports empty exactly if there is no message, and else takes the front one. It moves
     head past tail if tail is behind, and still leaves tail on a slot in use. Of the retired slots and the old
     head it keeps exactly those that an index names, and frees exactly the others.
     */
    method Dequeue() returns (msg: Option<Msg>)
      requires Arrays() && Valid()
      modifies this`head, this`RCnt, this`chain, used, next, RList, TmpList
      ensures Valid()
      ensures msg == None <==> old(Contents()) == []
      ensures msg == None ==> Contents() == old(Contents())
      ensures msg.Some? ==> old(Contents()) == [msg.value] + Contents()
      ensures msg == None ==> chain == old(chain) && RList[..RCnt] == old(RList[..RCnt]) && used[..] == old(used[..])
      ensures msg.Some? ==>
                var retired := old(RList[..RCnt]) + [old(head)];
                && chain == old(chain)[1..]
                && RList[..RCnt] == Named(retired, sharedIdxs[..])
                && used[..] == Cleared(old(used[..]), retired, sharedIdxs[..], false)
    {
      var h;
      h, msg := Pop();
      if msg == None {
        return;
      }
      assert h !in chain;
      RoomToRetire(h);
      RetireNode(h);
    }
  }
}
