/**
 The functions of src/mpmcq.c on arrays and with their loops, for a call that runs while no other
 process takes a step. The checks that a value has not changed since it was read (lines 181, 229 and
 243) and the results of the CAS always succeed then, and are left out. The list may be left with tail
 one node behind, and the shared indexes may hold anything.
 */
module MpmcqCode {
  import opened Common
  import opened Counting
  import opened Pool

  /** One user of the queue: the shared memory it maps, and its own static variables. */
  class User {
    const numSlots: nat
    const maxUser: nat
    const userID: nat

    // shared
    var head: int
    var tail: int
    const used: array<bool>
    const next: array<int>
    const data: array<Msg>
    const sharedIdxs: array<int>

    // RList, RCnt, TmpList and the i of getFreeSlot
    const RList: array<int>
    var RCnt: nat
    const TmpList: array<int>
    var i: int

    /** The slots from head to the last node. */
    ghost var chain: seq<int>

    /** The initial state of mpmcq_get, with init == 1. */
    constructor (numSlots: nat, maxUser: nat, userID: nat)
      requires numSlots >= 1 && userID < maxUser
      ensures Arrays() && Valid() && Contents() == []
      ensures this.numSlots == numSlots && this.maxUser == maxUser && this.userID == userID
      ensures fresh(used) && fresh(next) && fresh(data) && fresh(sharedIdxs) && fresh(RList) && fresh(TmpList)
    {
      this.numSlots, this.maxUser, this.userID := numSlots, maxUser, userID;
      head, tail, RCnt, i, chain := 0, 0, 0, 0, [0];
      used := new bool[numSlots](n => n == 0);
      next := new int[numSlots](_ => UNDEFINED_NODE);
      data := new Msg[numSlots];
      sharedIdxs := new int[2 * maxUser](_ => UNDEFINED_NODE);
      RList, TmpList := new int[numSlots], new int[numSlots];
    }

    ghost predicate Arrays() {
      && numSlots >= 1 && userID < maxUser
      && used.Length == next.Length == data.Length == RList.Length == TmpList.Length == numSlots
      && sharedIdxs.Length == 2 * maxUser
      && RList != TmpList && RList != next && RList != sharedIdxs
      && TmpList != next && TmpList != sharedIdxs && next != sharedIdxs
    }

    ghost predicate Retirable()
      requires Arrays()
      reads this, used, RList
    {
      && RCnt <= numSlots
      && 0 <= i < numSlots
      && Distinct(RList[..RCnt])
      && (forall n :: n in RList[..RCnt] ==> 0 <= n < numSlots && used[n])
    }

    ghost predicate List()
      requires Arrays()
      reads this, used, next
    {
      && |chain| >= 1 && head == chain[0]
      && Distinct(chain)
      && (forall k :: 0 <= k < |chain| ==> 0 <= chain[k] < numSlots && used[chain[k]])
      && (forall k :: 0 <= k < |chain| - 1 ==> next[chain[k]] == chain[k + 1])
      && next[chain[|chain| - 1]] == UNDEFINED_NODE
      && (tail == chain[|chain| - 1] || (|chain| >= 2 && tail == chain[|chain| - 2]))
    }

    /** No slot on the list is in the retire list. */
    ghost predicate Valid()
      requires Arrays()
      reads this, used, next, RList
    {
      && Retirable() && List()
      && (forall n :: n in RList[..RCnt] ==> n !in chain)
    }

    /** The messages in the queue, front first. */
    ghost function Contents(): seq<Msg>
      requires Arrays() && List()
      reads this, used, next, data
    {
      Messages(chain, data[..])
    }

    /** Keeps exactly the retired slots that some shared index names, and frees exactly the others. */
    method TryRetire()
      requires Arrays() && Retirable()
      modifies this`RCnt, RList, TmpList, used, next
      ensures Retirable() && i == old(i)
      ensures RList[..RCnt] == Named(old(RList[..RCnt]), sharedIdxs[..])
      ensures used[..] == Cleared(old(used[..]), old(RList[..RCnt]), sharedIdxs[..], false)
      ensures next[..] == Cleared(old(next[..]), old(RList[..RCnt]), sharedIdxs[..], UNDEFINED_NODE)
    {
      ghost var list, idxs := RList[..RCnt], sharedIdxs[..];
      RCnt := Sweep(RList, RCnt, TmpList, sharedIdxs, used, next);
      NamedMembers(list, idxs);
      NamedDistinct(list, idxs);
    }

    /** TryRetire as its callers see it: the list and the messages stay. */
    method Reclaim()
      requires Arrays() && Valid()
      modifies this`RCnt, RList, TmpList, used, next
      ensures Valid() && i == old(i)
      ensures RList[..RCnt] == Named(old(RList[..RCnt]), sharedIdxs[..]) && RCnt <= 2 * maxUser
      ensures used[..] == Cleared(old(used[..]), old(RList[..RCnt]), sharedIdxs[..], false)
      ensures Contents() == old(Contents())
    {
      ghost var list, idxs := RList[..RCnt], sharedIdxs[..];
      TryRetire();
      NamedMembers(list, idxs);
      NamedFits(list, idxs);
      forall k | 0 <= k < |chain|
        ensures used[chain[k]] == old(used[chain[k]]) && next[chain[k]] == old(next[chain[k]])
      {
        assert chain[k] !in list;
        assert used[..][chain[k]] == old(used[..])[chain[k]] && next[..][chain[k]] == old(next[..])[chain[k]];
      }
    }

    /** The old head goes to the retire list, which is then swept. */
    method RetireNode(h: int)
      requires Arrays() && Valid() && RCnt < numSlots
      requires 0 <= h < numSlots && used[h] && h !in chain && h !in RList[..RCnt]
      modifies this`RCnt, RList, TmpList, used, next
      ensures Valid() && Contents() == old(Contents())
      ensures RList[..RCnt] == Named(old(RList[..RCnt]) + [h], sharedIdxs[..]) && RCnt <= 2 * maxUser
      ensures used[..] == Cleared(old(used[..]), old(RList[..RCnt]) + [h], sharedIdxs[..], false)
    {
      RList[RCnt] := h;
      RCnt := RCnt + 1;
      assert RList[..RCnt] == old(RList[..RCnt]) + [h];
      Reclaim();
    }

    /** Line 161: the claimed slot is neither on the list nor retired. */
    method Claim() returns (node: int)
      requires Arrays() && Valid()
      modifies this`i, used
      ensures Valid() && Contents() == old(Contents())
      ensures node == -1 ==> (forall n :: 0 <= n < numSlots ==> used[n]) && used[..] == old(used[..])
      ensures node != -1 ==> 0 <= node < numSlots && used[node] && node !in chain && node !in RList[..RCnt]
      ensures node != -1 ==> !old(used[..])[node] && used[..] == old(used[..])[node := true]
      ensures i == if node != -1 then node else old(i)
    {
      node, i := GetFreeSlot(used, i);
      if node != -1 {
        forall n | n in RList[..RCnt] || n in chain ensures n != node && used[n] { assert old(used[n]); }
        assert forall k :: 0 <= k < |chain| ==> chain[k] in chain;
      }
    }

    /** Lines 165-167. */
    method Fill(node: int, msg: Msg)
      requires Arrays() && Valid() && 0 <= node < numSlots && used[node] && node !in chain && node !in RList[..RCnt]
      modifies next, data
      ensures Valid() && Contents() == old(Contents())
      ensures Fresh(node) && data[node] == msg
    {
      data[node] := msg;
      next[node] := UNDEFINED_NODE;
      forall k | 0 <= k < |chain| ensures data[..][chain[k]] == old(data[..])[chain[k]] && chain[k] != node {
        assert chain[k] in chain;
      }
      MessagesSame(chain, old(data[..]), data[..]);
    }

    /** A slot that is claimed and filled but not linked. */
    ghost predicate Fresh(node: int)
      requires Arrays()
      reads this, used, next, RList
    {
      && 0 <= node < numSlots && RCnt <= numSlots
      && used[node] && next[node] == UNDEFINED_NODE && node !in chain && node !in RList[..RCnt]
    }

    /** Lines 170-202. A tail that is one node behind costs one more iteration. */
    method Append(node: int)
      requires Arrays() && Valid() && Fresh(node)
      modifies this`tail, this`chain, next, sharedIdxs
      ensures Valid()
      ensures chain == old(chain) + [node] && tail == node
      ensures sharedIdxs[..] == old(sharedIdxs[..])[2 * userID := old(chain)[|old(chain)| - 1]]
    {
      var t;
      while true
        invariant List()
        invariant forall k :: 0 <= k < 2 * maxUser && k != 2 * userID ==> sharedIdxs[k] == old(sharedIdxs[k])
        modifies this`tail, sharedIdxs
        decreases if tail == chain[|chain| - 1] then 0 else 1
      {
        t := tail;
        sharedIdxs[2 * userID] := t;
        var tNext := next[t];
        if tNext != UNDEFINED_NODE {
          tail := tNext;
          continue;
        }
        break;
      }
      assert t == chain[|chain| - 1];
      next[t] := node;
      chain := chain + [node];
      tail := node;
    }

    /**
     mpmcq_enqueue: first it frees exactly its retired slots that no index names. It fails exactly if then every
     slot is in use, and else uses one free slot to put msg at the back.
     */
    method Enqueue(msg: Msg) returns (ok: bool)
      requires Arrays() && Valid()
      modifies this`tail, this`i, this`RCnt, this`chain, used, next, data, RList, TmpList, sharedIdxs
      ensures Valid()
      ensures RCnt <= 2 * maxUser
      ensures ok ==> Contents() == old(Contents()) + [msg]
      ensures ok ==> sharedIdxs[..] == old(sharedIdxs[..])[2 * userID := old(chain)[|old(chain)| - 1]]
      ensures !ok ==> Contents() == old(Contents()) && forall n :: 0 <= n < numSlots ==> used[n]
      ensures RList[..RCnt] == Named(old(RList[..RCnt]), old(sharedIdxs[..]))
      ensures
        var swept := Cleared(old(used[..]), old(RList[..RCnt]), old(sharedIdxs[..]), false);
        if ok
        then && 0 <= tail < numSlots && chain == old(chain) + [tail]
             && !swept[tail] && used[..] == swept[tail := true]
        else chain == old(chain) && used[..] == swept
      ensures i == if ok then tail else old(i)
    {
      Reclaim();
      var node := Claim();
      if node == -1 {
        return false;
      }
      Fill(node, msg);
      Append(node);
      return true;
    }

    /** tail is on the dummy, with a message behind it, only if it is the only message. */
    lemma TailOnDummy()
      requires Arrays() && List() && |chain| > 1 && tail == head
      ensures |chain| == 2
    {
      assert chain[0] != chain[|chain| - 1];
    }

    /** Lines 223-239: head, its successor or -1, and tail; head and the successor are published. */
    method ReadFirst() returns (h: int, t: int, hNext: int)
      requires Arrays() && List()
      modifies sharedIdxs
      ensures h == head && t == tail
      ensures hNext == if |chain| == 1 then UNDEFINED_NODE else chain[1]
      ensures sharedIdxs[..] == old(sharedIdxs[..])[2 * userID := h][2 * userID + 1 := hNext]
    {
      h := head;
      sharedIdxs[2 * userID] := h;
      t := tail;
      hNext := next[h];
      sharedIdxs[2 * userID + 1] := hNext;
      assert |chain| > 1 ==> next[chain[0]] == chain[1];
    }

    /** Lines 221-255: the head, and its successor or -1; tail is moved off the dummy if there is a message. */
    method FindFirst() returns (h: int, hNext: int)
      requires Arrays() && Valid()
      modifies this`tail, sharedIdxs
      ensures Valid() && Contents() == old(Contents())
      ensures h == head
      ensures hNext == if |chain| == 1 then UNDEFINED_NODE else chain[1]
      ensures |chain| > 1 ==> tail != h
      ensures sharedIdxs[..] == old(sharedIdxs[..])[2 * userID := h][2 * userID + 1 := hNext]
    {
      while true
        invariant List()
        invariant forall k :: 0 <= k < 2 * maxUser && k != 2 * userID && k != 2 * userID + 1 ==>
                    sharedIdxs[k] == old(sharedIdxs[k])
        modifies this`tail, sharedIdxs
        decreases if tail == chain[|chain| - 1] then 0 else 1
      {
        var t;
        h, t, hNext := ReadFirst();
        if hNext == UNDEFINED_NODE {
          return;
        }
        if h == t {
          TailOnDummy();
          tail := hNext;
          continue;
        }
        return;
      }
    }

    /** Lines 257-263. */
    method Pop(h: int, hNext: int) returns (msg: Msg)
      requires Arrays() && Valid() && |chain| > 1 && h == head != tail && hNext == chain[1]
      modifies this`head, this`chain
      ensures Valid() && chain == old(chain)[1..]
      ensures old(Contents()) == [msg] + Contents()
      ensures used[h] && h !in chain && h !in RList[..RCnt]
    {
      MessagesFront(chain, data[..]);
      head := hNext;
      chain := chain[1..];
      msg := data[hNext];
    }

    /** There is always room for the old head: the list is not in RList. */
    lemma RoomToRetire(h: int)
      requires Arrays() && Valid() && 0 <= h < numSlots && h !in chain && h !in RList[..RCnt]
      ensures RCnt < numSlots
    {
      var a := RList[..RCnt] + [h];
      assert forall k :: 0 <= k < RCnt ==> a[k] in RList[..RCnt];
      Pigeonhole(a, numSlots);
    }

    /**
     mpmcq_dequeue: it reports empty exactly if there is no message, and else takes the front one. It frees exactly
     its retired slots that no index names, and after a message has been taken the old head likewise.
     */
    method Dequeue() returns (msg: Option<Msg>)
      requires Arrays() && Valid()
      modifies this`head, this`tail, this`RCnt, this`chain, used, next, RList, TmpList, sharedIdxs
      ensures Valid()
      ensures RCnt <= 2 * maxUser
      ensures msg == None <==> old(Contents()) == []
      ensures msg == None ==> Contents() == old(Contents())
      ensures msg.Some? ==> old(Contents()) == [msg.value] + Contents()
      ensures sharedIdxs[..] == old(sharedIdxs[..])[2 * userID := old(head)]
                                 [2 * userID + 1 := if msg == None then UNDEFINED_NODE else head]
      ensures
        var kept := Named(old(RList[..RCnt]), old(sharedIdxs[..]));
        var swept := Cleared(old(used[..]), old(RList[..RCnt]), old(sharedIdxs[..]), false);
        if msg == None
        then chain == old(chain) && RList[..RCnt] == kept && used[..] == swept
        else && chain == old(chain)[1..]
             && RList[..RCnt] == Named(kept + [old(head)], sharedIdxs[..])
             && used[..] == Cleared(swept, kept + [old(head)], sharedIdxs[..], false)
    {
      Reclaim();
      var h, hNext := FindFirst();
      if hNext == UNDEFINED_NODE {
        return None;
      }
      var m := Pop(h, hNext);
      RoomToRetire(h);
      RetireNode(h);
      return Some(m);
    }
  }
}
