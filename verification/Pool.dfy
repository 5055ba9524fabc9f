/**
 The slots of src/mpmcq.c and src/lfmpscq.c: claiming a free one, and freeing the retired ones that no shared
 index names. The two files hold the same loops; they differ in the number of shared indexes.
 */
module Pool {
  import opened Common
  import opened Counting

  /** The entries of a retire list that some shared index names, in their order. */
  function Named(list: seq<int>, idxs: seq<int>): seq<int> {
    if list == [] then []
    else
      var rest := Named(list[..|list| - 1], idxs);
      if list[|list| - 1] in idxs then rest + [list[|list| - 1]] else rest
  }

  lemma {:induction false} NamedMembers(list: seq<int>, idxs: seq<int>)
    ensures forall n :: n in Named(list, idxs) <==> n in list && n in idxs
    ensures |Named(list, idxs)| <= |list|
  {
    if list != [] {
      NamedMembers(list[..|list| - 1], idxs);
      assert list == list[..|list| - 1] + [list[|list| - 1]];
    }
  }

  lemma NamedStep(list: seq<int>, j: nat, idxs: seq<int>)
    requires j < |list|
    ensures Named(list[..j + 1], idxs) == Named(list[..j], idxs) + if list[j] in idxs then [list[j]] else []
    ensures forall n :: n in list[..j + 1] <==> n in list[..j] || n == list[j]
    ensures |Named(list[..j], idxs)| <= j
  {
    assert list[..j + 1][..j] == list[..j];
    NamedMembers(list[..j], idxs);
  }

  lemma {:induction false} NamedDistinct(list: seq<int>, idxs: seq<int>)
    requires Distinct(list)
    ensures Distinct(Named(list, idxs))
  {
    if list != [] {
      var init := list[..|list| - 1];
      NamedDistinct(init, idxs);
      NamedMembers(init, idxs);
      assert list[|list| - 1] !in init;
    }
  }

  /** What TryRetire keeps is never longer than the array of shared indexes. */
  lemma NamedFits(list: seq<int>, idxs: seq<int>)
    requires Distinct(list)
    ensures |Named(list, idxs)| <= |idxs|
  {
    var kept := Named(list, idxs);
    NamedDistinct(list, idxs);
    NamedMembers(list, idxs);
    DistinctSize(kept);
    ValuesSize(idxs);
    SubsetSize(Values(kept), Values(idxs));
  }

  /** A per-slot field after TryRetire: cleared for the retired slots that no index names. */
  function Cleared<T>(before: seq<T>, list: seq<int>, idxs: seq<int>, clear: T): (after: seq<T>)
    ensures |after| == |before|
    ensures forall n :: 0 <= n < |before| ==> after[n] == if n in list && n !in idxs then clear else before[n]
  {
    seq(|before|, n requires 0 <= n < |before| => if n in list && n !in idxs then clear else before[n])
  }

  lemma ClearedStep<T>(before: seq<T>, list: seq<int>, j: nat, idxs: seq<int>, clear: T)
    requires j < |list| && 0 <= list[j] < |before|
    ensures Cleared(before, list[..j + 1], idxs, clear)
         == var a := Cleared(before, list[..j], idxs, clear); if list[j] in idxs then a else a[list[j] := clear]
  {
    NamedStep(list, j, idxs);
  }

  lemma NextCyclic(i: nat, n: nat)
    requires i < n
    ensures (i + 1) % n == if i + 1 < n then i + 1 else 0
  {
  }

  /** The messages on the list, front first: the data of every node but the dummy. */
  function Messages(chain: seq<int>, data: seq<Msg>): seq<Msg>
    requires forall k :: 0 <= k < |chain| ==> 0 <= chain[k] < |data|
  {
    if |chain| <= 1 then [] else Messages(chain[..|chain| - 1], data) + [data[chain[|chain| - 1]]]
  }

  lemma {:induction false} MessagesSame(chain: seq<int>, data: seq<Msg>, data': seq<Msg>)
    requires |data'| == |data|
    requires forall k :: 0 <= k < |chain| ==> 0 <= chain[k] < |data| && data'[chain[k]] == data[chain[k]]
    ensures Messages(chain, data') == Messages(chain, data)
  {
    if |chain| > 1 {
      MessagesSame(chain[..|chain| - 1], data, data');
    }
  }

  lemma {:induction false} MessagesFront(chain: seq<int>, data: seq<Msg>)
    requires |chain| >= 2 && forall k :: 0 <= k < |chain| ==> 0 <= chain[k] < |data|
    ensures Messages(chain, data) == [data[chain[1]]] + Messages(chain[1..], data)
  {
    var init := chain[..|chain| - 1];
    if |chain| == 2 {
      assert Messages(init, data) == [];
    } else {
      MessagesFront(init, data);
      assert init[1..] == chain[1..][..|chain| - 2];
    }
  }

  lemma {:induction false} MessagesLength(chain: seq<int>, data: seq<Msg>)
    requires forall k :: 0 <= k < |chain| ==> 0 <= chain[k] < |data|
    ensures |Messages(chain, data)| == if |chain| <= 1 then 0 else |chain| - 1
  {
    if |chain| > 1 {
      MessagesLength(chain[..|chain| - 1], data);
    }
  }

  // ----- The loops

  /** Going round from a one meets n before b. */
  predicate Between(a: int, n: int, b: int) {
    if a <= b then a <= n < b else n >= a || n < b
  }

  /** The scan begins at cursor and takes the first free slot it meets: it fails only if all of them are in use. */
  method GetFreeSlot(used: array<bool>, cursor: int) returns (slot: int, cursor': int)
    requires 0 <= cursor < used.Length
    modifies used
    ensures 0 <= cursor' < used.Length
    ensures slot == -1 ==>
              (forall n :: 0 <= n < used.Length ==> used[n]) && used[..] == old(used[..]) && cursor' == cursor
    ensures slot != -1 ==>
              && 0 <= slot < used.Length && !old(used[slot])
              && used[..] == old(used[..])[slot := true] && cursor' == slot
    ensures slot != -1 ==> forall n :: 0 <= n < used.Length && Between(cursor, n, slot) ==> old(used[n])
  {
    var n := used.Length;
    var cnt := 0;
    cursor' := cursor;
    while cnt < n
      invariant 0 <= cnt <= n
      invariant cursor' == if cursor + cnt < n then cursor + cnt else cursor + cnt - n
      invariant used[..] == old(used[..])
      invariant forall k :: cursor <= k < cursor + cnt && k < n ==> used[k]
      invariant forall k :: 0 <= k < cursor + cnt - n ==> used[k]
    {
      if !used[cursor'] {
        used[cursor'] := true;
        return cursor', cursor';
      }
      NextCyclic(cursor', n);
      cursor' := (cursor' + 1) % n;
      cnt := cnt + 1;
    }
    return -1, cursor';
  }

  /** The inner loop of the sweep: the first shared index that names n, or their number if none does. */
  method FindIndex(sharedIdxs: array<int>, n: int) returns (k: nat)
    ensures k <= sharedIdxs.Length && n !in sharedIdxs[..k]
    ensures k < sharedIdxs.Length <==> n in sharedIdxs[..]
    ensures k < sharedIdxs.Length ==> sharedIdxs[k] == n
  {
    k := 0;
    while k < sharedIdxs.Length
      invariant 0 <= k <= sharedIdxs.Length
      invariant n !in sharedIdxs[..k]
    {
      if sharedIdxs[k] == n {
        break;
      }
      k := k + 1;
    }
    assert k == sharedIdxs.Length ==> sharedIdxs[..k] == sharedIdxs[..];
  }

  method CopyList(from: array<int>, count: nat, to: array<int>)
    requires count <= from.Length == to.Length && from != to
    modifies to
    ensures to[..count] == from[..count]
  {
    var j := 0;
    while j < count
      invariant 0 <= j <= count
      invariant to[..j] == from[..j]
    {
      to[j] := from[j];
      j := j + 1;
    }
  }

  method FreeSlot(used: array<bool>, next: array<int>, n: int)
    requires 0 <= n < used.Length == next.Length
    modifies used, next
    ensures used[..] == old(used[..])[n := false]
    ensures next[..] == old(next[..])[n := UNDEFINED_NODE]
  {
    next[n] := UNDEFINED_NODE;
    used[n] := false;
  }

  /** The loop body of the sweep: a named slot stays in the list, any other is freed. */
  method SweepOne(rlist: array<int>, kept: nat, n: int, sharedIdxs: array<int>, used: array<bool>, next: array<int>)
    returns (kept': nat)
    requires kept < rlist.Length && 0 <= n < used.Length == next.Length
    requires rlist != next && rlist != sharedIdxs && next != sharedIdxs
    modifies rlist, used, next
    ensures kept' == if n in sharedIdxs[..] then kept + 1 else kept
    ensures rlist[..kept'] == old(rlist[..kept]) + if n in sharedIdxs[..] then [n] else []
    ensures used[..] == if n in sharedIdxs[..] then old(used[..]) else old(used[..])[n := false]
    ensures next[..] == if n in sharedIdxs[..] then old(next[..]) else old(next[..])[n := UNDEFINED_NODE]
  {
    var k := FindIndex(sharedIdxs, n);
    kept' := kept;
    if k < sharedIdxs.Length {
      rlist[kept] := n;
      kept' := kept + 1;
    } else {
      FreeSlot(used, next, n);
    }
  }

  /** Keeps exactly the retired slots that some shared index names, in their order, and frees exactly the others. */
  method Sweep(rlist: array<int>, rcnt: nat, tmp: array<int>, sharedIdxs: array<int>,
               used: array<bool>, next: array<int>)
    returns (kept: nat)
    requires rcnt <= rlist.Length == tmp.Length && used.Length == next.Length
    requires rlist != tmp && rlist != next && rlist != sharedIdxs
    requires tmp != next && tmp != sharedIdxs && next != sharedIdxs
    requires forall n :: n in rlist[..rcnt] ==> 0 <= n < used.Length
    modifies rlist, tmp, used, next
    ensures kept <= rcnt
    ensures rlist[..kept] == Named(old(rlist[..rcnt]), sharedIdxs[..])
    ensures used[..] == Cleared(old(used[..]), old(rlist[..rcnt]), sharedIdxs[..], false)
    ensures next[..] == Cleared(old(next[..]), old(rlist[..rcnt]), sharedIdxs[..], UNDEFINED_NODE)
  {
    ghost var list, idxs := rlist[..rcnt], sharedIdxs[..];
    CopyList(rlist, rcnt, tmp);
    kept := 0;
    var j := 0;
    assert list[..0] == [];
    while j < rcnt
      invariant 0 <= j <= rcnt == |list|
      invariant tmp[..rcnt] == list
      invariant kept <= j
      invariant rlist[..kept] == Named(list[..j], idxs)
      invariant used[..] == Cleared(old(used[..]), list[..j], idxs, false)
      invariant next[..] == Cleared(old(next[..]), list[..j], idxs, UNDEFINED_NODE)
    {
      var n := tmp[j];
      assert n == list[j] && n in list;
      NamedStep(list, j, idxs);
      ClearedStep(old(used[..]), list, j, idxs, false);
      ClearedStep(old(next[..]), list, j, idxs, UNDEFINED_NODE);
      kept := SweepOne(rlist, kept, n, sharedIdxs, used, next);
      j := j + 1;
    }
    assert list[..j] == list;
  }
}
