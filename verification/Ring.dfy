/** A ring of slots: one slot stays empty, so that a full ring differs from an empty one. */
module Ring {
  import opened Cyclic

  ghost predicate At<T>(row: seq<T>, position: int, e: T)
    requires |row| >= 1
  {
    Fundamental(position, |row|);
    row[position % |row|] == e
  }

  /** The slots from head to tail hold mine. */
  ghost predicate Holds<T>(row: seq<T>, head: int, tail: int, mine: seq<T>) {
    && |mine| <= |row| - 1
    && 0 <= head < |row|
    && tail == (head + |mine|) % |row|
    && forall j :: 0 <= j < |mine| ==> At(row, head + j, mine[j])
  }

  lemma TailTells<T>(row: seq<T>, head: int, tail: int, mine: seq<T>)
    requires Holds(row, head, tail, mine)
    ensures head == tail <==> mine == []
    ensures (tail + 1) % |row| == head <==> |mine| == |row| - 1
    ensures 0 <= tail < |row|
    ensures mine != [] ==> row[head] == mine[0]
  {
    var c, n := |mine|, |row|;
    Small(head, n);
    Fundamental(head + c, n);
    Next(head + c, n);
    if c > 0 {
      assert At(row, head + 0, mine[0]);
      if head % n == (head + c) % n { Apart(head, head + c, n); }
    }
    if c + 1 == n { Round(head, n); }
    else if head % n == (head + c + 1) % n { Apart(head, head + c + 1, n); }
  }

  /** Writing the slot at tail and moving tail appends. */
  lemma HoldsAppend<T>(row: seq<T>, head: int, tail: int, mine: seq<T>, e: T)
    requires Holds(row, head, tail, mine) && |mine| < |row| - 1 && 0 <= tail < |row|
    ensures Holds(row[tail := e], head, (tail + 1) % |row|, mine + [e])
  {
    var c, n := |mine|, |row|;
    Next(head + c, n);
    forall j | 0 <= j < c + 1 ensures At(row[tail := e], head + j, (mine + [e])[j]) {
      Fundamental(head + j, n);
      if j < c {
        assert At(row, head + j, mine[j]);
        if (head + j) % n == tail { Apart(head + j, head + c, n); }
      }
    }
  }

  /** Moving head drops the front. */
  lemma HoldsDrop<T>(row: seq<T>, head: int, tail: int, mine: seq<T>)
    requires Holds(row, head, tail, mine) && mine != []
    ensures Holds(row, (head + 1) % |row|, tail, mine[1..])
  {
    var n := |row|;
    Small(head, n);
    Next(head, n);
    var head' := (head + 1) % n;
    SamePlace(head, |mine| - 1, n);
    forall j | 0 <= j < |mine| - 1 ensures At(row, head' + j, mine[1..][j]) {
      assert At(row, head + (j + 1), mine[j + 1]);
      SamePlace(head, j, n);
      Fundamental(head' + j, n);
    }
  }

  lemma SamePlace(head: int, j: int, n: int)
    requires 0 <= head < n && 0 <= j
    ensures ((head + 1) % n + j) % n == (head + 1 + j) % n
    ensures 0 <= (head + 1 + j) % n < n
  {
    Small(head, n);
    Next(head, n);
    Fundamental(head + 1 + j, n);
    if head + 1 == n { Round(j, n); }
  }
}
