/**
 The functions of src/sensorbuffer.c as they are written, for calls that do not overlap: the buffers hold the
 latest numBuffer updates, and a read returns the last one.
 */
module SensorbufferCode {
  import opened Common
  import opened Cyclic

  class Buffers {
    const numBuffer: nat
    var lastWritten: int
    const r: array<int>
    const v: array<int>
    const cells: array<Msg>

    /** Every message that was stored. */
    ghost var updates: seq<Msg>

    /** Update k is still in its buffer. */
    ghost predicate Stored(k: nat)
      requires k < |updates| && numBuffer >= 1 && v.Length == cells.Length == numBuffer
      reads this`updates, v, cells
    {
      Fundamental(k, numBuffer);
      v[k % numBuffer] == 1 && cells[k % numBuffer] == updates[k]
    }

    ghost predicate Valid()
      reads this, r, v, cells
    {
      && numBuffer >= 1 && r.Length == v.Length == cells.Length == numBuffer && r != v
      && lastWritten == (if updates == [] then -1 else (|updates| - 1) % numBuffer)
      && forall k: nat :: |updates| - numBuffer <= k < |updates| ==> Stored(k)
    }

    /** No update yet; the flags and the buffers hold anything. */
    constructor (numBuffer: nat)
      requires numBuffer >= 1
      ensures Valid() && updates == [] && this.numBuffer == numBuffer
      ensures fresh(r) && fresh(v) && fresh(cells)
    {
      this.numBuffer, lastWritten, updates := numBuffer, -1, [];
      r, v, cells := new int[numBuffer], new int[numBuffer], new Msg[numBuffer];
    }

    /** sensorbuffer_update: it overwrites the oldest of the latest numBuffer updates. */
    method Update(msg: Msg)
      requires Valid()
      modifies this`lastWritten, this`updates, r, v, cells
      ensures Valid() && updates == old(updates) + [msg]
      ensures lastWritten == (old(lastWritten) + 1) % numBuffer
      ensures r[..] == old(r[..])[lastWritten := 0] && v[..] == old(v[..])[lastWritten := 1]
      ensures cells[..] == old(cells[..])[lastWritten := msg]
    {
      ghost var n := |updates|;
      if n == 0 { Small(0, numBuffer); } else { Next(n - 1, numBuffer); }
      var current := (lastWritten + 1) % numBuffer;
      assert current == n % numBuffer;
      v[current] := 0;
      r[current] := 0;
      cells[current] := msg;
      v[current] := 1;
      lastWritten := current;
      updates := updates + [msg];
      forall k: nat | n + 1 - numBuffer <= k < n + 1 ensures Stored(k) {
        if k < n {
          assert old(Stored(k));
          if k % numBuffer == n % numBuffer { Apart(k, n, numBuffer); }
        }
      }
    }

    /** sensorbuffer_read: it fails exactly if there was no update, and else returns the last one. */
    method Read() returns (msg: Option<Msg>)
      requires Valid()
      modifies r
      ensures Valid()
      ensures msg == if updates == [] then None else Some(updates[|updates| - 1])
      ensures r[..] == if updates == [] then old(r[..]) else old(r[..])[lastWritten := 1]
    {
      var done := false;
      msg := None;
      while !done
        invariant Valid()
        invariant if done then 0 <= lastWritten < numBuffer && r[..] == old(r[..])[lastWritten := 1]
                  else r[..] == old(r[..])
        invariant done ==> updates != [] && msg == Some(updates[|updates| - 1])
        decreases !done
      {
        var current := lastWritten;
        if current == -1 {
          Fundamental(|updates| - 1, numBuffer);
          return None;
        }
        assert Stored(|updates| - 1);
        r[current] := 1;
        if v[current] == 1 {
          msg := Some(cells[current]);
          if r[current] == 1 {
            done := true;
          }
        }
      }
    }
  }
}
