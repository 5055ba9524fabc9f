/** What several of the modules need: messages, optional results, and the mark for no slot. */
module Common {

  // UNDEFINED_NODE of the source
  const UNDEFINED_NODE := -1

  datatype Option<T> = None | Some(value: T)

  /** A block of data words. */
  type Msg = seq<int>

  function Word(m: Msg, c: int): int {
    if 0 <= c < |m| then m[c] else 0
  }

  function SetWord(m: Msg, c: int, w: int): Msg {
    if 0 <= c < |m| then m[c := w] else m
  }

  /** Of the calls that were begun, those that returned with success; ok tells it of each that has returned. */
  function Successful<T>(begun: seq<T>, ok: seq<bool>): seq<T>
    requires |ok| <= |begun|
  {
    if ok == [] then []
    else
      var k := |ok| - 1;
      Successful(begun, ok[..k]) + if ok[k] then [begun[k]] else []
  }

  lemma {:induction false} SuccessfulSame<T>(begun: seq<T>, more: seq<T>, ok: seq<bool>)
    requires |ok| <= |begun| && begun <= more
    ensures Successful(more, ok) == Successful(begun, ok)
  {
    if ok != [] {
      SuccessfulSame(begun, more, ok[..|ok| - 1]);
    }
  }

  lemma SuccessfulNext<T>(begun: seq<T>, ok: seq<bool>, last: bool)
    requires |ok| < |begun|
    ensures Successful(begun, ok + [last]) == Successful(begun, ok) + if last then [begun[|ok|]] else []
  {
    assert (ok + [last])[..|ok|] == ok;
  }
}
