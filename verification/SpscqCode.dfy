/** The functions of src/spscq.c as they are written, for calls that do not overlap. */
module SpscqCode {
  import opened Common
  import opened Cyclic
  import opened Ring

  class Queue {
    const numSlots: nat
    var head: nat
    var nextSlot: nat
    const slots: array<Msg>

    /** The messages in the queue, front first. */
    ghost var contents: seq<Msg>

    ghost predicate Valid()
      reads this, slots
    {
      slots.Length == numSlots && Holds(slots[..], head, nextSlot, contents)
    }

    /** The initial state of spscq_get. */
    constructor (numSlots: nat)
      requires numSlots >= 1
      ensures Valid() && contents == [] && this.numSlots == numSlots && fresh(slots)
    {
      this.numSlots := numSlots;
      head, nextSlot, contents := 0, 0, [];
      slots := new Msg[numSlots];
      Small(0, numSlots);
    }

    /** spscq_enqueue: it fails exactly if numSlots - 1 messages are in the queue. */
    method Enqueue(msg: Msg) returns (ok: bool)
      requires Valid()
      modifies this`nextSlot, this`contents, slots
      ensures Valid()
      ensures ok <==> |old(contents)| < numSlots - 1
      ensures contents == if ok then old(contents) + [msg] else old(contents)
    {
      TailTells(slots[..], head, nextSlot, contents);
      if (nextSlot + 1) % numSlots == head {
        return false;
      }
      HoldsAppend(slots[..], head, nextSlot, contents, msg);
      Next(nextSlot, numSlots);
      slots[nextSlot] := msg;
      nextSlot := (nextSlot + 1) % numSlots;
      contents := contents + [msg];
      return true;
    }

    /** spscq_dequeue: it fails exactly if the queue is empty, and else takes the front message. */
    method Dequeue() returns (msg: Option<Msg>)
      requires Valid()
      modifies this`head, this`contents
      ensures Valid()
      ensures msg == None <==> old(contents) == []
      ensures msg == None ==> contents == old(contents)
      ensures msg.Some? ==> old(contents) == [msg.value] + contents
    {
      TailTells(slots[..], head, nextSlot, contents);
      if head == nextSlot {
        return None;
      }
      HoldsDrop(slots[..], head, nextSlot, contents);
      msg := Some(slots[head]);
      Next(head, numSlots);
      head := (head + 1) % numSlots;
      contents := contents[1..];
    }
  }
}
