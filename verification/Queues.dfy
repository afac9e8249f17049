/** The FIFO queue behind the retry and failure handling. */
module Queues {
  import opened Prelude

  class Queue<T> {
    var items: seq<T>

    constructor ()
      ensures items == []
    {
      items := [];
    }

    method Enqueue(item: T)
      modifies this
      ensures items == old(items) + [item]
    {
      items := items + [item];
    }

    predicate IsEmpty()
      reads this
    {
      items == []
    }

    method Dequeue() returns (item: Option<T>)
      modifies this
      ensures old(items) == (if item.Some? then [item.value] else []) + items
      ensures item.None? ==> items == []
    {
      if IsEmpty() {
        return None;
      }
      item := Some(items[0]);
      items := items[1..];
    }
  }
}
