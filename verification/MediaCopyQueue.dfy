/**
 The queue between the producer and the consumer, as the object the program has: a slice with a head
 index that is compacted in place. Its ghost `model` is the queue of `BufferedCopyModel`.
 */
module MediaCopyQueue {
  import opened Wrappers
  import opened MediaCopy
  import opened BufferedCopyModel
  import opened BufferedCopyResults

  /** What one locked section of `next` decides. */
  datatype Turn = Took(item: Item) | Refused | MustWait

  function LengthOf(i: Item): nat {
    if i.Data? then i.length else 0
  }

  lemma {:induction false} BytesFront(items: seq<Item>)
    requires |items| > 0
    ensures QueuedBytes(items) == LengthOf(items[0]) + QueuedBytes(items[1..])
  {
    if |items| > 1 {
      var n := |items| - 1;
      BytesFront(items[..n]);
      assert items[..n][1..] == items[1..][..n - 1];
    }
  }

  lemma BytesBack(items: seq<Item>, i: Item)
    ensures QueuedBytes(items + [i]) == QueuedBytes(items) + LengthOf(i)
  {
    assert (items + [i])[..|items|] == items;
  }

  class MediaBufferCopyQueue {
    /** A cleared entry is `None`. */
    var events: seq<Option<Item>>
    var head: nat
    var bytes: int
    var notify: bool
    var closing: bool
    const live: bool

    ghost var model: Queue

    ghost predicate Shaped(items: seq<Item>)
      reads this`events, this`head
    {
      && head <= |events| && |events| - head == |items|
      && (forall i :: 0 <= i < head ==> events[i] == None)
      && (forall i :: head <= i < |events| ==> events[i] == Some(items[i - head]))
    }

    /** The slice is at most a little longer than twice what it still holds. */
    predicate Compacted()
      reads this`events, this`head
    {
      head < 64 || 2 * head < |events|
    }

    ghost predicate Valid()
      reads this
    {
      && Shaped(model.items) && Compacted()
      && (head == |events| ==> head == 0)
      && model.notify == notify && model.closing == closing
      && bytes == (if live then QueuedBytes(model.items) else 0)
    }

    constructor (live: bool)
      ensures Valid() && this.live == live && model == Queue([], false, false, [], 0)
    {
      this.live := live;
      events, head, bytes := [], 0, 0;
      notify, closing := false, false;
      model := Queue([], false, false, [], 0);
    }

    /** Appends unless the queue is closing, and leaves a notification. */
    method Publish(item: Item, ghost event: Event) returns (ok: bool)
      requires Valid()
      modifies this
      ensures Valid() && ok == !old(closing) && model == Enqueue(old(model), item, event)
    {
      if closing {
        return false;
      }
      BytesBack(model.items, item);
      hide QueuedBytes;
      events := events + [Some(item)];
      if live && item.Data? {
        bytes := bytes + item.length;
      }
      notify := true;
      model := Enqueue(model, item, event);
      return true;
    }

    /** Drops the cleared front once it is worth it. */
    method CompactLocked(ghost items: seq<Item>)
      requires Shaped(items)
      modifies this`events, this`head
      ensures Shaped(items) && Compacted() && (head == |events| ==> head == 0)
    {
      if head == |events| {
        events, head := [], 0;
        return;
      }
      if head < 64 || head * 2 < |events| {
        return;
      }
      events := events[head..];
      head := 0;
    }

    /** One turn of the consumer at the queue. A done context refuses even a waiting event. */
    method TryNext(done: bool) returns (turn: Turn)
      requires Valid()
      modifies this
      ensures Valid()
      ensures match turn
        case Took(item) => !done && |old(model).items| > 0 && item == old(model).items[0] && model == Dequeue(old(model))
        case Refused => model == old(model) && (done || (|model.items| == 0 && closing))
        case MustWait => model == old(model) && !done && |model.items| == 0 && !closing
    {
      if head < |events| {
        if done {
          return Refused;
        }
        assert events[head] == Some(model.items[0]);
        var item := events[head].value;
        BytesFront(model.items);
        events := events[head := None];
        head := head + 1;
        if live && item.Data? {
          bytes := bytes - item.length;
        }
        model := Dequeue(model);
        CompactLocked(model.items);
        return Took(item);
      }
      if done || closing {
        return Refused;
      }
      return MustWait;
    }

    /** Closes the queue and hands over what it still holds. */
    method Close() returns (items: seq<Item>)
      requires Valid()
      modifies this
      ensures Valid() && items == old(model).items
      ensures model == old(model).(items := [], closing := true, notify := true)
    {
      closing := true;
      items := TakeAllLocked();
      if live && bytes != 0 {
        bytes := 0;
      }
      notify := true;
      model := model.(items := [], closing := true, notify := true);
    }

    method TakeAllLocked() returns (items: seq<Item>)
      requires Shaped(model.items)
      modifies this`events, this`head
      ensures items == model.items && events == [] && head == 0
    {
      items := [];
      for i := head to |events|
        invariant items == model.items[..i - head]
      {
        items := items + [events[i].value];
      }
      events, head := [], 0;
    }
  }

  /** The backing slice stays linear in the number of live events, and its indices fit the program's
      32-bit head as long as the live events do. */
  lemma BackingIsLinear(q: MediaBufferCopyQueue)
    requires q.Valid()
    ensures |q.events| <= 2 * |q.model.items| + 63
    ensures |q.model.items| <= 16386 ==> q.head <= |q.events| < 0x8000_0000
  {
  }
}
