/**
 The token ring: a circular buffer of 256 slots, of which 255 can be used.
 Each method is one critical section under the ring's lock.
 */
module TokenRing {
  import opened Basics

  /** The queue that the slots from tail up to head, around the end, stand for. */
  function Queue(slots: seq<Text>, head: nat, tail: nat): (q: seq<Text>)
    requires |slots| == RING_SIZE && head < RING_SIZE && tail < RING_SIZE
    ensures |q| == if tail <= head then head - tail else RING_SIZE - tail + head
  {
    if tail <= head then slots[tail..head] else slots[tail..] + slots[..head]
  }

  /** Indices wrap around. */
  lemma Wrap(i: nat)
    requires i < RING_SIZE
    ensures (i + 1) % RING_SIZE == if i + 1 == RING_SIZE then 0 else i + 1
  {
  }

  /** Advancing the tail takes out the oldest token. */
  lemma Pop(slots: seq<Text>, head: nat, tail: nat)
    requires |slots| == RING_SIZE && head < RING_SIZE && tail < RING_SIZE && head != tail
    ensures Queue(slots, head, tail) == [slots[tail]] + Queue(slots, head, (tail + 1) % RING_SIZE)
  {
    Wrap(tail);
  }

  /** Filling the slot at head and advancing it adds the newest token; this needs a
      slot to stay unused. */
  lemma Push(slots: seq<Text>, head: nat, tail: nat, t: Text)
    requires |slots| == RING_SIZE && head < RING_SIZE && tail < RING_SIZE
    requires (head + 1) % RING_SIZE != tail
    ensures Queue(slots[head := t], (head + 1) % RING_SIZE, tail) == Queue(slots, head, tail) + [t]
  {
    Wrap(head);
  }

  /** What the loop of a drain stops with: the queue is used up or the batch is full. */
  lemma Split(was: seq<Text>, batch: seq<Text>, rest: seq<Text>)
    requires was == batch + rest && |batch| <= BATCH && (rest == [] || |batch| == BATCH)
    ensures batch == was[..BatchSize(was)] && rest == was[BatchSize(was)..]
  {
  }

  lemma Move(taken: seq<Text>, t: Text, rest: seq<Text>)
    ensures taken + ([t] + rest) == (taken + [t]) + rest
  {
  }

  class Ring {
    var text: array<Text>
    var head: nat
    var tail: nat
    var done: bool

    ghost predicate Valid()
      reads this, text
    {
      && text.Length == RING_SIZE && head < RING_SIZE && tail < RING_SIZE
      && forall i :: 0 <= i < RING_SIZE ==> |text[i]| < TEXT_MAX
    }

    /** The tokens in the ring, oldest first. */
    ghost function Contents(): (q: seq<Text>)
      requires text.Length == RING_SIZE && head < RING_SIZE && tail < RING_SIZE
      reads this, text
    {
      Queue(text[..], head, tail)
    }

    /** ring_init */
    constructor ()
      ensures Valid() && fresh(text) && Contents() == [] && !done
    {
      text := new Text[RING_SIZE](_ => "");
      head, tail, done := 0, 0, false;
    }

    predicate IsFull()
      reads this
    {
      (head + 1) % RING_SIZE == tail
    }

    predicate IsEmpty()
      reads this
    {
      head == tail
    }

    lemma FullAndEmpty()
      requires Valid()
      ensures IsFull() <==> |Contents()| == 255
      ensures IsEmpty() <==> Contents() == []
    {
    }

    /** ring_write once it no longer waits: there is room, or it must give up. */
    method Write(t: Text, cancel: bool, shutdown: bool) returns (rc: int)
      requires Valid()
      requires IsFull() ==> cancel || shutdown
      modifies this`head, text
      ensures Valid() && tail == old(tail)
      ensures rc == if cancel || shutdown then -1 else 0
      ensures Contents() == if rc == 0 then old(Contents()) + [Cut(t)] else old(Contents())
    {
      if cancel || shutdown {
        return -1;
      }
      Push(text[..], head, tail, Cut(t));
      var len := |t|;
      if len >= TEXT_MAX {
        len := TEXT_MAX - 1;
      }
      assert t[..len] == Cut(t);
      text[head] := t[..len];
      head := (head + 1) % RING_SIZE;
      return 0;
    }

    /** ring_read */
    method Read(size: nat) returns (got: bool, out: Text)
      requires Valid() && size > 0
      modifies this`tail
      ensures Valid() && head == old(head)
      ensures got == (old(Contents()) != [])
      ensures got ==> out == Fitted(old(Contents())[0], size) && Contents() == old(Contents())[1..]
      ensures !got ==> out == "" && Contents() == old(Contents())
    {
      if head == tail {
        return false, "";
      }
      Pop(text[..], head, tail);
      out := Fitted(text[tail], size);
      tail := (tail + 1) % RING_SIZE;
      return true, out;
    }

    /** One critical section of the drain: up to 32 tokens, oldest first. */
    method DrainBatch() returns (batch: seq<Text>)
      requires Valid()
      modifies this`tail
      ensures Valid() && head == old(head)
      ensures batch == old(Contents())[..BatchSize(old(Contents()))]
      ensures Contents() == old(Contents())[BatchSize(old(Contents()))..]
      ensures |batch| < BATCH ==> IsEmpty()
    {
      batch := [];
      ghost var slots := text[..];
      ghost var was := Queue(slots, head, tail);
      while head != tail && |batch| < BATCH
        invariant head == old(head) && tail < RING_SIZE && text[..] == slots
        invariant |batch| <= BATCH && batch + Queue(slots, head, tail) == was
        decreases BATCH - |batch|
      {
        var t := text[tail];
        Pop(slots, head, tail);
        assert t == was[|batch|];
        Move(batch, t, Queue(slots, head, (tail + 1) % RING_SIZE));
        batch := batch + [Cut(t)];
        tail := (tail + 1) % RING_SIZE;
      }
      Split(was, batch, Queue(slots, head, tail));
    }

    /** The whole drain while nobody writes: batches until one is short. */
    method DrainAll() returns (all: seq<Text>, rounds: nat)
      requires Valid()
      modifies this`tail
      ensures Valid() && Contents() == [] && all == old(Contents())
      ensures rounds == |all| / BATCH + 1
    {
      all, rounds := [], 0;
      ghost var was := Contents();
      ghost var left := was;
      Begun(was);
      var more := true;
      while more
        invariant Valid() && text == old(text) && left == Contents()
        invariant Underway(was, all, left, rounds, more)
        decreases more, |left|
      {
        var batch := DrainBatch();
        Further(was, all, left, rounds);
        left := left[|batch|..];
        all, rounds := all + batch, rounds + 1;
        more := |batch| == BATCH;
      }
      assert all + [] == all;
      Rounds(|all|, rounds);
    }
  }

  /** The drain has taken `all` in full batches, except that the last one is short. */
  ghost predicate Underway(was: seq<Text>, all: seq<Text>, left: seq<Text>, rounds: nat, more: bool) {
    && was == all + left
    && if more then |all| == BATCH * rounds
       else BATCH * (rounds - 1) <= |all| < BATCH * rounds && left == []
  }

  lemma Begun(was: seq<Text>)
    ensures Underway(was, [], was, 0, true)
  {
  }

  lemma Further(was: seq<Text>, all: seq<Text>, left: seq<Text>, rounds: nat)
    requires Underway(was, all, left, rounds, true)
    ensures var k := BatchSize(left);
            && Underway(was, all + left[..k], left[k..], rounds + 1, k == BATCH)
            && |left[..k]| == k && (k == BATCH ==> |left[k..]| < |left|)
  {
    assert left == left[..BatchSize(left)] + left[BatchSize(left)..];
  }

  /** The number of batches, of which only the last is short. */
  lemma Rounds(n: nat, rounds: nat)
    requires BATCH * (rounds - 1) <= n < BATCH * rounds
    ensures rounds == n / BATCH + 1
  {
  }

  // ----- a batch is the same as reading one by one -----

  /** n calls of ring_read on a queue of tokens that fit their slots. */
  function Reads(queue: seq<Text>, n: nat): (seq<Text>, seq<Text>) {
    if n == 0 || queue == [] then ([], queue)
    else
      var (taken, rest) := Reads(queue[1..], n - 1);
      ([Fitted(queue[0], TEXT_MAX)] + taken, rest)
  }

  lemma {:induction false} BatchIsReads(queue: seq<Text>, n: nat)
    requires forall t :: t in queue ==> |t| < TEXT_MAX
    ensures var k := if |queue| < n then |queue| else n;
            Reads(queue, n) == (queue[..k], queue[k..])
  {
    if n > 0 && queue != [] {
      BatchIsReads(queue[1..], n - 1);
      var k := if |queue| < n then |queue| else n;
      assert queue[..k] == [queue[0]] + queue[1..][..k - 1];
      assert queue[k..] == queue[1..][k - 1..];
    }
  }
}
