/** The ring buffer that the three queue programs share, the bounded first-in first-out queue it stands for,
    and the two critical sections that change it. */
module Rings {
  import opened Bytes
  import opened Messages

  /** The ring with its two indices, and the messages produced and consumed so far. The two counters of the
      program are the lengths of the two histories. */
  datatype Queue = Queue(slots: seq<Message>, head: nat, tail: nat, produced: seq<Message>, consumed: seq<Message>)

  /** Messages produced and not yet consumed. */
  function Occupancy(q: Queue): int { |q.produced| - |q.consumed| }

  // ----- arithmetic modulo the ring size

  lemma ProductSign(d: int, n: nat)
    ensures d >= 1 ==> d * n >= n
    ensures d <= -1 ==> d * n + n <= 0
  {
  }

  lemma Remainder(x: int, n: nat, d: int, r: int)
    requires n > 0 && x == d * n + r && 0 <= r < n
    ensures x % n == r && x / n == d
  {
    var e := x / n - d;
    assert e * n == r - x % n;
    ProductSign(e, n);
  }

  /** Nearby counts fall on different slots. */
  lemma SlotsDiffer(a: nat, b: nat, n: nat)
    requires a < b < a + n
    ensures a % n != b % n
  {
    var d := b / n - a / n;
    assert b - a == d * n + (b % n - a % n);
    ProductSign(d, n);
  }

  lemma NextSlot(a: nat, n: nat)
    requires n > 0
    ensures (a + 1) % n == (a % n + 1) % n
  {
    if a % n + 1 < n {
      Remainder(a + 1, n, a / n, a % n + 1);
      Remainder(a % n + 1, n, 0, a % n + 1);
    } else {
      Remainder(a + 1, n, a / n + 1, 0);
      Remainder(n, n, 1, 0);
    }
  }

  // ----- the ring

  ghost predicate QueueInv(n: nat, q: Queue) {
    && n > 0 && |q.slots| == n
    && |q.consumed| <= |q.produced| <= |q.consumed| + n
    && q.head == |q.consumed| % n && q.tail == |q.produced| % n
    && q.consumed == q.produced[..|q.consumed|]
    && forall k :: |q.consumed| <= k < |q.produced| ==> q.slots[k % n] == q.produced[k]
  }

  function EmptyQueue(slots: seq<Message>): Queue { Queue(slots, 0, 0, [], []) }

  /** The producer writes its message into the slot at `tail`. */
  function Fill(q: Queue, m: Message): Queue
    requires q.tail < |q.slots|
  {
    q.(slots := q.slots[q.tail := m])
  }

  /** The producer moves `tail` and counts the message. */
  function Advance(n: nat, q: Queue): Queue
    requires n > 0 && q.tail < |q.slots|
  {
    q.(tail := (q.tail + 1) % n, produced := q.produced + [q.slots[q.tail]])
  }

  /** The consumer, having copied message `m`, moves `head` and counts it. */
  function Take(n: nat, q: Queue, m: Message): Queue
    requires n > 0
  {
    q.(head := (q.head + 1) % n, consumed := q.consumed + [m])
  }

  /** With a free slot, the slot a producer writes holds no unread message. */
  lemma TailSlotIsFree(n: nat, q: Queue)
    requires QueueInv(n, q) && Occupancy(q) < n
    ensures forall k :: |q.consumed| <= k < |q.produced| ==> k % n != q.tail
  {
    forall k | |q.consumed| <= k < |q.produced| ensures k % n != q.tail { SlotsDiffer(k, |q.produced|, n); }
  }

  lemma FillKeeps(n: nat, q: Queue, m: Message)
    requires QueueInv(n, q) && Occupancy(q) < n
    ensures QueueInv(n, Fill(q, m)) && Fill(q, m).slots[q.tail] == m
  {
    TailSlotIsFree(n, q);
  }

  lemma AdvanceKeeps(n: nat, q: Queue)
    requires QueueInv(n, q) && Occupancy(q) < n
    ensures QueueInv(n, Advance(n, q)) && Occupancy(Advance(n, q)) == Occupancy(q) + 1
  {
    var q' := Advance(n, q);
    NextSlot(|q.produced|, n);
    assert q'.produced[..|q.consumed|] == q.produced[..|q.consumed|];
  }

  /** With an unread message, `head` holds the oldest one. */
  lemma HeadIsOldest(n: nat, q: Queue)
    requires QueueInv(n, q) && Occupancy(q) > 0
    ensures q.head < n && q.slots[q.head] == q.produced[|q.consumed|]
  {
  }

  lemma TakeKeeps(n: nat, q: Queue)
    requires QueueInv(n, q) && Occupancy(q) > 0
    ensures QueueInv(n, Take(n, q, q.slots[q.head])) && Occupancy(Take(n, q, q.slots[q.head])) == Occupancy(q) - 1
  {
    NextSlot(|q.consumed|, n);
    assert q.produced[..|q.consumed| + 1] == q.produced[..|q.consumed|] + [q.produced[|q.consumed|]];
  }

  // ----- the abstract queue

  /** What users of the queue see: the messages in it, oldest first, and the messages taken out so far. */
  datatype Fifo = Fifo(items: seq<Message>, taken: seq<Message>)

  function Abstract(q: Queue): Fifo
    requires |q.consumed| <= |q.produced|
  {
    Fifo(q.produced[|q.consumed|..], q.consumed)
  }

  predicate Enqueues(f: Fifo, f': Fifo) {
    |f'.items| == |f.items| + 1 && f'.items[..|f.items|] == f.items && f'.taken == f.taken
  }

  predicate Dequeues(f: Fifo, f': Fifo) {
    f.items != [] && f'.items == f.items[1..] && f'.taken == f.taken + [f.items[0]]
  }

  /** One step of a queue that never holds more than `bound` messages. */
  predicate FifoStep(bound: int, f: Fifo, f': Fifo) {
    f' == f || (|f.items| < bound && Enqueues(f, f')) || Dequeues(f, f')
  }

  lemma AdvanceEnqueues(n: nat, q: Queue)
    requires QueueInv(n, q) && Occupancy(q) < n
    ensures QueueInv(n, Advance(n, q)) && Enqueues(Abstract(q), Abstract(Advance(n, q)))
    ensures |Abstract(q).items| == Occupancy(q)
  {
    AdvanceKeeps(n, q);
    assert Advance(n, q).produced[|q.consumed|..] == q.produced[|q.consumed|..] + [q.slots[q.tail]];
  }

  lemma TakeDequeues(n: nat, q: Queue)
    requires QueueInv(n, q) && Occupancy(q) > 0
    ensures QueueInv(n, Take(n, q, q.slots[q.head])) && Dequeues(Abstract(q), Abstract(Take(n, q, q.slots[q.head])))
  {
    TakeKeeps(n, q);
    HeadIsOldest(n, q);
  }

  // ----- the status line

  /** Messages in the queue as the threaded programs compute it. In every reachable state both indices are below
      `n`, so the operand of % is not negative and the program's remainder is this one. */
  function UsedMod(n: nat, head: nat, tail: nat): nat
    requires n > 0
  {
    (tail - head + n) % n
  }

  /** Messages in the queue as the multi-process program computes it. */
  function UsedSplit(n: nat, head: nat, tail: nat): nat
    requires head < n && tail < n
  {
    if tail >= head then tail - head else n - head + tail
  }

  lemma SmallRemainder(x: nat, n: nat)
    requires x < n
    ensures x % n == x && (x + n) % n == x
  {
    Remainder(x, n, 0, x);
    Remainder(x + n, n, 1, x);
  }

  /** The two formulas agree for all indices. */
  lemma StatusFormulasAgree(n: nat, head: nat, tail: nat)
    requires head < n && tail < n
    ensures UsedMod(n, head, tail) == UsedSplit(n, head, tail)
  {
    if tail >= head { SmallRemainder(tail - head, n); } else { SmallRemainder(tail - head + n, n); }
  }

  /** On a consistent snapshot the status line shows the true number of messages, except that a completely
      full ring shows 0. */
  lemma StatusValue(n: nat, q: Queue)
    requires QueueInv(n, q)
    ensures q.head < n && q.tail < n
    ensures UsedMod(n, q.head, q.tail) == if Occupancy(q) == n then 0 else Occupancy(q)
  {
    StatusFormulasAgree(n, q.head, q.tail);
    RingDistance(|q.consumed|, |q.produced|, n);
  }

  lemma RingDistance(a: nat, b: nat, n: nat)
    requires n > 0 && a <= b <= a + n
    ensures UsedSplit(n, a % n, b % n) == if b - a == n then 0 else b - a
  {
    var x, d := a % n, b - a;
    if d == n {
      Remainder(b, n, a / n + 1, x);
    } else if x + d < n {
      Remainder(b, n, a / n, x + d);
    } else {
      Remainder(b, n, a / n + 1, x + d - n);
    }
  }

  // ----- the critical sections

  /** The shared ring as the programs keep it. */
  class SharedQueue {
    const slots: array<Message>
    var head: nat
    var tail: nat
    var producedCount: nat
    var consumedCount: nat
    ghost var produced: seq<Message>
    ghost var consumed: seq<Message>

    ghost function View(): Queue
      reads this, slots
    {
      Queue(slots[..], head, tail, produced, consumed)
    }

    ghost predicate Valid()
      reads this, slots
    {
      QueueInv(slots.Length, View()) && producedCount == |produced| && consumedCount == |consumed|
    }

    constructor (n: nat, blank: Message)
      requires n > 0
      ensures Valid() && fresh(slots) && slots.Length == n && View() == EmptyQueue(seq(n, _ => blank))
    {
      slots := new Message[n](_ => blank);
      head, tail, producedCount, consumedCount := 0, 0, 0, 0;
      produced, consumed := [], [];
      new;
      assert slots[..] == seq(n, _ => blank);
    }

    /** What a producer does while it holds the mutex: fill the slot at `tail`, move `tail`, count. */
    method Produce(kind: Byte, size: Byte, data: seq<Byte>) returns (producedNow: nat)
      requires Valid() && Occupancy(View()) < slots.Length && |data| == 256
      modifies this`tail, this`producedCount, this`produced, slots
      ensures Valid() && producedNow == producedCount == old(producedCount) + 1
      ensures exists m: Message :: m.kind == kind && m.size == size && m.data == data && Verifies(m)
                && View() == Advance(slots.Length, Fill(old(View()), m))
      ensures Enqueues(Abstract(old(View())), Abstract(View()))
    {
      ghost var was := View();
      var m := FillMessage(kind, size, data);
      FillKeeps(slots.Length, was, m);
      slots[tail] := m;
      assert View() == Fill(was, m);
      AdvanceKeeps(slots.Length, Fill(was, m));
      AdvanceEnqueues(slots.Length, Fill(was, m));
      produced := produced + [slots[tail]];
      tail := (tail + 1) % slots.Length;
      producedCount := producedCount + 1;
      producedNow := producedCount;
      assert View() == Advance(slots.Length, Fill(was, m));
    }

    /** What a consumer does while it holds the mutex: copy the message at `head`, move `head`, count. */
    method Consume() returns (msg: Message, consumedNow: nat)
      requires Valid() && Occupancy(View()) > 0
      modifies this`head, this`consumedCount, this`consumed
      ensures Valid() && consumedNow == consumedCount == old(consumedCount) + 1
      ensures msg == old(produced)[old(consumedCount)]
      ensures View() == Take(slots.Length, old(View()), msg)
      ensures Dequeues(Abstract(old(View())), Abstract(View()))
    {
      ghost var was := View();
      HeadIsOldest(slots.Length, was);
      TakeKeeps(slots.Length, was);
      TakeDequeues(slots.Length, was);
      msg := slots[head];
      head := (head + 1) % slots.Length;
      consumed := consumed + [msg];
      consumedCount := consumedCount + 1;
      consumedNow := consumedCount;
      assert View() == Take(slots.Length, was, msg);
    }

    /** The line the threaded programs print under the mutex. */
    method Used() returns (used: nat)
      requires Valid()
      ensures used == if Occupancy(View()) == slots.Length then 0 else Occupancy(View())
    {
      StatusValue(slots.Length, View());
      used := (tail - head + slots.Length) % slots.Length;
    }
  }
}
