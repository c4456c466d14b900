/** Slots of a circular array: which tickets share one. */
module Slots {
  import opened Numbers

  function SlotOf(ticket: nat, capacity: Positive): (slot: nat)
    ensures slot < capacity
  {
    ticket % capacity
  }

  lemma SlotUnique(x: nat, y: nat, capacity: Positive)
    requires x <= y < x + capacity && SlotOf(x, capacity) == SlotOf(y, capacity)
    ensures x == y
  {
    var d := y / capacity - x / capacity;
    assert y - x == d * capacity;
    MultipleBounds(d, capacity);
  }

  lemma MultipleBounds(d: int, capacity: Positive)
    ensures d > 0 ==> d * capacity >= capacity
    ensures d < 0 ==> d * capacity + capacity <= 0
  {
  }

  /** The successor of a stored slot is the slot of the next ticket. */
  lemma NextSlot(ticket: nat, capacity: Positive)
    ensures SlotOf(SlotOf(ticket, capacity) + 1, capacity) == SlotOf(ticket + 1, capacity)
  {
    var q, r := ticket / capacity, ticket % capacity;
    assert ticket + 1 == q * capacity + (r + 1);
    SlotShift(r + 1, q, capacity);
  }

  lemma {:induction false} SlotShift(r: nat, q: nat, capacity: Positive)
    ensures 0 <= q * capacity + r
    ensures SlotOf(q * capacity + r, capacity) == SlotOf(r, capacity)
  {
    if q > 0 {
      SlotShift(r, q - 1, capacity);
      assert q * capacity + r == ((q - 1) * capacity + r) + capacity;
      AddCapacity((q - 1) * capacity + r, capacity);
    }
  }

  lemma AddCapacity(k: nat, capacity: Positive)
    ensures SlotOf(k + capacity, capacity) == SlotOf(k, capacity)
  {
    var q := k / capacity;
    assert k + capacity == (q + 1) * capacity + k % capacity;
    var q' := (k + capacity) / capacity;
    var d := q' - (q + 1);
    assert d * capacity == k % capacity - (k + capacity) % capacity;
    MultipleBounds(d, capacity);
  }
}
