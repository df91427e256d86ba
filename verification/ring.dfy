/** A circular buffer of `cap` places whose pointers run over twice that, as the UART and CAN FIFOs keep theirs. */
module Rings {

  datatype Ring<+T> = Ring(buf: seq<T>, head: nat, tail: nat) {
    function Cap(): nat { |buf| }

    /** Both pointers are in range and at most `cap` entries are held. */
    predicate Valid() { 0 < Cap() && head < 2 * Cap() && tail < 2 * Cap() && Count() <= Cap() }

    /** Entries held: the difference of the pointers, modulo twice the capacity. */
    function Count(): int { if tail <= head then head - tail else head + 2 * Cap() - tail }

    predicate IsEmpty() { head == tail }

    /** The low bits of a pointer. */
    function Place(p: int): int { if p < Cap() then p else p - Cap() }

    function Forward(p: nat, k: nat): int { if p + k < 2 * Cap() then p + k else p + k - 2 * Cap() }

    /** What the ring holds, oldest first. */
    function Contents(): seq<T>
      requires Valid()
    {
      seq(Count(), i requires 0 <= i < Count() => buf[Place(Forward(tail, i))])
    }

    function Push(x: T): Ring<T>
      requires 0 < Cap() && head < 2 * Cap()
    {
      Ring(buf[Place(head) := x], Forward(head, 1), tail)
    }

    function Pop(): Ring<T> { Ring(buf, head, Forward(tail, 1)) }

    function Front(): T
      requires 0 < Cap() && tail < 2 * Cap()
    {
      buf[Place(tail)]
    }
  }

  /** Pushing appends, as long as there is room. */
  lemma PushAppends<T>(r: Ring<T>, x: T)
    requires r.Valid() && r.Count() < r.Cap()
    ensures r.Push(x).Valid() && r.Push(x).Contents() == r.Contents() + [x]
  {
    var r' := r.Push(x);
    assert r'.Count() == r.Count() + 1;
    forall i | 0 <= i < r'.Count()
      ensures r'.Contents()[i] == (r.Contents() + [x])[i]
    {
      assert r'.Place(r'.Forward(r.tail, i)) == r.Place(r.Forward(r.tail, i));
    }
  }

  /** The front is the oldest entry and popping removes it. */
  lemma PopRemoves<T>(r: Ring<T>)
    requires r.Valid() && !r.IsEmpty()
    ensures r.Count() > 0 && r.Front() == r.Contents()[0]
    ensures r.Pop().Valid() && r.Pop().Contents() == r.Contents()[1..]
  {
    var r' := r.Pop();
    assert r'.Count() == r.Count() - 1;
    forall i | 0 <= i < r'.Count()
      ensures r'.Contents()[i] == r.Contents()[1..][i]
    {
      assert r'.Forward(r'.tail, i) == r.Forward(r.tail, i + 1);
    }
  }
}
