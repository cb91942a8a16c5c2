/**
 * var::Ring<T>: a fixed-capacity first-in/first-out circular buffer.
 *
 * The buffer has `count` slots. `head` is the slot the next push writes;
 * `tail` is the slot of the oldest item, except that `tail == count` is the
 * sentinel meaning "full", in which case the oldest item sits at `head`.
 * The abstract value is `Contents`, oldest item first (the item `back()`
 * returns) and newest last (the item `front()` returns).
 */
module RingBuffer {

  /** The contents after pushing `x` onto a ring holding `c` with `n` slots. */
  function PushSpec<T>(c: seq<T>, x: T, n: nat, overflow: bool): (r: seq<T>)
    requires 0 < n && |c| <= n
    ensures |r| <= n
    ensures |c| < n ==> |r| == |c| + 1
    ensures |c| == n ==> |r| == n
  {
    if |c| < n then c + [x]
    else if overflow then c[1..] + [x]
    else c
  }

  /** The contents after pushing every element of `d`, in index order. */
  function Feed<T>(c: seq<T>, d: seq<T>, n: nat, overflow: bool): (r: seq<T>)
    requires 0 < n && |c| <= n
    ensures |r| <= n
    decreases |d|
  {
    if d == [] then c else Feed(PushSpec(c, d[0], n, overflow), d[1..], n, overflow)
  }

  /** The last `n` elements of `s` (all of `s` when it is shorter). */
  function LastN<T>(s: seq<T>, n: nat): (r: seq<T>)
    ensures |r| == if |s| <= n then |s| else n
  {
    if |s| <= n then s else s[|s| - n..]
  }

  function Min(a: int, b: int): int { if a <= b then a else b }

  lemma LastNDropFront<T>(a: T, s: seq<T>, n: nat)
    requires n <= |s|
    ensures LastN([a] + s, n) == LastN(s, n)
  {
    assert ([a] + s)[|s| + 1 - n..] == s[|s| - n..];
  }

  /**
   * With overflow allowed, pushing a whole sequence keeps exactly the newest
   * `n` items: the oldest are the ones dropped.
   */
  lemma {:induction false} FeedWithOverflowKeepsNewest<T>(c: seq<T>, d: seq<T>, n: nat)
    requires 0 < n && |c| <= n
    ensures Feed(c, d, n, true) == LastN(c + d, n)
    decreases |d|
  {
    if d == [] {
      assert c + d == c;
    } else {
      var c' := PushSpec(c, d[0], n, true);
      FeedWithOverflowKeepsNewest(c', d[1..], n);
      if |c| < n {
        assert c' + d[1..] == c + d;
      } else {
        assert c + d == [c[0]] + (c' + d[1..]);
        LastNDropFront(c[0], c' + d[1..], n);
      }
    }
  }

  /**
   * With overflow refused, pushing a whole sequence keeps the items already
   * there and then the first items of `d` until the ring is full.
   */
  lemma {:induction false} FeedWithoutOverflowKeepsOldest<T>(c: seq<T>, d: seq<T>, n: nat)
    requires 0 < n && |c| <= n
    ensures Feed(c, d, n, false) == (c + d)[..Min(n, |c| + |d|)]
    decreases |d|
  {
    if d == [] {
      assert c + d == c;
    } else {
      var c' := PushSpec(c, d[0], n, false);
      FeedWithoutOverflowKeepsOldest(c', d[1..], n);
      if |c| < n {
        assert c' + d[1..] == c + d;
      } else {
        assert (c + d)[..n] == c;
        assert (c' + d[1..])[..n] == c;
      }
    }
  }

  /** Index arithmetic modulo the slot count, for an offset below twice the count. */
  lemma ModBelowTwice(k: nat, n: nat)
    requires 0 < n && k < 2 * n
    ensures k % n == if k < n then k else k - n
  {
    if k < n {
      assert k == 0 * n + k;
    } else {
      assert k == 1 * n + (k - n);
    }
  }

  class Ring<T(0)> {
    const buf: array<T>
    var head: nat
    var tail: nat
    var overflowAllowed: bool
    ghost var Contents: seq<T>

    /** count(): the number of slots. */
    function Count(): nat { buf.Length }

    function Wrap(k: nat): nat
      requires k < 2 * buf.Length
    {
      if k < buf.Length then k else k - buf.Length
    }

    /** The slot of the oldest item. */
    function Start(): nat
      reads this
    {
      if tail == buf.Length then head else tail
    }

    /** The number of items the indices encode. */
    function Size(): nat
      reads this
      requires tail <= buf.Length
    {
      if tail == buf.Length then buf.Length
      else if head >= tail then head - tail
      else head + buf.Length - tail
    }

    ghost predicate Valid()
      reads this, buf
    {
      && 0 < buf.Length
      && head < buf.Length
      && tail <= buf.Length
      && Size() <= buf.Length
      && |Contents| == Size()
      && forall i :: 0 <= i < |Contents| ==> Contents[i] == buf[Wrap(Start() + i)]
    }

    /** Ring(count): a ring that allocates its own `count` slots. */
    constructor (count: nat)
      requires 0 < count
      ensures Valid() && fresh(buf)
      ensures Count() == count && Contents == [] && overflowAllowed
      ensures head == 0 && tail == 0
    {
      buf := new T[count];
      head, tail := 0, 0;
      overflowAllowed := true;
      Contents := [];
    }

    /** Ring(buf, count): a ring over a buffer the caller provides. */
    constructor OnBuffer(b: array<T>)
      requires 0 < b.Length
      ensures Valid() && buf == b
      ensures Contents == [] && overflowAllowed
      ensures head == 0 && tail == 0
    {
      buf := b;
      head, tail := 0, 0;
      overflowAllowed := true;
      Contents := [];
    }

    function IsFull(): (r: bool)
      reads this, buf
      requires Valid()
      ensures r <==> |Contents| == Count()
    {
      tail == buf.Length
    }

    function IsEmpty(): (r: bool)
      reads this, buf
      requires Valid()
      ensures r <==> Contents == []
    {
      tail == head
    }

    /**
     * count_ready() exactly as written: on an empty ring (head == tail below
     * the sentinel) it falls into the last branch and reports `count`.
     */
    function CountReadyAsWritten(): (r: nat)
      reads this, buf
      requires Valid()
      ensures !IsEmpty() ==> r == |Contents|
      ensures IsEmpty() ==> r == Count()
    {
      if tail == buf.Length then buf.Length
      else if head > tail then head - tail
      else buf.Length - (tail - head)
    }

    /** count_ready() as intended: the number of items ready to pop. */
    function CountReady(): (r: nat)
      reads this, buf
      requires Valid()
      ensures r == |Contents| && r <= Count()
      ensures r == 0 <==> IsEmpty()
      ensures r == Count() <==> IsFull()
    {
      if tail == buf.Length then buf.Length
      else if head >= tail then head - tail
      else buf.Length - (tail - head)
    }

    method SetOverflowAllowed(value: bool)
      requires Valid()
      modifies this
      ensures Valid() && overflowAllowed == value
      ensures Contents == old(Contents) && head == old(head) && tail == old(tail)
    {
      overflowAllowed := value;
    }

    /**
     * at(pos) as written: the slot `(head + pos) % count`. Only on a full ring
     * is that the pos-th oldest item.
     */
    function At(pos: nat): (r: T)
      reads this, buf
      requires Valid() && pos < Count()
      ensures IsFull() ==> r == Contents[pos]
    {
      ModBelowTwice(head + pos, buf.Length);
      buf[(head + pos) % buf.Length]
    }

    /** at(pos) as documented: position 0 is the oldest valid item. */
    function AtOldest(pos: nat): (r: T)
      reads this, buf
      requires Valid() && pos < CountReady()
      ensures r == Contents[pos]
    {
      ModBelowTwice(Start() + pos, buf.Length);
      buf[(Start() + pos) % buf.Length]
    }

    /** back(): the oldest item. */
    function Back(): (r: T)
      reads this, buf
      requires Valid()
      ensures !IsEmpty() ==> r == Contents[0]
    {
      if tail == buf.Length then buf[head] else buf[tail]
    }

    /** front(): the newest item. */
    function Front(): (r: T)
      reads this, buf
      requires Valid()
      ensures !IsEmpty() ==> r == Contents[|Contents| - 1]
    {
      if head != 0 then buf[head - 1] else buf[buf.Length - 1]
    }

    /**
     * push(value): appends `value` as the newest item. A full ring drops its
     * oldest item when overflow is allowed and refuses the push otherwise.
     */
    method Push(value: T) returns (r: int)
      requires Valid()
      modifies this, buf
      ensures Valid() && overflowAllowed == old(overflowAllowed)
      ensures Contents == PushSpec(old(Contents), value, Count(), overflowAllowed)
      ensures old(|Contents|) < Count() ==> r == 0 && Contents == old(Contents) + [value]
      ensures old(|Contents|) == Count() && overflowAllowed ==>
                r == 0 && Contents == old(Contents)[1..] + [value]
      ensures old(|Contents|) == Count() && !overflowAllowed ==>
                r == -1 && Contents == old(Contents)
                && head == old(head) && tail == old(tail) && buf[..] == old(buf[..])
    {
      if tail == buf.Length && !overflowAllowed {
        return -1;
      }
      if tail == buf.Length {
        PushOverwriting(value);
      } else {
        PushIntoFree(value);
      }
      r := 0;
    }

    /** push on a ring with a free slot: the value goes there. */
    method PushIntoFree(value: T)
      requires Valid() && tail < buf.Length
      modifies this, buf
      ensures Valid() && overflowAllowed == old(overflowAllowed)
      ensures Contents == old(Contents) + [value]
    {
      var n := buf.Length;
      ghost var c := Contents;
      ghost var s := Start();
      buf[head] := value;
      head := if head + 1 == n then 0 else head + 1;
      if head == tail {
        tail := n;
      }
      Contents := c + [value];
      assert Start() == s;
      forall i | 0 <= i < |Contents|
        ensures Contents[i] == buf[Wrap(Start() + i)]
      {
        if i < |c| {
          assert Wrap(s + i) != old(head);
        }
      }
    }

    /** push on a full ring: the value overwrites the oldest item. */
    method PushOverwriting(value: T)
      requires Valid() && tail == buf.Length
      modifies this, buf
      ensures Valid() && overflowAllowed == old(overflowAllowed)
      ensures Contents == old(Contents)[1..] + [value]
    {
      var n := buf.Length;
      ghost var c := Contents;
      ghost var s := Start();
      buf[head] := value;
      head := if head + 1 == n then 0 else head + 1;
      Contents := c[1..] + [value];
      assert Start() == Wrap(s + 1);
      forall i | 0 <= i < |Contents|
        ensures Contents[i] == buf[Wrap(Start() + i)]
      {
        if i < n - 1 {
          assert Wrap(Start() + i) == Wrap(s + i + 1);
        }
      }
    }

    /** pop(): removes the oldest item; does nothing on an empty ring. */
    method Pop()
      requires Valid()
      modifies this
      ensures Valid() && overflowAllowed == old(overflowAllowed) && head == old(head)
      ensures old(Contents) == [] ==> Contents == [] && tail == old(tail)
      ensures old(Contents) != [] ==> Contents == old(Contents)[1..] && !IsFull()
    {
      var n := buf.Length;
      if head == tail {
        return;
      }
      ghost var s := Start();
      if tail == n {
        tail := head;
      }
      tail := if tail + 1 == n then 0 else tail + 1;
      Contents := Contents[1..];
      assert Start() == Wrap(s + 1);
      forall i | 0 <= i < |Contents|
        ensures Contents[i] == buf[Wrap(Start() + i)]
      {
        assert Wrap(Start() + i) == Wrap(s + i + 1);
      }
    }

    /**
     * operator<<(data): pushes the elements of `data` in index order, each
     * one under the rules of Push.
     */
    method PushAll(data: seq<T>)
      requires Valid()
      modifies this, buf
      ensures Valid() && overflowAllowed == old(overflowAllowed)
      ensures Contents == Feed(old(Contents), data, Count(), overflowAllowed)
    {
      var i := 0;
      while i < |data|
        invariant 0 <= i <= |data|
        invariant Valid() && overflowAllowed == old(overflowAllowed)
        invariant Feed(Contents, data[i..], Count(), overflowAllowed)
                  == Feed(old(Contents), data, Count(), overflowAllowed)
      {
        assert data[i..][0] == data[i] && data[i..][1..] == data[i + 1..];
        var _ := Push(data[i]);
        i := i + 1;
      }
      assert data[i..] == [];
    }

    /**
     * rotate_forward(): on a full ring, the newest item becomes the oldest;
     * otherwise returns -1 and changes nothing.
     */
    method RotateForward() returns (r: int)
      requires Valid()
      modifies this
      ensures Valid() && overflowAllowed == old(overflowAllowed)
      ensures old(IsFull()) ==>
                r == 0 && IsFull()
                && Contents == [old(Contents)[Count() - 1]] + old(Contents)[..Count() - 1]
      ensures !old(IsFull()) ==>
                r == -1 && Contents == old(Contents) && head == old(head) && tail == old(tail)
    {
      var n := buf.Length;
      if tail == n {
        ghost var c := Contents;
        head := if head != 0 then head - 1 else n - 1;
        Contents := [c[n - 1]] + c[..n - 1];
        forall i | 0 <= i < |Contents|
          ensures Contents[i] == buf[Wrap(Start() + i)]
        {
          if i == 0 {
            assert Wrap(old(head) + (n - 1)) == head;
          } else {
            assert Wrap(Start() + i) == Wrap(old(head) + (i - 1));
          }
        }
        return 0;
      }
      return -1;
    }

    /**
     * rotate_backward(): on a full ring, the oldest item becomes the newest;
     * otherwise returns -1 and changes nothing.
     */
    method RotateBackward() returns (r: int)
      requires Valid()
      modifies this
      ensures Valid() && overflowAllowed == old(overflowAllowed)
      ensures old(IsFull()) ==>
                r == 0 && IsFull() && Contents == old(Contents)[1..] + [old(Contents)[0]]
      ensures !old(IsFull()) ==>
                r == -1 && Contents == old(Contents) && head == old(head) && tail == old(tail)
    {
      var n := buf.Length;
      if tail == n {
        ghost var c := Contents;
        head := if head + 1 == n then 0 else head + 1;
        Contents := c[1..] + [c[0]];
        forall i | 0 <= i < |Contents|
          ensures Contents[i] == buf[Wrap(Start() + i)]
        {
          if i < n - 1 {
            assert Wrap(Start() + i) == Wrap(old(head) + i + 1);
          } else {
            assert Wrap(Start() + i) == old(head);
          }
        }
        return 0;
      }
      return -1;
    }

    /**
     * to_linear_data(): copies all `count` slots in at() order, so a full
     * ring yields its items oldest first.
     */
    method ToLinearData() returns (r: seq<T>)
      requires Valid()
      ensures |r| == Count()
      ensures forall i :: 0 <= i < Count() ==> r[i] == At(i)
      ensures IsFull() ==> r == Contents
    {
      r := [];
      var i := 0;
      while i < buf.Length
        invariant 0 <= i <= buf.Length
        invariant |r| == i
        invariant forall j :: 0 <= j < i ==> r[j] == At(j)
      {
        r := r + [At(i)];
        i := i + 1;
      }
    }
  }

  /** A client: two pushes, then reading the oldest item around one pop, see the items in push order. */
  method FifoOrder<T(0)>(x: T, y: T) returns (first: T, second: T)
    ensures first == x && second == y
  {
    var ring := new Ring<T>(2);
    var _ := ring.Push(x);
    var _ := ring.Push(y);
    first := ring.Back();
    ring.Pop();
    second := ring.Back();
  }

  /** A client: with overflow allowed a third push drops the oldest item. */
  method OverflowDropsOldest(x: int, y: int, z: int) returns (oldest: int, newest: int, ready: nat)
    ensures oldest == y && newest == z && ready == 2
  {
    var ring := new Ring<int>(2);
    var _ := ring.Push(x);
    var _ := ring.Push(y);
    var _ := ring.Push(z);
    oldest, newest, ready := ring.Back(), ring.Front(), ring.CountReady();
  }

  /**
   * Rotating any ring forward then backward restores its contents: on a
   * full ring both rotations succeed, on any other both return -1.
   */
  method RotateRoundTrip<T(0)>(ring: Ring<T>) returns (forward: int, backward: int)
    requires ring.Valid()
    modifies ring
    ensures ring.Valid() && ring.Contents == old(ring.Contents)
    ensures forward == backward && (forward == 0 <==> old(ring.IsFull()))
    ensures forward == 0 || forward == -1
  {
    ghost var c := ring.Contents;
    forward := ring.RotateForward();
    backward := ring.RotateBackward();
    if forward == 0 {
      assert ([c[|c| - 1]] + c[..|c| - 1])[1..] == c[..|c| - 1];
      assert c[..|c| - 1] + [c[|c| - 1]] == c;
    }
  }

  /**
   * The count_ready() defect: a freshly constructed ring of 4 slots holds no
   * item, yet count_ready() as written reports 4.
   */
  method CountReadyOnEmptyRing() returns (asWritten: nat, intended: nat)
    ensures asWritten == 4 && intended == 0
  {
    var ring := new Ring<int>(4);
    asWritten := ring.CountReadyAsWritten();
    intended := ring.CountReady();
  }

  /**
   * The at() discrepancy: after push 1, push 2, pop on a 2-slot ring the only
   * item is 2, but at(0) reads the slot of the popped 1.
   */
  method AtZeroIsNotOldest() returns (atZero: int, oldest: int)
    ensures atZero == 1 && oldest == 2
  {
    var ring := new Ring<int>(2);
    var _ := ring.Push(1);
    var _ := ring.Push(2);
    assert ring.At(0) == 1;
    ring.Pop();
    atZero := ring.At(0);
    oldest := ring.AtOldest(0);
  }
}
