/** Arrays that grow one element at a time and keep no capacity field: the capacity is recomputed from
    the length. */
module GrowableArrays {
  const SIZE_MAX: nat := 0xffff_ffff_ffff_ffff

  function Pow2(k: nat): (p: nat)
    ensures p >= 1
  {
    if k == 0 then 1 else 2 * Pow2(k - 1)
  }

  ghost predicate IsPow2(p: nat) {
    exists k: nat :: p == Pow2(k)
  }

  /** `p` is a power of two that holds `n` elements and is less than twice too large. */
  ghost predicate Tight(p: nat, n: nat) {
    n <= p < 2 * n && IsPow2(p)
  }

  lemma {:induction false} Pow2Apart(j: nat, k: nat)
    requires j < k
    ensures 2 * Pow2(j) <= Pow2(k)
  {
    if j < k - 1 {
      Pow2Apart(j, k - 1);
    }
  }

  lemma TightUnique(p: nat, q: nat, n: nat)
    requires Tight(p, n) && Tight(q, n)
    ensures p == q
  {
    var j: nat :| p == Pow2(j);
    var k: nat :| q == Pow2(k);
    if j < k {
      Pow2Apart(j, k);
    } else if k < j {
      Pow2Apart(k, j);
    }
  }

  /** The least power of two from `p` on that reaches `n`. */
  function Doubled(p: nat, n: nat): nat
    requires p > 0
    decreases n - p
  {
    if p >= n then p else Doubled(2 * p, n)
  }

  function NextPower(n: nat): nat {
    if n == 0 then 0 else Doubled(1, n)
  }

  lemma {:induction false} DoubledTight(k: nat, n: nat)
    requires n > 0 && Pow2(k) < 2 * n
    ensures Tight(Doubled(Pow2(k), n), n)
    decreases n - Pow2(k)
  {
    if Pow2(k) < n {
      assert Pow2(k + 1) == 2 * Pow2(k);
      DoubledTight(k + 1, n);
    }
  }

  lemma NextPowerTight(n: nat)
    requires n > 0
    ensures Tight(NextPower(n), n)
  {
    assert Pow2(0) == 1;
    DoubledTight(0, n);
  }

  /** An append reallocates exactly when the array is empty or its length is a power of two. */
  lemma ReallocatesExactly(n: nat)
    ensures NextPower(n + 1) != NextPower(n) <==> n == 0 || IsPow2(n)
  {
    NextPowerTight(n + 1);
    if n > 0 {
      NextPowerTight(n);
      if IsPow2(n) {
        assert Tight(n, n);
        TightUnique(n, NextPower(n), n);
      } else {
        assert NextPower(n) > n;
        TightUnique(NextPower(n), NextPower(n + 1), n + 1);
      }
    } else {
      assert Doubled(1, 1) == 1;
    }
  }

  /** `next_power_of_two()`; the assertion on its argument keeps the shift from overflowing. */
  method NextPowerOfTwo(n: nat) returns (p: nat)
    requires n <= SIZE_MAX / 2
    ensures p == NextPower(n) && p <= SIZE_MAX
    ensures n > 0 ==> Tight(p, n)
  {
    if n == 0 {
      return 0;
    }
    NextPowerTight(n);
    p := 1;
    while p < n
      invariant 0 < p < 2 * n && Doubled(p, n) == Doubled(1, n)
      decreases n - p
    {
      p := p * 2;
    }
  }

  class GrowableArray<T(0)> {
    var data: array<T>
    var len: nat

    ghost predicate Valid()
      reads this
    {
      data.Length == NextPower(len) && len <= SIZE_MAX / 2
    }

    ghost function Contents(): seq<T>
      requires Valid()
      reads this, data
    {
      if len == 0 then [] else NextPowerTight(len); data[..len]
    }

    constructor ()
      ensures Valid() && Contents() == []
    {
      data, len := new T[0], 0;
    }

    /** `add_one_element()`: room for one more, which the caller writes at `len - 1`. */
    method AddOneElement()
      requires Valid() && len < SIZE_MAX / 2
      modifies this
      ensures Valid() && len == old(len) + 1 && len <= data.Length
      ensures data[..len - 1] == old(Contents())
      ensures data == old(data) || fresh(data)
      ensures fresh(data) <==> old(len == 0 || IsPow2(len))
    {
      var capacity := NextPowerOfTwo(len);
      var nextCapacity := NextPowerOfTwo(len + 1);
      ReallocatesExactly(len);
      if nextCapacity != capacity {
        var newData := new T[nextCapacity];
        for i := 0 to len
          modifies newData
          invariant forall k :: 0 <= k < i ==> newData[k] == data[k]
        {
          newData[i] := data[i];
        }
        data := newData;
      }
      len := len + 1;
    }

    method Append(x: T)
      requires Valid() && len < SIZE_MAX / 2
      modifies this, data
      ensures Valid() && Contents() == old(Contents()) + [x]
    {
      AddOneElement();
      data[len - 1] := x;
      assert data[..len] == data[..len - 1] + [x];
    }
  }
}
