/**
 * The even split both invoice splitters use: n items go into k contiguous
 * groups, group i holding the items from floor(n*i/k) up to (excluding)
 * floor(n*(i+1)/k), and every quantity becomes ceil(q/k). Both splitters
 * choose k between 1 and 3.
 */
module Split {
  import opened JsCore

  /** Math.ceil(n / 2) for a count n. */
  function HalfUp(n: nat): (r: nat)
    ensures r == (n + 1) / 2
  {
    var c := Ceil(n as real / 2.0);
    assert c as real - 1.0 < n as real / 2.0 <= c as real;
    assert 2 * c - 2 < n <= 2 * c;
    c
  }

  /** Math.min(3, Math.ceil(n / 2)): the number of invoices for n selected items. */
  function GroupCount(n: nat): (k: nat)
    ensures k == if n == 0 then 0 else if n <= 2 then 1 else if n <= 4 then 2 else 3
  {
    if 3 <= HalfUp(n) then 3 else HalfUp(n)
  }

  /** Math.min(3, Math.max(1, Math.ceil(n / 2))): the number of deliveries for n line items. */
  function DeliveryCount(n: nat): (k: nat)
    ensures 1 <= k <= 3
    ensures n > 0 ==> k == GroupCount(n)
  {
    var h := if 1 >= HalfUp(n) then 1 else HalfUp(n);
    if 3 <= h then 3 else h
  }

  /** floor(n * i / k): where group i starts. */
  function Bound(n: nat, k: nat, i: nat): nat
    requires 1 <= k <= 3
  {
    n * i / k
  }

  lemma DivMonotone(a: nat, b: nat, k: nat)
    requires a <= b && 1 <= k <= 3
    ensures a / k <= b / k
  {
    if k == 2 {
      assert a / 2 <= b / 2;
    } else if k == 3 {
      assert a / 3 <= b / 3;
    }
  }

  lemma BoundStep(n: nat, k: nat, i: nat)
    requires 1 <= k <= 3
    ensures Bound(n, k, i) <= Bound(n, k, i + 1)
    ensures k <= n ==> Bound(n, k, i) + 1 <= Bound(n, k, i + 1)
  {
    var x := n * i;
    assert n * (i + 1) == x + n;
    DivMonotone(x, x + n, k);
    if k <= n {
      DivMonotone(x + k, x + n, k);
      assert (x + k) / k == x / k + 1 by {
        if k == 2 {
          assert (x + 2) / 2 == x / 2 + 1;
        } else if k == 3 {
          assert (x + 3) / 3 == x / 3 + 1;
        }
      }
    }
  }

  lemma {:induction false} BoundRange(n: nat, k: nat, i: nat)
    requires 1 <= k <= 3 && i <= k
    ensures Bound(n, k, i) <= n
    decreases k - i
  {
    if i == k {
      assert n * k / k == n by {
        if k == 2 {
          assert n * 2 / 2 == n;
        } else if k == 3 {
          assert n * 3 / 3 == n;
        }
      }
    } else {
      BoundRange(n, k, i + 1);
      BoundStep(n, k, i);
    }
  }

  /** `s.slice(floor(n*i/k), floor(n*(i+1)/k))` with n = |s|. */
  function Slice<T>(s: seq<T>, k: nat, i: nat): (r: seq<T>)
    requires 1 <= k <= 3 && i < k
    ensures |r| == Bound(|s|, k, i + 1) - Bound(|s|, k, i)
  {
    BoundStep(|s|, k, i);
    BoundRange(|s|, k, i + 1);
    s[Bound(|s|, k, i)..Bound(|s|, k, i + 1)]
  }

  /** The k groups, in order. */
  function Slices<T>(s: seq<T>, k: nat): (r: seq<seq<T>>)
    requires 1 <= k <= 3
    ensures |r| == k
  {
    seq(k, i requires 0 <= i < k => Slice(s, k, i))
  }

  /** The groups laid end to end. */
  function Flatten<T>(parts: seq<seq<T>>): seq<T>
  {
    if |parts| == 0 then [] else Flatten(parts[..|parts| - 1]) + parts[|parts| - 1]
  }

  lemma {:induction false} FlattenPrefix<T>(s: seq<T>, k: nat, j: nat)
    requires 1 <= k <= 3 && j <= k
    ensures Bound(|s|, k, j) <= |s|
    ensures Flatten(Slices(s, k)[..j]) == s[..Bound(|s|, k, j)]
  {
    BoundRange(|s|, k, j);
    if j > 0 {
      FlattenPrefix(s, k, j - 1);
      var parts := Slices(s, k)[..j];
      assert parts[..j - 1] == Slices(s, k)[..j - 1];
      BoundStep(|s|, k, j - 1);
      assert s[..Bound(|s|, k, j)] == s[..Bound(|s|, k, j - 1)] + Slice(s, k, j - 1);
    }
  }

  /**
   * The groups partition the items: laid end to end they give back the
   * whole sequence, so every item lands in exactly one group, contiguously
   * and in its original order.
   */
  lemma SlicesPartition<T>(s: seq<T>, k: nat)
    requires 1 <= k <= 3
    ensures Flatten(Slices(s, k)) == s
  {
    FlattenPrefix(s, k, k);
    assert Slices(s, k)[..k] == Slices(s, k);
    assert |s| * k / k == |s| by {
      BoundRange(|s|, k, k);
      if k == 2 {
        assert |s| * 2 / 2 == |s|;
      } else if k == 3 {
        assert |s| * 3 / 3 == |s|;
      }
    }
  }

  /** When there are at least as many items as groups, no group is empty. */
  lemma SlicesNonEmpty<T>(s: seq<T>, k: nat, i: nat)
    requires 1 <= k <= 3 && i < k && k <= |s|
    ensures |Slice(s, k, i)| >= 1
  {
    BoundStep(|s|, k, i);
  }

  /** The group counts never exceed the item count, so the split groups are all non-empty. */
  lemma GroupCountAtMostItems(n: nat)
    ensures GroupCount(n) <= n
    ensures n > 0 ==> DeliveryCount(n) <= n
  {
  }

  /** Math.ceil(q / k): each group's share of a quantity. */
  function Share(q: real, k: nat): (r: int)
    requires k >= 1
    ensures k as real * r as real >= q
    ensures q > 0.0 ==> r >= 1
    ensures q <= 0.0 ==> r <= 0
  {
    var r := Ceil(q / k as real);
    assert q / k as real <= r as real;
    assert k as real * (q / k as real) == q;
    r
  }

  /**
   * For a whole, non-negative quantity each share is at most the quantity;
   * a fractional quantity can be rounded above itself (0.5 split in two is 1).
   */
  lemma ShareAtMostWhole(q: int, k: nat)
    requires q >= 0 && k >= 1
    ensures Share(q as real, k) <= q
  {
    var r := Share(q as real, k);
    var x := q as real / k as real;
    assert x <= q as real by {
      assert q as real <= k as real * q as real;
    }
    assert r as real - 1.0 < x;
  }

  lemma ShareOfFractionExceeds()
    ensures Share(0.5, 2) == 1
  {
  }
}
