/** The stock ledger: how many units of a product are still free to hold.
    Nothing is cached; the amount is recomputed from the product's counters
    and the hold table on every request. */
module Ledger {
  import opened Domain

  /** A hold reserves stock of `pid` at time `now` when it is for that
      product, its stored status is `Active` and it has not yet expired.
      An expired hold that the sweep has not reached yet reserves nothing. */
  predicate Reserves(h: Hold, pid: ProductId, now: int)
  {
    h.productId == pid && h.status == Active && h.expiresAt > now
  }

  /** The quantity one hold takes out of the product's availability. */
  function Share(h: Hold, pid: ProductId, now: int): nat
  {
    if Reserves(h, pid, now) then h.qty else 0
  }

  /** The sum of `qty` over the holds that reserve `pid` at `now`. It never
      exceeds the `qty` of the whole table, and is zero when no hold
      reserves the product. */
  function ReservedQty(hs: seq<Hold>, pid: ProductId, now: int): (r: nat)
    ensures r <= SumQty(hs)
    ensures (forall k :: 0 <= k < |hs| ==> !Reserves(hs[k], pid, now)) ==> r == 0
    decreases |hs|
  {
    if hs == [] then 0
    else ReservedQty(hs[..|hs| - 1], pid, now) + Share(hs[|hs| - 1], pid, now)
  }

  /** Availability: stock not yet sold and not reserved by a live hold.
      It is an `int` because nothing in the engine keeps it non-negative.
      It never exceeds the unsold stock, and is all of it when no hold
      reserves the product. */
  function Available(p: Product, pid: ProductId, hs: seq<Hold>, now: int): (r: int)
    ensures r <= p.stockTotal - p.stockSold
    ensures (forall k :: 0 <= k < |hs| ==> !Reserves(hs[k], pid, now)) ==> r == p.stockTotal - p.stockSold
  {
    p.stockTotal - p.stockSold - ReservedQty(hs, pid, now)
  }

  // ---------------------------------------------------------------------
  // A reference definition: filter the holds first, then add up `qty`.

  /** The holds that reserve `pid` at `now`, in table order. */
  function Reserving(hs: seq<Hold>, pid: ProductId, now: int): (r: seq<Hold>)
    ensures |r| <= |hs|
    ensures forall h :: h in r <==> h in hs && Reserves(h, pid, now)
    ensures forall h :: multiset(r)[h] == if Reserves(h, pid, now) then multiset(hs)[h] else 0
    decreases |hs|
  {
    if hs == [] then []
    else
      var init, last := hs[..|hs| - 1], hs[|hs| - 1];
      assert hs == init + [last];
      Reserving(init, pid, now) + (if Reserves(last, pid, now) then [last] else [])
  }

  /** The plain sum of `qty` over a sequence of holds. */
  function SumQty(hs: seq<Hold>): nat
    decreases |hs|
  {
    if hs == [] then 0 else SumQty(hs[..|hs| - 1]) + hs[|hs| - 1].qty
  }

  lemma {:induction false} SumQtyAppend(a: seq<Hold>, b: seq<Hold>)
    ensures SumQty(a + b) == SumQty(a) + SumQty(b)
    decreases |b|
  {
    if b == [] {
      assert a + b == a;
    } else {
      var b' := b[..|b| - 1];
      assert (a + b)[..|a + b| - 1] == a + b';
      SumQtyAppend(a, b');
    }
  }

  /** The recursive sum agrees with "filter, then add up": only holds of the
      same product that are active and unexpired are counted. */
  lemma {:induction false} ReservedIsSumOfReserving(hs: seq<Hold>, pid: ProductId, now: int)
    ensures ReservedQty(hs, pid, now) == SumQty(Reserving(hs, pid, now))
    decreases |hs|
  {
    if hs != [] {
      var init, last := hs[..|hs| - 1], hs[|hs| - 1];
      ReservedIsSumOfReserving(init, pid, now);
      var tail := if Reserves(last, pid, now) then [last] else [];
      SumQtyAppend(Reserving(init, pid, now), tail);
      assert SumQty(tail) == Share(last, pid, now) by {
        if tail != [] { assert tail[..0] == []; }
      }
    }
  }

  // ---------------------------------------------------------------------
  // How the sum moves when the hold table changes.

  /** Appending a hold adds exactly its own share. */
  lemma ReservedAppend(hs: seq<Hold>, h: Hold, pid: ProductId, now: int)
    ensures ReservedQty(hs + [h], pid, now) == ReservedQty(hs, pid, now) + Share(h, pid, now)
  {
  }

  /** Replacing one hold trades its old share for its new one; every other
      hold keeps contributing what it did. */
  lemma {:induction false} ReservedUpdate(hs: seq<Hold>, i: nat, h: Hold, pid: ProductId, now: int)
    requires i < |hs|
    ensures ReservedQty(hs[i := h], pid, now) + Share(hs[i], pid, now)
         == ReservedQty(hs, pid, now) + Share(h, pid, now)
    decreases |hs|
  {
    var n := |hs|;
    if i == n - 1 {
      assert hs[i := h][..n - 1] == hs[..n - 1];
    } else {
      assert hs[i := h][..n - 1] == hs[..n - 1][i := h];
      ReservedUpdate(hs[..n - 1], i, h, pid, now);
    }
  }
}
