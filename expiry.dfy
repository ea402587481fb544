/** The expiration sweep, as values: which holds the sweep selects, and what
    it does to each of them. The sweep itself, which walks the selection and
    writes each row, is `FlashSale.Store.SweepExpired`. */
module Expiry {
  import opened Domain
  import opened Ledger

  /** The sweep's selection: holds still stored as `Active` whose expiry
      time is not after `now`. */
  predicate Due(h: Hold, now: int)
  {
    h.status == Active && h.expiresAt <= now
  }

  /** One hold after a sweep at `now`: it is never due again at `now`, and
      from `now` on it reserves exactly what it reserved before. */
  function Swept(h: Hold, now: int): (r: Hold)
    ensures r.productId == h.productId && r.qty == h.qty
    ensures r.expiresAt == h.expiresAt && r.createdAt == h.createdAt
    ensures r.status == if Due(h, now) then Expired else h.status
    ensures !Due(r, now)
    ensures forall pid: ProductId, t :: now <= t ==> Share(r, pid, t) == Share(h, pid, t)
  {
    if Due(h, now) then h.(status := Expired) else h
  }

  /** The whole hold table after a sweep at `now`: every hold is swept on
      its own, and the table keeps its length and order. */
  function SweptAll(hs: seq<Hold>, now: int): (r: seq<Hold>)
    ensures |r| == |hs|
    ensures forall k :: 0 <= k < |hs| ==> r[k] == Swept(hs[k], now)
    decreases |hs|
  {
    if hs == [] then [] else SweptAll(hs[..|hs| - 1], now) + [Swept(hs[|hs| - 1], now)]
  }

  /** The positions of the holds the sweep selects, in table order. */
  function DueIndices(hs: seq<Hold>, now: int): (r: seq<HoldId>)
    ensures forall k: nat :: k in r <==> k < |hs| && Due(hs[k], now)
    ensures forall a, b :: 0 <= a < b < |r| ==> r[a] < r[b]
    decreases |hs|
  {
    if hs == [] then []
    else
      var n := |hs| - 1;
      assert forall k: nat :: k < n ==> hs[..n][k] == hs[k];
      var init := DueIndices(hs[..n], now);
      assert forall a :: 0 <= a < |init| ==> init[a] in init;
      init + (if Due(hs[n], now) then [n] else [])
  }

  /** After a sweep no hold is left that a sweep at the same time would
      select. */
  lemma NothingDueAfterSweep(hs: seq<Hold>, now: int)
    ensures forall k :: 0 <= k < |hs| ==> !Due(SweptAll(hs, now)[k], now)
    ensures forall k: nat :: k !in DueIndices(SweptAll(hs, now), now)
  {
  }

  /** Sweeping twice at the same time changes nothing the second time. */
  lemma SweepIdempotent(hs: seq<Hold>, now: int)
    ensures SweptAll(SweptAll(hs, now), now) == SweptAll(hs, now)
  {
  }

  /** A hold the sweep demotes was reserving nothing at `now` or later, so
      the demotion does not change any product's reserved quantity from
      `now` on. */
  lemma {:induction false} SweepKeepsReserved(hs: seq<Hold>, now: int, pid: ProductId, t: int)
    requires now <= t
    ensures ReservedQty(SweptAll(hs, now), pid, t) == ReservedQty(hs, pid, t)
    decreases |hs|
  {
    if hs != [] {
      var n := |hs| - 1;
      var s := SweptAll(hs, now);
      assert s[..n] == SweptAll(hs[..n], now);
      SweepKeepsReserved(hs[..n], now, pid, t);
      assert Share(s[n], pid, t) == Share(hs[n], pid, t);
    }
  }

  /** Hence the sweep never changes a product's availability at `now` or
      later. */
  lemma {:induction false} SweepKeepsAvailable(p: Product, pid: ProductId, hs: seq<Hold>, now: int, t: int)
    requires now <= t
    ensures Available(p, pid, SweptAll(hs, now), t) == Available(p, pid, hs, t)
  {
    SweepKeepsReserved(hs, now, pid, t);
  }
}
