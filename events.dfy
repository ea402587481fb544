/** The payment-event table: an append-only log of processed webhook calls,
    whose idempotency key is unique. */
module Events {
  import opened Domain

  /** A key the request validation treats as absent: empty, or made only of
      the characters PHP's `trim` strips (space, tab, line feed, carriage
      return, NUL and vertical tab). */
  predicate Blank(key: string)
  {
    forall i :: 0 <= i < |key| ==> key[i] in {' ', '\t', '\n', '\r', '\0', '\U{B}'}
  }

  /** The unique index on `idempotency_key`: no two events share a key. */
  predicate UniqueKeys(es: seq<PaymentEvent>)
  {
    forall i, j :: 0 <= i < j < |es| ==> es[i].key != es[j].key
  }

  /** The first event recorded under `key`, if any. */
  function FindByKey(es: seq<PaymentEvent>, key: string): (r: Option<nat>)
    ensures r.Some? ==> r.value < |es| && es[r.value].key == key
    ensures r.Some? ==> forall i :: 0 <= i < r.value ==> es[i].key != key
    ensures r.None? <==> forall i :: 0 <= i < |es| ==> es[i].key != key
    decreases |es|
  {
    if es == [] then None
    else if es[0].key == key then Some(0)
    else match FindByKey(es[1..], key)
      case None => None
      case Some(i) => Some(i + 1)
  }

  /** Under unique keys the event found is the only one with that key. */
  lemma UniqueKeyFound(es: seq<PaymentEvent>, key: string, j: nat)
    requires UniqueKeys(es)
    requires j < |es| && es[j].key == key
    ensures FindByKey(es, key) == Some(j)
  {
  }

  /** Recording an event under a key not yet used keeps the keys unique, and
      a later lookup of that key finds the new event. */
  lemma {:induction false} RecordFresh(es: seq<PaymentEvent>, e: PaymentEvent)
    requires UniqueKeys(es)
    requires FindByKey(es, e.key).None?
    ensures UniqueKeys(es + [e])
    ensures FindByKey(es + [e], e.key) == Some(|es|)
  {
    UniqueKeyFound(es + [e], e.key, |es|);
  }
}
