/** The one-statement fan-out insert (app/domain/services/outbox.py). */
module Outbox {
  import opened Tables

  /** A delivery about to be inserted, under its public id. */
  type NewRow = (DeliveryId, Delivery)

  predicate SameKey(a: Delivery, b: Delivery) {
    a.partner == b.partner && a.idempotencyKey == b.idempotencyKey
  }

  /** One of the deliveries' unique constraints (public id, partner with idempotency key) fails. */
  predicate Conflicts(t: Tables, news: seq<NewRow>) {
    || (exists i :: 0 <= i < |news| && news[i].0 in t.deliveries)
    || (exists i, id :: 0 <= i < |news| && id in t.deliveries && SameKey(news[i].1, t.deliveries[id]))
    || (exists i, j :: 0 <= i < j < |news| && (news[i].0 == news[j].0 || SameKey(news[i].1, news[j].1)))
  }

  function InsertDeliveries(m: map<DeliveryId, Delivery>, news: seq<NewRow>): map<DeliveryId, Delivery> {
    if news == [] then m
    else InsertDeliveries(m, news[..|news| - 1])[news[|news| - 1].0 := news[|news| - 1].1]
  }

  function InsertAttempts(m: map<DeliveryId, set<int>>, news: seq<NewRow>): map<DeliveryId, set<int>> {
    if news == [] then m
    else InsertAttempts(m, news[..|news| - 1])[news[|news| - 1].0 := {}]
  }

  /** The envelopes joined to one inserted id: all pairs carrying that id, in order. */
  function Matching(id: DeliveryId, pairs: seq<(DeliveryId, DeliveryId)>): seq<OutboxRow> {
    if pairs == [] then []
    else Matching(id, pairs[..|pairs| - 1])
         + (if pairs[|pairs| - 1].0 == id then [OutboxRow(id, pairs[|pairs| - 1].1, false, 0)] else [])
  }

  /** INSERT ... SELECT over `inserted JOIN envelopes ON public_id`. */
  function Join(ids: seq<DeliveryId>, pairs: seq<(DeliveryId, DeliveryId)>): seq<OutboxRow> {
    if ids == [] then []
    else Join(ids[..|ids| - 1], pairs) + Matching(ids[|ids| - 1], pairs)
  }

  function Ids(news: seq<NewRow>): seq<DeliveryId> {
    seq(|news|, i requires 0 <= i < |news| => news[i].0)
  }

  /** `zip(deliveries, envelopes, strict=True)`. */
  function Pairs(news: seq<NewRow>, envelopes: seq<DeliveryId>): seq<(DeliveryId, DeliveryId)>
    requires |news| == |envelopes|
  {
    seq(|news|, i requires 0 <= i < |news| => (news[i].0, envelopes[i]))
  }

  function Inserted(t: Tables, news: seq<NewRow>, envelopes: seq<DeliveryId>): Tables
    requires |news| == |envelopes|
  {
    t.(deliveries := InsertDeliveries(t.deliveries, news),
       attempts := InsertAttempts(t.attempts, news),
       outbox := t.outbox + Join(Ids(news), Pairs(news, envelopes)))
  }

  datatype PersistError = CountMismatch | NothingToInsert | IntegrityError
  datatype PersistResult = Persisted(tables: Tables) | Refused(error: PersistError)

  function Persist(t: Tables, news: seq<NewRow>, envelopes: seq<DeliveryId>): PersistResult {
    if |news| != |envelopes| then Refused(CountMismatch)
    else if news == [] then Refused(NothingToInsert)
    else if Conflicts(t, news) then Refused(IntegrityError)
    else Persisted(Inserted(t, news, envelopes))
  }

  lemma {:induction false} InsertedDeliveries(m: map<DeliveryId, Delivery>, news: seq<NewRow>)
    requires forall i, j :: 0 <= i < j < |news| ==> news[i].0 != news[j].0
    requires forall i :: 0 <= i < |news| ==> news[i].0 !in m
    ensures forall i :: 0 <= i < |news| ==>
      news[i].0 in InsertDeliveries(m, news) && InsertDeliveries(m, news)[news[i].0] == news[i].1
    ensures forall id :: id in m ==> id in InsertDeliveries(m, news) && InsertDeliveries(m, news)[id] == m[id]
    ensures forall id :: id in InsertDeliveries(m, news) ==> id in m || exists i :: 0 <= i < |news| && news[i].0 == id
  {
    if news != [] {
      var front := news[..|news| - 1];
      InsertedDeliveries(m, front);
      assert forall i :: 0 <= i < |front| ==> front[i] == news[i];
      assert news[|news| - 1].0 in InsertDeliveries(m, news);
    }
  }

  lemma {:induction false} InsertedAttempts(m: map<DeliveryId, set<int>>, news: seq<NewRow>)
    requires forall i :: 0 <= i < |news| ==> news[i].0 !in m
    ensures forall i :: 0 <= i < |news| ==>
      news[i].0 in InsertAttempts(m, news) && InsertAttempts(m, news)[news[i].0] == {}
    ensures forall id :: id in m ==> id in InsertAttempts(m, news) && InsertAttempts(m, news)[id] == m[id]
    ensures forall id :: id in InsertAttempts(m, news) ==> id in m || exists i :: 0 <= i < |news| && news[i].0 == id
  {
    if news != [] {
      var front := news[..|news| - 1];
      InsertedAttempts(m, front);
      assert forall i :: 0 <= i < |front| ==> front[i] == news[i];
      assert news[|news| - 1].0 in InsertAttempts(m, news);
    }
  }

  lemma {:induction false} MatchingUnique(id: DeliveryId, pairs: seq<(DeliveryId, DeliveryId)>, k: nat)
    requires k < |pairs| && pairs[k].0 == id
    requires forall i :: 0 <= i < |pairs| && i != k ==> pairs[i].0 != id
    ensures Matching(id, pairs) == [OutboxRow(id, pairs[k].1, false, 0)]
  {
    var front := pairs[..|pairs| - 1];
    if k < |front| {
      MatchingUnique(id, front, k);
    } else {
      MatchingNone(id, front);
    }
  }

  lemma {:induction false} MatchingNone(id: DeliveryId, pairs: seq<(DeliveryId, DeliveryId)>)
    requires forall i :: 0 <= i < |pairs| ==> pairs[i].0 != id
    ensures Matching(id, pairs) == []
  {
    if pairs != [] {
      MatchingNone(id, pairs[..|pairs| - 1]);
    }
  }

  /** With distinct public ids the join is exactly the pairing: one row per delivery, in order,
      carrying the envelope zipped with that delivery. */
  lemma {:induction false} JoinPairs(ids: seq<DeliveryId>, pairs: seq<(DeliveryId, DeliveryId)>)
    requires |ids| <= |pairs|
    requires forall i :: 0 <= i < |ids| ==> ids[i] == pairs[i].0
    requires forall i, j :: 0 <= i < j < |pairs| ==> pairs[i].0 != pairs[j].0
    ensures |Join(ids, pairs)| == |ids|
    ensures forall i :: 0 <= i < |ids| ==> Join(ids, pairs)[i] == OutboxRow(ids[i], pairs[i].1, false, 0)
  {
    if ids != [] {
      JoinPairs(ids[..|ids| - 1], pairs);
      MatchingUnique(ids[|ids| - 1], pairs, |ids| - 1);
    }
  }

  /** The delivery rows after the insert: the old ones and the new ones, unchanged. */
  ghost predicate AddsDeliveries(m: map<DeliveryId, Delivery>, m': map<DeliveryId, Delivery>, news: seq<NewRow>) {
    && (forall id :: id in m' <==> id in m || exists i :: 0 <= i < |news| && news[i].0 == id)
    && (forall id :: id in m ==> m'[id] == m[id])
    && (forall i :: 0 <= i < |news| ==> news[i].0 !in m && m'[news[i].0] == news[i].1)
  }

  /** No attempt rows for the new deliveries. */
  ghost predicate AddsNoAttempts(m: map<DeliveryId, set<int>>, m': map<DeliveryId, set<int>>, news: seq<NewRow>) {
    && (forall id :: id in m' <==> id in m || exists i :: 0 <= i < |news| && news[i].0 == id)
    && (forall id :: id in m ==> m'[id] == m[id])
    && (forall i :: 0 <= i < |news| ==> m'[news[i].0] == {})
  }

  /** One unpublished outbox row per new delivery, carrying the envelope given for that delivery. */
  ghost predicate AddsRows(rows: seq<OutboxRow>, rows': seq<OutboxRow>, news: seq<NewRow>, envelopes: seq<DeliveryId>)
    requires |news| == |envelopes|
  {
    && |rows'| == |rows| + |news|
    && (forall i :: 0 <= i < |rows| ==> rows'[i] == rows[i])
    && (forall i :: 0 <= i < |news| ==> rows'[|rows| + i] == OutboxRow(news[i].0, envelopes[i], false, 0))
  }

  /** What a persisted batch adds. */
  ghost predicate AddsExactly(t: Tables, t': Tables, news: seq<NewRow>, envelopes: seq<DeliveryId>)
    requires |news| == |envelopes|
  {
    && AddsDeliveries(t.deliveries, t'.deliveries, news)
    && AddsNoAttempts(t.attempts, t'.attempts, news)
    && t'.deliveries.Keys == t'.attempts.Keys
    && AddsRows(t.outbox, t'.outbox, news, envelopes)
    && t'.deadLetters == t.deadLetters && t'.audits == t.audits
  }

  /** All or nothing: a persisted batch adds exactly its rows; a refused one adds none. */
  lemma PersistAddsExactly(t: Tables, news: seq<NewRow>, envelopes: seq<DeliveryId>)
    requires t.deliveries.Keys == t.attempts.Keys
    requires Persist(t, news, envelopes).Persisted?
    ensures AddsExactly(t, Persist(t, news, envelopes).tables, news, envelopes)
  {
    DistinctIds(t, news);
    InsertKeepsKeys(t, news);
    InsertAddsDeliveries(t.deliveries, news);
    InsertAddsAttempts(t.attempts, news);
    JoinAddsRows(t.outbox, news, envelopes);
  }

  /** When the insert is refused: counts that differ, nothing to insert, or a public id, or a partner's idempotency
      key, that is stored already or occurs twice. */
  lemma RefusedIff(t: Tables, news: seq<NewRow>, envelopes: seq<DeliveryId>)
    ensures var r := Persist(t, news, envelopes);
      && (r == Refused(CountMismatch) <==> |news| != |envelopes|)
      && (r == Refused(NothingToInsert) <==> |news| == |envelopes| == 0)
      && (r == Refused(IntegrityError) <==>
            && |news| == |envelopes| && |news| > 0
            && (|| (exists i :: 0 <= i < |news| && news[i].0 in t.deliveries)
                || (exists i, id :: 0 <= i < |news| && id in t.deliveries && SameUnique(news[i].1, t.deliveries[id]))
                || (exists i, j :: 0 <= i < j < |news| && news[i].0 == news[j].0)
                || (exists i, j :: 0 <= i < j < |news| && SameUnique(news[i].1, news[j].1))))
  {
    if exists i, j :: 0 <= i < j < |news| && (news[i].0 == news[j].0 || SameKey(news[i].1, news[j].1)) {
      var i, j :| 0 <= i < j < |news| && (news[i].0 == news[j].0 || SameKey(news[i].1, news[j].1));
      assert news[i].0 == news[j].0 || SameUnique(news[i].1, news[j].1);
    }
  }

  /** The columns of the deliveries' unique constraint agree. */
  predicate SameUnique(a: Delivery, b: Delivery) {
    (a.partner, a.idempotencyKey) == (b.partner, b.idempotencyKey)
  }

  lemma InsertAddsDeliveries(m: map<DeliveryId, Delivery>, news: seq<NewRow>)
    requires forall i, j :: 0 <= i < j < |news| ==> news[i].0 != news[j].0
    requires forall i :: 0 <= i < |news| ==> news[i].0 !in m
    ensures AddsDeliveries(m, InsertDeliveries(m, news), news)
  {
    InsertedDeliveries(m, news);
  }

  lemma InsertAddsAttempts(m: map<DeliveryId, set<int>>, news: seq<NewRow>)
    requires forall i :: 0 <= i < |news| ==> news[i].0 !in m
    ensures AddsNoAttempts(m, InsertAttempts(m, news), news)
  {
    InsertedAttempts(m, news);
  }

  lemma JoinAddsRows(rows: seq<OutboxRow>, news: seq<NewRow>, envelopes: seq<DeliveryId>)
    requires |news| == |envelopes|
    requires forall i, j :: 0 <= i < j < |news| ==> news[i].0 != news[j].0
    ensures AddsRows(rows, rows + Join(Ids(news), Pairs(news, envelopes)), news, envelopes)
  {
    JoinPairs(Ids(news), Pairs(news, envelopes));
  }

  lemma DistinctIds(t: Tables, news: seq<NewRow>)
    requires !Conflicts(t, news)
    ensures forall i :: 0 <= i < |news| ==> news[i].0 !in t.deliveries
    ensures forall i, j :: 0 <= i < j < |news| ==> news[i].0 != news[j].0
  {
  }

  lemma InsertKeepsKeys(t: Tables, news: seq<NewRow>)
    requires t.deliveries.Keys == t.attempts.Keys
    ensures InsertDeliveries(t.deliveries, news).Keys == InsertAttempts(t.attempts, news).Keys
  {
    if news != [] {
      InsertKeepsKeys(t, news[..|news| - 1]);
    }
  }
}
