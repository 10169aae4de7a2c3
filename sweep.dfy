/**
 * gigtune_auto_complete_after_timeout: on every request, up to 20 bookings
 * awaiting client confirmation are fetched, and each whose artist-completed
 * timestamp lies at least 48 hours in the past is marked completed, with the
 * sweep time as the client-confirmed time.
 */
module Sweep {
  import opened PostStore
  import opened Booking

  const AUTO_COMPLETE_SECONDS := 48 * 3600
  const SWEEP_BATCH := 20

  /** The sweep query's match: a booking post whose status is awaiting_client_confirmation. */
  predicate Awaiting(posts: map<int, Post>, t: MetaTable, id: int)
  {
    IsPostOfType(posts, id, BOOKING_TYPE) && Lookup(t, id, STATUS_KEY) == Some(Text(AWAITING))
  }

  /**
   * The ids get_posts returns: the first n ids of `order` (the query's date
   * order) that match. If a matching id is left out, the batch is full.
   */
  function Batch(posts: map<int, Post>, t: MetaTable, order: seq<int>, n: nat): (r: seq<int>)
    ensures |r| <= n
    ensures forall i :: 0 <= i < |r| ==> r[i] in order && Awaiting(posts, t, r[i])
    ensures forall id :: id in order && Awaiting(posts, t, id) && id !in r ==> |r| == n
  {
    if order == [] || n == 0 then []
    else if Awaiting(posts, t, order[0]) then [order[0]] + Batch(posts, t, order[1..], n - 1)
    else Batch(posts, t, order[1..], n)
  }

  /** The booking's artist-completed time is set and at least 48 hours before `now`. */
  predicate Due(t: MetaTable, id: int, now: int)
  {
    var completedAt := IntOf(Lookup(t, id, ARTIST_COMPLETED_AT_KEY));
    completedAt > 0 && now - completedAt >= AUTO_COMPLETE_SECONDS
  }

  function Step(t: MetaTable, id: int, now: int): MetaTable
  {
    if Due(t, id, now) then Put(Put(t, id, STATUS_KEY, Text(COMPLETED)), id, CLIENT_CONFIRMED_AT_KEY, Num(now as real))
    else t
  }

  /** The batch processed in order, each booking against the table left by the ones before it. */
  function Steps(t: MetaTable, ids: seq<int>, now: int): MetaTable
  {
    if ids == [] then t else Step(Steps(t, ids[..|ids| - 1], now), ids[|ids| - 1], now)
  }

  /** The meta table after one sweep at UTC time `now`. */
  function SweepWrites(posts: map<int, Post>, t: MetaTable, order: seq<int>, now: int): MetaTable
  {
    Steps(t, Batch(posts, t, order, SWEEP_BATCH), now)
  }

  method AutoCompleteAfterTimeout(s: Store, order: seq<int>, now: int)
    modifies s
    ensures s.meta == SweepWrites(old(s.posts), old(s.meta), order, now)
    ensures s.posts == old(s.posts)
  {
    var batch := Batch(s.posts, s.meta, order, SWEEP_BATCH);
    var i := 0;
    while i < |batch|
      invariant 0 <= i <= |batch|
      invariant s.posts == old(s.posts)
      invariant s.meta == Steps(old(s.meta), batch[..i], now)
    {
      var id := batch[i];
      assert batch[..i + 1][..i] == batch[..i];
      var completedAt := IntOf(Lookup(s.meta, id, ARTIST_COMPLETED_AT_KEY));
      if completedAt > 0 && now - completedAt >= AUTO_COMPLETE_SECONDS {
        s.UpdateMeta(id, STATUS_KEY, Text(COMPLETED));
        s.UpdateMeta(id, CLIENT_CONFIRMED_AT_KEY, Num(now as real));
      }
      i := i + 1;
    }
    assert batch[..|batch|] == batch;
  }

  /** The cell (id, key) after processing `ids`: completed with confirmation time `now` if due, otherwise untouched. */
  function Swept(t: MetaTable, ids: seq<int>, now: int, id: int, key: string): Option<Meta>
  {
    if id in ids && Due(t, id, now) && key == STATUS_KEY then Some(Text(COMPLETED))
    else if id in ids && Due(t, id, now) && key == CLIENT_CONFIRMED_AT_KEY then Some(Num(now as real))
    else Lookup(t, id, key)
  }

  /**
   * The effect of processing a batch on each cell: a due booking in the batch
   * becomes completed with client_confirmed_at = now; every other cell,
   * including every booking not due, keeps its value.
   */
  lemma {:induction false} StepsEffect(t: MetaTable, ids: seq<int>, now: int, id: int, key: string)
    ensures Lookup(Steps(t, ids, now), id, key) == Swept(t, ids, now, id, key)
    ensures Due(Steps(t, ids, now), id, now) == Due(t, id, now)
    decreases |ids|
  {
    if ids != [] {
      var front, last := ids[..|ids| - 1], ids[|ids| - 1];
      assert ids == front + [last];
      StepsEffect(t, front, now, id, key);
      StepsEffect(t, front, now, id, ARTIST_COMPLETED_AT_KEY);
      StepsEffect(t, front, now, last, ARTIST_COMPLETED_AT_KEY);
    }
  }

  /**
   * One sweep: every booking it fetched that is due is completed at `now`,
   * and every other cell of the store is left as it was.
   */
  lemma {:induction false} SweepEffect(posts: map<int, Post>, t: MetaTable, order: seq<int>, now: int, id: int, key: string)
    ensures var batch := Batch(posts, t, order, SWEEP_BATCH);
            Lookup(SweepWrites(posts, t, order, now), id, key) == Swept(t, batch, now, id, key)
    ensures |Batch(posts, t, order, SWEEP_BATCH)| <= SWEEP_BATCH
  {
    StepsEffect(t, Batch(posts, t, order, SWEEP_BATCH), now, id, key);
  }

  /** A batch with no due booking changes nothing. */
  lemma {:induction false} StepsUnchanged(t: MetaTable, ids: seq<int>, now: int)
    requires forall i :: 0 <= i < |ids| ==> !Due(t, ids[i], now)
    ensures Steps(t, ids, now) == t
    decreases |ids|
  {
    if ids != [] {
      StepsUnchanged(t, ids[..|ids| - 1], now);
    }
  }

  /**
   * No double application: a booking the first sweep completed no longer
   * matches the query, so a later sweep at any time leaves it alone.
   */
  lemma {:induction false} SweepDoesNotRevisit(posts: map<int, Post>, t: MetaTable, order: seq<int>, now: int, later: int, id: int, key: string)
    requires id in Batch(posts, t, order, SWEEP_BATCH) && Due(t, id, now)
    ensures var t1 := SweepWrites(posts, t, order, now);
            Lookup(SweepWrites(posts, t1, order, later), id, key) == Lookup(t1, id, key)
  {
    var t1 := SweepWrites(posts, t, order, now);
    SweepEffect(posts, t, order, now, id, STATUS_KEY);
    assert !Awaiting(posts, t1, id);
    SweepEffect(posts, t1, order, later, id, key);
  }

  /**
   * Idempotence: when the first sweep fetched every awaiting booking (fewer
   * than 20 were waiting), a second sweep at the same time changes nothing.
   */
  lemma {:induction false} SweepIdempotent(posts: map<int, Post>, t: MetaTable, order: seq<int>, now: int)
    requires |Batch(posts, t, order, SWEEP_BATCH)| < SWEEP_BATCH
    ensures var t1 := SweepWrites(posts, t, order, now);
            SweepWrites(posts, t1, order, now) == t1
  {
    var batch := Batch(posts, t, order, SWEEP_BATCH);
    var t1 := SweepWrites(posts, t, order, now);
    var batch2 := Batch(posts, t1, order, SWEEP_BATCH);
    forall i | 0 <= i < |batch2| ensures !Due(t1, batch2[i], now) {
      var id := batch2[i];
      StepsEffect(t, batch, now, id, STATUS_KEY);
      assert Awaiting(posts, t, id);
      assert id in batch;
    }
    StepsUnchanged(t1, batch2, now);
  }
}
