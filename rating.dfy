/**
 * gigtune_handle_rating_submission: a client rates a completed booking on two
 * axes (performance and reliability), each kept on the artist profile as a
 * running mean with a count; the booking is then locked against re-rating.
 */
module Rating {
  import opened PhpMath
  import opened PostStore
  import opened Booking

  const PERF_AVG_KEY := "gigtune_performance_rating_avg"
  const PERF_COUNT_KEY := "gigtune_performance_rating_count"
  const REL_AVG_KEY := "gigtune_reliability_rating_avg"
  const REL_COUNT_KEY := "gigtune_reliability_rating_count"
  const RATING_SUBMITTED_KEY := "gigtune_rating_submitted"

  /** Every guard of the handler, for already-absint'ed ids. */
  predicate RatingAllowed(posts: map<int, Post>, t: MetaTable, booking: int, artist: int, perf: int, rel: int)
  {
    && booking > 0 && artist > 0
    && IsPostOfType(posts, booking, BOOKING_TYPE)
    && Lookup(t, booking, STATUS_KEY) == Some(Text(COMPLETED))
    && !Truthy(Lookup(t, booking, RATING_SUBMITTED_KEY))
    && 1 <= perf <= 5 && 1 <= rel <= 5
  }

  /** The incremental mean: (avg*cnt + score)/(cnt + 1). */
  function Mean(avg: real, cnt: int, score: int): real
    requires cnt + 1 != 0
  {
    (avg * cnt as real + score as real) / (cnt + 1) as real
  }

  /** The stored mean: the incremental mean rounded to two decimals. */
  function NextAverage(avg: real, cnt: int, score: int): real
    requires cnt + 1 != 0
  {
    Round2(Mean(avg, cnt, score))
  }

  /**
   * One axis: the new mean and count written to the artist. None when the
   * stored count is -1: the division by zero aborts the request there.
   */
  function AxisWrites(t: MetaTable, artist: int, avgKey: string, countKey: string, score: int): Option<MetaTable>
  {
    var avg := FloatOf(Lookup(t, artist, avgKey));
    var cnt := IntOf(Lookup(t, artist, countKey));
    if cnt + 1 == 0 then None
    else Some(Put(Put(t, artist, avgKey, Num(NextAverage(avg, cnt, score))), artist, countKey, Num((cnt + 1) as real)))
  }

  /** The meta table after a rating submission with the posted booking id, artist id and scores. */
  function RatingWrites(posts: map<int, Post>, t: MetaTable, bookingRaw: int, artistRaw: int, perf: int, rel: int): MetaTable
  {
    var booking := Absint(bookingRaw);
    var artist := Absint(artistRaw);
    if !RatingAllowed(posts, t, booking, artist, perf, rel) then t
    else
      match AxisWrites(t, artist, PERF_AVG_KEY, PERF_COUNT_KEY, perf)
      case None => t
      case Some(t1) =>
        match AxisWrites(t1, artist, REL_AVG_KEY, REL_COUNT_KEY, rel)
        case None => t1
        case Some(t2) => Put(t2, booking, RATING_SUBMITTED_KEY, Num(1.0))
  }

  /** One axis of the handler: read the mean and count, stop on a zero divisor, write both back. */
  method UpdateAxis(s: Store, artist: int, avgKey: string, countKey: string, score: int) returns (ok: bool)
    modifies s
    ensures ok == AxisWrites(old(s.meta), artist, avgKey, countKey, score).Some?
    ensures ok ==> s.meta == AxisWrites(old(s.meta), artist, avgKey, countKey, score).value
    ensures !ok ==> s.meta == old(s.meta)
    ensures s.posts == old(s.posts)
  {
    var avg := FloatOf(Lookup(s.meta, artist, avgKey));
    var cnt := IntOf(Lookup(s.meta, artist, countKey));
    if cnt + 1 == 0 {
      return false;
    }
    s.UpdateMeta(artist, avgKey, Num(NextAverage(avg, cnt, score)));
    s.UpdateMeta(artist, countKey, Num((cnt + 1) as real));
    ok := true;
  }

  method SubmitRating(s: Store, bookingRaw: int, artistRaw: int, perf: int, rel: int)
    modifies s
    ensures s.meta == RatingWrites(old(s.posts), old(s.meta), bookingRaw, artistRaw, perf, rel)
    ensures s.posts == old(s.posts)
  {
    var booking := Absint(bookingRaw);
    var artist := Absint(artistRaw);
    if booking <= 0 || artist <= 0 {
      return;
    }
    if !IsPostOfType(s.posts, booking, BOOKING_TYPE) {
      return;
    }
    if Lookup(s.meta, booking, STATUS_KEY) != Some(Text(COMPLETED)) {
      return;
    }
    if Truthy(Lookup(s.meta, booking, RATING_SUBMITTED_KEY)) {
      return;
    }
    if perf < 1 || perf > 5 || rel < 1 || rel > 5 {
      return;
    }

    var ok := UpdateAxis(s, artist, PERF_AVG_KEY, PERF_COUNT_KEY, perf);
    if !ok {
      return;
    }
    ok := UpdateAxis(s, artist, REL_AVG_KEY, REL_COUNT_KEY, rel);
    if !ok {
      return;
    }
    s.UpdateMeta(booking, RATING_SUBMITTED_KEY, Num(1.0));
  }

  /** Stored rating counts that the registration defaults and this handler can produce. */
  predicate CountsValid(t: MetaTable, artist: int)
  {
    IntOf(Lookup(t, artist, PERF_COUNT_KEY)) >= 0 && IntOf(Lookup(t, artist, REL_COUNT_KEY)) >= 0
  }

  /** A submission that fails any guard changes nothing. */
  lemma RatingGuarded(posts: map<int, Post>, t: MetaTable, bookingRaw: int, artistRaw: int, perf: int, rel: int)
    requires !RatingAllowed(posts, t, Absint(bookingRaw), Absint(artistRaw), perf, rel)
    ensures RatingWrites(posts, t, bookingRaw, artistRaw, perf, rel) == t
  {
  }

  /** The cells a successful submission writes: the artist's four rating cells and the booking's lock. */
  predicate WrittenByRating(artist: int, booking: int, other: int, key: string)
  {
    || (other == artist && (key == PERF_AVG_KEY || key == PERF_COUNT_KEY || key == REL_AVG_KEY || key == REL_COUNT_KEY))
    || (other == booking && key == RATING_SUBMITTED_KEY)
  }

  /**
   * A successful submission: each axis's count grows by exactly one, its mean
   * becomes (avg*cnt + score)/(cnt + 1) rounded to two decimals, and the
   * booking is locked.
   */
  lemma {:induction false} RatingUpdatesBothAxes(posts: map<int, Post>, t: MetaTable, bookingRaw: int, artistRaw: int, perf: int, rel: int)
    requires RatingAllowed(posts, t, Absint(bookingRaw), Absint(artistRaw), perf, rel)
    requires CountsValid(t, Absint(artistRaw))
    ensures var r := RatingWrites(posts, t, bookingRaw, artistRaw, perf, rel);
            var a := Absint(artistRaw);
            var pCnt := IntOf(Lookup(t, a, PERF_COUNT_KEY));
            var rCnt := IntOf(Lookup(t, a, REL_COUNT_KEY));
            && IntOf(Lookup(r, a, PERF_COUNT_KEY)) == pCnt + 1
            && IntOf(Lookup(r, a, REL_COUNT_KEY)) == rCnt + 1
            && FloatOf(Lookup(r, a, PERF_AVG_KEY)) == NextAverage(FloatOf(Lookup(t, a, PERF_AVG_KEY)), pCnt, perf)
            && FloatOf(Lookup(r, a, REL_AVG_KEY)) == NextAverage(FloatOf(Lookup(t, a, REL_AVG_KEY)), rCnt, rel)
            && Truthy(Lookup(r, Absint(bookingRaw), RATING_SUBMITTED_KEY))
            && forall other, key :: !WrittenByRating(a, Absint(bookingRaw), other, key) ==> Lookup(r, other, key) == Lookup(t, other, key)
  {
    var a := Absint(artistRaw);
    RatingSucceeds(posts, t, bookingRaw, artistRaw, perf, rel);
    SuccessCells(t, a, Absint(bookingRaw), perf, rel);
    RatingFrame(posts, t, bookingRaw, artistRaw, perf, rel);
  }

  lemma {:induction false} AxisCells(t: MetaTable, artist: int, avgKey: string, countKey: string, score: int, otherKey: string)
    requires avgKey != countKey
    requires IntOf(Lookup(t, artist, countKey)) >= 0
    ensures var cnt := IntOf(Lookup(t, artist, countKey));
            var r := AxisWrites(t, artist, avgKey, countKey, score);
            && r.Some?
            && IntOf(Lookup(r.value, artist, countKey)) == cnt + 1
            && FloatOf(Lookup(r.value, artist, avgKey)) == NextAverage(FloatOf(Lookup(t, artist, avgKey)), cnt, score)
            && (otherKey != avgKey && otherKey != countKey ==> Lookup(r.value, artist, otherKey) == Lookup(t, artist, otherKey))
  {
    var cnt := IntOf(Lookup(t, artist, countKey));
    assert IntOf(Some(Num((cnt + 1) as real))) == cnt + 1;
  }

  /** The writes of a submission that passes every guard, on counts that are not -1. */
  function SuccessWrites(t: MetaTable, artist: int, booking: int, perf: int, rel: int): MetaTable
    requires CountsValid(t, artist)
  {
    AxisCells(t, artist, PERF_AVG_KEY, PERF_COUNT_KEY, perf, REL_COUNT_KEY);
    var t1 := AxisWrites(t, artist, PERF_AVG_KEY, PERF_COUNT_KEY, perf).value;
    AxisCells(t1, artist, REL_AVG_KEY, REL_COUNT_KEY, rel, PERF_AVG_KEY);
    Put(AxisWrites(t1, artist, REL_AVG_KEY, REL_COUNT_KEY, rel).value, booking, RATING_SUBMITTED_KEY, Num(1.0))
  }

  lemma RatingSucceeds(posts: map<int, Post>, t: MetaTable, bookingRaw: int, artistRaw: int, perf: int, rel: int)
    requires RatingAllowed(posts, t, Absint(bookingRaw), Absint(artistRaw), perf, rel)
    requires CountsValid(t, Absint(artistRaw))
    ensures RatingWrites(posts, t, bookingRaw, artistRaw, perf, rel) == SuccessWrites(t, Absint(artistRaw), Absint(bookingRaw), perf, rel)
  {
    var a := Absint(artistRaw);
    AxisCells(t, a, PERF_AVG_KEY, PERF_COUNT_KEY, perf, REL_COUNT_KEY);
    var t1 := AxisWrites(t, a, PERF_AVG_KEY, PERF_COUNT_KEY, perf);
    AxisCells(t1.value, a, REL_AVG_KEY, REL_COUNT_KEY, rel, PERF_AVG_KEY);
    var t2 := AxisWrites(t1.value, a, REL_AVG_KEY, REL_COUNT_KEY, rel);
    assert t1.Some? && t2.Some?;
  }

  lemma {:induction false} SuccessCells(t: MetaTable, a: int, booking: int, perf: int, rel: int)
    requires CountsValid(t, a)
    ensures var r := SuccessWrites(t, a, booking, perf, rel);
            var pCnt := IntOf(Lookup(t, a, PERF_COUNT_KEY));
            var rCnt := IntOf(Lookup(t, a, REL_COUNT_KEY));
            && IntOf(Lookup(r, a, PERF_COUNT_KEY)) == pCnt + 1
            && IntOf(Lookup(r, a, REL_COUNT_KEY)) == rCnt + 1
            && FloatOf(Lookup(r, a, PERF_AVG_KEY)) == NextAverage(FloatOf(Lookup(t, a, PERF_AVG_KEY)), pCnt, perf)
            && FloatOf(Lookup(r, a, REL_AVG_KEY)) == NextAverage(FloatOf(Lookup(t, a, REL_AVG_KEY)), rCnt, rel)
            && Truthy(Lookup(r, booking, RATING_SUBMITTED_KEY))
  {
    AxisCells(t, a, PERF_AVG_KEY, PERF_COUNT_KEY, perf, REL_AVG_KEY);
    AxisCells(t, a, PERF_AVG_KEY, PERF_COUNT_KEY, perf, REL_COUNT_KEY);
    var t1 := AxisWrites(t, a, PERF_AVG_KEY, PERF_COUNT_KEY, perf).value;
    AxisCells(t1, a, REL_AVG_KEY, REL_COUNT_KEY, rel, PERF_AVG_KEY);
    AxisCells(t1, a, REL_AVG_KEY, REL_COUNT_KEY, rel, PERF_COUNT_KEY);
    assert RATING_SUBMITTED_KEY != PERF_AVG_KEY && RATING_SUBMITTED_KEY != PERF_COUNT_KEY;
    assert RATING_SUBMITTED_KEY != REL_AVG_KEY && RATING_SUBMITTED_KEY != REL_COUNT_KEY;
  }

  /** Whatever the outcome, a submission writes no cell outside the four rating cells of the artist and the booking's lock. */
  lemma RatingFrame(posts: map<int, Post>, t: MetaTable, bookingRaw: int, artistRaw: int, perf: int, rel: int)
    ensures var r := RatingWrites(posts, t, bookingRaw, artistRaw, perf, rel);
            forall other, key :: !WrittenByRating(Absint(artistRaw), Absint(bookingRaw), other, key)
              ==> Lookup(r, other, key) == Lookup(t, other, key)
  {
    var a := Absint(artistRaw);
    forall other, key | !WrittenByRating(a, Absint(bookingRaw), other, key)
      ensures Lookup(RatingWrites(posts, t, bookingRaw, artistRaw, perf, rel), other, key) == Lookup(t, other, key)
    {
      AxisFrame(t, a, PERF_AVG_KEY, PERF_COUNT_KEY, perf, other, key);
      var t1 := AxisWrites(t, a, PERF_AVG_KEY, PERF_COUNT_KEY, perf);
      if t1.Some? {
        AxisFrame(t1.value, a, REL_AVG_KEY, REL_COUNT_KEY, rel, other, key);
      }
    }
  }

  /** An axis write touches only that axis's two cells of the artist. */
  lemma AxisFrame(t: MetaTable, artist: int, avgKey: string, countKey: string, score: int, other: int, key: string)
    requires other != artist || (key != avgKey && key != countKey)
    ensures var r := AxisWrites(t, artist, avgKey, countKey, score);
            r.Some? ==> Lookup(r.value, other, key) == Lookup(t, other, key)
  {
  }

  /**
   * Write-once: after a successful submission any further submission for the
   * same booking, with any artist id and scores, is a no-op.
   */
  lemma {:induction false} RatingWriteOnce(posts: map<int, Post>, t: MetaTable, bookingRaw: int, artistRaw: int, perf: int, rel: int,
                                           artistRaw2: int, perf2: int, rel2: int)
    requires RatingAllowed(posts, t, Absint(bookingRaw), Absint(artistRaw), perf, rel)
    requires CountsValid(t, Absint(artistRaw))
    ensures var r := RatingWrites(posts, t, bookingRaw, artistRaw, perf, rel);
            RatingWrites(posts, r, bookingRaw, artistRaw2, perf2, rel2) == r
  {
    var r := RatingWrites(posts, t, bookingRaw, artistRaw, perf, rel);
    RatingUpdatesBothAxes(posts, t, bookingRaw, artistRaw, perf, rel);
    assert Truthy(Lookup(r, Absint(bookingRaw), RATING_SUBMITTED_KEY));
    RatingGuarded(posts, r, bookingRaw, artistRaw2, perf2, rel2);
  }

  /** A mean in [0, 5] stays in [0, 5] after a score in 1..5 is folded in. */
  lemma {:induction false} AverageStaysInRange(avg: real, cnt: int, score: int)
    requires 0.0 <= avg <= 5.0 && cnt >= 0 && 1 <= score <= 5
    ensures 0.0 <= NextAverage(avg, cnt, score) <= 5.0
  {
    MeanWithin(avg, cnt, score);
    Round2Within(Mean(avg, cnt, score), 0, 5);
  }

  lemma MeanWithin(avg: real, cnt: int, score: int)
    requires 0.0 <= avg <= 5.0 && cnt >= 0 && 1 <= score <= 5
    ensures 0.0 <= Mean(avg, cnt, score) <= 5.0
  {
    var c := cnt as real;
    var p := avg * c;
    assert 0.0 <= p by { MulNonNegative(avg, c); }
    assert p <= 5.0 * c by {
      MulNonNegative(5.0 - avg, c);
      assert (5.0 - avg) * c == 5.0 * c - p;
    }
    QuotientWithin(p + score as real, (cnt + 1) as real, 5.0);
  }

  lemma MulNonNegative(x: real, y: real)
    requires x >= 0.0 && y >= 0.0
    ensures x * y >= 0.0
  {
  }

  lemma MulPositive(x: real, y: real)
    requires x > 0.0 && y > 0.0
    ensures x * y > 0.0
  {
  }

  lemma QuotientWithin(x: real, n: real, hi: real)
    requires n > 0.0 && 0.0 <= x <= hi * n
    ensures 0.0 <= x / n <= hi
  {
    var q := x / n;
    assert q * n == x;
    if q < 0.0 {
      MulNonNegative(-q, n);
    }
    if q > hi {
      MulPositive(q - hi, n);
    }
  }

  /** The running mean without rounding, folded over a sequence of scores from (0, 0). */
  function ExactFold(scores: seq<int>): (r: (real, int))
    ensures r.1 == |scores|
  {
    if scores == [] then (0.0, 0)
    else
      var (avg, cnt) := ExactFold(scores[..|scores| - 1]);
      (Mean(avg, cnt, scores[|scores| - 1]), cnt + 1)
  }

  function Sum(scores: seq<int>): int
  {
    if scores == [] then 0 else Sum(scores[..|scores| - 1]) + scores[|scores| - 1]
  }

  /** Without the two-decimal rounding, the incremental update computes the true mean. */
  lemma {:induction false} IncrementalMeanIsMean(scores: seq<int>)
    ensures ExactFold(scores).0 * |scores| as real == Sum(scores) as real
  {
    if scores != [] {
      IncrementalMeanIsMean(scores[..|scores| - 1]);
      var (avg, cnt) := ExactFold(scores[..|scores| - 1]);
      var n := (cnt + 1) as real;
      assert Mean(avg, cnt, scores[|scores| - 1]) * n == avg * cnt as real + scores[|scores| - 1] as real;
    }
  }

  /**
   * The stored update as the handler does it, one rating at a time from a
   * fresh profile: scores 4, 5 and 3 leave a mean of 4.00 over 3 ratings.
   */
  lemma RatingsFourFiveThree()
    ensures NextAverage(NextAverage(NextAverage(0.0, 0, 4), 1, 5), 2, 3) == 4.0
  {
    assert NextAverage(0.0, 0, 4) == 4.0 by { RoundOfInt(400); }
    assert NextAverage(4.0, 1, 5) == 4.5 by { RoundOfInt(450); }
    assert NextAverage(4.5, 2, 3) == 4.0 by { RoundOfInt(400); }
  }
}
