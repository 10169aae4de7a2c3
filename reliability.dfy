/**
 * Reliability events: the per-artist acceptance rate, cancellation rate and
 * no-show count kept in the artist profile's post meta, and how a booking
 * outcome adjusts them.
 */
module Reliability {
  import opened PhpMath
  import opened PostStore

  const RESPONSE_HOURS_KEY := "gigtune_reliability_response_time_hours"
  const ACCEPTANCE_KEY := "gigtune_reliability_acceptance_rate"
  const CANCELLATION_KEY := "gigtune_reliability_cancellation_rate"
  const NO_SHOW_KEY := "gigtune_reliability_no_show_count"

  const DEFAULT_RESPONSE_HOURS := 24.0
  const DEFAULT_ACCEPTANCE := 100.0

  /** The event names 'accepted', 'declined', 'cancelled', 'no_show'; any other name is Unrecognised. */
  datatype Event = Accepted | Declined | Cancelled | NoShow | Unrecognised

  datatype Metrics = Metrics(responseHours: real, acceptance: real, cancellation: real, noShows: int)

  /** The four metrics as read from a profile's meta, with the PHP casts. */
  function ReadMetrics(t: MetaTable, id: int): Metrics
  {
    Metrics(FloatOf(Lookup(t, id, RESPONSE_HOURS_KEY)),
            FloatOf(Lookup(t, id, ACCEPTANCE_KEY)),
            FloatOf(Lookup(t, id, CANCELLATION_KEY)),
            IntOf(Lookup(t, id, NO_SHOW_KEY)))
  }

  predicate Normal(m: Metrics)
  {
    m.responseHours > 0.0 && m.acceptance > 0.0 && m.cancellation >= 0.0 && m.noShows >= 0
  }

  /** The metrics a profile may hold: rates are percentages, the count is non-negative. */
  predicate InRange(m: Metrics)
  {
    0.0 <= m.acceptance <= 100.0 && 0.0 <= m.cancellation <= 100.0 && m.noShows >= 0
  }

  /**
   * Out-of-range readings are replaced by defaults before an event is applied:
   * a non-positive response time by 24 hours, a non-positive acceptance rate by
   * 100, a negative cancellation rate or no-show count by 0.
   */
  function Normalize(m: Metrics): (r: Metrics)
    ensures Normal(r)
    ensures Normal(m) ==> r == m
    ensures m.responseHours <= 0.0 ==> r.responseHours == DEFAULT_RESPONSE_HOURS
    ensures m.acceptance <= 0.0 ==> r.acceptance == DEFAULT_ACCEPTANCE
    ensures m.cancellation < 0.0 ==> r.cancellation == 0.0
    ensures m.noShows < 0 ==> r.noShows == 0
    ensures m.responseHours > 0.0 ==> r.responseHours == m.responseHours
    ensures m.acceptance > 0.0 ==> r.acceptance == m.acceptance
    ensures m.cancellation >= 0.0 ==> r.cancellation == m.cancellation
    ensures m.noShows >= 0 ==> r.noShows == m.noShows
  {
    Metrics(if m.responseHours <= 0.0 then DEFAULT_RESPONSE_HOURS else m.responseHours,
            if m.acceptance <= 0.0 then DEFAULT_ACCEPTANCE else m.acceptance,
            if m.cancellation < 0.0 then 0.0 else m.cancellation,
            if m.noShows < 0 then 0 else m.noShows)
  }

  /** The effect of one event: each event moves exactly one metric, in one direction, within its cap. */
  function Apply(m: Metrics, e: Event): (r: Metrics)
    ensures r.responseHours == m.responseHours
    ensures e != Accepted && e != Declined ==> r.acceptance == m.acceptance
    ensures e != Cancelled ==> r.cancellation == m.cancellation
    ensures e != NoShow ==> r.noShows == m.noShows
    ensures e == Accepted ==> r.acceptance <= 100.0 && (r.acceptance == m.acceptance + 2.0 || r.acceptance == 100.0)
    ensures e == Accepted && m.acceptance <= 100.0 ==> m.acceptance <= r.acceptance
    ensures e == Declined ==> r.acceptance >= 0.0 && (r.acceptance == m.acceptance - 3.0 || r.acceptance == 0.0)
    ensures e == Declined && m.acceptance >= 0.0 ==> r.acceptance <= m.acceptance
    ensures e == Cancelled ==> r.cancellation <= 100.0 && (r.cancellation == m.cancellation + 5.0 || r.cancellation == 100.0)
    ensures e == Cancelled && m.cancellation <= 100.0 ==> m.cancellation <= r.cancellation
    ensures e == NoShow ==> r.noShows == m.noShows + 1
    ensures e == Accepted && m.acceptance <= 98.0 ==> r.acceptance == m.acceptance + 2.0
    ensures e == Declined && m.acceptance >= 3.0 ==> r.acceptance == m.acceptance - 3.0
    ensures e == Cancelled && m.cancellation <= 95.0 ==> r.cancellation == m.cancellation + 5.0
  {
    match e
    case Accepted => m.(acceptance := MinReal(100.0, m.acceptance + 2.0))
    case Declined => m.(acceptance := MaxReal(0.0, m.acceptance - 3.0))
    case Cancelled => m.(cancellation := MinReal(100.0, m.cancellation + 5.0))
    case NoShow => m.(noShows := m.noShows + 1)
    case Unrecognised => m
  }

  /**
   * The meta table after gigtune_phase5_apply_reliability_event: for a
   * positive profile id, the rounded acceptance and cancellation rates and the
   * exact no-show count are written back; nothing else is written.
   */
  function EventWrites(t: MetaTable, id: int, e: Event): MetaTable
  {
    if id <= 0 then t
    else
      var n := Apply(Normalize(ReadMetrics(t, id)), e);
      var t1 := Put(t, id, ACCEPTANCE_KEY, Num(Round(n.acceptance) as real));
      var t2 := Put(t1, id, CANCELLATION_KEY, Num(Round(n.cancellation) as real));
      Put(t2, id, NO_SHOW_KEY, Num(n.noShows as real))
  }

  /** The four readings with the PHP casts, out-of-range values replaced by their defaults. */
  method ReadNormalized(t: MetaTable, id: int) returns (m: Metrics)
    ensures m == Normalize(ReadMetrics(t, id))
  {
    var responseHours := FloatOf(Lookup(t, id, RESPONSE_HOURS_KEY));
    var acceptance := FloatOf(Lookup(t, id, ACCEPTANCE_KEY));
    var cancellation := FloatOf(Lookup(t, id, CANCELLATION_KEY));
    var noShows := IntOf(Lookup(t, id, NO_SHOW_KEY));
    if responseHours <= 0.0 { responseHours := DEFAULT_RESPONSE_HOURS; }
    if acceptance <= 0.0 { acceptance := DEFAULT_ACCEPTANCE; }
    if cancellation < 0.0 { cancellation := 0.0; }
    if noShows < 0 { noShows := 0; }
    m := Metrics(responseHours, acceptance, cancellation, noShows);
  }

  method ApplyReliabilityEvent(s: Store, profileId: int, e: Event)
    modifies s
    ensures s.meta == EventWrites(old(s.meta), Absint(profileId), e)
    ensures s.posts == old(s.posts)
  {
    var id := Absint(profileId);
    if id <= 0 {
      return;
    }
    var m := ReadNormalized(s.meta, id);
    var acceptance, cancellation, noShows := m.acceptance, m.cancellation, m.noShows;
    match e {
      case Accepted => acceptance := MinReal(100.0, acceptance + 2.0);
      case Declined => acceptance := MaxReal(0.0, acceptance - 3.0);
      case Cancelled => cancellation := MinReal(100.0, cancellation + 5.0);
      case NoShow => noShows := noShows + 1;
      case Unrecognised =>
    }
    assert Metrics(m.responseHours, acceptance, cancellation, noShows) == Apply(m, e);
    s.UpdateMeta(id, ACCEPTANCE_KEY, Num(Round(acceptance) as real));
    s.UpdateMeta(id, CANCELLATION_KEY, Num(Round(cancellation) as real));
    s.UpdateMeta(id, NO_SHOW_KEY, Num(noShows as real));
  }

  /**
   * Frame: only the acceptance rate, cancellation rate and no-show count of the
   * given profile are written; the response time is never written, and a
   * non-positive id changes nothing.
   */
  lemma ReliabilityFrame(t: MetaTable, id: int, e: Event, other: int, key: string)
    requires other != id || (key != ACCEPTANCE_KEY && key != CANCELLATION_KEY && key != NO_SHOW_KEY)
    ensures Lookup(EventWrites(t, id, e), other, key) == Lookup(t, other, key)
    ensures id <= 0 ==> EventWrites(t, id, e) == t
  {
  }

  /** What the next read of the profile sees: the normalised, updated metrics, rates rounded. */
  lemma {:induction false} ReliabilityReadBack(t: MetaTable, id: int, e: Event)
    requires id > 0
    ensures var n := Apply(Normalize(ReadMetrics(t, id)), e);
            ReadMetrics(EventWrites(t, id, e), id)
            == Metrics(ReadMetrics(t, id).responseHours, Round(n.acceptance) as real, Round(n.cancellation) as real, n.noShows)
  {
    var n := Apply(Normalize(ReadMetrics(t, id)), e);
    assert IntOf(Some(Num(n.noShows as real))) == n.noShows;
  }

  /** An event applied to in-range metrics leaves them in range. */
  lemma {:induction false} EventKeepsMetricsInRange(t: MetaTable, id: int, e: Event)
    requires id > 0
    requires InRange(ReadMetrics(t, id))
    ensures InRange(ReadMetrics(EventWrites(t, id, e), id))
  {
    var n := Apply(Normalize(ReadMetrics(t, id)), e);
    ReliabilityReadBack(t, id, e);
    RoundWithin(n.acceptance, 0, 100);
    RoundWithin(n.cancellation, 0, 100);
  }

  /**
   * Acceptance is monotone per event on in-range whole-number rates: an
   * accepted booking never lowers the stored rate, a decline never raises it
   * unless the stored rate was 0, which is re-read as 100.
   */
  lemma {:induction false} AcceptanceMonotone(t: MetaTable, id: int, a: int)
    requires id > 0
    requires 0 < a <= 100 && FloatOf(Lookup(t, id, ACCEPTANCE_KEY)) == a as real
    ensures a <= Trunc(ReadMetrics(EventWrites(t, id, Accepted), id).acceptance) <= 100
    ensures ReadMetrics(EventWrites(t, id, Declined), id).acceptance <= a as real
  {
    ReliabilityReadBack(t, id, Accepted);
    ReliabilityReadBack(t, id, Declined);
    RoundWithin(MinReal(100.0, a as real + 2.0), a, 100);
    RoundWithin(MaxReal(0.0, a as real - 3.0), 0, a);
  }

  /** A no-show adds exactly one to the (normalised) count. */
  lemma {:induction false} NoShowIncrementsCount(t: MetaTable, id: int)
    requires id > 0
    ensures ReadMetrics(EventWrites(t, id, NoShow), id).noShows == MaxInt(0, ReadMetrics(t, id).noShows) + 1
  {
    ReliabilityReadBack(t, id, NoShow);
  }

  /**
   * A stored acceptance rate of 0 is indistinguishable from a missing one and
   * is re-read as 100: the next accepted booking stores 100 and the next
   * decline stores 97.
   */
  lemma {:induction false} ZeroAcceptanceRereadAsFull(t: MetaTable, id: int)
    requires id > 0
    requires FloatOf(Lookup(t, id, ACCEPTANCE_KEY)) <= 0.0
    ensures ReadMetrics(EventWrites(t, id, Accepted), id).acceptance == 100.0
    ensures ReadMetrics(EventWrites(t, id, Declined), id).acceptance == 97.0
  {
    ReliabilityReadBack(t, id, Accepted);
    ReliabilityReadBack(t, id, Declined);
    RoundOfInt(100);
    RoundOfInt(97);
  }

  /**
   * Consequence: declines that drive the rate to 0 are undone by the very next
   * event; a profile at 3% that declines stores 0, and its next acceptance
   * stores 100.
   */
  lemma {:induction false} DeclineToZeroThenAcceptResets(t: MetaTable, id: int)
    requires id > 0
    requires FloatOf(Lookup(t, id, ACCEPTANCE_KEY)) == 3.0
    ensures ReadMetrics(EventWrites(t, id, Declined), id).acceptance == 0.0
    ensures ReadMetrics(EventWrites(EventWrites(t, id, Declined), id, Accepted), id).acceptance == 100.0
  {
    ReliabilityReadBack(t, id, Declined);
    RoundOfInt(0);
    ZeroAcceptanceRereadAsFull(EventWrites(t, id, Declined), id);
  }
}
