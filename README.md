# GigTune core: a verified Dafny model

This project models the decision logic of the GigTune WordPress plugin
(`gigtune-core.php`). GigTune is a marketplace where clients book performing artists.
The model covers three parts of the plugin:

- **Artist reliability metrics.** Each artist profile stores an acceptance rate, a
  cancellation rate and a no-show count. They are kept in post meta. The event function handles four
  events: accepted, declined, cancelled and no-show. The plugin itself raises only
  accepted and declined, from the artist's response to a request; setting a booking to
  cancelled or no_show in the admin meta box does not touch the metrics (`reliability.dfy`).
- **The booking lifecycle.** The artist accepts or declines a request and later marks the
  booking completed. The client confirms completion, or a sweep confirms it
  automatically 48 hours later. The client then rates the booking once, on two axes, and
  each axis is kept as a running mean. An admin meta box saves a booking with a
  whitelisted status (`booking.dfy`, `sweep.dfy`, `rating.dfy`).
- **Artist directory search.** A query is tokenised and every candidate profile gets a
  bounded "fit" score. Rows are sorted by score, then date, then id, and one page of ten
  is shown (`tokenizer.dfy`, `fitscore.dfy`, `ranking.dfy`).

The WordPress store is the class `PostStore.Store` (`store.dfy`). It has two fields: the
posts table (id → type, title, content) and the post-meta table (id → key → value).
`update_post_meta` is the method `Store.UpdateMeta`, and `get_post_meta` is the function
`Lookup`. Every handler that writes is a module-level method that takes a `Store`. Its `ensures` states the new
meta table as a function of the old one, such as `EventWrites`, `RespondWrites` or
`RatingWrites`. The properties of each handler are lemmas about that function.

PHP's numeric behaviour is modelled in `phpmath.dfy`, over exact rationals:

- `round()` rounds halves away from zero;
- `round($x, 2)` rounds to two decimals;
- `(int)` truncates toward zero;
- `absint` is the absolute value.

Meta values are `Num(real)` or `Text(string)`. The casts `(float)` and `(int)` read a
missing value or a text value as 0.

Clocks are parameters, and the two kinds of time are kept apart:

- mark-completed and confirm store `current_time('timestamp')`, a local time;
- the sweep uses `time()`, which is UTC.

The accept/decline response time is `current_time('mysql')`, passed in as a string.

## Model

| member | source | states |
|---|---|---|
| PhpMath.Absint | gigtune-core.php:488 | absint gives the magnitude of its argument |
| PhpMath.Trunc | gigtune-core.php:494 | the (int) cast of a float truncates toward zero |
| PhpMath.Round | gigtune-core.php:520-521 | round() gives the nearest integer, and a half is rounded away from zero |
| PhpMath.Round2 | gigtune-core.php:1699 | round($x, 2) lies within 0.005 of $x |
| PostStore.Lookup | gigtune-core.php:491-494 | get_post_meta finds a value exactly when the cell exists |
| PostStore.Put | gigtune-core.php:520-522 | update_post_meta sets one cell and leaves every other cell as it was |
| PostStore.Store.UpdateMeta | gigtune-core.php:520-522 | the store's meta table becomes Put of the old table; posts are unchanged |
| Reliability.Normalize | gigtune-core.php:496-499 | response ≤0 becomes 24, acceptance ≤0 becomes 100, and a negative cancellation rate or no-show count becomes 0; each in-range reading is kept field by field |
| Reliability.Apply | gigtune-core.php:501-518 | each event moves one metric in one direction within its cap: accepted gives min(100, a+2), declined gives max(0, a-3), cancelled gives min(100, c+5), a no-show gives n+1; away from the caps each step is exactly +2, -3 or +5; an unrecognised event changes nothing |
| Reliability.ReadNormalized | gigtune-core.php:491-499 | the four casts followed by the defaulting steps |
| Reliability.ApplyReliabilityEvent | gigtune-core.php:486-523 | the new meta table is EventWrites of the old one for absint(id) |
| Reliability.ReliabilityFrame | gigtune-core.php:488-522 | only the acceptance, cancellation and no-show cells of the profile are written; the response time is never written; an id ≤0 changes nothing |
| Reliability.ReliabilityReadBack | gigtune-core.php:491-522 | the next read sees the normalised, updated metrics, with the two rates rounded |
| Reliability.EventKeepsMetricsInRange | gigtune-core.php:496-522 | in-range metrics (rates in [0,100], count ≥0) stay in range after any event |
| Reliability.AcceptanceMonotone | gigtune-core.php:503-509 | on a whole-number rate in (0,100], an acceptance never lowers the stored rate and a decline never raises it |
| Reliability.NoShowIncrementsCount | gigtune-core.php:494-522 | a no-show stores max(0, n)+1 |
| Reliability.ZeroAcceptanceRereadAsFull | gigtune-core.php:492-497 | a stored acceptance of 0 is re-read as 100, so the next acceptance stores 100 and the next decline stores 97 |
| Reliability.DeclineToZeroThenAcceptResets | gigtune-core.php:497-520 | a rate of 3 declined to 0 is reset to 100 by the next acceptance |
| Booking.RespondToRequest | gigtune-core.php:1264-1289 | the new meta table is RespondWrites of the old one |
| Booking.RespondRequiresOwnership | gigtune-core.php:1267-1274 | a post that is not a booking, a stored artist other than the acting profile, or an action other than accept/decline leaves the store unchanged |
| Booking.RespondEffect | gigtune-core.php:1274-1288 | the owner's accept (decline) sets status accepted (declined), records responded_at, and applies the matching reliability event exactly once; every other cell keeps its value |
| Booking.RespondIgnoresPriorStatus | gigtune-core.php:1272-1289 | the prior status does not matter: an accept or decline by the owner gives the same store for any stored status |
| Booking.MarkCompleted | gigtune-core.php:1732-1736 | for a non-zero id the handler writes status awaiting_client_confirmation and artist_completed_at = now |
| Booking.ConfirmCompletion | gigtune-core.php:1749-1753 | for a non-zero id the handler writes status completed and client_confirmed_at = now |
| Booking.CompletionHandlersUnguarded | gigtune-core.php:1732-1753 | both handlers write their two cells for any non-zero id, checking neither the prior status, nor the post type, nor the owner, and touch nothing else |
| Booking.WhitelistStatus | gigtune-core.php:1020-1021 | a listed status is kept and any other becomes requested |
| Booking.AdminSaveBooking | gigtune-core.php:1014-1031 | the new meta table is AdminSaveWrites of the old one |
| Booking.AdminSaveStatus | gigtune-core.php:1018-1021 | a listed status is stored as chosen, and awaiting_client_confirmation is stored as requested |
| Sweep.Batch | gigtune-core.php:1759-1768 | the query returns at most 20 ids, each an awaiting booking; if an awaiting booking is left out, the batch is full |
| Sweep.AutoCompleteAfterTimeout | gigtune-core.php:1757-1780 | the loop leaves the meta table at SweepWrites of the old one |
| Sweep.StepsEffect | gigtune-core.php:1770-1779 | a due booking in the batch becomes completed with client_confirmed_at = now; every other cell, including those of bookings not yet due, is kept |
| Sweep.SweepEffect | gigtune-core.php:1757-1780 | one sweep has that effect cell by cell, and touches at most 20 bookings |
| Sweep.StepsUnchanged | gigtune-core.php:1772-1775 | a batch with no due booking changes nothing |
| Sweep.SweepDoesNotRevisit | gigtune-core.php:1759-1777 | a booking completed by one sweep is left alone by any later sweep |
| Sweep.SweepIdempotent | gigtune-core.php:1759-1779 | when fewer than 20 bookings were awaiting, a second sweep at the same time changes nothing |
| Rating.SubmitRating | gigtune-core.php:1669-1717 | the new meta table is RatingWrites of the old one |
| Rating.UpdateAxis | gigtune-core.php:1693-1700 | one axis reads its mean and count, stops on a zero divisor and otherwise writes round((avg·cnt+s)/(cnt+1), 2) and cnt+1 |
| Rating.AxisCells | gigtune-core.php:1693-1700 | on a count ≥0 the axis write raises the count by 1, stores the rounded incremental mean and leaves the artist's other cells unchanged |
| Rating.RatingGuarded | gigtune-core.php:1669-1688 | a submission failing any guard (ids, post type, completed status, lock, scores in 1..5) changes nothing |
| Rating.RatingUpdatesBothAxes | gigtune-core.php:1693-1717 | on success each axis count grows by exactly 1, each mean becomes round((avg·cnt+s)/(cnt+1), 2), and the booking is locked; every other cell keeps its value |
| Rating.RatingFrame | gigtune-core.php:1669-1717 | whatever the outcome (a guard fails, the division aborts, or the submission succeeds), no cell outside the artist's four rating cells and the booking's lock changes |
| Rating.AxisFrame | gigtune-core.php:1693-1700 | one axis write touches only that axis's mean and count cells of the artist |
| Rating.RatingWriteOnce | gigtune-core.php:1683-1717 | after a successful submission, any further submission for the same booking, with any artist and scores, is a no-op |
| Rating.AverageStaysInRange | gigtune-core.php:1697-1699 | a mean in [0,5] stays in [0,5] when a score in 1..5 is folded in |
| Rating.IncrementalMeanIsMean | gigtune-core.php:1696-1697 | without the rounding, the incremental update computes the arithmetic mean of all scores |
| Rating.RatingsFourFiveThree | gigtune-core.php:1693-1712 | scores 4, 5 and 3 on a fresh profile leave a mean of 4.00 |
| Tokenizer.Lower | gigtune-core.php:575 | strtolower maps each capital A–Z to its own lower-case letter (code point + 32) and keeps every other character |
| Tokenizer.Sanitize | gigtune-core.php:576 | each maximal run of characters outside [a-z0-9-] and whitespace becomes one space, so the result is never longer than the input |
| Tokenizer.SanitizedChars | gigtune-core.php:576 | only [a-z0-9-] and whitespace remain after cleaning |
| Tokenizer.SanitizeKeepsClean | gigtune-core.php:576 | text with nothing to drop comes through unchanged |
| Tokenizer.SanitizeBlank | gigtune-core.php:576 | text without a token character cleans to whitespace only |
| Tokenizer.MaskEachAt | gigtune-core.php:576 | the per-character reference cleaning keeps each kept character in place and puts one space per dropped character |
| Tokenizer.SanitizeWordsAgree | gigtune-core.php:576-578 | one space per dropped run and one space per dropped character give the same words, so the tokens do not depend on the run replacement |
| Tokenizer.Words | gigtune-core.php:577-584 | trim, collapse and explode give the non-empty, whitespace-free runs of the text |
| Tokenizer.WordsLayout | gigtune-core.php:577-584 | the text is the words laid out in order, separated by non-empty whitespace runs with optional whitespace at both ends, so the words are exactly the maximal whitespace-free runs |
| Tokenizer.LongWords | gigtune-core.php:582-587 | the kept parts are exactly those of length ≥2 |
| Tokenizer.Unique | gigtune-core.php:588 | array_unique gives a duplicate-free list with the same members |
| Tokenizer.KeepLong | gigtune-core.php:581-587 | the loop over the exploded parts keeps exactly LongWords of them |
| Tokenizer.Tokenize | gigtune-core.php:574-589 | the loop returns TokensOf(q) |
| Tokenizer.TokenShape | gigtune-core.php:574-589 | tokens are pairwise distinct and have ≥2 characters, all from [a-z0-9-]; they are exactly the long words of the cleaned query |
| Tokenizer.BlankQueryHasNoTokens | gigtune-core.php:577-578 | a query with no letter, digit or hyphen gives no tokens |
| Tokenizer.MatchCount | gigtune-core.php:591-600 | the match count is at most the number of tokens |
| Tokenizer.CountMatches | gigtune-core.php:591-600 | the loop counts the non-empty tokens found in the lowered text, at most one per token |
| Tokenizer.MatchCountFull | gigtune-core.php:594-598 | the count equals the number of tokens exactly when every token is non-empty and occurs in the text |
| Tokenizer.NonEmpty | gigtune-core.php:559-563 | the kept values are exactly the non-empty ones |
| Tokenizer.FilterValues | gigtune-core.php:554-566 | the values are distinct and are exactly the non-empty posted values; a missing parameter gives none |
| FitScore.Trim | gigtune-core.php:627 | trim returns a middle cut of the string whose dropped prefix and suffix are all trim characters, and leaves no trim character at either end |
| FitScore.Completeness | gigtune-core.php:629-633 | the completeness part lies in [0,15]; it is 15 exactly with a title and a bio of ≥120 characters, and 0 exactly with no title and a bio under 30 |
| FitScore.Caps | gigtune-core.php:635-641 | at most one capability per taxonomy |
| FitScore.Breadth | gigtune-core.php:642 | the breadth part lies in [0,10] and reaches 10 exactly at 5 taxonomies |
| FitScore.OverlapCount | gigtune-core.php:656-657 | the intersection count is at most the number of selected values |
| FitScore.OverlapCountZero | gigtune-core.php:656-659 | the count is 0 exactly when no selected value is assigned |
| FitScore.OverlapPartRange | gigtune-core.php:644-662 | each taxonomy's overlap part is 0 or in 35..50, and positive exactly when a selected value is assigned |
| FitScore.OverlapSum | gigtune-core.php:644-663 | the overlap total is at most 50 per taxonomy |
| FitScore.TitlePart | gigtune-core.php:665-673 | the title part is a multiple of 20 in [0,60], and 0 exactly when there are no tokens or none occurs in the lowered title |
| FitScore.BioPart | gigtune-core.php:665-674 | the bio part is a multiple of 10 in [0,40], and 0 exactly when there are no tokens or none occurs in the lowered bio |
| FitScore.TextPart | gigtune-core.php:665-674 | the text part, title plus bio, lies in [0,100] and is 0 without tokens |
| FitScore.TermPoints | gigtune-core.php:680-690 | a multiple of 8, at most 8 per assigned term, and 0 exactly when no assigned term's name matches |
| FitScore.MatchingTermAddsEight | gigtune-core.php:680-687 | each further assigned term whose name contains a token adds exactly 8 |
| FitScore.TermSum | gigtune-core.php:676-691 | the term total is non-negative |
| FitScore.TermSumMultipleOfEight | gigtune-core.php:676-691 | the term total is a multiple of 8 |
| FitScore.TermPart | gigtune-core.php:665-692 | the term part is 0 without tokens |
| FitScore.NoShowTerm | gigtune-core.php:706 | the no-show term lies in [-10,0] for a count ≥0 and equals -n for a negative count |
| FitScore.FitReliabilityBounds | gigtune-core.php:699-708 | the rounded reliability part lies in [-10,40] for a no-show count ≥0, and is at most 40-n for a negative count |
| FitScore.NegativeNoShowsBoostFit | gigtune-core.php:706 | a stored no-show count of -k adds k to the reliability sub-score |
| FitScore.ContentScore | gigtune-core.php:625-692 | the profile parts sum to a non-negative value |
| FitScore.RawScore | gigtune-core.php:623-708 | the unclamped sum is at least -10 |
| FitScore.Clamp | gigtune-core.php:710-711 | the clamped score lies in [0,999] and equals the sum when the sum is in range |
| FitScore.Score | gigtune-core.php:616-714 | the score lies in [0,999], and a missing or non-artist post scores 0 |
| FitScore.EmptyProfileScoresReliability | gigtune-core.php:616-714 | a profile with no title, a short bio, no terms and no tokens scores only its clamped reliability part |
| FitScore.AnyTokenIn | gigtune-core.php:684-689 | the inner loop finds a match exactly when some non-empty token occurs in the term name |
| FitScore.CountCaps | gigtune-core.php:635-641 | the loop counts the taxonomies with a term |
| FitScore.OverlapScore | gigtune-core.php:644-663 | the loop adds the overlap parts |
| FitScore.TaxonomyTermScore | gigtune-core.php:680-690 | the loop adds 8 per matching assigned term of one taxonomy |
| FitScore.TermScore | gigtune-core.php:676-691 | the loop adds the term points of every taxonomy |
| FitScore.ReliabilityScore | gigtune-core.php:699-706 | the reliability sub-score, term by term |
| FitScore.CompletenessPoints | gigtune-core.php:629-633 | the three completeness checks |
| FitScore.MatchPoints | gigtune-core.php:665-692 | the token-dependent parts |
| FitScore.ContentPoints | gigtune-core.php:623-692 | the profile parts accumulated in source order |
| FitScore.FitScoreArtist | gigtune-core.php:616-714 | the computed score is Score(...) and lies in [0,999] |
| Ranking.Compare | gigtune-core.php:837-845 | the comparator answers -1 or 1, and -1 exactly when a precedes b by (score, date, id) descending |
| Ranking.CompareAntisymmetric | gigtune-core.php:837-845 | for distinct ids exactly one of the two rows goes first |
| Ranking.BeforeTransitive | gigtune-core.php:837-845 | the order is transitive |
| Ranking.NotBeforeTransitive | gigtune-core.php:837-845 | "not after" is transitive, so the order is a total preorder |
| Ranking.Insert | gigtune-core.php:837 | inserting a row into a sorted list keeps it sorted and adds exactly that row |
| Ranking.SortDesc | gigtune-core.php:837-845 | usort gives a sorted permutation of the rows |
| Ranking.SortedUnique | gigtune-core.php:837-845 | two sorted permutations of rows with distinct ids are equal, so the listing does not depend on usort's algorithm |
| Ranking.SortStrict | gigtune-core.php:837-845 | for distinct ids the sorted list is strictly ordered |
| Ranking.ScoredRows | gigtune-core.php:822-835 | every row has a positive id and a score in [0,999], and there are no more rows than candidates |
| Ranking.ScoredRowsIds | gigtune-core.php:823-834 | positive, distinct candidate ids give one row each, in order, with distinct ids |
| Ranking.ScoredRowsInOrder | gigtune-core.php:823-834 | positive candidate ids give one row each, carrying that id, in candidate order |
| Ranking.ScoreCandidates | gigtune-core.php:822-835 | the candidate loop builds ScoredRows |
| Ranking.TotalPages | gigtune-core.php:847-850 | the page count is ceil(n/10), and at least 1 |
| Ranking.RequestedPage | gigtune-core.php:725 | the requested page is max(1, absint(paged)): absint(paged) for a non-zero value, 1 for 0 or when absent |
| Ranking.ClampPage | gigtune-core.php:851 | the page index is clamped into [1, total_pages] |
| Ranking.PageOf | gigtune-core.php:853-854 | the page is the slice at offset (p-1)·10 and has at most 10 rows |
| Ranking.PageSorted | gigtune-core.php:853-854 | a page cut from a sorted list is sorted |
| Ranking.PageMembers | gigtune-core.php:847-854 | every row of a page is a listed row, and a page within the page count of a non-empty list is non-empty |
| Ranking.PagesArePrefix | gigtune-core.php:847-854 | pages 1..k together are the first 10k rows |
| Ranking.PagesPartition | gigtune-core.php:847-854 | pages 1..total_pages list every row exactly once, in order |
| Ranking.DirectoryPage | gigtune-core.php:837-854 | the listing shows at most 10 rows, drawn from the scored rows in sorted order; the page lies in [1, total]; the page is non-empty when there are rows; the page shown is the requested page (absint of paged, 1 when missing or 0) clamped to [1, total], and the items are exactly that page of the sorted list |
| Ranking.TieBrokenByLargerId | gigtune-core.php:844 | rows tied on score and date are listed with the larger id first |

## Left out

- HTML rendering, shortcodes, forms, redirects, nonces, login checks and capability checks are left out. Each handler is modelled from the point where these checks have passed.
- `wp_strip_all_tags` and `sanitize_text_field` are taken as the identity: inputs are treated as already clean. `absint` of a request string is modelled on an already-parsed integer.
- String-to-number casts are simplified. A text meta value casts to 0; PHP's numeric-prefix parsing (such as `"12abc"` reading as 12) is not modelled.
- The queries (`get_posts`, `wp_get_post_terms`, `get_terms`, `get_post_time`) are inputs:
  - the sweep's date order and the directory's candidate list are sequences;
  - assigned terms and term names are maps.

  Post status (`publish`) is not modelled.
- Floating point is replaced by exact rationals. `round()` is exact on them, and IEEE rounding of `/72`, `/100` and of the rating means is not modelled.
- Lengths are counted in characters. `strlen` counts bytes, so the model differs from PHP only for non-ASCII text.
- Sweep.AutoCompleteAfterTimeout: reads the clock once per sweep. The source calls `time()` separately for the due test and for the stored confirmation time, and the model uses one `now` for both.
- Requests are assumed to run one at a time. Races between concurrent requests (for example two rating submissions for one booking) are not modelled.
- `gigtune_get_term_name_map` is not modelled as a loop. Its result is the `names` input of the fit score.
- Behaviours of the code worth noting, which the model keeps as written:
  - a matching term adds 8 for each matching term of a taxonomy;
  - the fit score gives a non-positive response time 0 points; it does not read it as 24 hours;
  - a negative no-show count gives the fit score a bonus of -n, with no cap;
  - the respond, mark-completed, confirm and admin-save handlers write the booking status without checking its prior value; only the auto-complete sweep selects bookings by status (awaiting_client_confirmation).
- The rating handler's division by zero is modelled as an abort. When the stored count is -1, PHP throws, and the model keeps the writes made up to that point.
- The rating handler trusts the posted artist id: it is not compared with the booking's stored artist. As in the source, `RatingAllowed` has no clause comparing the posted artist with the booking's stored artist (gigtune-core.php:1669-1688).
