/**
 * The ordering and paging of gigtune_artist_directory_shortcode: every
 * candidate profile is scored, the rows are sorted by score, then post date,
 * then id, all descending, and one page of ten rows is shown.
 */
module Ranking {
  import opened PhpMath
  import opened PostStore
  import opened FitScore

  /** One row of the scored list: the profile id, its fit score and its GMT post time. */
  datatype Scored = Scored(id: int, score: int, date: int)

  const PER_PAGE := 10

  /** The intended order: higher score first, then the newer post, then the larger id. */
  predicate Before(a: Scored, b: Scored)
  {
    a.score > b.score || (a.score == b.score && (a.date > b.date || (a.date == b.date && a.id > b.id)))
  }

  /** The usort callback: -1 when a goes first, otherwise 1. It never answers 0, even for a row and itself. */
  function Compare(a: Scored, b: Scored): (r: int)
    ensures r == -1 || r == 1
    ensures r == -1 <==> Before(a, b)
  {
    if a.score != b.score then (if a.score > b.score then -1 else 1)
    else if a.date != b.date then (if a.date > b.date then -1 else 1)
    else if a.id > b.id then -1 else 1
  }

  /** For rows with distinct ids the comparator is antisymmetric: exactly one of the two goes first. */
  lemma CompareAntisymmetric(a: Scored, b: Scored)
    requires a.id != b.id
    ensures Compare(a, b) == -Compare(b, a)
    ensures Before(a, b) <==> !Before(b, a)
  {
  }

  lemma BeforeTransitive(a: Scored, b: Scored, c: Scored)
    requires Before(a, b) && Before(b, c)
    ensures Before(a, c)
  {
  }

  /** "Not after" is transitive too: the order is a total preorder on (score, date, id). */
  lemma NotBeforeTransitive(a: Scored, b: Scored, c: Scored)
    requires !Before(b, a) && !Before(c, b)
    ensures !Before(c, a)
  {
  }

  /** No row goes after a later one. */
  predicate Sorted(s: seq<Scored>)
  {
    forall i, j :: 0 <= i < j < |s| ==> !Before(s[j], s[i])
  }

  predicate DistinctIds(s: seq<Scored>)
  {
    forall i, j :: 0 <= i < j < |s| ==> s[i].id != s[j].id
  }

  /** Insert a row into a sorted list after every row that goes before it. */
  function Insert(x: Scored, s: seq<Scored>): (r: seq<Scored>)
    requires Sorted(s)
    ensures Sorted(r)
    ensures multiset(r) == multiset(s) + multiset{x}
  {
    if s == [] then [x]
    else if Before(s[0], x) then
      var rest := Insert(x, s[1..]);
      assert forall k :: 0 <= k < |rest| ==> !Before(rest[k], s[0]) by {
        forall k | 0 <= k < |rest| ensures !Before(rest[k], s[0]) {
          assert rest[k] in multiset(rest);
          if rest[k] != x {
            assert rest[k] in multiset(s[1..]);
            var m :| 1 <= m < |s| && s[m] == rest[k];
          }
        }
      }
      assert multiset(s) == multiset{s[0]} + multiset(s[1..]) by {
        assert s == [s[0]] + s[1..];
      }
      [s[0]] + rest
    else
      assert forall j :: 0 <= j < |s| ==> !Before(s[j], x) by {
        forall j | 0 <= j < |s| ensures !Before(s[j], x) {
          if j > 0 { NotBeforeTransitive(x, s[0], s[j]); }
        }
      }
      [x] + s
  }

  /** The list ordered by the comparator (usort). */
  function SortDesc(s: seq<Scored>): (r: seq<Scored>)
    ensures Sorted(r)
    ensures multiset(r) == multiset(s)
  {
    if s == [] then []
    else
      assert s == [s[0]] + s[1..];
      Insert(s[0], SortDesc(s[1..]))
  }

  /**
   * A sorted permutation of rows with distinct ids is unique, so the listing
   * does not depend on which sorting algorithm usort uses.
   */
  lemma {:induction false} SortedUnique(a: seq<Scored>, b: seq<Scored>)
    requires Sorted(a) && Sorted(b) && multiset(a) == multiset(b) && DistinctIds(a)
    ensures a == b
    decreases |a|
  {
    assert |a| == |multiset(a)| == |b|;
    if a != [] {
      SortedHeadsEqual(a, b);
      assert a == [a[0]] + a[1..] && b == [b[0]] + b[1..];
      assert multiset(a) == multiset{a[0]} + multiset(a[1..]);
      assert multiset(b) == multiset{b[0]} + multiset(b[1..]);
      assert multiset(a[1..]) == multiset(a) - multiset{a[0]};
      assert multiset(b[1..]) == multiset(b) - multiset{b[0]};
      SortedUnique(a[1..], b[1..]);
    }
  }

  /** Two sorted permutations of rows with distinct ids start with the same row. */
  lemma SortedHeadsEqual(a: seq<Scored>, b: seq<Scored>)
    requires Sorted(a) && Sorted(b) && multiset(a) == multiset(b) && DistinctIds(a)
    requires a != [] && b != []
    ensures a[0] == b[0]
  {
    assert a[0] in multiset(b) && b[0] in multiset(a);
    var j :| 0 <= j < |b| && b[j] == a[0];
    var i :| 0 <= i < |a| && a[i] == b[0];
    assert !Before(b[0], a[0]) by {
      if i > 0 { assert !Before(a[i], a[0]); }
    }
    assert !Before(a[0], b[0]) by {
      if j > 0 { assert !Before(b[j], b[0]); }
    }
  }

  /** The sort keeps every row and orders rows with distinct ids strictly. */
  lemma SortStrict(s: seq<Scored>)
    requires DistinctIds(s)
    ensures forall i, j :: 0 <= i < j < |SortDesc(s)| ==> Before(SortDesc(s)[i], SortDesc(s)[j])
  {
    var r := SortDesc(s);
    forall i, j | 0 <= i < j < |r| ensures Before(r[i], r[j]) {
      DistinctAfterPermutation(s, r, i, j);
      CompareAntisymmetric(r[i], r[j]);
    }
  }

  lemma DistinctAfterPermutation(s: seq<Scored>, r: seq<Scored>, i: int, j: int)
    requires DistinctIds(s) && multiset(r) == multiset(s)
    requires 0 <= i < j < |r|
    ensures r[i].id != r[j].id
  {
    if r[i].id == r[j].id {
      assert r[i] in multiset(s) && r[j] in multiset(s);
      var p :| 0 <= p < |s| && s[p] == r[i];
      var q :| 0 <= q < |s| && s[q] == r[j];
      if p == q {
        assert r[i] == r[j];
        var m := multiset(r);
        assert r == r[..i] + [r[i]] + r[i + 1..j] + [r[j]] + r[j + 1..];
        assert m[r[i]] >= 2;
        CountAtMostOne(s, p);
        assert false;
      }
    }
  }

  /** With distinct ids each row occurs once. */
  lemma {:induction false} CountAtMostOne(s: seq<Scored>, p: int)
    requires DistinctIds(s) && 0 <= p < |s|
    ensures multiset(s)[s[p]] == 1
  {
    assert s == s[..p] + [s[p]] + s[p + 1..];
    assert s[p] !in s[..p] && s[p] !in s[p + 1..];
    assert multiset(s[..p])[s[p]] == 0 && multiset(s[p + 1..])[s[p]] == 0;
  }

  /** get_post_time('U', true, $pid) cast to int: missing posts read as 0. */
  function DateOf(dates: map<int, int>, id: int): int
  {
    if id in dates then dates[id] else 0
  }

  /** The scored rows for the candidate ids, skipping an id whose absint is 0. */
  function ScoredRows(posts: map<int, Post>, t: MetaTable, terms: TermTable, names: NameMap, dates: map<int, int>,
                      candidates: seq<int>, tokens: seq<string>, selected: map<string, seq<string>>, taxes: seq<string>): (r: seq<Scored>)
    ensures |r| <= |candidates|
    ensures forall k :: 0 <= k < |r| ==> r[k].id > 0 && 0 <= r[k].score <= MAX_SCORE
  {
    if candidates == [] then []
    else
      var front := ScoredRows(posts, t, terms, names, dates, candidates[..|candidates| - 1], tokens, selected, taxes);
      var pid := Absint(candidates[|candidates| - 1]);
      if pid <= 0 then front
      else front + [Scored(pid, Score(posts, t, terms, names, pid, tokens, selected, taxes), DateOf(dates, pid))]
  }

  /** With positive, distinct candidate ids there is one row per candidate, in candidate order, and no id repeats. */
  lemma ScoredRowsIds(posts: map<int, Post>, t: MetaTable, terms: TermTable, names: NameMap, dates: map<int, int>,
                      candidates: seq<int>, tokens: seq<string>, selected: map<string, seq<string>>, taxes: seq<string>)
    requires forall i :: 0 <= i < |candidates| ==> candidates[i] > 0
    requires forall i, j :: 0 <= i < j < |candidates| ==> candidates[i] != candidates[j]
    ensures var r := ScoredRows(posts, t, terms, names, dates, candidates, tokens, selected, taxes);
            |r| == |candidates| && DistinctIds(r)
            && forall k :: 0 <= k < |r| ==> r[k].id == candidates[k]
  {
    ScoredRowsInOrder(posts, t, terms, names, dates, candidates, tokens, selected, taxes);
  }

  lemma {:induction false} ScoredRowsInOrder(posts: map<int, Post>, t: MetaTable, terms: TermTable, names: NameMap, dates: map<int, int>,
                                             candidates: seq<int>, tokens: seq<string>, selected: map<string, seq<string>>, taxes: seq<string>)
    requires forall i :: 0 <= i < |candidates| ==> candidates[i] > 0
    ensures var r := ScoredRows(posts, t, terms, names, dates, candidates, tokens, selected, taxes);
            |r| == |candidates| && forall k :: 0 <= k < |r| ==> r[k].id == candidates[k]
  {
    if candidates != [] {
      var n := |candidates|;
      var front := candidates[..n - 1];
      ScoredRowsInOrder(posts, t, terms, names, dates, front, tokens, selected, taxes);
      ScoredRowsStep(posts, t, terms, names, dates, candidates, tokens, selected, taxes);
      var fr := ScoredRows(posts, t, terms, names, dates, front, tokens, selected, taxes);
      var r := ScoredRows(posts, t, terms, names, dates, candidates, tokens, selected, taxes);
      forall k | 0 <= k < |r| ensures r[k].id == candidates[k] {
        if k < |fr| { assert r[k] == r[..|fr|][k]; }
      }
    }
  }

  /** One more positive candidate appends one row with its id. */
  lemma ScoredRowsStep(posts: map<int, Post>, t: MetaTable, terms: TermTable, names: NameMap, dates: map<int, int>,
                       candidates: seq<int>, tokens: seq<string>, selected: map<string, seq<string>>, taxes: seq<string>)
    requires candidates != [] && candidates[|candidates| - 1] > 0
    ensures var r := ScoredRows(posts, t, terms, names, dates, candidates, tokens, selected, taxes);
            var fr := ScoredRows(posts, t, terms, names, dates, candidates[..|candidates| - 1], tokens, selected, taxes);
            |r| == |fr| + 1 && r[..|fr|] == fr && r[|fr|].id == candidates[|candidates| - 1]
  {
  }

  /** The candidate loop of the directory: one row per candidate with a positive id. */
  method ScoreCandidates(posts: map<int, Post>, t: MetaTable, terms: TermTable, names: NameMap, dates: map<int, int>,
                         candidates: seq<int>, tokens: seq<string>, selected: map<string, seq<string>>, taxes: seq<string>)
    returns (scored: seq<Scored>)
    ensures scored == ScoredRows(posts, t, terms, names, dates, candidates, tokens, selected, taxes)
  {
    scored := [];
    for i := 0 to |candidates|
      invariant scored == ScoredRows(posts, t, terms, names, dates, candidates[..i], tokens, selected, taxes)
    {
      assert candidates[..i + 1][..i] == candidates[..i];
      var pid := Absint(candidates[i]);
      if pid <= 0 {
        continue;
      }
      var score := FitScoreArtist(posts, t, terms, names, pid, tokens, selected, taxes);
      scored := scored + [Scored(pid, score, DateOf(dates, pid))];
    }
    assert candidates[..|candidates|] == candidates;
  }

  /** ceil(n / 10), at least 1. */
  function TotalPages(n: nat): (r: int)
    ensures r >= 1
    ensures n > 0 ==> (r - 1) * PER_PAGE < n <= r * PER_PAGE
    ensures n == 0 ==> r == 1
  {
    var pages := (n + PER_PAGE - 1) / PER_PAGE;
    if pages < 1 then 1 else pages
  }

  /** The paged request parameter: max(1, absint(paged)), 1 when absent. */
  function RequestedPage(param: Option<int>): (r: int)
    ensures r >= 1
    ensures param.Some? && param.value != 0 ==> r == Absint(param.value)
    ensures param.None? || param == Some(0) ==> r == 1
  {
    match param
    case None => 1
    case Some(x) => MaxInt(1, Absint(x))
  }

  /** A page past the end becomes the last page. */
  function ClampPage(page: int, total: int): (r: int)
    requires page >= 1 && total >= 1
    ensures 1 <= r <= total
    ensures page <= total ==> r == page
    ensures page > total ==> r == total
  {
    if page > total then total else page
  }

  /** array_slice($rows, ($page - 1) * 10, 10). */
  function PageOf(rows: seq<Scored>, page: int): (r: seq<Scored>)
    requires page >= 1
    ensures |r| == MaxInt(0, MinInt(PER_PAGE, |rows| - (page - 1) * PER_PAGE))
    ensures forall i :: 0 <= i < |r| ==> r[i] == rows[(page - 1) * PER_PAGE + i]
  {
    var offset := (page - 1) * PER_PAGE;
    if offset >= |rows| then [] else rows[offset..MinInt(offset + PER_PAGE, |rows|)]
  }

  /** The pages 1..k one after another. */
  function Pages(rows: seq<Scored>, k: nat): seq<Scored>
  {
    if k == 0 then [] else Pages(rows, k - 1) + PageOf(rows, k)
  }

  /** The first k pages are the first 10k rows. */
  lemma {:induction false} PagesArePrefix(rows: seq<Scored>, k: nat)
    ensures Pages(rows, k) == rows[..MinInt(k * PER_PAGE, |rows|)]
  {
    if k > 0 {
      PagesArePrefix(rows, k - 1);
      var lo, hi := MinInt((k - 1) * PER_PAGE, |rows|), MinInt(k * PER_PAGE, |rows|);
      assert PageOf(rows, k) == rows[lo..hi];
      assert rows[..lo] + rows[lo..hi] == rows[..hi];
    }
  }

  /** Pages 1..TotalPages together list every row exactly once, in order. */
  lemma PagesPartition(rows: seq<Scored>)
    ensures Pages(rows, TotalPages(|rows|)) == rows
  {
    PagesArePrefix(rows, TotalPages(|rows|));
  }

  /** What the directory shows: the rows of one page, the page number and the page count. */
  datatype Listing = Listing(items: seq<Scored>, page: int, totalPages: int)

  /** Sort the scored rows, clamp the requested page and cut it out. */
  function DirectoryPage(scored: seq<Scored>, paged: Option<int>): (r: Listing)
    ensures 1 <= r.page <= r.totalPages && r.totalPages == TotalPages(|scored|)
    ensures |r.items| <= PER_PAGE
    ensures scored != [] ==> r.items != []
    ensures Sorted(r.items)
    ensures forall x :: x in r.items ==> x in scored
    ensures r.page == ClampPage(RequestedPage(paged), r.totalPages)
    ensures r.items == PageOf(SortDesc(scored), r.page)
  {
    var sorted := SortDesc(scored);
    var total := TotalPages(|scored|);
    var page := ClampPage(RequestedPage(paged), total);
    assert |sorted| == |multiset(sorted)| == |scored|;
    PageSorted(sorted, page);
    PageMembers(sorted, page);
    assert forall x :: x in sorted ==> x in scored by {
      forall x | x in sorted ensures x in scored {
        assert x in multiset(sorted);
      }
    }
    Listing(PageOf(sorted, page), page, total)
  }

  /** A slice of a sorted list is sorted. */
  lemma PageSorted(rows: seq<Scored>, page: int)
    requires page >= 1 && Sorted(rows)
    ensures Sorted(PageOf(rows, page))
  {
    var items, offset := PageOf(rows, page), (page - 1) * PER_PAGE;
    forall i, j | 0 <= i < j < |items| ensures !Before(items[j], items[i]) {
      assert items[i] == rows[offset + i] && items[j] == rows[offset + j];
    }
  }

  /** Every row of a page is a row of the list, and a page within the page count is not empty. */
  lemma PageMembers(rows: seq<Scored>, page: int)
    requires page >= 1
    ensures forall x :: x in PageOf(rows, page) ==> x in rows
    ensures rows != [] && page <= TotalPages(|rows|) ==> PageOf(rows, page) != []
  {
    var items, offset := PageOf(rows, page), (page - 1) * PER_PAGE;
    forall x | x in items ensures x in rows {
      var i :| 0 <= i < |items| && items[i] == x;
      assert rows[offset + i] == x;
    }
  }

  /** Ties on score and date are broken by the larger id: ids 5 and 9 list as 9, 5. */
  lemma TieBrokenByLargerId()
    ensures SortDesc([Scored(5, 40, 1000), Scored(9, 40, 1000)]) == [Scored(9, 40, 1000), Scored(5, 40, 1000)]
  {
    var s := [Scored(5, 40, 1000), Scored(9, 40, 1000)];
    SortedUnique(SortDesc(s), [Scored(9, 40, 1000), Scored(5, 40, 1000)]);
  }
}
