/**
 * gigtune_fit_score_artist: the relevance score used to order the artist
 * directory. It is a sum of bounded parts (profile completeness, capability
 * breadth, filter overlap, text matches, term-name matches, reliability),
 * clamped to [0, 999]. The taxonomy lookups are inputs: `terms` holds the
 * slugs wp_get_post_terms returns per profile and taxonomy, `names` the
 * lower-cased term names gigtune_get_term_name_map builds.
 */
module FitScore {
  import opened PhpMath
  import opened PostStore
  import opened Reliability
  import opened Tokenizer

  /** Profile id -> taxonomy -> the slugs of the terms assigned to it. */
  type TermTable = map<int, map<string, seq<string>>>

  /** Taxonomy -> slug -> lower-cased term name. */
  type NameMap = map<string, map<string, string>>

  const MAX_SCORE := 999

  function Slugs(terms: TermTable, id: int, tax: string): seq<string>
  {
    if id in terms && tax in terms[id] then terms[id][tax] else []
  }

  /** PHP trim's default set: space, tab, line feed, carriage return, NUL, vertical tab. */
  predicate IsTrimChar(c: char)
  {
    c == ' ' || c == '\t' || c == '\n' || c == '\r' || c == '\0' || c == '\U{B}'
  }

  function TrimLeft(s: string): (r: string)
    ensures |r| <= |s| && r == s[|s| - |r|..]
    ensures forall k :: 0 <= k < |s| - |r| ==> IsTrimChar(s[k])
    ensures r != [] ==> !IsTrimChar(r[0])
  {
    if s != [] && IsTrimChar(s[0]) then TrimLeft(s[1..]) else s
  }

  function TrimRight(s: string): (r: string)
    ensures |r| <= |s| && r == s[..|r|]
    ensures forall k :: |r| <= k < |s| ==> IsTrimChar(s[k])
    ensures r != [] ==> !IsTrimChar(r[|r| - 1])
  {
    if s != [] && IsTrimChar(s[|s| - 1]) then TrimRight(s[..|s| - 1]) else s
  }

  /** A cut of s whose dropped prefix and suffix consist of trim characters only. */
  predicate TrimmedAt(s: string, r: string, i: int)
  {
    && 0 <= i <= i + |r| <= |s| && r == s[i..i + |r|]
    && (forall k :: 0 <= k < i ==> IsTrimChar(s[k]))
    && (forall k :: i + |r| <= k < |s| ==> IsTrimChar(s[k]))
  }

  /**
   * trim(): the middle of s with its leading and trailing trim characters
   * removed, and nothing else.
   */
  function Trim(s: string): (r: string)
    ensures exists i :: TrimmedAt(s, r, i)
    ensures r != [] ==> !IsTrimChar(r[0]) && !IsTrimChar(r[|r| - 1])
  {
    var left := TrimLeft(s);
    TrimCut(s, left, TrimRight(left));
    TrimRight(left)
  }

  /** Dropping trim characters at the front and then at the back gives a trimmed cut. */
  lemma TrimCut(s: string, left: string, r: string)
    requires |left| <= |s| && left == s[|s| - |left|..]
    requires forall k :: 0 <= k < |s| - |left| ==> IsTrimChar(s[k])
    requires |r| <= |left| && r == left[..|r|]
    requires forall k :: |r| <= k < |left| ==> IsTrimChar(left[k])
    ensures TrimmedAt(s, r, |s| - |left|)
  {
    var i := |s| - |left|;
    assert r == s[i..i + |r|];
    forall k | i + |r| <= k < |s| ensures IsTrimChar(s[k]) {
      assert s[k] == left[k - i];
    }
  }

  /** Completeness: 5 for a title, 5 for a bio of 30 characters, 5 more at 120. */
  function Completeness(title: string, bio: string): (r: int)
    ensures 0 <= r <= 15
    ensures r == 15 <==> title != "" && |bio| >= 120
    ensures r == 0 <==> title == "" && |bio| < 30
  {
    (if title != "" then 5 else 0) + (if |bio| >= 30 then 5 else 0) + (if |bio| >= 120 then 5 else 0)
  }

  /** The number of taxonomies in which the profile has at least one term. */
  function Caps(terms: TermTable, id: int, taxes: seq<string>): (r: nat)
    ensures r <= |taxes|
  {
    if taxes == [] then 0
    else Caps(terms, id, taxes[..|taxes| - 1]) + (if Slugs(terms, id, taxes[|taxes| - 1]) != [] then 1 else 0)
  }

  /** Capability breadth: two points per taxonomy with a term, at most 10. */
  function Breadth(caps: nat): (r: int)
    ensures 0 <= r <= 10
    ensures r == 10 <==> caps >= 5
  {
    MinInt(10, caps * 2)
  }

  /** count(array_intersect($selected, $slugs)): selected values (with repeats) that the profile has. */
  function OverlapCount(selected: seq<string>, slugs: seq<string>): (r: nat)
    ensures r <= |selected|
  {
    if selected == [] then 0
    else OverlapCount(selected[..|selected| - 1], slugs) + (if selected[|selected| - 1] in slugs then 1 else 0)
  }

  lemma {:induction false} OverlapCountZero(selected: seq<string>, slugs: seq<string>)
    ensures OverlapCount(selected, slugs) == 0 <==> forall i :: 0 <= i < |selected| ==> selected[i] !in slugs
  {
    if selected != [] {
      OverlapCountZero(selected[..|selected| - 1], slugs);
    }
  }

  /** The filter-overlap part of one taxonomy: 0 without a shared value, else 25 plus 10 per shared value up to 25. */
  function OverlapPart(selected: map<string, seq<string>>, tax: string, slugs: seq<string>): (r: int)
  {
    if tax !in selected || selected[tax] == [] || slugs == [] then 0
    else
      var n := OverlapCount(selected[tax], slugs);
      if n > 0 then 25 + MinInt(25, n * 10) else 0
  }

  /** Each taxonomy's overlap part is 0 or between 35 and 50, and positive exactly when a selected value is assigned. */
  lemma OverlapPartRange(selected: map<string, seq<string>>, tax: string, slugs: seq<string>)
    ensures var r := OverlapPart(selected, tax, slugs);
            (r == 0 || 35 <= r <= 50)
            && (r > 0 <==> tax in selected && exists i :: 0 <= i < |selected[tax]| && selected[tax][i] in slugs)
  {
    if tax in selected {
      OverlapCountZero(selected[tax], slugs);
    }
  }

  function OverlapSum(selected: map<string, seq<string>>, terms: TermTable, id: int, taxes: seq<string>): (r: int)
    ensures 0 <= r <= 50 * |taxes|
  {
    if taxes == [] then 0
    else
      var tax := taxes[|taxes| - 1];
      OverlapPartRange(selected, tax, Slugs(terms, id, tax));
      OverlapSum(selected, terms, id, taxes[..|taxes| - 1]) + OverlapPart(selected, tax, Slugs(terms, id, tax))
  }

  /** Title part: 20 per token found in the lower-cased title, at most 60. */
  function TitlePart(tokens: seq<string>, title: string): (r: int)
    ensures 0 <= r <= 60 && r % 20 == 0
    ensures r == 0 <==> tokens == [] || MatchCount(tokens, Lower(Lower(title))) == 0
  {
    if tokens == [] then 0 else MinInt(60, MatchCount(tokens, Lower(Lower(title))) * 20)
  }

  /** Bio part: 10 per token found in the lower-cased bio, at most 40. */
  function BioPart(tokens: seq<string>, bio: string): (r: int)
    ensures 0 <= r <= 40 && r % 10 == 0
    ensures r == 0 <==> tokens == [] || MatchCount(tokens, Lower(Lower(bio))) == 0
  {
    if tokens == [] then 0 else MinInt(40, MatchCount(tokens, Lower(Lower(bio))) * 10)
  }

  /** Text part: the title part plus the bio part, counted only when there are tokens. */
  function TextPart(tokens: seq<string>, title: string, bio: string): (r: int)
    ensures 0 <= r <= 100
    ensures tokens == [] ==> r == 0
  {
    TitlePart(tokens, title) + BioPart(tokens, bio)
  }

  /** Some non-empty token occurs in the term name. */
  predicate NameMatches(name: string, tokens: seq<string>)
  {
    exists k :: 0 <= k < |tokens| && tokens[k] != "" && Contains(name, tokens[k])
  }

  /** The artist's term has a name in the map and that name matches a token. */
  predicate TermMatches(names: NameMap, tax: string, slug: string, tokens: seq<string>)
  {
    tax in names && slug in names[tax] && NameMatches(names[tax][slug], tokens)
  }

  /** Term part of one taxonomy: 8 for each of the artist's terms whose name matches. */
  function TermPoints(names: NameMap, tax: string, slugs: seq<string>, tokens: seq<string>): (r: int)
    ensures 0 <= r <= 8 * |slugs| && r % 8 == 0
    ensures r == 0 <==> forall j :: 0 <= j < |slugs| ==> !TermMatches(names, tax, slugs[j], tokens)
  {
    if slugs == [] then 0
    else
      var front := TermPoints(names, tax, slugs[..|slugs| - 1], tokens);
      assert forall j :: 0 <= j < |slugs| - 1 ==> slugs[..|slugs| - 1][j] == slugs[j];
      front + (if TermMatches(names, tax, slugs[|slugs| - 1], tokens) then 8 else 0)
  }

  function TermSum(names: NameMap, terms: TermTable, id: int, taxes: seq<string>, tokens: seq<string>): (r: int)
    ensures r >= 0
  {
    if taxes == [] then 0
    else
      var tax := taxes[|taxes| - 1];
      TermSum(names, terms, id, taxes[..|taxes| - 1], tokens) + TermPoints(names, tax, Slugs(terms, id, tax), tokens)
  }

  /** The term total is a multiple of 8: each matching term adds exactly 8. */
  lemma {:induction false} TermSumMultipleOfEight(names: NameMap, terms: TermTable, id: int, taxes: seq<string>, tokens: seq<string>)
    ensures TermSum(names, terms, id, taxes, tokens) % 8 == 0
  {
    if taxes != [] {
      TermSumMultipleOfEight(names, terms, id, taxes[..|taxes| - 1], tokens);
    }
  }

  /** The term part: counted only when there are tokens. */
  function TermPart(names: NameMap, terms: TermTable, id: int, taxes: seq<string>, tokens: seq<string>): (r: int)
    ensures r >= 0
    ensures tokens == [] ==> r == 0
  {
    if tokens == [] then 0 else TermSum(names, terms, id, taxes, tokens)
  }

  /** The no-show term: max(-10, -min(10, n)). */
  function NoShowTerm(n: int): (r: int)
    ensures n >= 0 ==> -10 <= r <= 0
    ensures n < 0 ==> r == -n
  {
    MaxInt(-10, -MinInt(10, n))
  }

  /**
   * The reliability sub-score before rounding: up to 15 for a fast response
   * (nothing for a non-positive response time), up to 15 for acceptance, up to
   * 10 for a low cancellation rate, and minus one per no-show down to -10.
   */
  function FitReliability(m: Metrics): real
  {
    (if m.responseHours > 0.0 then (1.0 - MinReal(72.0, m.responseHours) / 72.0) * 15.0 else 0.0)
    + MinReal(100.0, MaxReal(0.0, m.acceptance)) / 100.0 * 15.0
    + (1.0 - MinReal(100.0, MaxReal(0.0, m.cancellation)) / 100.0) * 10.0
    + NoShowTerm(m.noShows) as real
  }

  /**
   * The reliability part rounds into [-10, 40] for a non-negative no-show
   * count; a negative count lifts the upper end by its magnitude.
   */
  lemma FitReliabilityBounds(m: Metrics)
    ensures -10 <= Round(FitReliability(m))
    ensures m.noShows >= 0 ==> Round(FitReliability(m)) <= 40
    ensures m.noShows < 0 ==> Round(FitReliability(m)) <= 40 - m.noShows
  {
    var resp := if m.responseHours > 0.0 then (1.0 - MinReal(72.0, m.responseHours) / 72.0) * 15.0 else 0.0;
    var acc := MinReal(100.0, MaxReal(0.0, m.acceptance)) / 100.0 * 15.0;
    var canc := (1.0 - MinReal(100.0, MaxReal(0.0, m.cancellation)) / 100.0) * 10.0;
    assert 0.0 <= resp <= 15.0;
    assert 0.0 <= acc <= 15.0;
    assert 0.0 <= canc <= 10.0;
    assert FitReliability(m) == resp + acc + canc + NoShowTerm(m.noShows) as real;
    if m.noShows >= 0 {
      RoundWithin(FitReliability(m), -10, 40);
    } else {
      RoundWithin(FitReliability(m), -10, 40 - m.noShows);
    }
  }

  /**
   * A negative stored no-show count (which the event update never writes, but
   * the store may hold) is not capped: a count of -k adds k to the sub-score.
   */
  lemma NegativeNoShowsBoostFit(m: Metrics, k: int)
    requires m.noShows == 0 && k > 0
    ensures FitReliability(m.(noShows := -k)) == FitReliability(m) + k as real
  {
  }

  /** The profile parts: completeness, breadth, filter overlap, text and term matches. */
  function ContentScore(p: Post, terms: TermTable, names: NameMap, id: int,
                        tokens: seq<string>, selected: map<string, seq<string>>, taxes: seq<string>): (r: int)
    ensures r >= 0
  {
    var bio := Trim(p.content);
    Completeness(p.title, bio) + Breadth(Caps(terms, id, taxes)) + OverlapSum(selected, terms, id, taxes)
    + TextPart(tokens, p.title, bio) + TermPart(names, terms, id, taxes, tokens)
  }

  /** The sum of the parts before clamping. */
  function RawScore(posts: map<int, Post>, t: MetaTable, terms: TermTable, names: NameMap, id: int,
                    tokens: seq<string>, selected: map<string, seq<string>>, taxes: seq<string>): (r: int)
    requires id in posts
    ensures r >= -10
  {
    FitReliabilityBounds(ReadMetrics(t, id));
    ContentScore(posts[id], terms, names, id, tokens, selected, taxes) + Round(FitReliability(ReadMetrics(t, id)))
  }

  function Clamp(x: int): (r: int)
    ensures 0 <= r <= MAX_SCORE
    ensures 0 <= x <= MAX_SCORE ==> r == x
    ensures x < 0 ==> r == 0
    ensures x > MAX_SCORE ==> r == MAX_SCORE
  {
    if x < 0 then 0 else if x > MAX_SCORE then MAX_SCORE else x
  }

  /** The fit score: 0 unless the id names an artist profile, otherwise the clamped sum of the parts. */
  function Score(posts: map<int, Post>, t: MetaTable, terms: TermTable, names: NameMap, id: int,
                 tokens: seq<string>, selected: map<string, seq<string>>, taxes: seq<string>): (r: int)
    ensures 0 <= r <= MAX_SCORE
    ensures !IsPostOfType(posts, id, ARTIST_TYPE) ==> r == 0
  {
    if !IsPostOfType(posts, id, ARTIST_TYPE) then 0
    else Clamp(RawScore(posts, t, terms, names, id, tokens, selected, taxes))
  }

  /**
   * Adding one matching term to the profile adds exactly 8 when there are
   * tokens and the total stays below the cap.
   */
  lemma {:induction false} MatchingTermAddsEight(names: NameMap, tax: string, slugs: seq<string>, slug: string, tokens: seq<string>)
    requires TermMatches(names, tax, slug, tokens)
    ensures TermPoints(names, tax, slugs + [slug], tokens) == TermPoints(names, tax, slugs, tokens) + 8
  {
    assert (slugs + [slug])[..|slugs|] == slugs;
  }

  /** A profile with no title, a short bio, no terms and no tokens scores only its reliability part, clamped. */
  lemma EmptyProfileScoresReliability(posts: map<int, Post>, t: MetaTable, terms: TermTable, names: NameMap, id: int,
                                      selected: map<string, seq<string>>, taxes: seq<string>)
    requires IsPostOfType(posts, id, ARTIST_TYPE) && posts[id].title == "" && |Trim(posts[id].content)| < 30
    requires id !in terms
    ensures Score(posts, t, terms, names, id, [], selected, taxes) == Clamp(Round(FitReliability(ReadMetrics(t, id))))
  {
    NoTermsNoCaps(terms, id, taxes, selected);
    FitReliabilityBounds(ReadMetrics(t, id));
  }

  lemma {:induction false} NoTermsNoCaps(terms: TermTable, id: int, taxes: seq<string>, selected: map<string, seq<string>>)
    requires id !in terms
    ensures Caps(terms, id, taxes) == 0 && OverlapSum(selected, terms, id, taxes) == 0
  {
    if taxes != [] {
      NoTermsNoCaps(terms, id, taxes[..|taxes| - 1], selected);
    }
  }

  /** The any-token test of the term loop: stops at the first token found in the name. */
  method AnyTokenIn(name: string, tokens: seq<string>) returns (found: bool)
    ensures found == NameMatches(name, tokens)
  {
    found := false;
    var k := 0;
    while k < |tokens|
      invariant 0 <= k <= |tokens|
      invariant forall j :: 0 <= j < k ==> !(tokens[j] != "" && Contains(name, tokens[j]))
    {
      if tokens[k] != "" && Contains(name, tokens[k]) {
        found := true;
        return;
      }
      k := k + 1;
    }
  }

  /** The capability count: taxonomies in which the profile has a term. */
  method CountCaps(terms: TermTable, id: int, taxes: seq<string>) returns (caps: nat)
    ensures caps == Caps(terms, id, taxes)
  {
    caps := 0;
    for i := 0 to |taxes|
      invariant caps == Caps(terms, id, taxes[..i])
    {
      assert taxes[..i + 1][..i] == taxes[..i];
      if Slugs(terms, id, taxes[i]) != [] {
        caps := caps + 1;
      }
    }
    assert taxes[..|taxes|] == taxes;
  }

  /** The filter-overlap loop over the taxonomies. */
  method OverlapScore(selected: map<string, seq<string>>, terms: TermTable, id: int, taxes: seq<string>) returns (points: int)
    ensures points == OverlapSum(selected, terms, id, taxes)
  {
    points := 0;
    for i := 0 to |taxes|
      invariant points == OverlapSum(selected, terms, id, taxes[..i])
    {
      assert taxes[..i + 1][..i] == taxes[..i];
      var tax := taxes[i];
      if tax !in selected || selected[tax] == [] {
        continue;
      }
      var artistSlugs := Slugs(terms, id, tax);
      if artistSlugs == [] {
        continue;
      }
      var overlap := OverlapCount(selected[tax], artistSlugs);
      if overlap > 0 {
        points := points + 25;
        points := points + MinInt(25, overlap * 10);
      }
    }
    assert taxes[..|taxes|] == taxes;
  }

  /** The inner term loop of one taxonomy: 8 for each assigned term whose name matches a token. */
  method TaxonomyTermScore(names: NameMap, tax: string, artistSlugs: seq<string>, tokens: seq<string>) returns (points: int)
    ensures points == TermPoints(names, tax, artistSlugs, tokens)
  {
    points := 0;
    for j := 0 to |artistSlugs|
      invariant points == TermPoints(names, tax, artistSlugs[..j], tokens)
    {
      assert artistSlugs[..j + 1][..j] == artistSlugs[..j];
      var slug := artistSlugs[j];
      if tax !in names || slug !in names[tax] {
        continue;
      }
      var found := AnyTokenIn(names[tax][slug], tokens);
      if found {
        points := points + 8;
      }
    }
    assert artistSlugs[..|artistSlugs|] == artistSlugs;
  }

  /** The term loop over the taxonomies. */
  method TermScore(names: NameMap, terms: TermTable, id: int, taxes: seq<string>, tokens: seq<string>) returns (points: int)
    ensures points == TermSum(names, terms, id, taxes, tokens)
  {
    points := 0;
    for i := 0 to |taxes|
      invariant points == TermSum(names, terms, id, taxes[..i], tokens)
    {
      assert taxes[..i + 1][..i] == taxes[..i];
      var tax := taxes[i];
      var artistSlugs := Slugs(terms, id, tax);
      if artistSlugs == [] {
        continue;
      }
      var p := TaxonomyTermScore(names, tax, artistSlugs, tokens);
      points := points + p;
    }
    assert taxes[..|taxes|] == taxes;
  }

  /** The reliability sub-score, term by term. */
  method ReliabilityScore(m: Metrics) returns (reliability: real)
    ensures reliability == FitReliability(m)
  {
    reliability := 0.0;
    if m.responseHours > 0.0 {
      var r := MinReal(72.0, m.responseHours);
      reliability := reliability + (1.0 - r / 72.0) * 15.0;
    }
    reliability := reliability + MinReal(100.0, MaxReal(0.0, m.acceptance)) / 100.0 * 15.0;
    reliability := reliability + (1.0 - MinReal(100.0, MaxReal(0.0, m.cancellation)) / 100.0) * 10.0;
    reliability := reliability + MaxInt(-10, -MinInt(10, m.noShows)) as real;
  }

  /** The completeness checks on the title and the trimmed bio. */
  method CompletenessPoints(title: string, bio: string) returns (points: int)
    ensures points == Completeness(title, bio)
  {
    points := 0;
    if title != "" { points := points + 5; }
    if |bio| >= 30 { points := points + 5; }
    if |bio| >= 120 { points := points + 5; }
  }

  /** The part scored only when the query has tokens: text matches, then term-name matches. */
  method MatchPoints(title: string, bio: string, terms: TermTable, names: NameMap, id: int,
                     tokens: seq<string>, taxes: seq<string>) returns (points: int)
    ensures points == TextPart(tokens, title, bio) + TermPart(names, terms, id, taxes, tokens)
  {
    points := 0;
    if tokens != [] {
      var titleHits := CountMatches(tokens, Lower(title));
      var bioHits := CountMatches(tokens, Lower(bio));
      points := points + MinInt(60, titleHits * 20);
      points := points + MinInt(40, bioHits * 10);
      var termPoints := TermScore(names, terms, id, taxes, tokens);
      points := points + termPoints;
    }
  }

  /** The profile parts of gigtune_fit_score_artist, accumulated in source order. */
  method ContentPoints(p: Post, terms: TermTable, names: NameMap, id: int,
                       tokens: seq<string>, selected: map<string, seq<string>>, taxes: seq<string>)
    returns (score: int)
    ensures score == ContentScore(p, terms, names, id, tokens, selected, taxes)
  {
    var title := p.title;
    var bio := Trim(p.content);
    var completeness := CompletenessPoints(title, bio);

    var caps := CountCaps(terms, id, taxes);
    var overlap := OverlapScore(selected, terms, id, taxes);

    var matches := MatchPoints(title, bio, terms, names, id, tokens, taxes);
    score := completeness + MinInt(10, caps * 2) + overlap + matches;
  }

  /** gigtune_fit_score_artist, accumulating the score part by part. */
  method FitScoreArtist(posts: map<int, Post>, t: MetaTable, terms: TermTable, names: NameMap, id: int,
                        tokens: seq<string>, selected: map<string, seq<string>>, taxes: seq<string>)
    returns (score: int)
    ensures score == Score(posts, t, terms, names, id, tokens, selected, taxes)
    ensures 0 <= score <= MAX_SCORE
  {
    if !IsPostOfType(posts, id, ARTIST_TYPE) {
      return 0;
    }
    var content := ContentPoints(posts[id], terms, names, id, tokens, selected, taxes);
    var reliability := ReliabilityScore(ReadMetrics(t, id));
    score := content + Round(reliability);
    assert score == RawScore(posts, t, terms, names, id, tokens, selected, taxes);

    if score < 0 { score := 0; }
    if score > MAX_SCORE { score := MAX_SCORE; }
  }
}
