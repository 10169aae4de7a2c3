/**
 * Query tokenising and text matching for the artist search
 * (gigtune_tokenize_query, gigtune_count_matches_in_text), and the
 * filter-value helper gigtune_get_filter_values. Strings are sequences of
 * characters; markup stripping and sanitize_text_field are taken as already
 * applied to their inputs.
 */
module Tokenizer {
  import opened PostStore

  /** PCRE's \s without the u flag: space, tab, line feed, vertical tab, form feed, carriage return. */
  predicate IsSpace(c: char)
  {
    c == ' ' || c == '\t' || c == '\n' || c == '\U{B}' || c == '\U{C}' || c == '\r'
  }

  /** The characters a token may contain: [a-z0-9-]. */
  predicate IsTokenChar(c: char)
  {
    ('a' <= c <= 'z') || ('0' <= c <= '9') || c == '-'
  }

  /** strtolower on one character: ASCII letters only. */
  function LowerChar(c: char): (r: char)
    ensures 'A' <= c <= 'Z' ==> 'a' <= r <= 'z' && r as int == c as int + 32
    ensures !('A' <= c <= 'Z') ==> r == c
  {
    if 'A' <= c <= 'Z' then (c as int + 32) as char else c
  }

  function Lower(s: string): (r: string)
    ensures |r| == |s| && forall i :: 0 <= i < |s| ==> r[i] == LowerChar(s[i])
  {
    seq(|s|, i requires 0 <= i < |s| => LowerChar(s[i]))
  }

  /** The characters the query cleaning keeps: the token class and \s. */
  predicate Kept(c: char)
  {
    IsTokenChar(c) || IsSpace(c)
  }

  /** The length of the longest prefix of s made of characters the cleaning drops. */
  function DroppedRun(s: string): (n: nat)
    ensures n <= |s|
    ensures forall i :: 0 <= i < n ==> !Kept(s[i])
    ensures n < |s| ==> Kept(s[n])
  {
    if s == [] || Kept(s[0]) then 0 else 1 + DroppedRun(s[1..])
  }

  /**
   * preg_replace('/[^a-z0-9\s\-]+/i', ' '): each maximal run of characters
   * outside the token class and \s becomes one space.
   */
  function Sanitize(s: string): (r: string)
    ensures |r| <= |s|
    decreases |s|
  {
    if s == [] then []
    else if Kept(s[0]) then [s[0]] + Sanitize(s[1..])
    else [' '] + Sanitize(s[DroppedRun(s)..])
  }

  /** Without a token character the cleaned text is blank. */
  lemma {:induction false} SanitizeBlank(s: string)
    requires forall i :: 0 <= i < |s| ==> !IsTokenChar(s[i])
    ensures forall i :: 0 <= i < |Sanitize(s)| ==> IsSpace(Sanitize(s)[i])
    decreases |s|
  {
    if s != [] {
      var n := if Kept(s[0]) then 1 else DroppedRun(s);
      SanitizeBlank(s[n..]);
    }
  }

  /** A reference cleaning that masks character by character: each dropped character becomes its own space. */
  function MaskEach(s: string): (r: string)
    ensures |r| == |s|
  {
    if s == [] then [] else [if Kept(s[0]) then s[0] else ' '] + MaskEach(s[1..])
  }

  /** MaskEach keeps each kept character in place and puts a space where each dropped one was. */
  lemma {:induction false} MaskEachAt(s: string)
    ensures forall i :: 0 <= i < |s| ==> MaskEach(s)[i] == (if Kept(s[i]) then s[i] else ' ')
    decreases |s|
  {
    if s != [] {
      MaskEachAt(s[1..]);
      assert forall i :: 1 <= i < |s| ==> MaskEach(s)[i] == MaskEach(s[1..])[i - 1] && s[i] == s[1..][i - 1];
    }
  }

  /**
   * Replacing a dropped run by one space or by one space per character gives
   * the same words, so the tokens do not depend on the difference.
   */
  lemma SanitizeWordsAgree(s: string)
    ensures Words(Sanitize(s)) == Words(MaskEach(s))
  {
    SanitizeWordsAfter([], s);
    assert [] + Sanitize(s) == Sanitize(s) && [] + MaskEach(s) == MaskEach(s);
  }

  /** The agreement with a pending whitespace-free word in front. */
  lemma {:induction false} SanitizeWordsAfter(w: string, s: string)
    requires forall j :: 0 <= j < |w| ==> !IsSpace(w[j])
    ensures Words(w + Sanitize(s)) == Words(w + MaskEach(s))
    decreases |s|
  {
    if s == [] {
      assert w + Sanitize(s) == w + MaskEach(s);
    } else if IsTokenChar(s[0]) {
      SanitizeWordsAfter(w + [s[0]], s[1..]);
      AgreeAtTokenChar(w, s);
    } else if IsSpace(s[0]) {
      SanitizeWordsAfter([], s[1..]);
      assert [] + Sanitize(s[1..]) == Sanitize(s[1..]) && [] + MaskEach(s[1..]) == MaskEach(s[1..]);
      AgreeAtSpace(w, s);
    } else {
      var n := DroppedRun(s);
      SanitizeWordsAfter([], s[n..]);
      assert [] + Sanitize(s[n..]) == Sanitize(s[n..]) && [] + MaskEach(s[n..]) == MaskEach(s[n..]);
      AgreeAtDropped(w, s, n);
    }
  }

  /** A kept token character joins the pending word on both sides. */
  lemma AgreeAtTokenChar(w: string, s: string)
    requires s != [] && IsTokenChar(s[0])
    requires Words((w + [s[0]]) + Sanitize(s[1..])) == Words((w + [s[0]]) + MaskEach(s[1..]))
    ensures Words(w + Sanitize(s)) == Words(w + MaskEach(s))
  {
    var a := Sanitize(s[1..]);
    assert Sanitize(s) == [s[0]] + a;
    assert w + ([s[0]] + a) == (w + [s[0]]) + a;
    var b := MaskEach(s[1..]);
    assert MaskEach(s) == [s[0]] + b;
    assert w + ([s[0]] + b) == (w + [s[0]]) + b;
  }

  /** A kept whitespace character ends the pending word on both sides. */
  lemma AgreeAtSpace(w: string, s: string)
    requires forall j :: 0 <= j < |w| ==> !IsSpace(w[j])
    requires s != [] && IsSpace(s[0])
    requires Words(Sanitize(s[1..])) == Words(MaskEach(s[1..]))
    ensures Words(w + Sanitize(s)) == Words(w + MaskEach(s))
  {
    SplitAtSpace(w, s);
    SpaceKeepsAgreement(w, s[0], Sanitize(s[1..]), MaskEach(s[1..]));
  }

  lemma SplitAtSpace(w: string, s: string)
    requires s != [] && IsSpace(s[0])
    ensures w + Sanitize(s) == w + [s[0]] + Sanitize(s[1..])
    ensures w + MaskEach(s) == w + [s[0]] + MaskEach(s[1..])
  {
    assert Sanitize(s) == [s[0]] + Sanitize(s[1..]);
    ConsAssoc(w, s[0], Sanitize(s[1..]));
    assert MaskEach(s) == [s[0]] + MaskEach(s[1..]);
    ConsAssoc(w, s[0], MaskEach(s[1..]));
  }

  lemma ConsAssoc(w: string, c: char, a: string)
    ensures w + ([c] + a) == w + [c] + a
  {
  }

  /** A dropped run ends the pending word on both sides, as one space or as several. */
  lemma AgreeAtDropped(w: string, s: string, n: nat)
    requires forall j :: 0 <= j < |w| ==> !IsSpace(w[j])
    requires s != [] && !Kept(s[0]) && n == DroppedRun(s)
    requires Words(Sanitize(s[n..])) == Words(MaskEach(s[n..]))
    ensures Words(w + Sanitize(s)) == Words(w + MaskEach(s))
  {
    var pad := SplitAtDropped(w, s, n);
    BlankPrefixWords(pad, MaskEach(s[n..]));
    SpaceKeepsAgreement(w, ' ', Sanitize(s[n..]), pad + MaskEach(s[n..]));
  }

  lemma SplitAtDropped(w: string, s: string, n: nat) returns (pad: string)
    requires s != [] && !Kept(s[0]) && n == DroppedRun(s)
    ensures forall j :: 0 <= j < |pad| ==> IsSpace(pad[j])
    ensures w + Sanitize(s) == w + [' '] + Sanitize(s[n..])
    ensures w + MaskEach(s) == w + [' '] + (pad + MaskEach(s[n..]))
  {
    var a := Sanitize(s[n..]);
    assert Sanitize(s) == [' '] + a;
    assert w + ([' '] + a) == w + [' '] + a;
    pad := MaskDropped(s, n);
    var b := MaskEach(s[n..]);
    assert w + ([' '] + pad + b) == w + [' '] + (pad + b);
  }

  /** Masking a dropped run yields one space for its first character and blank padding for the rest. */
  lemma MaskDropped(s: string, n: nat) returns (pad: string)
    requires s != [] && !Kept(s[0]) && n == DroppedRun(s)
    ensures forall j :: 0 <= j < |pad| ==> IsSpace(pad[j])
    ensures MaskEach(s) == [' '] + pad + MaskEach(s[n..])
  {
    var run := s[1..n];
    pad := MaskEach(run);
    MaskAppend(run, s[n..]);
    assert s[1..] == run + s[n..];
    assert MaskEach(s) == [' '] + MaskEach(s[1..]);
    assert forall j :: 0 <= j < |run| ==> run[j] == s[j + 1];
    MaskAllDropped(run);
  }

  lemma {:induction false} MaskAllDropped(t: string)
    requires forall i :: 0 <= i < |t| ==> !Kept(t[i])
    ensures forall j :: 0 <= j < |MaskEach(t)| ==> IsSpace(MaskEach(t)[j])
    decreases |t|
  {
    if t != [] {
      var tail := t[1..];
      assert forall i :: 0 <= i < |tail| ==> tail[i] == t[i + 1];
      MaskAllDropped(tail);
      assert MaskEach(t) == [' '] + MaskEach(tail);
    }
  }

  /** Text with the same words after a whitespace character gives the same words. */
  lemma SpaceKeepsAgreement(w: string, c: char, a: string, b: string)
    requires forall j :: 0 <= j < |w| ==> !IsSpace(w[j])
    requires IsSpace(c) && Words(a) == Words(b)
    ensures Words(w + [c] + a) == Words(w + [c] + b)
  {
    WordsAtSpace(w, c, a);
    WordsAtSpace(w, c, b);
  }

  lemma {:induction false} MaskAppend(a: string, b: string)
    ensures MaskEach(a + b) == MaskEach(a) + MaskEach(b)
    decreases |a|
  {
    if a != [] {
      MaskAppend(a[1..], b);
      assert (a + b)[1..] == a[1..] + b;
    } else {
      assert a + b == b;
    }
  }

  /** A whitespace character ends the word in front of it. */
  lemma WordsAtSpace(w: string, c: char, x: string)
    requires forall j :: 0 <= j < |w| ==> !IsSpace(w[j])
    requires IsSpace(c)
    ensures Words(w + [c] + x) == (if w == [] then [] else [w]) + Words(x)
  {
    var t := w + [c] + x;
    if w == [] {
      assert t[1..] == x;
    } else {
      RunLengthOfWord(w, [c] + x);
      assert t == w + ([c] + x);
      assert t[..|w|] == w && t[|w|..] == [c] + x;
      assert ([c] + x)[1..] == x;
    }
  }

  lemma {:induction false} RunLengthOfWord(w: string, t: string)
    requires forall j :: 0 <= j < |w| ==> !IsSpace(w[j])
    requires t == [] || IsSpace(t[0])
    ensures RunLength(w + t) == |w|
    decreases |w|
  {
    if w != [] {
      RunLengthOfWord(w[1..], t);
      assert (w + t)[1..] == w[1..] + t;
    }
  }

  /** Leading whitespace adds no words. */
  lemma {:induction false} BlankPrefixWords(g: string, x: string)
    requires forall j :: 0 <= j < |g| ==> IsSpace(g[j])
    ensures Words(g + x) == Words(x)
    decreases |g|
  {
    if g != [] {
      BlankPrefixWords(g[1..], x);
      var t := g + x;
      assert t[0] == g[0] && IsSpace(t[0]);
      assert t[1..] == g[1..] + x;
      assert Words(t) == Words(t[1..]);
    } else {
      assert g + x == x;
    }
  }

  /** The length of the longest prefix of s without whitespace. */
  function RunLength(s: string): (n: nat)
    ensures n <= |s|
    ensures forall i :: 0 <= i < n ==> !IsSpace(s[i])
    ensures n < |s| ==> IsSpace(s[n])
  {
    if s == [] || IsSpace(s[0]) then 0 else 1 + RunLength(s[1..])
  }

  /**
   * trim, collapse of whitespace runs to one space, explode(' ') and dropping
   * empty parts: the maximal whitespace-free runs of s, left to right.
   */
  function Words(s: string): (r: seq<string>)
    ensures forall i :: 0 <= i < |r| ==> |r[i]| > 0
    ensures forall i, j :: 0 <= i < |r| && 0 <= j < |r[i]| ==> !IsSpace(r[i][j]) && r[i][j] in s
    decreases |s|
  {
    if s == [] then []
    else if IsSpace(s[0]) then Words(s[1..])
    else
      var n := RunLength(s);
      [s[..n]] + Words(s[n..])
  }

  /** Only whitespace. */
  predicate Blank(g: string)
  {
    forall i :: 0 <= i < |g| ==> IsSpace(g[i])
  }

  /** gaps[0] + words[0] + gaps[1] + ... + words[n-1] + gaps[n]. */
  function Interleave(gaps: seq<string>, words: seq<string>): string
    requires |gaps| == |words| + 1
    decreases |words|
  {
    if words == [] then gaps[0] else gaps[0] + words[0] + Interleave(gaps[1..], words[1..])
  }

  /**
   * s is the words laid out left to right, separated by non-empty runs of
   * whitespace, with optional whitespace at both ends: the words are then
   * exactly the maximal whitespace-free runs of s, in order.
   */
  predicate Layout(s: string, words: seq<string>, gaps: seq<string>)
  {
    && |gaps| == |words| + 1
    && (forall k :: 0 <= k < |gaps| ==> Blank(gaps[k]))
    && (forall k :: 0 < k < |words| ==> gaps[k] != [])
    && (forall k :: 0 <= k < |words| ==> words[k] != [] && forall j :: 0 <= j < |words[k]| ==> !IsSpace(words[k][j]))
    && Interleave(gaps, words) == s
  }

  /** Words splits s into its maximal whitespace-free runs and nothing else. */
  lemma {:induction false} WordsLayout(s: string)
    ensures exists gaps :: Layout(s, Words(s), gaps)
    decreases |s|
  {
    if s == [] {
      assert Words(s) == [] && Interleave([s], []) == s;
      assert Layout(s, Words(s), [s]);
    } else if IsSpace(s[0]) {
      WordsLayout(s[1..]);
      var gaps :| Layout(s[1..], Words(s[1..]), gaps);
      LayoutSpace(s[0], s[1..], Words(s[1..]), gaps);
      assert s == [s[0]] + s[1..];
      assert Layout(s, Words(s), [[s[0]] + gaps[0]] + gaps[1..]);
    } else {
      var n := RunLength(s);
      WordsLayout(s[n..]);
      var gaps :| Layout(s[n..], Words(s[n..]), gaps);
      LayoutWord(s[..n], s[n..], Words(s[n..]), gaps);
      assert s == s[..n] + s[n..];
      assert Layout(s, Words(s), [""] + gaps);
    }
  }

  /** A whitespace character in front joins the first gap. */
  lemma LayoutSpace(c: char, t: string, words: seq<string>, gaps: seq<string>)
    requires IsSpace(c) && Layout(t, words, gaps)
    ensures Layout([c] + t, words, [[c] + gaps[0]] + gaps[1..])
  {
    var gaps' := [[c] + gaps[0]] + gaps[1..];
    assert gaps'[1..] == gaps[1..];
    assert forall k :: 1 <= k < |gaps'| ==> gaps'[k] == gaps[k];
  }

  /** A run without whitespace in front of a text that starts with whitespace (or is empty) becomes the first word. */
  lemma LayoutWord(w: string, t: string, words: seq<string>, gaps: seq<string>)
    requires w != [] && forall j :: 0 <= j < |w| ==> !IsSpace(w[j])
    requires Layout(t, words, gaps)
    requires t == [] || IsSpace(t[0])
    ensures Layout(w + t, [w] + words, [""] + gaps)
  {
    var gaps' := [""] + gaps;
    var words' := [w] + words;
    assert gaps'[1..] == gaps && words'[1..] == words;
    if words != [] {
      assert t == gaps[0] + words[0] + Interleave(gaps[1..], words[1..]);
      assert t[|gaps[0]|] == words[0][0];
    }
    assert forall k :: 0 < k < |words'| ==> gaps'[k] == gaps[k - 1] && words'[k] == words[k - 1];
  }

  /** The parts of length at least 2, in order. */
  function LongWords(parts: seq<string>): (r: seq<string>)
    ensures forall i :: 0 <= i < |r| ==> |r[i]| >= 2 && r[i] in parts
    ensures forall p :: p in parts && |p| >= 2 ==> p in r
  {
    if parts == [] then []
    else
      var front := LongWords(parts[..|parts| - 1]);
      var last := parts[|parts| - 1];
      assert forall p :: p in parts ==> p in parts[..|parts| - 1] || p == last;
      if |last| >= 2 then front + [last] else front
  }

  predicate Distinct<T(==)>(s: seq<T>)
  {
    forall i, j :: 0 <= i < j < |s| ==> s[i] != s[j]
  }

  /** array_values(array_unique($s)): the first occurrence of each value, in order. */
  function Unique<T(==, !new)>(s: seq<T>): (r: seq<T>)
    ensures Distinct(r)
    ensures forall x :: x in r <==> x in s
    ensures |r| <= |s|
  {
    if s == [] then []
    else
      var front := Unique(s[..|s| - 1]);
      var last := s[|s| - 1];
      assert forall x :: x in s ==> x in s[..|s| - 1] || x == last;
      if last in front then front else front + [last]
  }

  /** The tokens of a search query. */
  function TokensOf(q: string): seq<string>
  {
    Unique(LongWords(Words(Sanitize(Lower(q)))))
  }

  method Tokenize(q: string) returns (tokens: seq<string>)
    ensures tokens == TokensOf(q)
  {
    var parts := Words(Sanitize(Lower(q)));
    if parts == [] {
      return [];
    }
    var collected := KeepLong(parts);
    tokens := Unique(collected);
  }

  /** The loop over the exploded parts: skip empty and one-character parts. */
  method KeepLong(parts: seq<string>) returns (collected: seq<string>)
    ensures collected == LongWords(parts)
  {
    collected := [];
    for i := 0 to |parts|
      invariant collected == LongWords(parts[..i])
    {
      assert parts[..i + 1][..i] == parts[..i];
      var p := parts[i];
      if p == "" {
        continue;
      }
      if |p| < 2 {
        continue;
      }
      collected := collected + [p];
    }
    assert parts[..|parts|] == parts;
  }

  /** The cleaned text holds only token characters and whitespace. */
  lemma {:induction false} SanitizedChars(s: string)
    ensures forall c :: c in Sanitize(s) ==> IsTokenChar(c) || IsSpace(c)
    decreases |s|
  {
    if s != [] {
      var n := if Kept(s[0]) then 1 else DroppedRun(s);
      SanitizedChars(s[n..]);
    }
  }

  /** Text without a character to drop comes through the cleaning unchanged. */
  lemma {:induction false} SanitizeKeepsClean(s: string)
    requires forall i :: 0 <= i < |s| ==> Kept(s[i])
    ensures Sanitize(s) == s
    decreases |s|
  {
    if s != [] {
      SanitizeKeepsClean(s[1..]);
      assert s == [s[0]] + s[1..];
    }
  }

  /**
   * Every token has at least two characters, all from [a-z0-9-] (so it is
   * lower case and holds no whitespace); no token appears twice; and the
   * tokens are exactly the distinct words of the cleaned query of length 2 or
   * more.
   */
  lemma {:induction false} TokenShape(q: string)
    ensures Distinct(TokensOf(q))
    ensures forall t :: t in TokensOf(q) ==> |t| >= 2 && forall c :: c in t ==> IsTokenChar(c)
    ensures forall w :: w in TokensOf(q) <==> w in Words(Sanitize(Lower(q))) && |w| >= 2
  {
    var clean := Sanitize(Lower(q));
    SanitizedChars(Lower(q));
    var words := Words(clean);
    forall t | t in TokensOf(q) ensures |t| >= 2 && forall c :: c in t ==> IsTokenChar(c) {
      assert t in LongWords(words);
      var i :| 0 <= i < |words| && words[i] == t;
      forall c | c in t ensures IsTokenChar(c) {
        var j :| 0 <= j < |t| && t[j] == c;
        assert !IsSpace(words[i][j]) && words[i][j] in clean;
      }
    }
  }

  /** A run of whitespace has no words. */
  lemma {:induction false} BlankHasNoWords(s: string)
    requires forall i :: 0 <= i < |s| ==> IsSpace(s[i])
    ensures Words(s) == []
    decreases |s|
  {
    if s != [] {
      BlankHasNoWords(s[1..]);
    }
  }

  /** A query with no letter, digit or hyphen (an all-blank query in particular) has no tokens. */
  lemma {:induction false} BlankQueryHasNoTokens(q: string)
    requires forall i :: 0 <= i < |q| ==> !IsTokenChar(LowerChar(q[i]))
    ensures TokensOf(q) == []
  {
    var clean := Sanitize(Lower(q));
    SanitizeBlank(Lower(q));
    BlankHasNoWords(clean);
  }

  /** strpos($text, $needle) !== false. */
  predicate Contains(text: string, needle: string)
  {
    exists i :: 0 <= i <= |text| - |needle| && needle <= text[i..]
  }

  /** How many of the tokens are non-empty and occur in the text. */
  function MatchCount(tokens: seq<string>, text: string): (r: nat)
    ensures r <= |tokens|
  {
    if tokens == [] then 0
    else
      var last := tokens[|tokens| - 1];
      MatchCount(tokens[..|tokens| - 1], text) + (if last != "" && Contains(text, last) then 1 else 0)
  }

  method CountMatches(tokens: seq<string>, text: string) returns (count: nat)
    ensures count == MatchCount(tokens, Lower(text))
    ensures count <= |tokens|
  {
    var lowered := Lower(text);
    count := 0;
    for i := 0 to |tokens|
      invariant count == MatchCount(tokens[..i], lowered)
    {
      assert tokens[..i + 1][..i] == tokens[..i];
      var t := tokens[i];
      if t != "" && Contains(lowered, t) {
        count := count + 1;
      }
    }
    assert tokens[..|tokens|] == tokens;
  }

  /** The count reaches the number of tokens exactly when every token is non-empty and occurs. */
  lemma {:induction false} MatchCountFull(tokens: seq<string>, text: string)
    ensures MatchCount(tokens, text) == |tokens| <==> forall t :: t in tokens ==> t != "" && Contains(text, t)
  {
    if tokens != [] {
      var front, last := tokens[..|tokens| - 1], tokens[|tokens| - 1];
      MatchCountFull(front, text);
      assert tokens == front + [last];
      assert forall t :: t in tokens <==> t in front || t == last;
      var hit := last != "" && Contains(text, last);
      assert MatchCount(tokens, text) == MatchCount(front, text) + (if hit then 1 else 0);
      if forall t :: t in tokens ==> t != "" && Contains(text, t) {
        assert last in tokens;
        assert forall t :: t in front ==> t in tokens;
      } else {
        var t :| t in tokens && !(t != "" && Contains(text, t));
        if t != last {
          assert t in front;
        }
      }
    }
  }

  /** The non-empty values, in order. */
  function NonEmpty(values: seq<string>): (r: seq<string>)
    ensures forall v :: v in r <==> v in values && v != ""
  {
    if values == [] then []
    else
      var front := NonEmpty(values[..|values| - 1]);
      var last := values[|values| - 1];
      assert forall v :: v in values ==> v in values[..|values| - 1] || v == last;
      if last != "" then front + [last] else front
  }

  /**
   * gigtune_get_filter_values: the posted values for one taxonomy, None when
   * the parameter is missing or not an array; empty values dropped, duplicates
   * removed keeping the first occurrence.
   */
  method FilterValues(raw: Option<seq<string>>) returns (values: seq<string>)
    ensures Distinct(values)
    ensures forall v :: v in values <==> raw.Some? && v in raw.value && v != ""
    ensures raw.Some? ==> values == Unique(NonEmpty(raw.value))
  {
    if raw.None? {
      return [];
    }
    var posted := raw.value;
    var out: seq<string> := [];
    for i := 0 to |posted|
      invariant out == NonEmpty(posted[..i])
    {
      assert posted[..i + 1][..i] == posted[..i];
      var v := posted[i];
      if v != "" {
        out := out + [v];
      }
    }
    assert posted[..|posted|] == posted;
    values := Unique(out);
  }
}
