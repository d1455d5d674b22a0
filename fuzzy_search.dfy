/** The tolerant text matcher of src/lib/fuzzySearch.ts: normalisation, Levenshtein
    distance, word-wise fuzzy matching and the tiered relevance score. */
module FuzzySearch {
  import opened Text
  import Lists

  // ---------------------------------------------------------------------------
  // normalizeText
  // ---------------------------------------------------------------------------

  /** The characters `normalizeText` deletes: `.`, `'`, `&` and `-`. */
  predicate IsPunct(c: char) { c == '.' || c == '\'' || c == '&' || c == '-' }

  /** The characters each stage keeps, as named tests for `Lists.Filter`. */
  predicate NotPunct(c: char) { !IsPunct(c) }

  predicate NotSpace(c: char) { !IsSpace(c) }

  /** What survives normalisation of a lower-cased text: neither whitespace nor deleted
      punctuation. */
  predicate IsWordChar(c: char) { !IsSpace(c) && !IsPunct(c) }

  /** `.replace(/[.'&\-]/g, '')` */
  function StripPunctuation(s: string): (r: string)
    ensures |r| <= |s|
  {
    if s == [] then [] else (if IsPunct(s[0]) then [] else [s[0]]) + StripPunctuation(s[1..])
  }

  /** `.replace(/\s+/g, ' ')`: every maximal run of whitespace becomes one space
      (each run is kept as its last character, turned into a space). */
  function CollapseSpaces(s: string): (r: string)
    ensures |r| <= |s|
  {
    if s == [] then []
    else if IsSpace(s[0]) && |s| > 1 && IsSpace(s[1]) then CollapseSpaces(s[1..])
    else [if IsSpace(s[0]) then ' ' else s[0]] + CollapseSpaces(s[1..])
  }

  function TrimStart(s: string): (r: string)
    ensures |r| <= |s|
  {
    if s != [] && IsSpace(s[0]) then TrimStart(s[1..]) else s
  }

  function TrimEnd(s: string): (r: string)
    ensures |r| <= |s|
  {
    if s != [] && IsSpace(s[|s| - 1]) then TrimEnd(s[..|s| - 1]) else s
  }

  /** `.trim()` */
  function Trim(s: string): string {
    TrimStart(TrimEnd(s))
  }

  /** `normalizeText` (src/lib/fuzzySearch.ts:27-33). Every stage only deletes or
      replaces characters, so the result is never longer than the input. */
  function Normalize(s: string): (r: string)
    ensures |r| <= |s|
  {
    Trim(CollapseSpaces(StripPunctuation(Lower(s))))
  }

  /** The shape of every normalised string: no upper-case letter, none of the deleted
      punctuation, no whitespace but the plain space, no space at either end and no two
      spaces in a row. */
  predicate IsNormal(s: string) {
    && (forall i :: 0 <= i < |s| ==> !IsUpper(s[i]) && !IsPunct(s[i]) && (IsSpace(s[i]) ==> s[i] == ' '))
    && (forall i :: 0 < i < |s| ==> s[i - 1] != ' ' || s[i] != ' ')
    && (s != [] ==> s[0] != ' ' && s[|s| - 1] != ' ')
  }

  /** Removing punctuation keeps, in order, exactly the characters that are not
      punctuation. */
  lemma {:induction false} StripPunctuationChars(s: string)
    ensures StripPunctuation(s) == Lists.Filter(s, NotPunct)
    ensures forall i :: 0 <= i < |StripPunctuation(s)| ==>
      StripPunctuation(s)[i] in s && !IsPunct(StripPunctuation(s)[i])
  {
    if s != [] {
      StripPunctuationChars(s[1..]);
      assert Lists.Filter(s, NotPunct) == (if NotPunct(s[0]) then [s[0]] else []) + Lists.Filter(s[1..], NotPunct);
      var r := StripPunctuation(s);
      var head := if IsPunct(s[0]) then [] else [s[0]];
      assert r == head + StripPunctuation(s[1..]);
      forall i | 0 <= i < |r| ensures r[i] in s && !IsPunct(r[i]) {
        if i >= |head| {
          assert r[i] == StripPunctuation(s[1..])[i - |head|];
          assert r[i] in s[1..];
        }
      }
    }
  }

  /** What `CollapseSpaces` produces: every character of its input other than whitespace,
      in order, with plain spaces between them, never two spaces in a row, and a leading
      space exactly when the input starts with whitespace. */
  lemma {:induction false} CollapseSpacesShape(s: string)
    ensures Lists.Filter(CollapseSpaces(s), NotSpace) == Lists.Filter(s, NotSpace)
    ensures var r := CollapseSpaces(s);
      && (r == [] <==> s == [])
      && (r != [] ==> (r[0] == ' ' <==> IsSpace(s[0])))
      && (forall i :: 0 <= i < |r| ==> r[i] == ' ' || (r[i] in s && !IsSpace(r[i])))
      && (forall i :: 0 < i < |r| ==> r[i - 1] != ' ' || r[i] != ' ')
  {
    if s != [] {
      CollapseSpacesShape(s[1..]);
      var r := CollapseSpaces(s);
      var tail := CollapseSpaces(s[1..]);
      assert Lists.Filter(s, NotSpace) == (if NotSpace(s[0]) then [s[0]] else []) + Lists.Filter(s[1..], NotSpace);
      if IsSpace(s[0]) && |s| > 1 && IsSpace(s[1]) {
        assert r == tail;
        forall i | 0 <= i < |r| && r[i] != ' ' ensures r[i] in s {
          assert r[i] in s[1..];
        }
      } else {
        var c := if IsSpace(s[0]) then ' ' else s[0];
        assert r == [c] + tail;
        assert r[1..] == tail;
        forall i | 0 < i < |r| ensures r[i] == ' ' || (r[i] in s && !IsSpace(r[i])) {
          assert r[i] == tail[i - 1];
          assert tail[i - 1] != ' ' ==> tail[i - 1] in s[1..];
        }
        forall i | 0 < i < |r| ensures r[i - 1] != ' ' || r[i] != ' ' {
          if i == 1 && c == ' ' {
            assert tail[0] == ' ' <==> IsSpace(s[1]);
          }
        }
      }
    }
  }

  /** A run of whitespace at the front of `w + b`, before a `b` that does not start with
      whitespace, becomes one space. */
  lemma {:induction false} CollapseLeadingRun(w: string, b: string)
    requires w != [] && forall i :: 0 <= i < |w| ==> IsSpace(w[i])
    requires b != [] ==> !IsSpace(b[0])
    ensures CollapseSpaces(w + b) == " " + CollapseSpaces(b)
    decreases |w|
  {
    var s := w + b;
    assert s[1..] == w[1..] + b;
    if |w| > 1 {
      assert s[1] == w[1];
      CollapseLeadingRun(w[1..], b);
    } else {
      assert s[1..] == b;
      if b != [] { assert s[1] == b[0]; }
    }
  }

  /** Text that ends in a non-whitespace character collapses on its own: no run of
      whitespace crosses the end of `x`. */
  lemma {:induction false} CollapseAppend(x: string, y: string)
    requires x != [] ==> !IsSpace(x[|x| - 1])
    ensures CollapseSpaces(x + y) == CollapseSpaces(x) + CollapseSpaces(y)
    decreases |x|
  {
    if x == [] {
      assert x + y == y;
    } else {
      var s := x + y;
      assert s[0] == x[0] && s[1..] == x[1..] + y;
      CollapseAppend(x[1..], y);
      if |x| > 1 {
        assert s[1] == x[1];
      }
    }
  }

  lemma {:induction false} TrimStartShape(s: string)
    ensures |TrimStart(s)| <= |s| && TrimStart(s) == s[|s| - |TrimStart(s)|..]
    ensures forall i :: 0 <= i < |s| - |TrimStart(s)| ==> IsSpace(s[i])
    ensures TrimStart(s) != [] ==> !IsSpace(TrimStart(s)[0])
  {
    if s != [] && IsSpace(s[0]) {
      TrimStartShape(s[1..]);
    }
  }

  lemma {:induction false} TrimEndShape(s: string)
    ensures |TrimEnd(s)| <= |s| && TrimEnd(s) == s[..|TrimEnd(s)|]
    ensures forall i :: |TrimEnd(s)| <= i < |s| ==> IsSpace(s[i])
    ensures TrimEnd(s) != [] ==> !IsSpace(TrimEnd(s)[|TrimEnd(s)| - 1])
  {
    if s != [] && IsSpace(s[|s| - 1]) {
      TrimEndShape(s[..|s| - 1]);
    }
  }

  /** `Trim` cuts only whitespace off both ends of its input, and the slice left neither
      starts nor ends with whitespace. */
  lemma TrimShape(s: string) returns (lo: nat, hi: nat)
    ensures lo <= hi <= |s| && Trim(s) == s[lo..hi]
    ensures forall i :: 0 <= i < lo ==> IsSpace(s[i])
    ensures forall i :: hi <= i < |s| ==> IsSpace(s[i])
    ensures Trim(s) != [] ==> !IsSpace(Trim(s)[0]) && !IsSpace(Trim(s)[|Trim(s)| - 1])
  {
    TrimEndShape(s);
    var e := TrimEnd(s);
    TrimStartShape(e);
    hi := |e|;
    lo := |e| - |TrimStart(e)|;
    assert e == s[..hi];
    assert TrimStart(e) == e[lo..];
    assert e[lo..] == s[lo..hi];
    forall i | 0 <= i < lo ensures IsSpace(s[i]) {
      assert s[i] == e[i];
    }
  }

  /** Every result of `normalizeText` has the normal shape. */
  lemma NormalizeIsNormal(s: string)
    ensures IsNormal(Normalize(s))
  {
    var c := CollapseSpaces(StripPunctuation(Lower(s)));
    CollapsedIsClean(s);
    var lo, hi := TrimShape(c);
    assert Normalize(s) == c[lo..hi];
    SliceIsClean(c, lo, hi);
  }

  /** A character that may appear in a normalised string. */
  predicate CleanChar(c: char) {
    !IsUpper(c) && !IsPunct(c) && (IsSpace(c) ==> c == ' ')
  }

  /** A normalised string before trimming: clean characters, no two spaces in a row. */
  predicate CleanText(c: string) {
    && (forall i :: 0 <= i < |c| ==> CleanChar(c[i]))
    && (forall i :: 0 < i < |c| ==> c[i - 1] != ' ' || c[i] != ' ')
  }

  /** Before trimming, the text is already clean. */
  lemma CollapsedIsClean(s: string)
    ensures CleanText(CollapseSpaces(StripPunctuation(Lower(s))))
  {
    var l := Lower(s);
    LowerHasNoUpper(s);
    var p := StripPunctuation(l);
    StripPunctuationChars(l);
    var c := CollapseSpaces(p);
    CollapseSpacesShape(p);
    forall i | 0 <= i < |c| ensures CleanChar(c[i]) {
      if c[i] != ' ' {
        assert c[i] in p;
        var j :| 0 <= j < |p| && p[j] == c[i];
        assert p[j] in l;
      }
    }
  }

  /** A slice of a clean text is clean. */
  lemma SliceIsClean(c: string, lo: nat, hi: nat)
    requires lo <= hi <= |c| && CleanText(c)
    ensures CleanText(c[lo..hi])
  {
    var r := c[lo..hi];
    forall i | 0 <= i < |r| ensures CleanChar(r[i]) {
      assert r[i] == c[lo + i];
    }
    forall i | 0 < i < |r| ensures r[i - 1] != ' ' || r[i] != ' ' {
      assert r[i - 1] == c[lo + i - 1] && r[i] == c[lo + i];
    }
  }

  /** Trimming loses whitespace only. */
  lemma TrimKeepsNonSpace(c: string)
    ensures Lists.Filter(Trim(c), NotSpace) == Lists.Filter(c, NotSpace)
  {
    var lo, hi := TrimShape(c);
    var front, mid, back := c[..lo], c[lo..hi], c[hi..];
    assert c == front + mid + back;
    assert Trim(c) == mid;
    Lists.FilterAppend(front + mid, back, NotSpace);
    Lists.FilterAppend(front, mid, NotSpace);
    Lists.FilterDropsAll(front, NotSpace);
    Lists.FilterDropsAll(back, NotSpace);
  }

  /** Normalisation keeps, in order, every character of the lower-cased text that is
      neither whitespace nor deleted punctuation: only spacing and `. ' & -` are lost. */
  lemma NormalizeKeepsWords(s: string)
    ensures Lists.Filter(Normalize(s), NotSpace) == Lists.Filter(Lower(s), IsWordChar)
  {
    var l := Lower(s);
    var p := StripPunctuation(l);
    var c := CollapseSpaces(p);
    StripPunctuationChars(l);
    CollapseSpacesShape(p);
    TrimKeepsNonSpace(c);
    Lists.FilterFilter(l, NotPunct, NotSpace, IsWordChar);
    calc {
      Lists.Filter(Normalize(s), NotSpace);
      Lists.Filter(Trim(c), NotSpace);
      Lists.Filter(c, NotSpace);
      Lists.Filter(p, NotSpace);
      Lists.Filter(Lists.Filter(l, NotPunct), NotSpace);
      Lists.Filter(l, IsWordChar);
    }
  }

  lemma {:induction false} StripPunctuationFixed(s: string)
    requires forall i :: 0 <= i < |s| ==> !IsPunct(s[i])
    ensures StripPunctuation(s) == s
  {
    if s != [] {
      StripPunctuationFixed(s[1..]);
    }
  }

  lemma {:induction false} CollapseSpacesFixed(s: string)
    requires forall i :: 0 <= i < |s| ==> IsSpace(s[i]) ==> s[i] == ' '
    requires forall i :: 0 < i < |s| ==> s[i - 1] != ' ' || s[i] != ' '
    ensures CollapseSpaces(s) == s
  {
    if s != [] {
      CollapseSpacesFixed(s[1..]);
      assert |s| > 1 ==> s[0] != ' ' || s[1] != ' ';
    }
  }

  /** A string of the normal shape is left as it is by `normalizeText`. */
  lemma NormalizeFixesNormal(s: string)
    requires IsNormal(s)
    ensures Normalize(s) == s
  {
    LowerFixedIffNoUpper(s);
    StripPunctuationFixed(s);
    CollapseSpacesFixed(s);
    assert TrimEnd(s) == s;
    assert TrimStart(s) == s;
  }

  /** `normalizeText` is idempotent. */
  lemma NormalizeIdempotent(s: string)
    ensures Normalize(Normalize(s)) == Normalize(s)
  {
    NormalizeIsNormal(s);
    NormalizeFixesNormal(Normalize(s));
  }

  // ---------------------------------------------------------------------------
  // levenshteinDistance
  // ---------------------------------------------------------------------------

  function Min3(x: nat, y: nat, z: nat): nat {
    if x <= y && x <= z then x else if y <= z then y else z
  }

  /** The Levenshtein distance between `a` and `b`, by the recurrence the table of
      `levenshteinDistance` follows: on equal last characters take the diagonal,
      otherwise one plus the least of substitution, insertion and deletion. */
  function Distance(a: string, b: string): nat
    decreases |a| + |b|
  {
    if |a| == 0 then |b|
    else if |b| == 0 then |a|
    else if a[|a| - 1] == b[|b| - 1] then Distance(a[..|a| - 1], b[..|b| - 1])
    else 1 + Min3(Distance(a[..|a| - 1], b[..|b| - 1]),
                  Distance(a[..|a| - 1], b),
                  Distance(a, b[..|b| - 1]))
  }

  /** One cell of the table: the recurrence of `Distance` for the prefixes `a[..j]` and `b[..i]`. */
  lemma DistanceCell(a: string, b: string, i: nat, j: nat)
    requires 1 <= i <= |b| && 1 <= j <= |a|
    ensures Distance(a[..j], b[..i]) ==
      if b[i - 1] == a[j - 1] then Distance(a[..j - 1], b[..i - 1])
      else Min3(Distance(a[..j - 1], b[..i - 1]) + 1, Distance(a[..j - 1], b[..i]) + 1, Distance(a[..j], b[..i - 1]) + 1)
  {
    assert a[..j][..j - 1] == a[..j - 1] && b[..i][..i - 1] == b[..i - 1];
  }

  /** Rows `0` to `rows - 1` of the table hold the distances between the prefixes of `b`
      and of `a` that index them. */
  ghost predicate RowsDone(matrix: array2<nat>, a: string, b: string, rows: nat)
    requires matrix.Length0 == |b| + 1 && matrix.Length1 == |a| + 1 && rows <= |b| + 1
    reads matrix
  {
    forall i, j :: 0 <= i < rows && 0 <= j <= |a| ==> matrix[i, j] == Distance(a[..j], b[..i])
  }

  /** The first `cols` cells of row `i` are filled in. */
  ghost predicate CellsDone(matrix: array2<nat>, a: string, b: string, i: nat, cols: nat)
    requires matrix.Length0 == |b| + 1 && matrix.Length1 == |a| + 1 && i <= |b| && cols <= |a| + 1
    reads matrix
  {
    forall j :: 0 <= j < cols ==> matrix[i, j] == Distance(a[..j], b[..i])
  }

  /** `levenshteinDistance(a, b)` (src/lib/fuzzySearch.ts:36-65): the dynamic-programming
      table, row `i` for the first `i` characters of `b`, column `j` for the first `j`
      characters of `a`. */
  method LevenshteinDistance(a: string, b: string) returns (d: nat)
    ensures d == Distance(a, b)
  {
    if |a| == 0 { return |b|; }
    if |b| == 0 { return |a|; }

    var matrix := new nat[|b| + 1, |a| + 1];
    for i := 0 to |b| + 1
      invariant forall i' :: 0 <= i' < i ==> matrix[i', 0] == i'
    {
      matrix[i, 0] := i;
    }
    for j := 0 to |a| + 1
      invariant forall i' :: 1 <= i' <= |b| ==> matrix[i', 0] == i'
      invariant forall j' :: 0 <= j' < j ==> matrix[0, j'] == j'
    {
      matrix[0, j] := j;
    }
    assert RowsDone(matrix, a, b, 1);
    for i := 1 to |b| + 1
      invariant RowsDone(matrix, a, b, i)
      invariant forall i' :: i <= i' <= |b| ==> matrix[i', 0] == i'
    {
      FillRow(matrix, a, b, i);
    }
    assert a[..|a|] == a && b[..|b|] == b;
    d := matrix[|b|, |a|];
  }

  /** The inner loop of `levenshteinDistance` for row `i` (src/lib/fuzzySearch.ts:51-61):
      with the rows above complete and the first column set, it fills the row and touches
      no other row. */
  method FillRow(matrix: array2<nat>, a: string, b: string, i: nat)
    requires matrix.Length0 == |b| + 1 && matrix.Length1 == |a| + 1 && 1 <= i <= |b|
    requires RowsDone(matrix, a, b, i) && matrix[i, 0] == i
    modifies matrix
    ensures RowsDone(matrix, a, b, i + 1)
    ensures forall i' :: i < i' <= |b| ==> matrix[i', 0] == old(matrix[i', 0])
  {
    assert a[..0] == [];
    for j := 1 to |a| + 1
      invariant RowsDone(matrix, a, b, i)
      invariant CellsDone(matrix, a, b, i, j)
      invariant forall i' :: i < i' <= |b| ==> matrix[i', 0] == old(matrix[i', 0])
    {
      DistanceCell(a, b, i, j);
      assert matrix[i - 1, j - 1] == Distance(a[..j - 1], b[..i - 1]);
      assert matrix[i - 1, j] == Distance(a[..j], b[..i - 1]);
      assert matrix[i, j - 1] == Distance(a[..j - 1], b[..i]);
      if b[i - 1] == a[j - 1] {
        matrix[i, j] := matrix[i - 1, j - 1];
      } else {
        matrix[i, j] := Min3(matrix[i - 1, j - 1] + 1, matrix[i, j - 1] + 1, matrix[i - 1, j] + 1);
      }
    }
  }

  /** Distance to the empty string is the other string's length (src/lib/fuzzySearch.ts:37-38). */
  lemma DistanceToEmpty(s: string)
    ensures Distance("", s) == |s| && Distance(s, "") == |s|
  {
  }

  /** A string is at distance 0 from itself. */
  lemma {:induction false} DistanceToSelf(s: string)
    ensures Distance(s, s) == 0
  {
    if s != [] {
      DistanceToSelf(s[..|s| - 1]);
    }
  }

  /** Distance 0 means equal strings. */
  lemma {:induction false} DistanceZeroIsEqual(a: string, b: string)
    requires Distance(a, b) == 0
    ensures a == b
    decreases |a| + |b|
  {
    if |a| > 0 && |b| > 0 {
      DistanceZeroIsEqual(a[..|a| - 1], b[..|b| - 1]);
      assert a == a[..|a| - 1] + [a[|a| - 1]];
      assert b == b[..|b| - 1] + [b[|b| - 1]];
    }
  }

  /** The distance lies between the difference of the lengths and the larger length. */
  lemma {:induction false} DistanceBounds(a: string, b: string)
    ensures |a| - |b| <= Distance(a, b) && |b| - |a| <= Distance(a, b)
    ensures Distance(a, b) <= if |a| <= |b| then |b| else |a|
    decreases |a| + |b|
  {
    if |a| > 0 && |b| > 0 {
      DistanceBounds(a[..|a| - 1], b[..|b| - 1]);
      DistanceBounds(a[..|a| - 1], b);
      DistanceBounds(a, b[..|b| - 1]);
    }
  }

  /** The distance does not depend on the order of its arguments. */
  lemma {:induction false} DistanceSymmetric(a: string, b: string)
    ensures Distance(a, b) == Distance(b, a)
    decreases |a| + |b|
  {
    if |a| > 0 && |b| > 0 {
      DistanceSymmetric(a[..|a| - 1], b[..|b| - 1]);
      DistanceSymmetric(a[..|a| - 1], b);
      DistanceSymmetric(a, b[..|b| - 1]);
    }
  }

  /** `n` copies of `c`. */
  function Repeat(c: char, n: nat): (r: string)
    ensures |r| == n && forall i :: 0 <= i < n ==> r[i] == c
  {
    seq(n, _ => c)
  }

  /** Between runs of one character the distance is the difference of the run lengths. */
  lemma {:induction false} DistanceBetweenRuns(c: char, m: nat, n: nat)
    ensures Distance(Repeat(c, m), Repeat(c, n)) == if m <= n then n - m else m - n
    decreases m + n
  {
    if m > 0 && n > 0 {
      DistanceBetweenRuns(c, m - 1, n - 1);
      assert Repeat(c, m)[..m - 1] == Repeat(c, m - 1);
      assert Repeat(c, n)[..n - 1] == Repeat(c, n - 1);
    }
  }

  // ---------------------------------------------------------------------------
  // fuzzyMatch
  // ---------------------------------------------------------------------------

  /** Length of the run of non-whitespace characters at the start of `s`. */
  function WordLength(s: string): (n: nat)
    ensures n <= |s|
    ensures forall i :: 0 <= i < n ==> !IsSpace(s[i])
    ensures n < |s| ==> IsSpace(s[n])
  {
    if s == [] || IsSpace(s[0]) then 0 else 1 + WordLength(s[1..])
  }

  /** `s.split(/\s+/).filter(w => w.length > 0)`: the maximal runs of non-whitespace
      characters of `s`, in order. */
  function Words(s: string): (ws: seq<string>)
    ensures forall k :: 0 <= k < |ws| ==> ws[k] != [] && forall i :: 0 <= i < |ws[k]| ==> !IsSpace(ws[k][i])
    decreases |s|
  {
    if s == [] then []
    else if IsSpace(s[0]) then Words(s[1..])
    else
      var n := WordLength(s);
      [s[..n]] + Words(s[n..])
  }

  /** The edit tolerance for a query word: `Math.max(1, Math.floor(w.length / 3))`. */
  function Tolerance(w: string): nat {
    if |w| / 3 < 1 then 1 else |w| / 3
  }

  /** The per-word test of `fuzzyMatch` (src/lib/fuzzySearch.ts:19-21). */
  predicate WordsClose(textWord: string, queryWord: string) {
    || Contains(textWord, queryWord)
    || Contains(queryWord, textWord)
    || Distance(textWord, queryWord) <= Tolerance(queryWord)
  }

  /** Every query word is close to some text word (src/lib/fuzzySearch.ts:13-23). */
  predicate EveryWordClose(textWords: seq<string>, queryWords: seq<string>) {
    forall k :: 0 <= k < |queryWords| ==>
      exists m :: 0 <= m < |textWords| && WordsClose(textWords[m], queryWords[k])
  }

  /** `fuzzyMatch` on already normalised strings. */
  predicate MatchNormalized(t: string, q: string) {
    Contains(t, q) || EveryWordClose(Words(t), Words(q))
  }

  /** `fuzzyMatch(text, query)` (src/lib/fuzzySearch.ts:3-24). */
  predicate FuzzyMatch(text: string, query: string) {
    MatchNormalized(Normalize(text), Normalize(query))
  }

  /** An occurrence of the normalised query in the normalised text is a match, whatever the
      words (src/lib/fuzzySearch.ts:8-10). */
  lemma OccurrenceMatches(text: string, query: string)
    requires Contains(Normalize(text), Normalize(query))
    ensures FuzzyMatch(text, query)
  {
  }

  /** A normalised string is its words joined by single spaces, so splitting it loses nothing. */
  lemma {:induction false} WordsJoinBack(s: string)
    requires IsNormal(s)
    ensures Lists.Join(Words(s), " ") == s
    decreases |s|
  {
    if s != [] {
      var n := WordLength(s);
      if n == |s| {
        WordsOfWholeWord(s);
      } else {
        var rest := s[n + 1..];
        NormalAfterWord(s, n);
        WordsJoinBack(rest);
        WordsOfNonBlank(rest);
        Lists.JoinCons(s[..n], Words(rest), " ");
        SplitAtSpace(s, n);
      }
    }
  }

  /** A string that starts with a non-space character has at least one word. */
  lemma WordsOfNonBlank(s: string)
    requires s != [] && !IsSpace(s[0])
    ensures Words(s) != []
  {
  }

  /** Cutting out the space at position `n` and putting it back gives the string. */
  lemma SplitAtSpace(s: string, n: nat)
    requires n < |s| && s[n] == ' '
    ensures s == s[..n] + " " + s[n + 1..]
  {
  }

  lemma WordsOfWholeWord(s: string)
    requires s != [] && WordLength(s) == |s|
    ensures Words(s) == [s]
  {
    assert !IsSpace(s[0]);
    assert s[..|s|] == s && s[|s|..] == [];
    assert Words(s) == [s[..|s|]] + Words(s[|s|..]);
  }

  /** In a normalised string a word is followed by exactly one space and a normalised rest. */
  lemma NormalAfterWord(s: string, n: nat)
    requires IsNormal(s) && s != [] && n == WordLength(s) && n < |s|
    ensures n > 0 && s[n] == ' ' && n + 1 < |s|
    ensures IsNormal(s[n + 1..]) && s[n + 1] != ' '
    ensures Words(s) == [s[..n]] + Words(s[n + 1..])
  {
    assert s[0] != ' ' && !IsSpace(s[0]);
    assert IsSpace(s[n]) && s[n] == ' ';
    assert s[n + 1] != ' ';
    NormalSuffix(s, n + 1);
    WordsSkipSpace(s[n..]);
    assert s[n..][1..] == s[n + 1..];
  }

  /** A suffix of a normalised string that does not start with a space is normalised. */
  lemma NormalSuffix(s: string, k: nat)
    requires IsNormal(s) && k < |s| && s[k] != ' '
    ensures IsNormal(s[k..])
  {
    var rest := s[k..];
    assert forall i :: 0 <= i < |rest| ==> rest[i] == s[k + i];
  }

  lemma WordsSkipSpace(s: string)
    requires s != [] && IsSpace(s[0])
    ensures Words(s) == Words(s[1..])
  {
  }

  lemma {:induction false} StripLeavesSpaces(s: string)
    requires forall i :: 0 <= i < |s| ==> IsPunct(s[i]) || IsSpace(s[i])
    ensures forall i :: 0 <= i < |StripPunctuation(s)| ==> IsSpace(StripPunctuation(s)[i])
  {
    if s != [] {
      StripLeavesSpaces(s[1..]);
    }
  }

  lemma {:induction false} CollapseAllSpaces(s: string)
    requires forall i :: 0 <= i < |s| ==> IsSpace(s[i])
    ensures CollapseSpaces(s) == [] || CollapseSpaces(s) == " "
  {
    if |s| > 1 {
      CollapseAllSpaces(s[1..]);
    }
  }

  /** A query of nothing but punctuation and whitespace normalises to the empty string. */
  lemma BlankQueryNormalizesToEmpty(query: string)
    requires forall i :: 0 <= i < |query| ==> IsPunct(query[i]) || IsSpace(query[i])
    ensures Normalize(query) == ""
  {
    var l := Lower(query);
    assert forall i :: 0 <= i < |l| ==> l[i] == query[i];
    StripLeavesSpaces(l);
    CollapseAllSpaces(StripPunctuation(l));
    assert TrimEnd(" ") == "" && TrimEnd("") == "";
  }

  /** An empty, blank or all-punctuation query matches every text (src/lib/fuzzySearch.ts:4-10). */
  lemma BlankQueryMatchesEverything(text: string, query: string)
    requires forall i :: 0 <= i < |query| ==> IsPunct(query[i]) || IsSpace(query[i])
    ensures FuzzyMatch(text, query)
  {
    BlankQueryNormalizesToEmpty(query);
    ContainsEmpty(Normalize(text));
  }

  /** Matching sees only the normalised forms: case, the deleted punctuation and
      whitespace layout of either side make no difference. */
  lemma FuzzyMatchSeesNormalForms(text: string, query: string)
    ensures FuzzyMatch(text, query) == FuzzyMatch(Normalize(text), Normalize(query))
  {
    NormalizeIdempotent(text);
    NormalizeIdempotent(query);
  }

  /** Every text matches itself as a query. */
  lemma FuzzyMatchReflexive(text: string)
    ensures FuzzyMatch(text, text)
  {
    assert OccursAt(Normalize(text), Normalize(text), 0);
  }

  /** When nothing matches, some query word is neither contained in, nor contains, nor
      is within tolerance of any text word. */
  lemma FuzzyMismatchWitness(text: string, query: string) returns (queryWord: string)
    requires !FuzzyMatch(text, query)
    ensures !Contains(Normalize(text), Normalize(query))
    ensures queryWord in Words(Normalize(query))
    ensures forall textWord :: textWord in Words(Normalize(text)) ==>
      !Contains(textWord, queryWord) && !Contains(queryWord, textWord)
      && Distance(textWord, queryWord) > Tolerance(queryWord)
  {
    var tws := Words(Normalize(text));
    var qws := Words(Normalize(query));
    assert !EveryWordClose(tws, qws);
    var k :| 0 <= k < |qws| && !exists m :: 0 <= m < |tws| && WordsClose(tws[m], qws[k]);
    queryWord := qws[k];
  }

  /** A string whose lower-case form already has the normal shape normalises to that form. */
  lemma NormalizeToLower(s: string)
    requires IsNormal(Lower(s))
    ensures Normalize(s) == Lower(s)
  {
    LowerIdempotent(s);
    NormalizeFixesNormal(Lower(s));
  }

  /** `fuzzyMatch` depends on its arguments only through their normalised forms. */
  lemma FuzzyMatchByNormalForms(text: string, query: string, t: string, q: string)
    requires Normalize(text) == t && Normalize(query) == q
    ensures FuzzyMatch(text, query) == MatchNormalized(t, q)
  {
  }

  lemma DeutscheBankNormal()
    ensures Normalize("Deutsche Bank") == "deutsche bank"
  {
    assert Lower("Deutsche Bank") == "deutsche bank";
    NormalizeToLower("Deutsche Bank");
  }

  lemma DuetscheNormal()
    ensures Normalize("duetsche") == "duetsche"
  {
    assert Lower("duetsche") == "duetsche";
    NormalizeToLower("duetsche");
  }

  lemma SpotifyNormal()
    ensures Normalize("Spotify") == "spotify"
  {
    assert Lower("Spotify") == "spotify";
    NormalizeToLower("Spotify");
  }

  lemma XyzNormal()
    ensures Normalize("xyz") == "xyz"
  {
    assert Lower("xyz") == "xyz";
    NormalizeToLower("xyz");
  }

  lemma {:induction false} WordLengthOfWord(w: string, rest: string)
    requires forall i :: 0 <= i < |w| ==> !IsSpace(w[i])
    requires rest == [] || IsSpace(rest[0])
    ensures WordLength(w + rest) == |w|
  {
    if w != [] {
      WordLengthOfWord(w[1..], rest);
      assert (w + rest)[1..] == w[1..] + rest;
    } else {
      assert w + rest == rest;
    }
  }

  /** Splitting two words joined by a space gives back the two words. */
  lemma WordsOfTwo(w1: string, w2: string)
    requires w1 != [] && w2 != []
    requires forall i :: 0 <= i < |w1| ==> !IsSpace(w1[i])
    requires forall i :: 0 <= i < |w2| ==> !IsSpace(w2[i])
    ensures Words(w1 + " " + w2) == [w1, w2]
  {
    var s := w1 + " " + w2;
    WordLengthOfWord(w1, " " + w2);
    assert s == w1 + (" " + w2);
    assert s[..|w1|] == w1;
    assert s[|w1|..] == " " + w2;
    WordsSkipSpace(" " + w2);
    assert (" " + w2)[1..] == w2;
    WordsOfOne(w2);
  }

  /** A single word is split into itself. */
  lemma WordsOfOne(w: string)
    requires w != [] && forall i :: 0 <= i < |w| ==> !IsSpace(w[i])
    ensures Words(w) == [w]
  {
    WordLengthOfWord(w, []);
    assert w + [] == w;
    WordsOfWholeWord(w);
  }

  /** A common ending does not change the distance. */
  lemma {:induction false} DistanceCommonSuffix(a: string, b: string, suffix: string)
    ensures Distance(a + suffix, b + suffix) == Distance(a, b)
    decreases |suffix|
  {
    if suffix != [] {
      var init := suffix[..|suffix| - 1];
      DistanceCommonSuffix(a, b, init);
      assert (a + suffix)[..|a + suffix| - 1] == a + init;
      assert (b + suffix)[..|b + suffix| - 1] == b + init;
    } else {
      assert a + suffix == a && b + suffix == b;
    }
  }

  /** Dropping the last character of both sides saves at most one edit. */
  lemma DistanceAtMostDiagonal(a: string, b: string)
    requires a != [] && b != []
    ensures Distance(a, b) <= 1 + Distance(a[..|a| - 1], b[..|b| - 1])
  {
  }

  lemma DuetscheDistance()
    ensures Distance("deutsche", "duetsche") <= 2
  {
    DistanceCommonSuffix("deu", "due", "tsche");
    assert "deu" + "tsche" == "deutsche" && "due" + "tsche" == "duetsche";
    DistanceAtMostDiagonal("deu", "due");
    assert "deu"[..2] == "de" && "due"[..2] == "du";
    DistanceAtMostDiagonal("de", "du");
    assert "de"[..1] == "d" && "du"[..1] == "d";
    DistanceToSelf("d");
  }

  /** A one-word query close to the first word of a two-word text matches it. */
  lemma TwoWordTextMatches(w1: string, w2: string, q: string)
    requires w1 != [] && w2 != [] && q != []
    requires forall i :: 0 <= i < |w1| ==> !IsSpace(w1[i])
    requires forall i :: 0 <= i < |w2| ==> !IsSpace(w2[i])
    requires forall i :: 0 <= i < |q| ==> !IsSpace(q[i])
    requires WordsClose(w1, q)
    ensures MatchNormalized(w1 + " " + w2, q)
  {
    WordsOfOne(q);
    WordsOfTwo(w1, w2);
    assert Words(w1 + " " + w2)[0] == w1 && Words(q)[0] == q;
  }

  lemma DeutscheBankWordsClose()
    ensures MatchNormalized("deutsche bank", "duetsche")
  {
    DuetscheDistance();
    assert Tolerance("duetsche") == 2;
    assert WordsClose("deutsche", "duetsche");
    TwoWordTextMatches("deutsche", "bank", "duetsche");
    assert "deutsche" + " " + "bank" == "deutsche bank";
  }

  /** "duetsche" matches "Deutsche Bank": two edits, within the tolerance of an 8-letter word. */
  lemma DeutscheBankExample()
    ensures FuzzyMatch("Deutsche Bank", "duetsche")
  {
    DeutscheBankNormal();
    DuetscheNormal();
    DeutscheBankWordsClose();
    FuzzyMatchByNormalForms("Deutsche Bank", "duetsche", "deutsche bank", "duetsche");
  }

  lemma SpotifyNoOccurrence()
    ensures !Contains("spotify", "xyz")
  {
    var t := "spotify";
    forall i: nat | i <= |t| ensures !OccursAt(t, "xyz", i) {
      if i + 3 <= 7 {
        assert t[i..i + 3][2] == t[i + 2] != 'z';
      }
    }
  }

  lemma SpotifyWordsFar()
    ensures !MatchNormalized("spotify", "xyz")
  {
    var t, q := "spotify", "xyz";
    SpotifyNoOccurrence();
    WordsOfOne(q);
    WordsOfOne(t);
    assert !Contains(q, t) by {
      if Contains(q, t) { ContainsNotLonger(q, t); }
    }
    DistanceBounds(t, q);
    assert Tolerance(q) == 1;
    assert !WordsClose(t, q);
    assert !EveryWordClose(Words(t), Words(q)) by {
      assert Words(q)[0] == q;
      assert forall m :: 0 <= m < |Words(t)| ==> Words(t)[m] == t;
    }
  }

  /** "xyz" does not match "Spotify": no containment either way, and at least four edits
      against a tolerance of one. */
  lemma SpotifyExample()
    ensures !FuzzyMatch("Spotify", "xyz")
  {
    SpotifyNormal();
    XyzNormal();
    SpotifyWordsFar();
    FuzzyMatchByNormalForms("Spotify", "xyz", "spotify", "xyz");
  }

  // ---------------------------------------------------------------------------
  // fuzzyScore
  // ---------------------------------------------------------------------------

  /** `fuzzyScore` on already normalised strings. */
  function ScoreNormalized(t: string, q: string): (r: int)
    ensures r <= 100 && (r == 100 <==> t == q)
  {
    if t == q then 100
    else if StartsWith(t, q) then 90
    else if Contains(t, q) then 80
    else
      var d := Distance(t[..if |q| <= |t| then |q| else |t|], q);
      if d <= Tolerance(q) then 70 - d * 10 else 0
  }

  /** `fuzzyScore(text, query)` (src/lib/fuzzySearch.ts:68-94). */
  function FuzzyScore(text: string, query: string): (r: int)
    ensures r <= 100 && (r == 100 <==> Normalize(text) == Normalize(query))
  {
    ScoreNormalized(Normalize(text), Normalize(query))
  }

  /** The tiers of the score: 100 exactly for equal normalised strings, 90 exactly for a
      proper prefix, 80 exactly for a non-prefix occurrence; every other score is either
      0 or `70 - 10d` for an edit distance `d` between 1 and the tolerance, so below 80. */
  lemma ScoreTiers(text: string, query: string)
    ensures var t, q, s := Normalize(text), Normalize(query), FuzzyScore(text, query);
      && (s == 100 <==> t == q)
      && (s == 90 <==> t != q && StartsWith(t, q))
      && (s == 80 <==> Contains(t, q) && !StartsWith(t, q))
      && (s >= 80 <==> Contains(t, q))
      && (!Contains(t, q) ==>
            s == 0 || exists d :: 1 <= d <= Tolerance(q) && s == 70 - 10 * d)
  {
    var t, q := Normalize(text), Normalize(query);
    var n := if |q| <= |t| then |q| else |t|;
    ZeroDistanceMeansPrefix(t, q, n);
    StartsWithContains(t, q);
    var d := Distance(t[..n], q);
    if !Contains(t, q) && d <= Tolerance(q) {
      assert FuzzyScore(text, query) == 70 - 10 * d;
    }
  }

  /** In the fuzzy branch, distance 0 between the text's first `|q|` characters and the
      query would make the query a prefix of the text. */
  lemma ZeroDistanceMeansPrefix(t: string, q: string, n: nat)
    requires n == if |q| <= |t| then |q| else |t|
    ensures Distance(t[..n], q) == 0 ==> StartsWith(t, q)
  {
    if Distance(t[..n], q) == 0 {
      DistanceZeroIsEqual(t[..n], q);
    }
  }

  /** `fuzzyScore` depends on its arguments only through their normalised forms. */
  lemma FuzzyScoreByNormalForms(text: string, query: string, t: string, q: string)
    requires Normalize(text) == t && Normalize(query) == q
    ensures FuzzyScore(text, query) == ScoreNormalized(t, q)
  {
  }

  /** The fuzzy branch: no occurrence, and the distance of the text's first `|q|`
      characters to the query within the tolerance. */
  lemma ScoreOfFuzzyBranch(t: string, q: string, d: nat)
    requires !Contains(t, q)
    requires Distance(t[..if |q| <= |t| then |q| else |t|], q) == d <= Tolerance(q)
    ensures ScoreNormalized(t, q) == 70 - 10 * d
  {
    StartsWithContains(t, q);
  }

  lemma RunNormal(n: nat)
    ensures Normalize(Repeat('a', n)) == Repeat('a', n)
  {
    assert IsNormal(Repeat('a', n));
    NormalizeFixesNormal(Repeat('a', n));
  }

  /** A run of `m` characters scored against a longer run of `n` that is within tolerance
      takes the fuzzy branch with distance `n - m`. */
  lemma ScoreOfRuns(m: nat, n: nat)
    requires m < n && n - m <= Tolerance(Repeat('a', n))
    ensures FuzzyScore(Repeat('a', m), Repeat('a', n)) == 70 - 10 * (n - m)
  {
    var t, q := Repeat('a', m), Repeat('a', n);
    RunNormal(m);
    RunNormal(n);
    assert !Contains(t, q) by {
      if Contains(t, q) { ContainsNotLonger(t, q); }
    }
    assert t[..m] == t;
    DistanceBetweenRuns('a', m, n);
    ScoreOfFuzzyBranch(t, q, n - m);
    FuzzyScoreByNormalForms(t, q, t, q);
  }

  /** The score has no lower bound of 0: sixteen `a`s scored against twenty-four gives -10,
      below the 0 of a query that is not close at all. */
  lemma ScoreCanBeNegative()
    ensures FuzzyScore(Repeat('a', 16), Repeat('a', 24)) == -10
  {
    assert Tolerance(Repeat('a', 24)) == 8;
    ScoreOfRuns(16, 24);
  }

  lemma AcmeNormal()
    ensures Normalize("Acme") == "acme" && Normalize("acme") == "acme"
  {
    assert Lower("Acme") == "acme" && Lower("acme") == "acme";
    NormalizeToLower("Acme");
    NormalizeToLower("acme");
  }

  lemma AcmeCorpNormal()
    ensures Normalize("Acme Corp") == "acme corp"
  {
    assert Lower("Acme Corp") == "acme corp";
    NormalizeToLower("Acme Corp");
  }

  lemma GlobalAcmeNormal()
    ensures Normalize("Global Acme") == "global acme"
  {
    assert Lower("Global Acme") == "global acme";
    NormalizeToLower("Global Acme");
  }

  /** Equal normalised strings score 100. */
  lemma ScoreExactExample()
    ensures FuzzyScore("Acme", "Acme") == 100
  {
    AcmeNormal();
    FuzzyScoreByNormalForms("Acme", "Acme", "acme", "acme");
  }

  /** A proper prefix of a normalised text scores 90. */
  lemma ScoreOfProperPrefix(t: string, q: string)
    requires t != q && StartsWith(t, q)
    ensures ScoreNormalized(t, q) == 90
  {
  }

  /** An occurrence of the query that is not a prefix scores 80. */
  lemma ScoreOfInnerOccurrence(t: string, q: string, i: nat)
    requires t != q && !StartsWith(t, q) && OccursAt(t, q, i)
    ensures ScoreNormalized(t, q) == 80
  {
  }

  /** A proper prefix scores 90. */
  lemma ScorePrefixExample()
    ensures FuzzyScore("Acme Corp", "acme") == 90
  {
    AcmeNormal();
    AcmeCorpNormal();
    assert StartsWith("acme corp", "acme") by { assert "acme corp"[..4] == "acme"; }
    ScoreOfProperPrefix("acme corp", "acme");
    FuzzyScoreByNormalForms("Acme Corp", "acme", "acme corp", "acme");
  }

  /** "acme" occurs in "global acme" at position 7, and not at its start. */
  lemma GlobalAcmeOccurrence()
    ensures !StartsWith("global acme", "acme") && OccursAt("global acme", "acme", 7)
  {
    assert "global acme"[..4][0] == 'g';
    assert "global acme"[7..11] == "acme";
  }

  /** An occurrence that is not a prefix scores 80. */
  lemma ScoreInnerExample()
    ensures FuzzyScore("Global Acme", "acme") == 80
  {
    AcmeNormal();
    GlobalAcmeNormal();
    GlobalAcmeOccurrence();
    assert |"global acme"| != |"acme"|;
    ScoreOfInnerOccurrence("global acme", "acme", 7);
    FuzzyScoreByNormalForms("Global Acme", "acme", "global acme", "acme");
  }
}
