/**
  `Polygon` of `polygons/polygon.py`: a dictionary from vertex labels to
  coordinates. With n vertices the labels have length ceil(n / 26); they are
  the distinct words of that length that `combinations_with_replacement`
  yields over "A".."Z" or over "Z".."A", in sorted order, and `zip` pairs the
  k-th label with the k-th vertex.

  Here the labels are defined independently, as the words of that length whose
  letters never decrease or never increase, taken from all words in
  dictionary order; `LabelsAreSortedCombinations` shows this is the sorted
  set the source builds.
 */
module Polygons {
  import opened Common
  import opened Plane

  type Word = seq<char>

  /** `string.ascii_uppercase`. */
  const Letters: Word := "ABCDEFGHIJKLMNOPQRSTUVWXYZ"

  /** `reversed(ascii_uppercase)`. */
  const ReversedLetters: Word := "ZYXWVUTSRQPONMLKJIHGFEDCBA"

  /** `ceil(n / 26)`: the label length for n vertices. */
  function Padding(n: nat): (p: nat)
    ensures 26 * p >= n && (n > 0 ==> 26 * (p - 1) < n) && (p == 0 <==> n == 0)
  {
    (n + 25) / 26
  }

  // ---------------------------------------------------------------------------
  // Words and their letters

  /** `[c + w for w in ws]`. */
  function Prefix(c: char, ws: seq<Word>): (r: seq<Word>)
    ensures |r| == |ws| && forall i :: 0 <= i < |ws| ==> r[i] == [c] + ws[i]
  {
    seq(|ws|, i requires 0 <= i < |ws| => [c] + ws[i])
  }

  lemma PrefixMembers(c: char, ws: seq<Word>, w: Word)
    ensures w in Prefix(c, ws) <==> |w| > 0 && w[0] == c && w[1..] in ws
  {
    var r := Prefix(c, ws);
    if w in r {
      var k :| 0 <= k < |r| && r[k] == w;
      assert w[1..] == ws[k];
    }
    if |w| > 0 && w[0] == c && w[1..] in ws {
      var k :| 0 <= k < |ws| && ws[k] == w[1..];
      assert r[k] == w;
    }
  }

  /** a may stand before b in a word that is ordered upward (up) or downward (!up). */
  predicate Ranked(a: char, b: char, up: bool) {
    if up then a <= b else a >= b
  }

  predicate Strict(a: char, b: char, up: bool) {
    if up then a < b else a > b
  }

  /** The letters of s strictly increase (up) or strictly decrease (!up). */
  predicate Chain(s: Word, up: bool) {
    forall i, j :: 0 <= i < j < |s| ==> Strict(s[i], s[j], up)
  }

  /** The letters of w never decrease (up) or never increase (!up). */
  predicate Monotone(w: Word, up: bool) {
    forall i, j :: 0 <= i < j < |w| ==> Ranked(w[i], w[j], up)
  }

  /** Every letter of w is a letter of s. */
  predicate Over(w: Word, s: Word) {
    forall i :: 0 <= i < |w| ==> w[i] in s
  }

  lemma OverCons(w: Word, s: Word)
    requires |w| > 0
    ensures Over(w, s) <==> w[0] in s && Over(w[1..], s)
  {
    if w[0] in s && Over(w[1..], s) {
      forall i | 1 <= i < |w|
        ensures w[i] in s
      {
        assert w[i] == w[1..][i - 1];
      }
    }
  }

  lemma MonotoneCons(w: Word, up: bool)
    requires |w| > 0
    ensures Monotone(w, up) <==>
      Monotone(w[1..], up) && forall i :: 1 <= i < |w| ==> Ranked(w[0], w[i], up)
  {
    if Monotone(w[1..], up) && forall i :: 1 <= i < |w| ==> Ranked(w[0], w[i], up) {
      forall i, j | 1 <= i < j < |w|
        ensures Ranked(w[i], w[j], up)
      {
        assert w[i] == w[1..][i - 1] && w[j] == w[1..][j - 1];
      }
    }
    if Monotone(w, up) {
      forall i, j | 0 <= i < j < |w[1..]|
        ensures Ranked(w[1..][i], w[1..][j], up)
      {
        assert w[1..][i] == w[i + 1] && w[1..][j] == w[j + 1];
      }
    }
  }

  /** Where c sits in s[i..]: at its head, or further on. */
  lemma SliceHead(s: Word, i: nat, c: char)
    requires i < |s|
    ensures c in s[i..] <==> c == s[i] || c in s[i + 1..]
  {
    assert s[i..] == [s[i]] + s[i + 1..];
  }

  /** In a chain, each letter comes before everything after it. */
  lemma ChainAfter(s: Word, up: bool, i: nat, c: char)
    requires Chain(s, up) && i < |s| && c in s[i + 1..]
    ensures Strict(s[i], c, up)
  {
    var k :| 0 <= k < |s[i + 1..]| && s[i + 1..][k] == c;
    assert s[i + 1 + k] == c;
  }

  lemma ChainHead(s: Word, up: bool, c: char)
    requires Chain(s, up) && |s| > 0 && c in s
    ensures Ranked(s[0], c, up)
    ensures c != s[0] <==> c in s[1..]
  {
    SliceHead(s, 0, c);
    if c != s[0] {
      ChainAfter(s, up, 0, c);
    }
    if c in s[1..] {
      ChainAfter(s, up, 0, c);
    }
  }

  lemma LettersChains()
    ensures |Letters| == 26 && |ReversedLetters| == 26
    ensures Chain(Letters, true) && Chain(ReversedLetters, false)
    ensures forall c :: c in Letters <==> c in ReversedLetters
  {
    assert forall i :: 0 <= i < 26 ==> ReversedLetters[i] == Letters[25 - i];
    assert forall i :: 0 <= i < 25 ==> Letters[i] < Letters[i + 1];
    forall i, j | 0 <= i < j < 26
      ensures Letters[i] < Letters[j]
    {
      StepsUp(Letters, i, j);
    }
    forall c | c in Letters
      ensures c in ReversedLetters
    {
      var i :| 0 <= i < 26 && Letters[i] == c;
      assert ReversedLetters[25 - i] == c;
    }
    forall c | c in ReversedLetters
      ensures c in Letters
    {
      var i :| 0 <= i < 26 && ReversedLetters[i] == c;
      assert Letters[25 - i] == c;
    }
  }

  lemma {:induction false} StepsUp(s: Word, i: int, j: int)
    requires forall k :: 0 <= k < |s| - 1 ==> s[k] < s[k + 1]
    requires 0 <= i < j < |s|
    ensures s[i] < s[j]
    decreases j - i
  {
    if i < j - 1 {
      StepsUp(s, i, j - 1);
    }
  }

  // ---------------------------------------------------------------------------
  // combinations_with_replacement

  /**
    `combinations_with_replacement(s, p)`, in the order `itertools` yields
    them: first every combination that starts with s[0], then those over the
    rest of s.
   */
  function Cr(s: Word, p: nat): seq<Word>
    decreases |s|, p
  {
    if p == 0 then [[]]
    else if |s| == 0 then []
    else Prefix(s[0], Cr(s, p - 1)) + Cr(s[1..], p)
  }

  /**
    Over a strictly ordered alphabet s, the combinations with replacement of
    length p are exactly the words of length p over s whose letters follow
    the order of s.
   */
  lemma CrMembers(s: Word, p: nat, w: Word, up: bool)
    requires Chain(s, up)
    ensures w in Cr(s, p) <==> |w| == p && Over(w, s) && Monotone(w, up)
  {
    if w in Cr(s, p) {
      CrSound(s, p, w, up);
    }
    if |w| == p && Over(w, s) && Monotone(w, up) {
      CrComplete(s, p, w, up);
    }
  }

  lemma {:induction false} CrSound(s: Word, p: nat, w: Word, up: bool)
    requires Chain(s, up) && w in Cr(s, p)
    ensures |w| == p && Over(w, s) && Monotone(w, up)
    decreases |s|, p
  {
    if p > 0 {
      assert Cr(s, p) == Prefix(s[0], Cr(s, p - 1)) + Cr(s[1..], p);
      PrefixMembers(s[0], Cr(s, p - 1), w);
      if w in Prefix(s[0], Cr(s, p - 1)) {
        var v := w[1..];
        CrSound(s, p - 1, v, up);
        OverCons(w, s);
        forall i | 1 <= i < |w|
          ensures Ranked(w[0], w[i], up)
        {
          assert w[i] == v[i - 1];
          ChainHead(s, up, w[i]);
        }
        MonotoneCons(w, up);
      } else {
        ChainTail(s, up);
        CrSound(s[1..], p, w, up);
        OverWider(w, s);
      }
    }
  }

  lemma {:induction false} CrComplete(s: Word, p: nat, w: Word, up: bool)
    requires Chain(s, up) && |w| == p && Over(w, s) && Monotone(w, up)
    ensures w in Cr(s, p)
    decreases |s|, p
  {
    if p == 0 {
      assert w == [];
    } else {
      assert w[0] in s;
      if w[0] == s[0] {
        OverCons(w, s);
        MonotoneCons(w, up);
        CrComplete(s, p - 1, w[1..], up);
        CrHead(s, p, w);
      } else {
        OverTail(s, up, w);
        ChainTail(s, up);
        CrComplete(s[1..], p, w, up);
        CrRest(s, p, w);
      }
    }
  }

  /** A word starting with s[0] whose rest is a combination one shorter is a combination. */
  lemma CrHead(s: Word, p: nat, w: Word)
    requires |s| > 0 && p > 0 && |w| > 0 && w[0] == s[0] && w[1..] in Cr(s, p - 1)
    ensures w in Cr(s, p)
  {
    PrefixMembers(s[0], Cr(s, p - 1), w);
  }

  /** A combination over s[1..] is a combination over s. */
  lemma CrRest(s: Word, p: nat, w: Word)
    requires |s| > 0 && p > 0 && w in Cr(s[1..], p)
    ensures w in Cr(s, p)
  {
    assert Cr(s, p) == Prefix(s[0], Cr(s, p - 1)) + Cr(s[1..], p);
  }

  lemma ChainTail(s: Word, up: bool)
    requires Chain(s, up) && |s| > 0
    ensures Chain(s[1..], up)
  {
    forall i, j | 0 <= i < j < |s[1..]|
      ensures Strict(s[1..][i], s[1..][j], up)
    {
      assert s[1..][i] == s[i + 1] && s[1..][j] == s[j + 1];
    }
  }

  /** A word over s that is ordered like s and does not start with s[0] never uses s[0]. */
  lemma OverTail(s: Word, up: bool, w: Word)
    requires Chain(s, up) && |s| > 0 && |w| > 0 && Over(w, s) && Monotone(w, up) && w[0] != s[0]
    ensures Over(w, s[1..])
  {
    ChainHead(s, up, w[0]);
    forall i | 0 <= i < |w|
      ensures w[i] in s[1..]
    {
      ChainHead(s, up, w[i]);
      if i > 0 {
        assert Ranked(w[0], w[i], up);
      }
    }
  }

  lemma OverWider(w: Word, s: Word)
    requires |s| > 0 && Over(w, s[1..])
    ensures Over(w, s)
  {
    forall i | 0 <= i < |w|
      ensures w[i] in s
    {
      SliceHead(s, 0, w[i]);
      assert s[0..] == s;
    }
  }

  // ---------------------------------------------------------------------------
  // All words of a length, in dictionary order

  /** u comes before v in dictionary order (both of the same length here). */
  predicate LexLess(u: Word, v: Word) {
    |u| > 0 && |v| > 0 && (u[0] < v[0] || (u[0] == v[0] && LexLess(u[1..], v[1..])))
  }

  lemma {:induction false} LexLessIrreflexive(u: Word)
    ensures !LexLess(u, u)
  {
    if |u| > 0 {
      LexLessIrreflexive(u[1..]);
    }
  }

  /** Each word is before every later one: sorted and without repeats. */
  predicate Sorted(ws: seq<Word>) {
    forall i, j :: 0 <= i < j < |ws| ==> LexLess(ws[i], ws[j])
  }

  lemma SortedDistinct(ws: seq<Word>)
    requires Sorted(ws)
    ensures forall i, j :: 0 <= i < j < |ws| ==> ws[i] != ws[j]
  {
    forall i, j | 0 <= i < j < |ws|
      ensures ws[i] != ws[j]
    {
      LexLessIrreflexive(ws[i]);
    }
  }

  /** The words of length p over s that start with s[i], s[i+1], ..., in dictionary order. */
  function WordsFrom(s: Word, i: nat, p: nat): seq<Word>
    requires i <= |s| && p >= 1
    decreases p, |s| - i
  {
    if i == |s| then [] else Prefix(s[i], Words(s, p - 1)) + WordsFrom(s, i + 1, p)
  }

  /** Every word of length p over s, in dictionary order when s is increasing. */
  function Words(s: Word, p: nat): seq<Word>
    decreases p, |s| + 1
  {
    if p == 0 then [[]] else WordsFrom(s, 0, p)
  }

  lemma {:induction false} WordsFromMembers(s: Word, i: nat, p: nat, w: Word)
    requires i <= |s| && p >= 1
    ensures w in WordsFrom(s, i, p) <==> |w| == p && Over(w, s) && w[0] in s[i..]
    decreases p, |s| - i
  {
    if i < |s| {
      assert WordsFrom(s, i, p) == Prefix(s[i], Words(s, p - 1)) + WordsFrom(s, i + 1, p);
      PrefixMembers(s[i], Words(s, p - 1), w);
      WordsFromMembers(s, i + 1, p, w);
      if |w| > 0 {
        WordsMembers(s, p - 1, w[1..]);
        OverCons(w, s);
        SliceHead(s, i, w[0]);
        if w[0] in s[i..] {
          var k :| 0 <= k < |s[i..]| && s[i..][k] == w[0];
          assert s[i + k] == w[0];
        }
      }
    }
  }

  /** `Words(s, p)` holds exactly the words of length p over s. */
  lemma {:induction false} WordsMembers(s: Word, p: nat, w: Word)
    ensures w in Words(s, p) <==> |w| == p && Over(w, s)
    decreases p, |s| + 1
  {
    if p == 0 {
      assert w in Words(s, p) <==> w == [];
    } else {
      WordsFromMembers(s, 0, p, w);
      assert s[0..] == s;
    }
  }

  lemma SortedConcat(a: seq<Word>, b: seq<Word>)
    requires Sorted(a) && Sorted(b)
    requires forall i, j :: 0 <= i < |a| && 0 <= j < |b| ==> LexLess(a[i], b[j])
    ensures Sorted(a + b)
  {
  }

  lemma SortedPrefix(c: char, ws: seq<Word>)
    requires Sorted(ws)
    ensures Sorted(Prefix(c, ws))
  {
    var r := Prefix(c, ws);
    forall i, j | 0 <= i < j < |r|
      ensures LexLess(r[i], r[j])
    {
      assert r[i][1..] == ws[i] && r[j][1..] == ws[j];
    }
  }

  lemma {:induction false} WordsFromSorted(s: Word, i: nat, p: nat)
    requires Chain(s, true) && i <= |s| && p >= 1
    ensures Sorted(WordsFrom(s, i, p))
    decreases p, |s| - i
  {
    if i < |s| {
      var head, tail := Prefix(s[i], Words(s, p - 1)), WordsFrom(s, i + 1, p);
      WordsSorted(s, p - 1);
      SortedPrefix(s[i], Words(s, p - 1));
      WordsFromSorted(s, i + 1, p);
      forall a, b | 0 <= a < |head| && 0 <= b < |tail|
        ensures LexLess(head[a], tail[b])
      {
        assert tail[b] in tail;
        WordsFromMembers(s, i + 1, p, tail[b]);
        ChainAfter(s, true, i, tail[b][0]);
      }
      SortedConcat(head, tail);
    }
  }

  /** Over an increasing alphabet, the words of a length are listed in strictly increasing order. */
  lemma {:induction false} WordsSorted(s: Word, p: nat)
    requires Chain(s, true)
    ensures Sorted(Words(s, p))
    decreases p, |s| + 1
  {
    if p > 0 {
      WordsFromSorted(s, 0, p);
    }
  }

  /** For length one the words are the letters themselves, in order. */
  lemma {:induction false} SingleLetterWords(s: Word, i: nat)
    requires i <= |s|
    ensures WordsFrom(s, i, 1) == seq(|s| - i, k requires 0 <= k < |s| - i => [s[i + k]])
    decreases |s| - i
  {
    if i < |s| {
      SingleLetterWords(s, i + 1);
      assert Words(s, 0) == [[]];
      assert [s[i]] + [] == [s[i]];
      assert Prefix(s[i], [[]]) == [[s[i]]];
    }
  }

  // ---------------------------------------------------------------------------
  // The labels

  /** A label is a word whose letters never decrease or never increase. */
  predicate IsLabel(w: Word) {
    Monotone(w, true) || Monotone(w, false)
  }

  /** The labels among ws, in the order of ws. */
  function Keep(ws: seq<Word>): (r: seq<Word>)
    ensures forall w :: w in r <==> w in ws && IsLabel(w)
  {
    if |ws| == 0 then []
    else
      var rest := Keep(ws[1..]);
      assert forall w :: w in ws <==> w == ws[0] || w in ws[1..];
      (if IsLabel(ws[0]) then [ws[0]] else []) + rest
  }

  lemma {:induction false} KeepSorted(ws: seq<Word>)
    requires Sorted(ws)
    ensures Sorted(Keep(ws))
  {
    if |ws| > 0 {
      KeepSorted(ws[1..]);
      var rest := Keep(ws[1..]);
      if IsLabel(ws[0]) {
        forall j | 0 <= j < |rest|
          ensures LexLess(ws[0], rest[j])
        {
          assert rest[j] in rest;
          var k :| 0 <= k < |ws[1..]| && ws[1..][k] == rest[j];
          assert ws[k + 1] == rest[j];
        }
        SortedConcat([ws[0]], rest);
      }
    }
  }

  lemma {:induction false} KeepAll(ws: seq<Word>)
    requires forall i :: 0 <= i < |ws| ==> |ws[i]| <= 1
    ensures Keep(ws) == ws
  {
    if |ws| > 0 {
      KeepAll(ws[1..]);
      assert IsLabel(ws[0]);
    }
  }

  /** `_get_annotations`: the labels of length p, in dictionary order. */
  function Labels(p: nat): (ls: seq<Word>)
    ensures Sorted(ls)
  {
    LettersChains();
    WordsSorted(Letters, p);
    KeepSorted(Words(Letters, p));
    Keep(Words(Letters, p))
  }

  /**
    `sorted(set(cr(A..Z, p) + cr(Z..A, p)))`: the labels are in strictly
    increasing order, and a word is a label exactly when one of the two
    `combinations_with_replacement` calls yields it.
   */
  lemma LabelsAreSortedCombinations(p: nat)
    ensures Sorted(Labels(p))
    ensures forall w :: w in Labels(p) <==> w in Cr(Letters, p) || w in Cr(ReversedLetters, p)
  {
    LettersChains();
    forall w
      ensures w in Labels(p) <==> w in Cr(Letters, p) || w in Cr(ReversedLetters, p)
    {
      WordsMembers(Letters, p, w);
      CrMembers(Letters, p, w, true);
      CrMembers(ReversedLetters, p, w, false);
      assert Over(w, Letters) <==> Over(w, ReversedLetters);
    }
  }

  /** For one letter the labels are "A", "B", ..., "Z". */
  lemma SingleLetterLabels(p: nat)
    requires p == 1
    ensures |Labels(p)| == 26 && forall k :: 0 <= k < 26 ==> Labels(p)[k] == [Letters[k]]
  {
    SingleLetterWords(Letters, 0);
    assert Words(Letters, 1) == WordsFrom(Letters, 0, 1);
    KeepAll(Words(Letters, 1));
  }

  // Pairing labels with vertices

  function Min(a: nat, b: nat): nat {
    if a <= b then a else b
  }

  predicate Distinct(ls: seq<Word>) {
    forall i, j :: 0 <= i < j < |ls| ==> ls[i] != ls[j]
  }

  /** `{label: vertex for label, vertex in zip(labels, vertices)}` for distinct labels. */
  function Zip(labels: seq<Word>, vertices: seq<Point>): (m: map<Word, Point>)
    requires Distinct(labels)
    ensures forall w :: w in m ==> w in labels[..Min(|labels|, |vertices|)]
  {
    if |labels| == 0 || |vertices| == 0 then map[]
    else
      var rest := Zip(labels[1..], vertices[1..]);
      assert labels[1..][..Min(|labels| - 1, |vertices| - 1)] == labels[1..Min(|labels|, |vertices|)];
      rest[labels[0] := vertices[0]]
  }

  /** zip pairs the k-th label with the k-th vertex, up to the shorter of the two. */
  lemma {:induction false} ZipValues(labels: seq<Word>, vertices: seq<Point>)
    requires Distinct(labels)
    ensures forall k :: 0 <= k < Min(|labels|, |vertices|) ==>
      labels[k] in Zip(labels, vertices) && Zip(labels, vertices)[labels[k]] == vertices[k]
  {
    if |labels| > 0 && |vertices| > 0 {
      ZipValues(labels[1..], vertices[1..]);
      forall k | 1 <= k < Min(|labels|, |vertices|)
        ensures labels[k] in Zip(labels, vertices) && Zip(labels, vertices)[labels[k]] == vertices[k]
      {
        assert labels[1..][k - 1] == labels[k] && labels[k] != labels[0];
      }
    }
  }

  /** With distinct labels no pair is lost: one entry per vertex, up to the number of labels. */
  lemma {:induction false} ZipSize(labels: seq<Word>, vertices: seq<Point>)
    requires Distinct(labels)
    ensures |Zip(labels, vertices)| == Min(|labels|, |vertices|)
  {
    if |labels| > 0 && |vertices| > 0 {
      var rest := Zip(labels[1..], vertices[1..]);
      ZipSize(labels[1..], vertices[1..]);
    }
  }

  /** `_get_annotations` paired with the vertices, as the `vertices` setter stores them. */
  function Annotate(vertices: seq<Point>): (m: map<Word, Point>)
    ensures |m| == Min(|Labels(Padding(|vertices|))|, |vertices|)
  {
    var ls := Labels(Padding(|vertices|));
    SortedDistinct(ls);
    ZipSize(ls, vertices);
    Zip(ls, vertices)
  }

  /**
    With at most 26 vertices the labels are single letters: the k-th vertex
    is stored under the k-th letter, there is one entry per vertex and no
    other key.
   */
  lemma AnnotateSingleLetters(vertices: seq<Point>)
    requires 1 <= |vertices| <= 26
    ensures |Annotate(vertices)| == |vertices|
    ensures forall k :: 0 <= k < |vertices| ==>
      [Letters[k]] in Annotate(vertices) && Annotate(vertices)[[Letters[k]]] == vertices[k]
    ensures forall w :: w in Annotate(vertices) ==> exists k :: 0 <= k < |vertices| && w == [Letters[k]]
  {
    var p := Padding(|vertices|);
    SingleLetterLabels(p);
    AnnotateOneLetter(vertices, Letters);
  }

  /** `AnnotateSingleLetters` for any alphabet s whose one-letter words are the labels. */
  lemma AnnotateOneLetter(vertices: seq<Point>, s: Word)
    requires |vertices| <= |Labels(Padding(|vertices|))| <= |s|
    requires forall k :: 0 <= k < |Labels(Padding(|vertices|))| ==> Labels(Padding(|vertices|))[k] == [s[k]]
    ensures |Annotate(vertices)| == |vertices|
    ensures forall k :: 0 <= k < |vertices| ==>
      [s[k]] in Annotate(vertices) && Annotate(vertices)[[s[k]]] == vertices[k]
    ensures forall w :: w in Annotate(vertices) ==> exists k :: 0 <= k < |vertices| && w == [s[k]]
  {
    var ls := Labels(Padding(|vertices|));
    SortedDistinct(ls);
    assert Annotate(vertices) == Zip(ls, vertices);
    ZipSingletons(s, ls, vertices);
  }

  /** Zipping the one-letter words of s with the vertices keys the k-th vertex by s[k]. */
  lemma ZipSingletons(s: Word, ls: seq<Word>, vertices: seq<Point>)
    requires Distinct(ls) && |vertices| <= |ls| <= |s|
    requires forall k :: 0 <= k < |ls| ==> ls[k] == [s[k]]
    ensures |Zip(ls, vertices)| == |vertices|
    ensures forall k :: 0 <= k < |vertices| ==>
      [s[k]] in Zip(ls, vertices) && Zip(ls, vertices)[[s[k]]] == vertices[k]
    ensures forall w :: w in Zip(ls, vertices) ==> exists k :: 0 <= k < |vertices| && w == [s[k]]
  {
    var m := Zip(ls, vertices);
    ZipSize(ls, vertices);
    ZipValues(ls, vertices);
    forall w | w in m
      ensures exists k :: 0 <= k < |vertices| && w == [s[k]]
    {
      assert w in ls[..|vertices|];
      var k :| 0 <= k < |vertices| && ls[..|vertices|][k] == w;
      assert ls[k] == [s[k]];
    }
  }

  /** The three vertices of a triangle are stored as A, B and C. */
  lemma TriangleLabels(vs: seq<Point>)
    requires |vs| == 3
    ensures Annotate(vs) == map["A" := vs[0], "B" := vs[1], "C" := vs[2]]
  {
    AnnotateSingleLetters(vs);
    FirstLetters();
    SingleLetterKeys(Letters, Annotate(vs), vs);
  }

  /** Three vertices keyed by the first three letters of s, and by nothing else. */
  lemma SingleLetterKeys(s: Word, m: map<Word, Point>, vs: seq<Point>)
    requires |vs| == 3 && |s| >= 3 && [s[0]] == "A" && [s[1]] == "B" && [s[2]] == "C"
    requires forall k :: 0 <= k < |vs| ==> [s[k]] in m && m[[s[k]]] == vs[k]
    requires forall w :: w in m ==> exists k :: 0 <= k < |vs| && w == [s[k]]
    ensures m == map["A" := vs[0], "B" := vs[1], "C" := vs[2]]
  {
    forall w | w in m
      ensures w == "A" || w == "B" || w == "C"
    {
      var k :| 0 <= k < 3 && w == [s[k]];
      assert k == 0 || k == 1 || k == 2;
    }
    ThreeKeys(m, "A", "B", "C", vs[0], vs[1], vs[2]);
  }

  lemma FirstLetters()
    ensures |Letters| == 26 && [Letters[0]] == "A" && [Letters[1]] == "B" && [Letters[2]] == "C"
  {
  }

  /** A map whose only keys are a, b and c is the display of its three entries. */
  lemma ThreeKeys<K, V>(m: map<K, V>, a: K, b: K, c: K, x: V, y: V, z: V)
    requires a in m && m[a] == x && b in m && m[b] == y && c in m && m[c] == z
    requires forall w :: w in m ==> w == a || w == b || w == c
    ensures m == map[a := x, b := y, c := z]
  {
  }

  class Polygon {
    var vertices: map<Word, Point>

    constructor Init(vs: seq<Point>)
      ensures vertices == Annotate(vs)
    {
      vertices := Annotate(vs);
    }

    /** `Polygon(*vertices)`: TypeError if any vertex is not a coordinate. */
    static method Create(vs: seq<Arg<Point>>) returns (r: Result<Polygon>)
      ensures r.Err? <==> exists i :: 0 <= i < |vs| && vs[i].Mistyped?
      ensures r.Err? ==> r.error == TypeError
      ensures r.Ok? ==> fresh(r.value) && r.value.vertices == Annotate(Points(vs))
    {
      if exists i :: 0 <= i < |vs| && vs[i].Mistyped? {
        return Err(TypeError);
      }
      var p := new Polygon.Init(Points(vs));
      return Ok(p);
    }

    /**
      The `vertices` setter: TypeError before anything changes if any vertex
      is not a coordinate; otherwise the labelled dictionary replaces the old one.
     */
    method SetVertices(vs: seq<Arg<Point>>) returns (o: Outcome)
      modifies this
      ensures (exists i :: 0 <= i < |vs| && vs[i].Mistyped?) ==> o == Raised(TypeError) && unchanged(this)
      ensures (forall i :: 0 <= i < |vs| ==> vs[i].Typed?) ==> o == Done && vertices == Annotate(Points(vs))
    {
      if exists i :: 0 <= i < |vs| && vs[i].Mistyped? {
        return Raised(TypeError);
      }
      vertices := Annotate(Points(vs));
      return Done;
    }
  }

  /** The coordinates once every argument has been checked to be one. */
  function Points(vs: seq<Arg<Point>>): (ps: seq<Point>)
    requires forall i :: 0 <= i < |vs| ==> vs[i].Typed?
    ensures |ps| == |vs| && forall i :: 0 <= i < |vs| ==> Typed(ps[i]) == vs[i]
  {
    seq(|vs|, i requires 0 <= i < |vs| => vs[i].value)
  }
}
