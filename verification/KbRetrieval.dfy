/** Knowledge-base retrieval for one turn: ranking, merging, deduplicating and capping snippets. */
module KbRetrieval {
  import opened Wrappers

  const KEY_CHARS := 120
  const SNIPPET_CHARS := 2000

  function Take<T>(xs: seq<T>, n: nat): seq<T> {
    if n < |xs| then xs[..n] else xs
  }

  function Min(a: nat, b: nat): nat {
    if a <= b then a else b
  }

  function Max(a: nat, b: nat): nat {
    if a >= b then a else b
  }

  // ----- deduplication

  /** Two snippets with the same first 120 characters count as one. */
  function Key(s: string): string {
    Take(s, KEY_CHARS)
  }

  /** Both have the same character at position p, or neither has one. */
  predicate SameAt(a: string, b: string, p: nat) {
    (p < |a| <==> p < |b|) && (p < |a| && p < |b| ==> a[p] == b[p])
  }

  /** The two agree on their first 120 characters, as far as they go. */
  ghost predicate SameStart(a: string, b: string) {
    forall p: nat :: p < 120 ==> SameAt(a, b, p)
  }

  lemma KeyMeaning(a: string, b: string)
    ensures Key(a) == Key(b) <==> SameStart(a, b)
  {
    if SameStart(a, b) {
      assert |Key(a)| < |Key(b)| ==> SameAt(a, b, |Key(a)|);
      assert |Key(b)| < |Key(a)| ==> SameAt(a, b, |Key(b)|);
      forall p | 0 <= p < |Key(a)| && p < |Key(b)|
        ensures Key(a)[p] == Key(b)[p]
      {
        assert SameAt(a, b, p);
      }
    }
    if Key(a) == Key(b) {
      forall p: nat | p < 120
        ensures SameAt(a, b, p)
      {
        assert (p < |a| <==> p < |Key(a)|) && (p < |b| <==> p < |Key(b)|);
        assert p < |Key(a)| ==> Key(a)[p] == a[p] && Key(b)[p] == b[p];
      }
    }
  }

  /** Position i holds the first snippet that starts as it does. */
  ghost predicate First(xs: seq<string>, i: nat)
    requires i < |xs|
  {
    forall j :: 0 <= j < i ==> !SameStart(xs[j], xs[i])
  }

  lemma FirstByKey(xs: seq<string>, i: nat)
    requires i < |xs|
    ensures First(xs, i) <==> forall j :: 0 <= j < i ==> Key(xs[j]) != Key(xs[i])
  {
    forall j | 0 <= j < i
      ensures SameStart(xs[j], xs[i]) <==> Key(xs[j]) == Key(xs[i])
    {
      KeyMeaning(xs[j], xs[i]);
    }
  }

  function Keys(xs: seq<string>): set<string> {
    set x | x in xs :: Key(x)
  }

  /** The first occurrences, in order. */
  function Dedup(xs: seq<string>): seq<string> {
    if xs == [] then []
    else
      var front, x := xs[..|xs| - 1], xs[|xs| - 1];
      if Key(x) in Keys(front) then Dedup(front) else Dedup(front) + [x]
  }

  lemma FirstMeaning(xs: seq<string>, x: string)
    ensures Key(x) in Keys(xs) <==> exists i :: 0 <= i < |xs| && Key(xs[i]) == Key(x)
  {
    if i :| 0 <= i < |xs| && Key(xs[i]) == Key(x) {
      assert xs[i] in xs;
    }
  }

  /** A first occurrence stands in the result exactly after the first occurrences before it. */
  lemma {:induction false} DedupAt(xs: seq<string>, i: nat)
    requires i < |xs| && First(xs, i)
    ensures |Dedup(xs[..i])| < |Dedup(xs)|
    ensures Dedup(xs)[|Dedup(xs[..i])|] == xs[i]
    decreases |xs|
  {
    var front, x := xs[..|xs| - 1], xs[|xs| - 1];
    FirstByKey(xs, i);
    if i < |xs| - 1 {
      assert First(front, i);
      DedupAt(front, i);
      assert front[..i] == xs[..i];
    } else {
      FirstMeaning(front, x);
      assert xs[..i] == front;
    }
  }

  /** Conversely the result holds nothing else, no key twice, and every key. */
  lemma {:induction false} DedupMeaning(xs: seq<string>)
    ensures Keys(Dedup(xs)) == Keys(xs)
    ensures |Dedup(xs)| <= |xs|
    ensures forall p, q :: 0 <= p < q < |Dedup(xs)| ==> Key(Dedup(xs)[p]) != Key(Dedup(xs)[q])
    ensures forall p :: 0 <= p < |Dedup(xs)| ==>
              exists i :: 0 <= i < |xs| && First(xs, i) && xs[i] == Dedup(xs)[p]
  {
    if xs != [] {
      var front, x := xs[..|xs| - 1], xs[|xs| - 1];
      DedupMeaning(front);
      assert xs == front + [x];
      FirstMeaning(front, x);
      KeysSnoc(front, x);
      KeysSnoc(Dedup(front), x);
      forall p | 0 <= p < |Dedup(xs)|
        ensures exists i :: 0 <= i < |xs| && First(xs, i) && xs[i] == Dedup(xs)[p]
      {
        if p < |Dedup(front)| {
          var i :| 0 <= i < |front| && First(front, i) && front[i] == Dedup(front)[p];
          assert First(xs, i);
        } else {
          FirstByKey(xs, |front|);
          assert First(xs, |front|);
        }
      }
      forall p | 0 <= p < |Dedup(front)|
        ensures Key(Dedup(front)[p]) in Keys(front)
      {
        assert Dedup(front)[p] in Dedup(front);
      }
    }
  }

  lemma KeysSnoc(xs: seq<string>, x: string)
    ensures Keys(xs + [x]) == Keys(xs) + {Key(x)}
  {
    assert forall y :: y in xs + [x] <==> y in xs || y == x;
  }

  /** What comes later never displaces what came first. */
  lemma {:induction false} DedupPrefix(a: seq<string>, b: seq<string>)
    ensures Dedup(a) <= Dedup(a + b)
  {
    if b == [] {
      assert a + b == a;
    } else {
      var front := b[..|b| - 1];
      assert (a + b)[..|a + b| - 1] == a + front;
      DedupPrefix(a, front);
    }
  }

  // ----- merging

  /** The number of snippets that may reach the model. */
  function Cap(k: nat, pinned: nat, productQuery: bool): nat {
    if productQuery then Max(k, pinned) else k
  }

  function Merge(dept: seq<string>, products: seq<string>, query: seq<string>, k: nat, productQuery: bool)
    : seq<string>
  {
    Take(Dedup(dept + products + query), Cap(k, |products| + |dept|, productQuery))
  }

  /** The result is a prefix of the stable dedup, and as long as the cap allows. */
  lemma MergeIsCappedDedup(dept: seq<string>, products: seq<string>, query: seq<string>, k: nat, productQuery: bool)
    ensures var all, r := Dedup(dept + products + query), Merge(dept, products, query, k, productQuery);
            && r <= all
            && |r| == Min(|all|, if productQuery && |products| + |dept| > k then |products| + |dept| else k)
            && forall p, q :: 0 <= p < q < |r| ==> Key(r[p]) != Key(r[q])
  {
    DedupMeaning(dept + products + query);
  }

  lemma PinnedFit(pinned: seq<string>, query: seq<string>, cap: nat)
    requires |pinned| <= cap
    ensures Dedup(pinned) <= Take(Dedup(pinned + query), cap)
  {
    DedupPrefix(pinned, query);
    DedupMeaning(pinned);
  }

  /**
   No department-pinned snippet is cut (the category query is limited to min(4, k/2) rows), and on
   a product query no catalogue snippet is cut either, however large the catalogue.
   */
  lemma PinnedNeverCut(dept: seq<string>, products: seq<string>, query: seq<string>, k: nat, productQuery: bool)
    requires |dept| <= Min(4, k / 2)
    ensures Dedup(dept) <= Merge(dept, products, query, k, productQuery)
    ensures forall s :: s in dept ==> Key(s) in Keys(Merge(dept, products, query, k, productQuery))
    ensures productQuery ==> Dedup(dept + products) <= Merge(dept, products, query, k, productQuery)
    ensures productQuery ==> forall s :: s in products ==> Key(s) in Keys(Merge(dept, products, query, k, productQuery))
  {
    var r := Merge(dept, products, query, k, productQuery);
    assert dept + products + query == dept + (products + query);
    PinnedFit(dept, products + query, Cap(k, |products| + |dept|, productQuery));
    KeysOfPrefix(dept, r);
    if productQuery {
      PinnedFit(dept + products, query, Cap(k, |products| + |dept|, productQuery));
      KeysOfPrefix(dept + products, r);
    }
  }

  lemma KeysOfPrefix(pinned: seq<string>, r: seq<string>)
    requires Dedup(pinned) <= r
    ensures forall s :: s in pinned ==> Key(s) in Keys(r)
  {
    DedupMeaning(pinned);
    forall s | s in pinned
      ensures Key(s) in Keys(r)
    {
      assert Key(s) in Keys(Dedup(pinned));
      var x :| x in Dedup(pinned) && Key(x) == Key(s);
      var i :| 0 <= i < |Dedup(pinned)| && Dedup(pinned)[i] == x;
      assert r[i] == x;
    }
  }

  /** The merge loop. */
  method MergeSnippets(dept: seq<string>, products: seq<string>, query: seq<string>, k: nat, productQuery: bool)
    returns (merged: seq<string>)
    ensures merged == Merge(dept, products, query, k, productQuery)
  {
    var all := dept + products + query;
    var seen: set<string> := {};
    merged := [];
    for n := 0 to |all|
      invariant seen == Keys(all[..n])
      invariant merged == Dedup(all[..n])
    {
      assert all[..n + 1][..n] == all[..n];
      assert all[..n + 1] == all[..n] + [all[n]];
      KeysSnoc(all[..n], all[n]);
      var key := Take(all[n], KEY_CHARS);
      if key !in seen {
        seen := seen + {key};
        merged := merged + [all[n]];
      }
    }
    assert all[..|all|] == all;
    var cap := if productQuery then Max(k, |products| + |dept|) else k;
    merged := Take(merged, cap);
  }

  // ----- keyword ranking

  /** A document; the text functions of the language are left open. */
  datatype Doc = Doc(title: string, content: string)

  datatype Text = Text(strip: string -> string, lower: string -> string)

  predicate Contains(s: string, w: string) {
    exists i :: 0 <= i <= |s| && w <= s[i..]
  }

  function Hits(lc: string, keywords: seq<string>): nat {
    if keywords == [] then 0
    else Hits(lc, keywords[..|keywords| - 1]) + if Contains(lc, keywords[|keywords| - 1]) then 1 else 0
  }

  datatype Scored = Scored(score: nat, snippet: string)

  function ScoreDoc(text: Text, keywords: seq<string>, d: Doc): Option<Scored> {
    var content := text.strip(d.content);
    if content == "" then None
    else
      Some(Scored(if keywords == [] then 1 else Hits(text.lower(content), keywords),
                  "[" + d.title + "] " + Take(content, SNIPPET_CHARS)))
  }

  function ScoreAll(text: Text, keywords: seq<string>, docs: seq<Doc>): seq<Scored> {
    if docs == [] then []
    else
      ScoreAll(text, keywords, docs[..|docs| - 1]) +
      match ScoreDoc(text, keywords, docs[|docs| - 1]) case None => [] case Some(s) => [s]
  }

  /** How many of the keywords occur in the text. */
  lemma {:induction false} HitsMeaning(lc: string, keywords: seq<string>)
    ensures Hits(lc, keywords) == |set i | 0 <= i < |keywords| && Contains(lc, keywords[i])|
  {
    if keywords != [] {
      var front, last := keywords[..|keywords| - 1], |keywords| - 1;
      HitsMeaning(lc, front);
      var before := set i | 0 <= i < |front| && Contains(lc, front[i]);
      var all := set i | 0 <= i < |keywords| && Contains(lc, keywords[i]);
      assert forall i :: 0 <= i < last ==> front[i] == keywords[i];
      assert all == before + if Contains(lc, keywords[last]) then {last} else {};
    }
  }

  /** A document with some text in it. */
  predicate HasText(text: Text, d: Doc) {
    text.strip(d.content) != ""
  }

  /** What a document with text is scored and shown as. */
  ghost predicate ScoredAs(text: Text, keywords: seq<string>, d: Doc, x: Scored) {
    var content := text.strip(d.content);
    && (keywords == [] ==> x.score == 1)
    && (keywords != [] ==>
          x.score == |set i | 0 <= i < |keywords| && Contains(text.lower(content), keywords[i])|)
    && x.snippet == "[" + d.title + "] " + (if |content| <= 2000 then content else content[..2000])
  }

  /** How many documents have text. */
  function TextCount(text: Text, docs: seq<Doc>): nat {
    if docs == [] then 0
    else TextCount(text, docs[..|docs| - 1]) + if HasText(text, docs[|docs| - 1]) then 1 else 0
  }

  /** There is one scored item per document with text. */
  lemma {:induction false} ScoreAllSize(text: Text, keywords: seq<string>, docs: seq<Doc>)
    ensures |ScoreAll(text, keywords, docs)| == TextCount(text, docs)
  {
    if docs != [] {
      ScoreAllSize(text, keywords, docs[..|docs| - 1]);
    }
  }

  /** The item of a document with text stands behind those of the documents with text before it. */
  lemma {:induction false} ScoreAllAt(text: Text, keywords: seq<string>, docs: seq<Doc>, i: nat)
    requires i < |docs| && HasText(text, docs[i])
    ensures TextCount(text, docs[..i]) < |ScoreAll(text, keywords, docs)| == TextCount(text, docs)
    ensures ScoredAs(text, keywords, docs[i], ScoreAll(text, keywords, docs)[TextCount(text, docs[..i])])
    decreases |docs|
  {
    var front := docs[..|docs| - 1];
    ScoreAllSize(text, keywords, docs);
    ScoreAllSize(text, keywords, front);
    if i < |front| {
      ScoreAllAt(text, keywords, front, i);
      assert front[..i] == docs[..i];
    } else {
      assert docs[..i] == front;
      ScoreMeaning(text, keywords, docs[i]);
    }
  }

  lemma ScoreMeaning(text: Text, keywords: seq<string>, d: Doc)
    ensures ScoreDoc(text, keywords, d).Some? <==> HasText(text, d)
    ensures HasText(text, d) ==> ScoredAs(text, keywords, d, ScoreDoc(text, keywords, d).value)
  {
    HitsMeaning(text.lower(text.strip(d.content)), keywords);
  }

  /** Item i ranks before item j: a higher score, or the same score and more recent. */
  predicate Precedes(xs: seq<Scored>, i: nat, j: nat)
    requires i < |xs| && j < |xs|
  {
    xs[i].score > xs[j].score || (xs[i].score == xs[j].score && i < j)
  }

  /** Insert the last of the items considered so far behind everything that scores no less. */
  function Insert(xs: seq<Scored>, order: seq<nat>, i: nat): seq<nat>
    requires i < |xs| && forall p :: 0 <= p < |order| ==> order[p] < |xs|
  {
    if order == [] || xs[order[0]].score < xs[i].score then [i] + order
    else [order[0]] + Insert(xs, order[1..], i)
  }

  ghost predicate Ranking(xs: seq<Scored>, order: seq<nat>, n: nat)
    requires n <= |xs|
  {
    && (forall p :: 0 <= p < |order| ==> order[p] < n)
    && (forall i: nat :: i < n ==> i in order)
    && (forall p, q :: 0 <= p < q < |order| ==> Precedes(xs, order[p], order[q]))
  }

  ghost predicate Ranked(xs: seq<Scored>, order: seq<nat>) {
    && (forall p :: 0 <= p < |order| ==> order[p] < |xs|)
    && (forall p, q :: 0 <= p < q < |order| ==> Precedes(xs, order[p], order[q]))
  }

  lemma {:induction false} InsertKeeps(xs: seq<Scored>, order: seq<nat>, i: nat)
    requires Ranked(xs, order) && i < |xs| && forall p :: 0 <= p < |order| ==> order[p] < i
    ensures Ranked(xs, Insert(xs, order, i))
    ensures forall j :: j in Insert(xs, order, i) <==> j in order || j == i
    ensures |Insert(xs, order, i)| == |order| + 1
  {
    var r := Insert(xs, order, i);
    if order == [] || xs[order[0]].score < xs[i].score {
      forall q | 0 <= q < |order|
        ensures Precedes(xs, i, order[q])
      {
        assert q > 0 ==> Precedes(xs, order[0], order[q]);
      }
    } else {
      InsertKeeps(xs, order[1..], i);
      var tail := Insert(xs, order[1..], i);
      forall q | 0 <= q < |tail|
        ensures Precedes(xs, order[0], tail[q])
      {
        assert tail[q] in tail;
        if tail[q] != i {
          var p :| 0 <= p < |order[1..]| && order[1..][p] == tail[q];
          assert Precedes(xs, order[0], order[p + 1]);
        }
      }
    }
  }

  /** `scored.sort(key=score, reverse=True)`: descending, equal scores in their original order. */
  function SortDescending(xs: seq<Scored>, n: nat): (order: seq<nat>)
    requires n <= |xs|
    ensures |order| == n && Ranking(xs, order, n)
  {
    if n == 0 then []
    else
      var before := SortDescending(xs, n - 1);
      InsertKeeps(xs, before, n - 1);
      var after := Insert(xs, before, n - 1);
      assert forall p :: 0 <= p < |after| ==> after[p] in after;
      after
  }

  lemma HeadIsMember<T>(xs: seq<T>)
    ensures xs != [] ==> xs[0] in xs
  {
  }

  /** There is only one such order, so the sort is pinned down by its contract. */
  lemma {:induction false} RankingUnique(xs: seq<Scored>, a: seq<nat>, b: seq<nat>)
    requires Ranked(xs, a) && Ranked(xs, b) && forall i :: i in a <==> i in b
    ensures a == b
  {
    if a == [] {
      HeadIsMember(b);
    } else {
      assert a[0] in a && a[0] in b && b[0] in b && b[0] in a;
      var p :| 0 <= p < |b| && b[p] == a[0];
      var q :| 0 <= q < |a| && a[q] == b[0];
      assert a[0] == b[0];
      assert a == [a[0]] + a[1..] && b == [b[0]] + b[1..];
      assert a[0] !in a[1..] && b[0] !in b[1..];
      forall i
        ensures i in a[1..] <==> i in b[1..]
      {
        assert i in a[1..] <==> i in a && i != a[0];
        assert i in b[1..] <==> i in b && i != b[0];
      }
      RankingUnique(xs, a[1..], b[1..]);
    }
  }

  function KeywordContext(text: Text, keywords: seq<string>, docs: seq<Doc>, k: nat): seq<string> {
    var xs := ScoreAll(text, keywords, docs);
    var order := Take(SortDescending(xs, |xs|), k);
    seq(|order|, p requires 0 <= p < |order| => xs[order[p]].snippet)
  }

  /**
   The snippets are the true top k: each is a scored document, they are in rank order, and every
   document left out ranks after every one taken.
   */
  lemma KeywordTopK(text: Text, keywords: seq<string>, docs: seq<Doc>, k: nat) returns (order: seq<nat>)
    ensures var xs := ScoreAll(text, keywords, docs);
            var r := KeywordContext(text, keywords, docs, k);
            && |r| == |order| == Min(k, |xs|)
            && Ranked(xs, order)
            && (forall p :: 0 <= p < |r| ==> r[p] == xs[order[p]].snippet)
            && (forall p: nat, j: nat :: p < |order| && j < |xs| && j !in order ==> Precedes(xs, order[p], j))
  {
    var xs := ScoreAll(text, keywords, docs);
    var full := SortDescending(xs, |xs|);
    order := Take(full, k);
    assert forall q :: 0 <= q < |order| ==> order[q] == full[q] && full[q] in order;
    forall p: nat, j: nat | p < |order| && j < |xs| && j !in order
      ensures Precedes(xs, order[p], j)
    {
      assert j in full;
      var q :| 0 <= q < |full| && full[q] == j;
    }
  }

  /** The scoring loop and the cut. */
  method DbKeywordContext(text: Text, keywords: seq<string>, docs: seq<Doc>, k: nat) returns (r: seq<string>)
    ensures r == KeywordContext(text, keywords, docs, k)
  {
    var scored: seq<Scored> := [];
    for n := 0 to |docs|
      invariant scored == ScoreAll(text, keywords, docs[..n])
    {
      assert docs[..n + 1][..n] == docs[..n];
      var content := text.strip(docs[n].content);
      if content != "" {
        var score := if keywords == [] then 1 else Hits(text.lower(content), keywords);
        scored := scored + [Scored(score, "[" + docs[n].title + "] " + Take(content, SNIPPET_CHARS))];
      }
    }
    assert docs[..|docs|] == docs;
    var order := Take(SortDescending(scored, |scored|), k);
    r := seq(|order|, p requires 0 <= p < |order| => scored[order[p]].snippet);
  }

  /** Snippets separated by blank lines. */
  function Joined(snippets: seq<string>): string {
    if snippets == [] then ""
    else if |snippets| == 1 then snippets[0]
    else snippets[0] + "\n\n" + Joined(snippets[1..])
  }

  lemma JoinedMeaning(snippet: string, rest: seq<string>)
    ensures Joined([]) == "" && Joined([snippet]) == snippet
    ensures rest != [] ==> Joined([snippet] + rest) == snippet + "\n\n" + Joined(rest)
  {
    assert ([snippet] + rest)[1..] == rest;
  }

  /** Retrieval: keyword search only when the vector search comes back empty. */
  method RetrieveKbContext(dept: seq<string>, products: seq<string>, vector: seq<string>,
                           text: Text, keywords: seq<string>, docs: seq<Doc>, k: nat, productQuery: bool)
    returns (r: string)
    ensures var query := if vector != [] then vector else KeywordContext(text, keywords, docs, k);
            r == Joined(Merge(dept, products, query, k, productQuery))
  {
    var query := vector;
    if query == [] {
      query := DbKeywordContext(text, keywords, docs, k);
    }
    var merged := MergeSnippets(dept, products, query, k, productQuery);
    r := Joined(merged);
  }
}
