/** When two queries count as the same, computed once for the dedupe and once for the gate.
    `norm` is the query normaliser; nothing here depends on what it does. */
module QuerySimilarity {
  import opened Text

  predicate OccursAt(hay: string, needle: string, i: nat) {
    i + |needle| <= |hay| && hay[i..i + |needle|] == needle
  }

  predicate Contains(hay: string, needle: string) {
    exists i: nat :: i <= |hay| && OccursAt(hay, needle, i)
  }

  /** The words of a text, split at whitespace. */
  function Tokens(s: string): set<string> { TokensFrom(s, "") }

  function TokensFrom(s: string, word: string): set<string> {
    if s == "" then (if word == "" then {} else {word})
    else if IsSpace(s[0]) then (if word == "" then {} else {word}) + TokensFrom(s[1..], "")
    else TokensFrom(s[1..], word + [s[0]])
  }

  /** The exact value of a similarity score. */
  datatype Ratio = Ratio(num: nat, den: nat)

  predicate AtLeastThreeQuarters(r: Ratio) { 4 * r.num >= 3 * r.den }

  function Overlap(a: set<string>, b: set<string>): Ratio { Ratio(|a * b|, |a + b|) }

  predicate QueriesEquivalent(norm: string -> string, left: string, right: string) {
    var a, b := norm(left), norm(right);
    && a != "" && b != ""
    && (|| a == b
        || Contains(b, a) || Contains(a, b)
        || (var ta, tb := Tokens(a), Tokens(b);
            ta != {} && tb != {} && |ta + tb| > 0 && AtLeastThreeQuarters(Overlap(ta, tb))))
  }

  function TokenSimilarity(norm: string -> string, left: string, right: string): Ratio {
    var a, b := norm(left), norm(right);
    if a == "" || b == "" then Ratio(0, 1)
    else
      var ta, tb := Tokens(a), Tokens(b);
      if ta == {} || tb == {} then Ratio(0, 1) else Overlap(ta, tb)
  }

  /** The gate's similarity of a query to a cached one. */
  function CacheSimilarity(norm: string -> string, digest: string -> string, query: string,
                           cachedQuery: string, cachedHash: string): Ratio
  {
    if cachedQuery == "" then Ratio(0, 1)
    else if digest(query) == cachedHash then Ratio(1, 1)
    else if QueriesEquivalent(norm, query, cachedQuery) then Ratio(1, 1)
    else TokenSimilarity(norm, query, cachedQuery)
  }

  lemma OverlapSymmetric(a: set<string>, b: set<string>)
    ensures Overlap(a, b) == Overlap(b, a)
  {
    assert a * b == b * a && a + b == b + a;
  }

  lemma EquivalenceSymmetric(norm: string -> string, left: string, right: string)
    ensures QueriesEquivalent(norm, left, right) <==> QueriesEquivalent(norm, right, left)
  {
    OverlapSymmetric(Tokens(norm(left)), Tokens(norm(right)));
    assert Tokens(norm(left)) + Tokens(norm(right)) == Tokens(norm(right)) + Tokens(norm(left));
  }

  /** The two computations agree: the gate's score reaches 0.75 exactly when the hashes match or
      the dedupe would call the queries equivalent. The word overlap that the gate falls back on
      can never reach the threshold by itself. */
  lemma SimilarityAgrees(norm: string -> string, digest: string -> string, query: string, cachedQuery: string, cachedHash: string)
    ensures AtLeastThreeQuarters(CacheSimilarity(norm, digest, query, cachedQuery, cachedHash)) <==>
              cachedQuery != "" && (digest(query) == cachedHash || QueriesEquivalent(norm, query, cachedQuery))
  {
    if cachedQuery != "" && digest(query) != cachedHash && !QueriesEquivalent(norm, query, cachedQuery) {
      FallbackStaysBelow(norm, query, cachedQuery);
    }
  }

  lemma FallbackStaysBelow(norm: string -> string, left: string, right: string)
    requires !QueriesEquivalent(norm, left, right)
    ensures !AtLeastThreeQuarters(TokenSimilarity(norm, left, right))
  {
    var ta, tb := Tokens(norm(left)), Tokens(norm(right));
    if ta != {} {
      var x :| x in ta;
      assert x in ta + tb;
    }
  }

  // ----- words and equivalence -----

  /** From i to j the text is a word: not empty, without blanks inside, with blanks or the text's ends
      around it. */
  predicate IsWord(text: string, i: int, j: int) {
    && 0 <= i < j <= |text|
    && (forall k :: i <= k < j ==> !IsSpace(text[k]))
    && (i > 0 ==> IsSpace(text[i - 1]))
    && (j < |text| ==> IsSpace(text[j]))
  }

  predicate HasWord(text: string, word: string) {
    exists i, j :: 0 <= i < j <= |text| && IsWord(text, i, j) && text[i..j] == word
  }

  lemma {:induction false} TokensFromExactly(s: string, word: string, t: string)
    requires forall k :: 0 <= k < |word| ==> !IsSpace(word[k])
    ensures t in TokensFrom(s, word) <==> HasWord(word + s, t)
    decreases |s|
  {
    if s == "" {
      assert word + s == word;
      WholeWord(word, t);
    } else if IsSpace(s[0]) {
      TokensFromExactly(s[1..], "", t);
      assert "" + s[1..] == s[1..];
      assert word + s == word + [s[0]] + s[1..];
      WordsAroundBlank(word, s[0], s[1..], t);
    } else {
      TokensFromExactly(s[1..], word + [s[0]], t);
      assert word + s == (word + [s[0]]) + s[1..];
    }
  }

  lemma WholeWord(word: string, t: string)
    requires forall k :: 0 <= k < |word| ==> !IsSpace(word[k])
    ensures HasWord(word, t) <==> word != "" && t == word
  {
    if word != "" {
      assert IsWord(word, 0, |word|) && word[0..|word|] == word;
    }
    if i, j :| 0 <= i < j <= |word| && IsWord(word, i, j) && word[i..j] == t {
      assert i == 0 && j == |word|;
    }
  }

  lemma WordsAroundBlank(word: string, blank: char, rest: string, t: string)
    requires IsSpace(blank) && forall k :: 0 <= k < |word| ==> !IsSpace(word[k])
    ensures HasWord(word + [blank] + rest, t) <==> (word != "" && t == word) || HasWord(rest, t)
  {
    var text := word + [blank] + rest;
    if word != "" {
      assert IsWord(text, 0, |word|) && text[0..|word|] == word;
    }
    if i, j :| 0 <= i < j <= |rest| && IsWord(rest, i, j) && rest[i..j] == t {
      WordMoves(word + [blank], rest, i, j);
    }
    if i, j :| 0 <= i < j <= |text| && IsWord(text, i, j) && text[i..j] == t {
      WordBesideBlank(word, blank, rest, i, j);
    }
  }

  lemma WordBesideBlank(word: string, blank: char, rest: string, i: int, j: int)
    requires IsSpace(blank) && forall k :: 0 <= k < |word| ==> !IsSpace(word[k])
    requires IsWord(word + [blank] + rest, i, j)
    ensures var t := (word + [blank] + rest)[i..j];
            (word != "" && t == word) || HasWord(rest, t)
  {
    var text, n := word + [blank] + rest, |word| + 1;
    assert text[|word|] == blank;
    if i < n {
      assert i == 0 && j == |word|;
    } else {
      WordMoves(word + [blank], rest, i - n, j - n);
    }
  }

  lemma WordMoves(front: string, rest: string, i: nat, j: nat)
    requires front != "" && IsSpace(front[|front| - 1]) && i < j <= |rest|
    ensures IsWord(rest, i, j) <==> IsWord(front + rest, |front| + i, |front| + j)
    ensures (front + rest)[|front| + i..|front| + j] == rest[i..j]
  {
    var text, n := front + rest, |front|;
    assert forall k :: i <= k < j ==> text[n + k] == rest[k];
    if IsWord(text, n + i, n + j) {
      forall k | i <= k < j ensures !IsSpace(rest[k]) {
        assert !IsSpace(text[n + k]);
      }
    }
  }

  /** The tokens are exactly the words. */
  lemma TokensExactly(s: string, t: string)
    ensures t in Tokens(s) <==> HasWord(s, t)
  {
    TokensFromExactly(s, "", t);
    assert "" + s == s;
  }

  /** Two queries are equivalent exactly when neither is blank once normalised, and one occurs in the
      other, or they have words and share at least three quarters of them. */
  lemma EquivalentExactly(norm: string -> string, left: string, right: string)
    ensures QueriesEquivalent(norm, left, right) <==>
              && norm(left) != "" && norm(right) != ""
              && (|| (exists i: nat :: OccursAt(norm(right), norm(left), i))
                  || (exists i: nat :: OccursAt(norm(left), norm(right), i))
                  || (var a, b := Tokens(norm(left)), Tokens(norm(right)); a != {} && b != {} && 4 * |a * b| >= 3 * |a + b|))
  {
    var a, b := norm(left), norm(right);
    assert a == b ==> OccursAt(b, a, 0);
    NonEmptyUnion(Tokens(a), Tokens(b));
  }

  lemma NonEmptyUnion(a: set<string>, b: set<string>)
    ensures a != {} ==> |a + b| > 0
  {
    if x :| x in a {
      assert x in a + b;
    }
  }
}
