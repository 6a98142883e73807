/** Collecting API path hints from tool reports and merging them into the route. */
module PathMerge {
  import opened Text
  import opened Messages
  import opened Routes

  /** Hints of one tool report, as stripped non-blank paths. `parse` reads the raw path strings
      out of a report's text; a report it cannot read has none. */
  function CleanHints(raw: seq<string>): seq<string> {
    if raw == [] then []
    else CleanHints(raw[..|raw| - 1])
         + if Strip(raw[|raw| - 1]) != "" then [Strip(raw[|raw| - 1])] else []
  }

  function Elements(s: seq<string>): set<string> { set x | x in s }

  lemma ElementsSnoc(s: seq<string>, x: string)
    ensures Elements(s + [x]) == Elements(s) + {x}
  {
    assert forall y :: y in s + [x] <==> y in s || y == x;
  }

  predicate NoDup(s: seq<string>) { forall i, j :: 0 <= i < j < |s| ==> s[i] != s[j] }

  /** Appends, in order, those entries that are not there yet. */
  function AddFresh(acc: seq<string>, xs: seq<string>): seq<string> {
    if xs == [] then acc
    else
      var front := AddFresh(acc, xs[..|xs| - 1]);
      var last := xs[|xs| - 1];
      if last in front then front else front + [last]
  }

  lemma {:induction false} AddFreshParts(acc: seq<string>, xs: seq<string>)
    ensures acc <= AddFresh(acc, xs)
    ensures Elements(AddFresh(acc, xs)) == Elements(acc) + Elements(xs)
    ensures NoDup(acc) ==> NoDup(AddFresh(acc, xs))
    ensures AddFresh(acc, xs) == acc <==> Elements(xs) <= Elements(acc)
    ensures |AddFresh(acc, xs)| - |acc| <= |xs|
  {
    if xs != [] {
      var front, last := xs[..|xs| - 1], xs[|xs| - 1];
      AddFreshParts(acc, front);
      assert xs == front + [last];
      var out := AddFresh(acc, front);
      ElementsSnoc(front, last);
      ElementsSnoc(out, last);
      assert |AddFresh(acc, xs)| == |acc| || Elements(AddFresh(acc, xs)) != Elements(acc);
    }
  }

  function Reversed(s: seq<string>): (r: seq<string>)
    ensures |r| == |s|
    ensures forall i :: 0 <= i < |s| ==> r[i] == s[|s| - 1 - i]
  {
    seq(|s|, i requires 0 <= i < |s| => s[|s| - 1 - i])
  }

  /** The hints found from the last message backwards, first seen first. */
  function CollectedBackwards(ms: seq<Message>, parse: string -> seq<string>, acc: seq<string>): seq<string> {
    if ms == [] then acc
    else
      var last := ms[|ms| - 1];
      var acc' := if last.Tool? then AddFresh(acc, CleanHints(parse(last.content))) else acc;
      CollectedBackwards(ms[..|ms| - 1], parse, acc')
  }

  function ExtractedPaths(ms: seq<Message>, parse: string -> seq<string>): seq<string> {
    Reversed(CollectedBackwards(ms, parse, []))
  }

  /** Every path hinted by some tool report. */
  function HintedPaths(ms: seq<Message>, parse: string -> seq<string>): set<string> {
    if ms == [] then {}
    else HintedPaths(ms[..|ms| - 1], parse)
         + if ms[|ms| - 1].Tool? then Elements(CleanHints(parse(ms[|ms| - 1].content))) else {}
  }

  lemma {:induction false} HintedPathsConcat(a: seq<Message>, b: seq<Message>, parse: string -> seq<string>)
    ensures HintedPaths(a + b, parse) == HintedPaths(a, parse) + HintedPaths(b, parse)
  {
    if b == [] {
      assert a + b == a;
    } else {
      HintedPathsConcat(a, b[..|b| - 1], parse);
      assert (a + b)[..|a + b| - 1] == a + b[..|b| - 1];
    }
  }

  lemma {:induction false} CollectedParts(ms: seq<Message>, parse: string -> seq<string>, acc: seq<string>)
    ensures Elements(CollectedBackwards(ms, parse, acc)) == Elements(acc) + HintedPaths(ms, parse)
    ensures NoDup(acc) ==> NoDup(CollectedBackwards(ms, parse, acc))
  {
    if ms != [] {
      var last := ms[|ms| - 1];
      if last.Tool? {
        AddFreshParts(acc, CleanHints(parse(last.content)));
      }
      var acc' := if last.Tool? then AddFresh(acc, CleanHints(parse(last.content))) else acc;
      CollectedParts(ms[..|ms| - 1], parse, acc');
    }
  }

  /** The extracted list holds exactly the hinted paths, each once. */
  lemma ExtractedExactly(ms: seq<Message>, parse: string -> seq<string>)
    ensures Elements(ExtractedPaths(ms, parse)) == HintedPaths(ms, parse)
    ensures NoDup(ExtractedPaths(ms, parse))
  {
    var collected := CollectedBackwards(ms, parse, []);
    CollectedParts(ms, parse, []);
    var paths := ExtractedPaths(ms, parse);
    forall x ensures x in paths <==> x in collected {
      if x in collected {
        var i :| 0 <= i < |collected| && collected[i] == x;
        assert paths[|collected| - 1 - i] == x;
      }
    }
  }

  method AddHints(paths: seq<string>, raw: seq<string>) returns (out: seq<string>)
    ensures out == AddFresh(paths, CleanHints(raw))
  {
    out := paths;
    for i := 0 to |raw|
      invariant out == AddFresh(paths, CleanHints(raw[..i]))
    {
      assert raw[..i + 1][..i] == raw[..i];
      var path := Strip(raw[i]);
      ghost var clean := CleanHints(raw[..i]);
      if path != "" {
        assert CleanHints(raw[..i + 1]) == clean + [path];
        assert (clean + [path])[..|clean|] == clean;
        if path !in out {
          out := out + [path];
        }
      } else {
        assert CleanHints(raw[..i + 1]) == clean;
      }
    }
    assert raw[..|raw|] == raw;
  }

  method ExtractSuggestedPaths(ms: seq<Message>, parse: string -> seq<string>) returns (paths: seq<string>)
    ensures paths == ExtractedPaths(ms, parse)
  {
    var found: seq<string> := [];
    var i := |ms|;
    assert ms[..i] == ms;
    while i > 0
      invariant 0 <= i <= |ms|
      invariant CollectedBackwards(ms, parse, []) == CollectedBackwards(ms[..i], parse, found)
    {
      i := i - 1;
      assert ms[..i + 1][..i] == ms[..i];
      if ms[i].Tool? {
        found := AddHints(found, parse(ms[i].content));
      }
    }
    paths := Reversed(found);
  }

  /** Merges paths into the route; the flag tells whether any was new. */
  method MergeApiPaths(route: Route, paths: seq<string>) returns (merged: Route, changed: bool)
    ensures merged == route.(suggestedPaths := AddFresh(route.suggestedPaths, paths))
    ensures changed <==> merged != route
  {
    var all := route.suggestedPaths;
    changed := false;
    for i := 0 to |paths|
      invariant all == AddFresh(route.suggestedPaths, paths[..i])
      invariant changed <==> all != route.suggestedPaths
    {
      assert paths[..i + 1][..i] == paths[..i];
      AddFreshParts(route.suggestedPaths, paths[..i]);
      if paths[i] !in all {
        all := all + [paths[i]];
        changed := true;
      }
    }
    assert paths[..|paths|] == paths;
    merged := route.(suggestedPaths := all);
  }

  function MergedRoute(route: Route, ms: seq<Message>, parse: string -> seq<string>): Route {
    route.(suggestedPaths := AddFresh(route.suggestedPaths, ExtractedPaths(ms, parse)))
  }

  /** Merging adds exactly the hinted paths, behind the old ones, without duplicates; it leaves
      kind, tools and rationale alone. */
  lemma MergedRouteParts(route: Route, ms: seq<Message>, parse: string -> seq<string>)
    ensures var merged := MergedRoute(route, ms, parse);
            && merged == route.(suggestedPaths := merged.suggestedPaths)
            && route.suggestedPaths <= merged.suggestedPaths
            && Elements(merged.suggestedPaths) == Elements(route.suggestedPaths) + HintedPaths(ms, parse)
            && (NoDup(route.suggestedPaths) ==> NoDup(merged.suggestedPaths))
            && (merged == route <==> HintedPaths(ms, parse) <= Elements(route.suggestedPaths))
  {
    ExtractedExactly(ms, parse);
    AddFreshParts(route.suggestedPaths, ExtractedPaths(ms, parse));
  }

  /** New entries are added one after the other. */
  lemma {:induction false} AddFreshInOrder(acc: seq<string>, a: seq<string>, b: seq<string>)
    ensures AddFresh(acc, a + b) == AddFresh(AddFresh(acc, a), b)
    ensures |a| == 1 ==> AddFresh(acc, a) == if a[0] in acc then acc else acc + a
  {
    if |a| == 1 {
      assert a[..0] == [];
    }
    if b == [] {
      assert a + b == a;
    } else {
      AddFreshInOrder(acc, a, b[..|b| - 1]);
      assert (a + b)[..|a + b| - 1] == a + b[..|b| - 1];
    }
  }

  /** Hints are cleaned one after the other. */
  lemma {:induction false} CleanHintsInOrder(a: seq<string>, b: seq<string>)
    ensures CleanHints(a + b) == CleanHints(a) + CleanHints(b)
    ensures |a| == 1 ==> CleanHints(a) == if Strip(a[0]) == "" then [] else [Strip(a[0])]
  {
    if |a| == 1 {
      assert a[..0] == [];
    }
    if b == [] {
      assert a + b == a;
    } else {
      CleanHintsInOrder(a, b[..|b| - 1]);
      assert (a + b)[..|a + b| - 1] == a + b[..|b| - 1];
    }
  }

  // ----- which paths are extracted, and in which order -----

  predicate StripsTo(raw: seq<string>, path: string) {
    exists r :: r in raw && Strip(r) == path
  }

  /** Some tool report hints the path, blanks around it aside. */
  predicate Hinted(ms: seq<Message>, parse: string -> seq<string>, path: string) {
    path != "" && exists m :: m in ms && m.Tool? && StripsTo(parse(m.content), path)
  }

  lemma StripsToSnoc(front: seq<string>, last: string, path: string)
    ensures StripsTo(front + [last], path) <==> StripsTo(front, path) || Strip(last) == path
  {
    assert forall r :: r in front + [last] <==> r in front || r == last;
  }

  lemma {:induction false} CleanHintsExactly(raw: seq<string>, path: string)
    ensures path in CleanHints(raw) <==> path != "" && StripsTo(raw, path)
  {
    if raw != [] {
      var front, last := raw[..|raw| - 1], raw[|raw| - 1];
      CleanHintsExactly(front, path);
      assert raw == front + [last];
      StripsToSnoc(front, last, path);
    }
  }

  lemma {:induction false} HintedExactly(ms: seq<Message>, parse: string -> seq<string>, path: string)
    ensures path in HintedPaths(ms, parse) <==> Hinted(ms, parse, path)
  {
    if ms != [] {
      var front, last := ms[..|ms| - 1], ms[|ms| - 1];
      HintedExactly(front, parse, path);
      assert ms == front + [last];
      assert forall m :: m in ms <==> m in front || m == last;
      if last.Tool? {
        CleanHintsExactly(parse(last.content), path);
      }
    }
  }

  /** The entries that are not excluded, in order. */
  function Except(s: seq<string>, excluded: set<string>): seq<string> {
    if s == [] then []
    else Except(s[..|s| - 1], excluded) + if s[|s| - 1] in excluded then [] else [s[|s| - 1]]
  }

  lemma ExceptSnoc(front: seq<string>, last: string, excluded: set<string>)
    ensures Except(front + [last], excluded) == Except(front, excluded) + if last in excluded then [] else [last]
  {
    assert (front + [last])[..|front|] == front;
  }

  lemma {:induction false} ExceptConcat(a: seq<string>, b: seq<string>, excluded: set<string>)
    ensures Except(a + b, excluded) == Except(a, excluded) + Except(b, excluded)
  {
    if b == [] {
      assert a + b == a;
    } else {
      ExceptConcat(a, b[..|b| - 1], excluded);
      assert (a + b)[..|a + b| - 1] == a + b[..|b| - 1];
    }
  }

  lemma {:induction false} ExceptTwice(s: seq<string>, a: set<string>, b: set<string>)
    ensures Except(Except(s, a), b) == Except(s, a + b)
  {
    if s != [] {
      var front, last := s[..|s| - 1], s[|s| - 1];
      ExceptTwice(front, a, b);
      if last in a {
        assert Except(front, a) + [] == Except(front, a);
      } else {
        ExceptSnoc(Except(front, a), last, b);
      }
    }
  }

  /** Adding new entries to a list adds what adding them to nothing gives, less what is there. */
  lemma {:induction false} AddFreshIsExcept(acc: seq<string>, xs: seq<string>)
    ensures AddFresh(acc, xs) == acc + Except(AddFresh([], xs), Elements(acc))
  {
    if xs != [] {
      var front, last := xs[..|xs| - 1], xs[|xs| - 1];
      AddFreshIsExcept(acc, front);
      InAddFresh(acc, front, last);
      InAddFresh([], front, last);
      ExceptSnoc(AddFresh([], front), last, Elements(acc));
      assert Except(AddFresh([], xs), Elements(acc)) ==
               Except(AddFresh([], front), Elements(acc)) + if last in front || last in acc then [] else [last];
    }
  }

  lemma InAddFresh(acc: seq<string>, xs: seq<string>, x: string)
    ensures x in AddFresh(acc, xs) <==> x in acc || x in xs
  {
    AddFreshParts(acc, xs);
    assert x in AddFresh(acc, xs) <==> x in Elements(AddFresh(acc, xs));
  }

  /** What is found behind what was found before is what would be found at first, less that. */
  lemma {:induction false} CollectedIsExcept(ms: seq<Message>, parse: string -> seq<string>, acc: seq<string>)
    ensures CollectedBackwards(ms, parse, acc) == acc + Except(CollectedBackwards(ms, parse, []), Elements(acc))
  {
    if ms == [] {
      assert acc + [] == acc;
    } else {
      var front, last := ms[..|ms| - 1], ms[|ms| - 1];
      if last.Tool? {
        var hints := CleanHints(parse(last.content));
        CollectedIsExcept(front, parse, AddFresh(acc, hints));
        CollectedIsExcept(front, parse, AddFresh([], hints));
        BehindHints(acc, hints, CollectedBackwards(front, parse, []));
      } else {
        CollectedIsExcept(front, parse, acc);
      }
    }
  }

  lemma BehindHints(acc: seq<string>, hints: seq<string>, rest: seq<string>)
    ensures var alone, all := AddFresh([], hints), AddFresh(acc, hints);
            all + Except(rest, Elements(all)) == acc + Except(alone + Except(rest, Elements(alone)), Elements(acc))
  {
    var alone, all := AddFresh([], hints), AddFresh(acc, hints);
    AddFreshIsExcept(acc, hints);
    AddFreshParts(acc, hints);
    AddFreshParts([], hints);
    var e, f := Elements(alone), Elements(acc);
    ExceptConcat(alone, Except(rest, e), f);
    ExceptTwice(rest, e, f);
    assert Elements(all) == e + f by { assert Elements([]) == {}; }
    Assoc(acc, Except(alone, f), Except(Except(rest, e), f));
  }

  lemma Assoc(a: seq<string>, b: seq<string>, c: seq<string>)
    ensures a + b + c == a + (b + c)
  {
  }

  lemma ReversedConcat(a: seq<string>, b: seq<string>)
    ensures Reversed(a + b) == Reversed(b) + Reversed(a)
  {
  }

  /** The order of extraction, report by report: the paths of the last report come last, in reverse,
      each once, and are taken out of what the earlier reports gave. */
  lemma ExtractedInOrder(ms: seq<Message>, parse: string -> seq<string>, last: Message)
    ensures ExtractedPaths([], parse) == []
    ensures !last.Tool? ==> ExtractedPaths(ms + [last], parse) == ExtractedPaths(ms, parse)
    ensures last.Tool? ==>
              var hints := AddFresh([], CleanHints(parse(last.content)));
              ExtractedPaths(ms + [last], parse) == Reversed(Except(Reversed(ExtractedPaths(ms, parse)), Elements(hints))) + Reversed(hints)
  {
    assert (ms + [last])[..|ms|] == ms;
    var before := CollectedBackwards(ms, parse, []);
    assert Reversed(ExtractedPaths(ms, parse)) == before;
    if last.Tool? {
      var hints := AddFresh([], CleanHints(parse(last.content)));
      CollectedIsExcept(ms, parse, hints);
      ReversedConcat(hints, Except(before, Elements(hints)));
    }
  }
}
