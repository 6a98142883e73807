/** The retrieval policy context as one canonical text. */
module PolicyContext {
  import opened Text

  datatype Classification = Public | Internal | Confidential | Secret
  {
    function Name(): string {
      match this
      case Public => "public"
      case Internal => "internal"
      case Confidential => "confidential"
      case Secret => "secret"
    }
  }

  datatype RetrievalRequest = RetrievalRequest(
    tenantId: string,
    userId: string,
    maxClassification: Classification,
    allowedScopes: seq<string>,
    allowHighPii: bool)

  // ----- sorting scopes -----

  /** Lexicographic order on code points. */
  predicate TextLe(a: string, b: string) {
    if a == "" then true
    else if b == "" then false
    else if a[0] == b[0] then TextLe(a[1..], b[1..])
    else a[0] < b[0]
  }

  lemma {:induction false} TextLeTotal(a: string, b: string)
    ensures TextLe(a, b) || TextLe(b, a)
    ensures TextLe(a, b) && TextLe(b, a) ==> a == b
  {
    if a != "" && b != "" && a[0] == b[0] {
      TextLeTotal(a[1..], b[1..]);
      assert a == [a[0]] + a[1..] && b == [b[0]] + b[1..];
    }
  }

  lemma {:induction false} TextLeTrans(a: string, b: string, c: string)
    requires TextLe(a, b) && TextLe(b, c)
    ensures TextLe(a, c)
  {
    if a != "" && b != "" && c != "" && a[0] == b[0] == c[0] {
      TextLeTrans(a[1..], b[1..], c[1..]);
    }
  }

  predicate Sorted(s: seq<string>) {
    forall i, j :: 0 <= i < j < |s| ==> TextLe(s[i], s[j])
  }

  function Insert(x: string, s: seq<string>): (r: seq<string>)
    requires Sorted(s)
    ensures Sorted(r) && multiset(r) == multiset(s) + multiset{x}
  {
    if s == [] then [x]
    else if TextLe(x, s[0]) then
      assert forall j :: 0 <= j < |s| ==> TextLe(x, s[j]) by {
        forall j | 0 <= j < |s| ensures TextLe(x, s[j]) {
          if j > 0 { TextLeTrans(x, s[0], s[j]); }
        }
      }
      assert [x] + s == [x] + s;
      [x] + s
    else
      var rest := Insert(x, s[1..]);
      assert s == [s[0]] + s[1..];
      assert forall y :: y in rest ==> TextLe(s[0], y) by {
        TextLeTotal(x, s[0]);
        forall y | y in rest ensures TextLe(s[0], y) {
          assert y in multiset(rest);
          assert y == x || y in multiset(s[1..]);
        }
      }
      [s[0]] + rest
  }

  function SortedScopes(scopes: seq<string>): (r: seq<string>)
    ensures Sorted(r) && multiset(r) == multiset(scopes)
  {
    if scopes == [] then []
    else
      assert scopes == [scopes[0]] + scopes[1..];
      Insert(scopes[0], SortedScopes(scopes[1..]))
  }

  /** A sorted sequence is determined by its multiset. */
  lemma {:induction false} SortedUnique(a: seq<string>, b: seq<string>)
    requires Sorted(a) && Sorted(b) && multiset(a) == multiset(b)
    ensures a == b
  {
    if a == [] {
      assert |multiset(b)| == 0;
    } else {
      assert |multiset(a)| == |multiset(b)| > 0;
      assert a[0] in multiset(b) && b[0] in multiset(a);
      HeadIsLeast(a, b[0]);
      HeadIsLeast(b, a[0]);
      TextLeTotal(a[0], b[0]);
      WithoutHead(a);
      WithoutHead(b);
      SortedUnique(a[1..], b[1..]);
    }
  }

  lemma WithoutHead(s: seq<string>)
    requires s != []
    ensures s == [s[0]] + s[1..]
    ensures multiset(s[1..]) == multiset(s) - multiset{s[0]}
  {
    assert s == [s[0]] + s[1..];
  }

  lemma HeadIsLeast(s: seq<string>, x: string)
    requires Sorted(s) && x in s
    ensures TextLe(s[0], x)
  {
    TextLeTotal(x, x);
  }

  // ----- the canonical text -----

  function ScopeText(r: RetrievalRequest): string { Join(",", SortedScopes(r.allowedScopes)) }

  function PiiText(r: RetrievalRequest): string { if r.allowHighPii then "high_pii" else "no_high_pii" }

  function Canonical(r: RetrievalRequest): string {
    Join("|", [r.tenantId, r.userId, r.maxClassification.Name(), PiiText(r), ScopeText(r)])
  }

  /** Two requests under the same policy: scope order does not matter, scope multiplicity does. */
  predicate SamePolicy(a: RetrievalRequest, b: RetrievalRequest) {
    && a.tenantId == b.tenantId && a.userId == b.userId
    && a.maxClassification == b.maxClassification && a.allowHighPii == b.allowHighPii
    && multiset(a.allowedScopes) == multiset(b.allowedScopes)
  }

  /** Tenant and user without "|", scopes non-empty and without ",". */
  predicate SeparatorFree(r: RetrievalRequest) {
    && '|' !in r.tenantId && '|' !in r.userId
    && forall s :: s in r.allowedScopes ==> s != "" && ',' !in s
  }

  /** Cutting at the first separator is unambiguous when the first parts do not contain it. */
  lemma {:induction false} CutAtSeparator(a: string, b: string, restA: string, restB: string, sep: char)
    requires sep !in a && sep !in b
    requires a + [sep] + restA == b + [sep] + restB
    ensures a == b && restA == restB
  {
    var x, y := a + [sep] + restA, b + [sep] + restB;
    if a == "" || b == "" {
      assert x[0] == y[0];
      assert a == b == "";
      assert x[1..] == restA && y[1..] == restB;
    } else {
      assert x[0] == a[0] && y[0] == b[0];
      assert x[1..] == a[1..] + [sep] + restA && y[1..] == b[1..] + [sep] + restB;
      CutAtSeparator(a[1..], b[1..], restA, restB, sep);
      assert a == [a[0]] + a[1..] && b == [b[0]] + b[1..];
    }
  }

  /** Joining with commas loses nothing when no part is empty or contains a comma. */
  lemma {:induction false} JoinInjective(a: seq<string>, b: seq<string>)
    requires forall s :: s in a ==> s != "" && ',' !in s
    requires forall s :: s in b ==> s != "" && ',' !in s
    requires Join(",", a) == Join(",", b)
    ensures a == b
  {
    JoinShape(a);
    JoinShape(b);
    if a != [] && b != [] {
      if |a| > 1 && |b| > 1 {
        assert a[0] + [','] + Join(",", a[1..]) == b[0] + [','] + Join(",", b[1..]);
        CutAtSeparator(a[0], b[0], Join(",", a[1..]), Join(",", b[1..]), ',');
        assert forall s :: s in a[1..] ==> s in a;
        assert forall s :: s in b[1..] ==> s in b;
        JoinInjective(a[1..], b[1..]);
        assert a == [a[0]] + a[1..] && b == [b[0]] + b[1..];
      } else {
        assert a[0] in a && b[0] in b;
        assert a == [a[0]] && b == [b[0]];
      }
    }
  }

  lemma JoinShape(a: seq<string>)
    requires forall s :: s in a ==> s != "" && ',' !in s
    ensures Join(",", a) == "" <==> a == []
    ensures |a| > 1 <==> ',' in Join(",", a)
  {
    if |a| > 1 {
      assert Join(",", a)[|a[0]|] == ',';
    } else if |a| == 1 {
      assert a[0] in a;
    }
  }

  function Tail(r: RetrievalRequest): string {
    r.maxClassification.Name() + ['|'] + (PiiText(r) + ['|'] + ScopeText(r))
  }

  lemma CanonicalParts(r: RetrievalRequest)
    ensures Canonical(r) == r.tenantId + ['|'] + (r.userId + ['|'] + Tail(r))
  {
    var parts := [r.tenantId, r.userId, r.maxClassification.Name(), PiiText(r), ScopeText(r)];
    var p1, p2, p3, p4 := parts[1..], parts[1..][1..], parts[1..][1..][1..], parts[1..][1..][1..][1..];
    assert Join("|", p4) == ScopeText(r);
    assert Join("|", p3) == PiiText(r) + "|" + Join("|", p4);
    assert Join("|", p2) == r.maxClassification.Name() + "|" + Join("|", p3);
    assert Join("|", p1) == r.userId + "|" + Join("|", p2);
  }

  lemma NamesAreClean(a: Classification, b: Classification)
    ensures '|' !in a.Name()
    ensures a.Name() == b.Name() ==> a == b
  {
    assert "public"[0] == 'p' && "internal"[0] == 'i' && "confidential"[0] == 'c' && "secret"[0] == 's';
  }

  /** The canonical text is the policy: on separator-free requests two texts are equal exactly
      when the requests stand under the same policy. */
  lemma CanonicalIffSamePolicy(a: RetrievalRequest, b: RetrievalRequest)
    requires SeparatorFree(a) && SeparatorFree(b)
    ensures Canonical(a) == Canonical(b) <==> SamePolicy(a, b)
  {
    CanonicalParts(a);
    CanonicalParts(b);
    if SamePolicy(a, b) {
      SortedUnique(SortedScopes(a.allowedScopes), SortedScopes(b.allowedScopes));
    }
    if Canonical(a) == Canonical(b) {
      CutAtSeparator(a.tenantId, b.tenantId, a.userId + ['|'] + Tail(a), b.userId + ['|'] + Tail(b), '|');
      CutAtSeparator(a.userId, b.userId, Tail(a), Tail(b), '|');
      TailInjective(a, b);
      ScopeTextInjective(a, b);
    }
  }

  /** The same policy always gives the same text. */
  lemma SamePolicySameText(a: RetrievalRequest, b: RetrievalRequest)
    requires SamePolicy(a, b)
    ensures SortedScopes(a.allowedScopes) == SortedScopes(b.allowedScopes) && Canonical(a) == Canonical(b)
  {
    SortedUnique(SortedScopes(a.allowedScopes), SortedScopes(b.allowedScopes));
  }

  lemma TailInjective(a: RetrievalRequest, b: RetrievalRequest)
    requires Tail(a) == Tail(b)
    ensures a.maxClassification == b.maxClassification && a.allowHighPii == b.allowHighPii && ScopeText(a) == ScopeText(b)
  {
    NamesAreClean(a.maxClassification, b.maxClassification);
    NamesAreClean(b.maxClassification, a.maxClassification);
    CutAtSeparator(a.maxClassification.Name(), b.maxClassification.Name(),
                   PiiText(a) + ['|'] + ScopeText(a), PiiText(b) + ['|'] + ScopeText(b), '|');
    CutAtSeparator(PiiText(a), PiiText(b), ScopeText(a), ScopeText(b), '|');
    assert "high_pii"[0] != "no_high_pii"[0];
  }

  lemma ScopeTextInjective(a: RetrievalRequest, b: RetrievalRequest)
    requires SeparatorFree(a) && SeparatorFree(b) && ScopeText(a) == ScopeText(b)
    ensures multiset(a.allowedScopes) == multiset(b.allowedScopes)
  {
    SortedElements(a.allowedScopes);
    SortedElements(b.allowedScopes);
    JoinInjective(SortedScopes(a.allowedScopes), SortedScopes(b.allowedScopes));
  }

  lemma SortedElements(scopes: seq<string>)
    ensures forall s :: s in SortedScopes(scopes) ==> s in scopes
  {
    forall s | s in SortedScopes(scopes) ensures s in scopes {
      assert s in multiset(SortedScopes(scopes));
    }
  }

  /** The same text read with the first cut moved from the tenant into the user. */
  lemma ShiftedTenant(r: RetrievalRequest, i: nat)
    requires i < |r.userId| && r.userId[i] == '|'
    ensures var other := r.(tenantId := r.tenantId + ['|'] + r.userId[..i], userId := r.userId[i + 1..]);
            Canonical(other) == Canonical(r)
  {
    var left, right := r.userId[..i], r.userId[i + 1..];
    var other := r.(tenantId := r.tenantId + ['|'] + left, userId := right);
    CanonicalParts(r);
    CanonicalParts(other);
    assert Tail(other) == Tail(r);
    assert r.userId == left + ['|'] + right;
    Regroup(r.tenantId, left, right, Tail(r));
  }

  lemma Regroup(tenant: string, left: string, right: string, tail: string)
    ensures (tenant + ['|'] + left) + ['|'] + (right + ['|'] + tail) == tenant + ['|'] + ((left + ['|'] + right) + ['|'] + tail)
  {
    assert (left + ['|'] + right) + ['|'] + tail == left + (['|'] + (right + ['|'] + tail));
    assert (tenant + ['|'] + left) + (['|'] + (right + ['|'] + tail)) == tenant + ['|'] + (left + (['|'] + (right + ['|'] + tail)));
  }

  /** The separator condition is needed: a user or a tenant that contains "|" shares its
      canonical text with a request of another tenant. */
  lemma SeparatorCollides(r: RetrievalRequest)
    requires '|' in r.tenantId || '|' in r.userId
    ensures exists other: RetrievalRequest :: Canonical(other) == Canonical(r) && other.tenantId != r.tenantId
  {
    if '|' in r.userId {
      var i :| 0 <= i < |r.userId| && r.userId[i] == '|';
      ShiftedTenant(r, i);
      var other := r.(tenantId := r.tenantId + ['|'] + r.userId[..i], userId := r.userId[i + 1..]);
      assert |other.tenantId| > |r.tenantId|;
      assert Canonical(other) == Canonical(r) && other.tenantId != r.tenantId;
    } else {
      var i :| 0 <= i < |r.tenantId| && r.tenantId[i] == '|';
      var other := r.(tenantId := r.tenantId[..i], userId := r.tenantId[i + 1..] + ['|'] + r.userId);
      var k := |r.tenantId| - i - 1;
      assert other.userId[k] == '|' && other.userId[..k] == r.tenantId[i + 1..] && other.userId[k + 1..] == r.userId;
      assert |other.tenantId| < |r.tenantId|;
      assert r.tenantId == r.tenantId[..i] + ['|'] + r.tenantId[i + 1..];
      ShiftedTenant(other, k);
      assert Canonical(other) == Canonical(r) && other.tenantId != r.tenantId;
    }
  }

  // ----- exactly when another tenant shares the text -----

  predicate OtherTenant(r: RetrievalRequest, other: RetrievalRequest) {
    Canonical(other) == Canonical(r) && other.tenantId != r.tenantId
  }

  function PolicyText(c: Classification, highPii: bool): string {
    c.Name() + ['|'] + ((if highPii then "high_pii" else "no_high_pii") + ['|'])
  }

  /** From i on the text reads as a classification, a PII flag and scopes. */
  predicate ReadsAsPolicy(text: string, i: int) {
    && 0 <= i <= |text| && (i > 0 ==> text[i - 1] == '|')
    && exists c: Classification, highPii: bool :: PolicyText(c, highPii) <= text[i..]
  }

  /** Two ways to cut a text at a separator: the first part of the one is that of the other, or the
      other's is longer and goes on behind the first cut. */
  lemma SecondCut(a: string, restA: string, b: string, restB: string) returns (between: Option<string>)
    requires '|' !in a && a + ['|'] + restA == b + ['|'] + restB
    ensures match between
            case None => b == a && restB == restA
            case Some(x) => b == a + ['|'] + x && restA == x + ['|'] + restB
  {
    var text := a + ['|'] + restA;
    assert text == b + ['|'] + restB;
    assert text[|b|] == '|' && text[|a|] == '|' && text[..|a|] == a && text[..|b|] == b;
    assert text[|a| + 1..] == restA && text[|b| + 1..] == restB;
    if |b| <= |a| {
      between := None;
    } else {
      var x := b[|a| + 1..];
      assert b == b[..|a|] + [b[|a|]] + x;
      assert restA == text[|a| + 1..][..|x|] + ['|'] + restB;
      between := Some(x);
    }
  }

  /** Another tenant's request shares the text if and only if tenant or user contains the separator,
      or the scopes read as a policy of their own. */
  lemma OtherTenantIff(r: RetrievalRequest)
    ensures (exists other :: OtherTenant(r, other)) <==>
              || '|' in r.tenantId || '|' in r.userId
              || exists i :: 0 <= i <= |ScopeText(r)| && ReadsAsPolicy(ScopeText(r), i)
  {
    if '|' in r.tenantId || '|' in r.userId {
      SeparatorCollides(r);
      var other: RetrievalRequest :| Canonical(other) == Canonical(r) && other.tenantId != r.tenantId;
      assert OtherTenant(r, other);
    } else {
      if i :| 0 <= i <= |ScopeText(r)| && ReadsAsPolicy(ScopeText(r), i) {
        var other := HiddenRequest(r, i);
        assert OtherTenant(r, other);
      }
      if other :| OtherTenant(r, other) {
        var i := HiddenPolicy(r, other);
      }
    }
  }

  lemma HiddenRequest(r: RetrievalRequest, i: int) returns (other: RetrievalRequest)
    requires ReadsAsPolicy(ScopeText(r), i)
    ensures OtherTenant(r, other)
  {
    var scopes := ScopeText(r);
    var c: Classification, highPii: bool :| PolicyText(c, highPii) <= scopes[i..];
    var policy := PolicyText(c, highPii);
    var rest := scopes[i..][|policy|..];
    var front := r.maxClassification.Name() + ['|'] + PiiText(r);
    var user := if i == 0 then front else front + ['|'] + scopes[..i - 1];
    assert scopes == scopes[..i] + (policy + rest);
    UserHoldsTail(r, i, user, policy + rest);
    other := MovedCut(r, user, c, highPii, rest);
  }

  lemma MovedCut(r: RetrievalRequest, user: string, c: Classification, highPii: bool, rest: string) returns (other: RetrievalRequest)
    requires Tail(r) == user + ['|'] + (PolicyText(c, highPii) + rest)
    ensures OtherTenant(r, other)
  {
    other := RetrievalRequest(r.tenantId + ['|'] + r.userId, user, c, [rest], highPii);
    OneScope(rest);
    PolicyStartsTail(other);
    assert Tail(other) == PolicyText(c, highPii) + rest;
    CanonicalParts(r);
    CanonicalParts(other);
    CutMoves(r.tenantId, r.userId, Tail(r));
    assert |other.tenantId| > |r.tenantId|;
  }

  lemma CutMoves(tenant: string, user: string, tail: string)
    ensures tenant + ['|'] + (user + ['|'] + tail) == (tenant + ['|'] + user) + ['|'] + tail
  {
  }

  lemma UserHoldsTail(r: RetrievalRequest, i: int, user: string, hidden: string)
    requires 0 <= i <= |ScopeText(r)| && (i > 0 ==> ScopeText(r)[i - 1] == '|')
    requires ScopeText(r) == ScopeText(r)[..i] + hidden
    requires var front := r.maxClassification.Name() + ['|'] + PiiText(r);
             user == if i == 0 then front else front + ['|'] + ScopeText(r)[..i - 1]
    ensures Tail(r) == user + ['|'] + hidden
  {
    var scopes := ScopeText(r);
    if i > 0 {
      assert scopes[..i] == scopes[..i - 1] + ['|'];
    }
  }

  lemma HiddenPolicy(r: RetrievalRequest, other: RetrievalRequest) returns (i: int)
    requires '|' !in r.tenantId && '|' !in r.userId && OtherTenant(r, other)
    ensures 0 <= i <= |ScopeText(r)| && ReadsAsPolicy(ScopeText(r), i)
  {
    CanonicalParts(r);
    CanonicalParts(other);
    var x := SecondCut(r.tenantId, r.userId + ['|'] + Tail(r), other.tenantId, other.userId + ['|'] + Tail(other));
    assert r.userId + ['|'] + Tail(r) == x.value + ['|'] + (other.userId + ['|'] + Tail(other));
    var y := SecondCut(r.userId, Tail(r), x.value, other.userId + ['|'] + Tail(other));
    var before := if y.None? then other.userId else y.value + ['|'] + other.userId;
    assert Tail(r) == before + ['|'] + Tail(other);
    i := PolicyInScopes(r, before, other);
  }

  lemma PolicyInScopes(r: RetrievalRequest, before: string, other: RetrievalRequest) returns (i: int)
    requires Tail(r) == before + ['|'] + Tail(other)
    ensures 0 <= i <= |ScopeText(r)| && ReadsAsPolicy(ScopeText(r), i)
  {
    var scopes := ScopeText(r);
    NamesAreClean(r.maxClassification, other.maxClassification);
    NamesAreClean(other.maxClassification, r.maxClassification);
    var v := SecondCut(r.maxClassification.Name(), PiiText(r) + ['|'] + scopes, before, Tail(other));
    if v.None? {
      NoNameIsPii(r, other);
      CutAtSeparator(PiiText(r), other.maxClassification.Name(), scopes, PiiText(other) + ['|'] + ScopeText(other), '|');
    } else {
      var w := SecondCut(PiiText(r), scopes, v.value, Tail(other));
      PolicyStartsTail(other);
      i := if w.None? then 0 else |w.value| + 1;
      assert scopes[i..] == Tail(other);
      assert PolicyText(other.maxClassification, other.allowHighPii) <= scopes[i..];
    }
  }

  lemma NoNameIsPii(r: RetrievalRequest, other: RetrievalRequest)
    ensures PiiText(r) != other.maxClassification.Name() && '|' !in PiiText(r)
  {
    assert PiiText(r)[0] == 'h' || PiiText(r)[0] == 'n';
    assert other.maxClassification.Name()[0] in "pics";
  }

  lemma PolicyStartsTail(r: RetrievalRequest)
    ensures Tail(r) == PolicyText(r.maxClassification, r.allowHighPii) + ScopeText(r)
  {
  }

  // ----- scope lists that share a text -----

  function WithScopes(r: RetrievalRequest, scopes: seq<string>): RetrievalRequest {
    r.(allowedScopes := scopes)
  }

  /** Another scope list under which the request has the same canonical text. */
  predicate ScopesCollide(r: RetrievalRequest, other: seq<string>) {
    Canonical(WithScopes(r, other)) == Canonical(r) && multiset(other) != multiset(r.allowedScopes)
  }

  /** A single scope that reads as two scopes in order. */
  predicate ReadsAsTwo(scope: string, i: int) {
    0 <= i < |scope| && scope[i] == ',' && TextLe(scope[..i], scope[i + 1..])
  }

  /** Only a single, non-empty scope that does not read as a sorted list determines its text: none
      reads like one empty scope, several read like one with commas, and the other way round. */
  predicate ScopesAmbiguous(scopes: seq<string>) {
    |scopes| != 1 || scopes[0] == "" || exists i :: 0 <= i < |scopes[0]| && ReadsAsTwo(scopes[0], i)
  }

  lemma SameScopeText(r: RetrievalRequest, other: seq<string>)
    ensures Canonical(WithScopes(r, other)) == Canonical(r) <==> Join(",", SortedScopes(other)) == ScopeText(r)
  {
    var o := WithScopes(r, other);
    ScopesComeLast(o);
    ScopesComeLast(r);
    var front := BeforeScopes(r);
    assert BeforeScopes(o) == front;
    assert (front + ScopeText(o))[|front|..] == ScopeText(o) && (front + ScopeText(r))[|front|..] == ScopeText(r);
  }

  function BeforeScopes(r: RetrievalRequest): string {
    (r.tenantId + ['|']) + ((r.userId + ['|']) + ((r.maxClassification.Name() + ['|']) + (PiiText(r) + ['|'])))
  }

  lemma ScopesComeLast(r: RetrievalRequest)
    ensures Canonical(r) == BeforeScopes(r) + ScopeText(r)
  {
    var tenant, user := r.tenantId + ['|'], r.userId + ['|'];
    var name, pii := r.maxClassification.Name() + ['|'], PiiText(r) + ['|'];
    CanonicalParts(r);
    Assoc(name, pii, ScopeText(r));
    Assoc(user, name + pii, ScopeText(r));
    Assoc(tenant, user + (name + pii), ScopeText(r));
  }

  lemma Assoc(a: string, b: string, c: string)
    ensures a + (b + c) == (a + b) + c
  {
  }

  lemma {:induction false} TextLeExtended(a: string, b: string, more: string)
    requires TextLe(a, b)
    ensures TextLe(a, b + more)
  {
    if a != "" && a[0] == b[0] {
      TextLeExtended(a[1..], b[1..], more);
      assert (b + more)[1..] == b[1..] + more;
    }
  }

  lemma SortedPair(a: string, b: string)
    requires TextLe(a, b)
    ensures SortedScopes([a, b]) == [a, b] && Join(",", [a, b]) == a + "," + b
  {
    SortedUnique(SortedScopes([a, b]), [a, b]);
  }

  lemma OneScope(s: string)
    ensures SortedScopes([s]) == [s] && Join(",", [s]) == s
  {
    SortedUnique(SortedScopes([s]), [s]);
  }

  /** The scope text stands for several scope lists if and only if the list is ambiguous; so in
      particular for every request with two or more scopes. */
  lemma ScopesCollideIff(r: RetrievalRequest)
    ensures (exists other :: ScopesCollide(r, other)) <==> ScopesAmbiguous(r.allowedScopes)
  {
    var scopes := r.allowedScopes;
    if |scopes| != 1 {
      var text := ScopeText(r);
      OneScope(text);
      SameScopeText(r, [text]);
      assert |multiset([text])| == 1 && |multiset(scopes)| == |scopes|;
      assert ScopesCollide(r, [text]);
    } else {
      OneScope(scopes[0]);
      assert scopes == [scopes[0]];
      if ScopesAmbiguous(scopes) {
        SingleScopeCollides(r);
      }
      if exists other :: ScopesCollide(r, other) {
        var other :| ScopesCollide(r, other);
        SingleScopeIsAmbiguous(r, other);
      }
    }
  }

  lemma SingleScopeCollides(r: RetrievalRequest)
    requires |r.allowedScopes| == 1 && ScopesAmbiguous(r.allowedScopes)
    ensures exists other :: ScopesCollide(r, other)
  {
    var s := r.allowedScopes[0];
    OneScope(s);
    assert r.allowedScopes == [s];
    if s == "" {
      SameScopeText(r, []);
      assert ScopesCollide(r, []);
    } else {
      var i :| 0 <= i < |s| && ReadsAsTwo(s, i);
      assert s == s[..i] + "," + s[i + 1..];
      PairCollides(r, s[..i], s[i + 1..]);
    }
  }

  lemma PairCollides(r: RetrievalRequest, a: string, b: string)
    requires r.allowedScopes == [a + "," + b] && TextLe(a, b)
    ensures ScopesCollide(r, [a, b])
  {
    SortedPair(a, b);
    OneScope(a + "," + b);
    SameScopeText(r, [a, b]);
    assert |multiset([a, b])| == 2 && |multiset(r.allowedScopes)| == 1;
  }

  lemma SingleScopeIsAmbiguous(r: RetrievalRequest, other: seq<string>)
    requires |r.allowedScopes| == 1 && ScopesCollide(r, other)
    ensures ScopesAmbiguous(r.allowedScopes)
  {
    var s, o := r.allowedScopes[0], SortedScopes(other);
    OneScope(s);
    assert r.allowedScopes == [s];
    SameScopeText(r, other);
    assert multiset(o) == multiset(other);
    if |o| >= 2 {
      JoinReadsAsTwo(o);
    }
  }

  lemma JoinReadsAsTwo(o: seq<string>)
    requires |o| >= 2 && Sorted(o)
    ensures ReadsAsTwo(Join(",", o), |o[0]|)
  {
    var s, rest := Join(",", o), Join(",", o[1..]);
    assert s == o[0] + "," + rest;
    assert s[..|o[0]|] == o[0] && s[|o[0]| + 1..] == rest;
    HeadStartsJoin(o[1..]);
    assert rest == o[1] + rest[|o[1]|..];
    TextLeExtended(o[0], o[1], rest[|o[1]|..]);
  }

  lemma HeadStartsJoin(parts: seq<string>)
    requires parts != []
    ensures parts[0] <= Join(",", parts)
  {
  }
}
