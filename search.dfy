/**
 * The dashboards' hero search box (`handleSearch`): the typed text is
 * lower-cased and trimmed, then tested against keyword groups in a fixed
 * order; the first group with a keyword in the query opens its page, and a
 * query matching none shows a toast. Each dashboard writes this as an
 * `if`/`else if` chain; this module gives the rule-table reading of such a chain
 * that the dashboards' chains are checked against.
 */
module Search {
  import opened Text
  import opened Wrappers

  /** What a search does: open a page, or show a toast of the given type. */
  datatype Outcome = Open(view: string) | Toast(message: string, kind: string)

  /** `searchInput.value.toLowerCase().trim()`. */
  function Normalise(input: string): (q: string)
    ensures |q| <= |input|
  {
    Trim(Lower(input))
  }

  /** One `else if` arm: its keywords and the page it opens. */
  datatype Rule = Rule(keywords: seq<string>, view: string)

  predicate Matches(q: string, r: Rule) {
    exists i :: 0 <= i < |r.keywords| && Contains(q, r.keywords[i])
  }

  /** The page of the first rule that matches, if any. */
  function FirstMatch(q: string, rules: seq<Rule>): (r: Option<string>)
    ensures r.None? <==> forall i :: 0 <= i < |rules| ==> !Matches(q, rules[i])
    ensures r.Some? ==> exists i :: 0 <= i < |rules| && rules[i].view == r.value && Matches(q, rules[i]) &&
                                   forall j :: 0 <= j < i ==> !Matches(q, rules[j])
    decreases |rules|
  {
    if rules == [] then None
    else if Matches(q, rules[0]) then Some(rules[0].view)
    else
      var rest := FirstMatch(q, rules[1..]);
      assert forall i :: 1 <= i < |rules| ==> rules[i] == rules[1..][i - 1];
      if rest.Some? then
        var k :| 0 <= k < |rules[1..]| && rules[1..][k].view == rest.value && Matches(q, rules[1..][k]) &&
                 forall j :: 0 <= j < k ==> !Matches(q, rules[1..][j]);
        assert rules[k + 1] == rules[1..][k];
        assert forall j :: 0 <= j < k + 1 ==> !Matches(q, rules[j]) by {
          forall j | 0 <= j < k + 1
            ensures !Matches(q, rules[j])
          {
            if j > 0 {
              assert rules[j] == rules[1..][j - 1];
            }
          }
        }
        rest
      else rest
  }

  /** The outcome of a rule table: the first matching page, else the toast. */
  function ByTable(q: string, rules: seq<Rule>, notFound: Outcome): (o: Outcome)
    ensures FirstMatch(q, rules).Some? ==> o == Open(FirstMatch(q, rules).value)
    ensures FirstMatch(q, rules).None? ==> o == notFound
    ensures notFound.Toast? ==> (o == notFound <==> FirstMatch(q, rules).None?)
  {
    match FirstMatch(q, rules)
    case Some(v) => Open(v)
    case None => notFound
  }

  /** The first rule is tried first, the others only when it does not match. */
  lemma FirstMatchCons(q: string, r: Rule, rest: seq<Rule>)
    ensures FirstMatch(q, [r] + rest) == if Matches(q, r) then Some(r.view) else FirstMatch(q, rest)
  {
    assert ([r] + rest)[0] == r;
    assert ([r] + rest)[1..] == rest;
  }

  /** Trying the rules from index `i` on: rule `i`, else the ones after it. */
  lemma FirstMatchStep(q: string, rules: seq<Rule>, i: int)
    requires 0 <= i < |rules|
    ensures FirstMatch(q, rules[i..]) == if Matches(q, rules[i]) then Some(rules[i].view) else FirstMatch(q, rules[i + 1..])
  {
    assert rules[i..] == [rules[i]] + rules[i + 1..];
    FirstMatchCons(q, rules[i], rules[i + 1..]);
  }

  /** A rule of one or two keywords matches when the query includes one of them. */
  lemma MatchesKeywords(q: string, r: Rule)
    ensures |r.keywords| == 1 ==> (Matches(q, r) <==> Contains(q, r.keywords[0]))
    ensures |r.keywords| == 2 ==> (Matches(q, r) <==> Contains(q, r.keywords[0]) || Contains(q, r.keywords[1]))
  {
    if |r.keywords| == 1 && Contains(q, r.keywords[0]) {
      assert Matches(q, r);
    }
    if |r.keywords| == 2 && Contains(q, r.keywords[1]) {
      assert Matches(q, r);
    }
    if |r.keywords| == 2 && Contains(q, r.keywords[0]) {
      assert Matches(q, r);
    }
  }

  /** A query including a word includes every part of that word. */
  lemma ContainsPart(q: string, w: string, i: int, j: int)
    requires 0 <= i <= j <= |w| && Contains(q, w)
    ensures Contains(q, w[i..j])
  {
    ContainsAt(q, w);
    var n :| OccursAt(q, w, n);
    forall t | 0 <= t < j - i
      ensures q[n + i + t] == w[i..j][t]
    {
      assert q[n + i + t] == q[n..n + |w|][i + t];
    }
    assert OccursAt(q, w[i..j], n + i);
    ContainsAt(q, w[i..j]);
  }

  /** A keyword without capital letters keeps its place under lower-casing. */
  lemma LowerKeeps(s: string, k: string, i: int)
    requires OccursAt(s, k, i)
    requires forall j :: 0 <= j < |k| ==> !('A' <= k[j] <= 'Z')
    ensures OccursAt(Lower(s), k, i)
  {
    forall j | 0 <= j < |k|
      ensures Lower(s)[i..i + |k|][j] == k[j]
    {
      assert s[i + j] == s[i..i + |k|][j];
    }
  }

  /** An occurrence starting with a non-removable character survives `trimStart`,
      shifted left by the number of characters removed. */
  lemma TrimStartKeeps(s: string, k: string, i: int)
    requires OccursAt(s, k, i) && k != [] && !IsSpace(k[0])
    ensures OccursAt(TrimStart(s), k, i - (|s| - |TrimStart(s)|))
  {
    DropSpacesKeeps(s, TrimStart(s), k, i);
  }

  /** Dropping a prefix of removable characters keeps every occurrence that
      starts with a non-removable one. */
  lemma DropSpacesKeeps(s: string, t: string, k: string, i: int)
    requires OccursAt(s, k, i) && k != [] && !IsSpace(k[0])
    requires |t| <= |s| && t == s[|s| - |t|..]
    requires forall j :: 0 <= j < |s| - |t| ==> IsSpace(s[j])
    ensures OccursAt(t, k, i - (|s| - |t|))
  {
    var p := |s| - |t|;
    assert s[i] == s[i..i + |k|][0];
    assert !IsSpace(s[i]);
    assert p <= i;
    assert t[i - p..i - p + |k|] == s[i..i + |k|];
  }

  /** An occurrence ending with a non-removable character survives `trimEnd` in place. */
  lemma TrimEndKeeps(s: string, k: string, i: int)
    requires OccursAt(s, k, i) && k != [] && !IsSpace(k[|k| - 1])
    ensures OccursAt(TrimEnd(s), k, i)
  {
    var r := TrimEnd(s);
    assert s[i + |k| - 1] == s[i..i + |k|][|k| - 1];
    assert i + |k| <= |r|;
    forall j | 0 <= j < |k|
      ensures r[i + j] == k[j]
    {
      assert s[i + j] == s[i..i + |k|][j];
    }
  }

  /** A lower-case keyword without whitespace at its ends that appears anywhere in
      the typed text still appears in the normalised query, whatever the case and
      the surrounding spaces of the rest of the text. */
  lemma KeywordSurvivesNormalise(a: string, k: string, b: string)
    requires k != [] && !IsSpace(k[0]) && !IsSpace(k[|k| - 1])
    requires forall j :: 0 <= j < |k| ==> !('A' <= k[j] <= 'Z')
    ensures Contains(Normalise(a + k + b), k)
  {
    assert (a + k + b)[|a|..|a| + |k|] == k;
    OccurrenceSurvivesNormalise(a + k + b, k, |a|);
  }

  /** The same for an occurrence at index `i` of any text. */
  lemma OccurrenceSurvivesNormalise(s: string, k: string, i: int)
    requires OccursAt(s, k, i)
    requires k != [] && !IsSpace(k[0]) && !IsSpace(k[|k| - 1])
    requires forall j :: 0 <= j < |k| ==> !('A' <= k[j] <= 'Z')
    ensures Contains(Normalise(s), k)
  {
    OccurrenceSurvivesSteps(s, k, i);
    assert Normalise(s) == TrimEnd(TrimStart(Lower(s)));
  }

  /** The same, step by step: lower-casing, then `trimStart`, then `trimEnd`. */
  lemma OccurrenceSurvivesSteps(s: string, k: string, i: int)
    requires OccursAt(s, k, i)
    requires k != [] && !IsSpace(k[0]) && !IsSpace(k[|k| - 1])
    requires forall j :: 0 <= j < |k| ==> !('A' <= k[j] <= 'Z')
    ensures Contains(TrimEnd(TrimStart(Lower(s))), k)
  {
    LowerKeeps(s, k, i);
    var l := Lower(s);
    TrimStartKeeps(l, k, i);
    var t := TrimStart(l);
    var n := i - (|l| - |t|);
    TrimEndKeeps(t, k, n);
    OccursContains(TrimEnd(t), k, n);
  }

  lemma OccursContains(s: string, k: string, i: int)
    requires OccursAt(s, k, i)
    ensures Contains(s, k)
  {
    ContainsAt(s, k);
  }
}
