/**
 * The list view: the newsletters loaded once on mount, narrowed by a live,
 * case-insensitive search over name and prompt.
 */
module NewslettersPage {
  import opened Options
  import opened Text
  import opened NewsletterCard

  /** A newsletter is kept when its lower-cased name or prompt includes the lower-cased term. */
  predicate Matches(n: Newsletter, term: string) {
    Contains(Lower(n.name), Lower(term)) || Contains(Lower(n.prompt), Lower(term))
  }

  /** `newsletters.filter(...)`: the newsletters that match, in their loaded order. */
  function Filter(newsletters: seq<Newsletter>, term: string): (r: seq<Newsletter>)
    ensures |r| <= |newsletters|
    ensures forall n :: n in r <==> n in newsletters && Matches(n, term)
    ensures forall n :: multiset(r)[n] == if Matches(n, term) then multiset(newsletters)[n] else 0
  {
    assert newsletters != [] ==> newsletters == [newsletters[0]] + newsletters[1..];
    if newsletters == [] then []
    else if Matches(newsletters[0], term) then [newsletters[0]] + Filter(newsletters[1..], term)
    else Filter(newsletters[1..], term)
  }

  /** `a` is obtained from `b` by deleting elements, keeping the order of the rest. */
  ghost predicate IsSubsequence<T>(a: seq<T>, b: seq<T>)
    decreases |b|
  {
    || a == []
    || (b != [] && a[0] == b[0] && IsSubsequence(a[1..], b[1..]))
    || (b != [] && IsSubsequence(a, b[1..]))
  }

  /** The filtered list is the loaded list with the non-matching newsletters deleted, order kept. */
  lemma {:induction false} FilterIsSubsequence(newsletters: seq<Newsletter>, term: string)
    ensures IsSubsequence(Filter(newsletters, term), newsletters)
  {
    if newsletters != [] {
      FilterIsSubsequence(newsletters[1..], term);
      var r := Filter(newsletters, term);
      if Matches(newsletters[0], term) {
        assert r[1..] == Filter(newsletters[1..], term);
      }
    }
  }

  /** An empty search term keeps the whole list, in order. */
  lemma {:induction false} FilterEmptyTerm(newsletters: seq<Newsletter>)
    ensures Filter(newsletters, "") == newsletters
  {
    if newsletters != [] {
      ContainsEmpty(Lower(newsletters[0].name));
      FilterEmptyTerm(newsletters[1..]);
    }
  }

  /** Filtering the filtered list again with the same term changes nothing. */
  lemma {:induction false} FilterIdempotent(newsletters: seq<Newsletter>, term: string)
    ensures Filter(Filter(newsletters, term), term) == Filter(newsletters, term)
  {
    if newsletters != [] {
      FilterIdempotent(newsletters[1..], term);
      if Matches(newsletters[0], term) {
        var r := Filter(newsletters, term);
        assert r[0] == newsletters[0] && r[1..] == Filter(newsletters[1..], term);
      }
    }
  }

  /** Search terms that lower-case to the same string select the same newsletters. */
  lemma {:induction false} FilterCaseInsensitive(newsletters: seq<Newsletter>, term1: string, term2: string)
    requires Lower(term1) == Lower(term2)
    ensures Filter(newsletters, term1) == Filter(newsletters, term2)
  {
    if newsletters != [] {
      FilterCaseInsensitive(newsletters[1..], term1, term2);
    }
  }

  /** Lower-casing the term first does not change the result. */
  lemma LowerTermSameFilter(newsletters: seq<Newsletter>, term: string)
    ensures Filter(newsletters, Lower(term)) == Filter(newsletters, term)
  {
    LowerIdempotent(term);
    FilterCaseInsensitive(newsletters, Lower(term), term);
  }

  /** The "No newsletters found" block renders when the filtered list has length 0. */
  predicate ShowsEmptyState(newsletters: seq<Newsletter>, term: string) {
    |Filter(newsletters, term)| == 0
  }

  /** The empty state shows exactly when no loaded newsletter matches the term. */
  lemma EmptyStateIff(newsletters: seq<Newsletter>, term: string)
    ensures ShowsEmptyState(newsletters, term) <==> forall n :: n in newsletters ==> !Matches(n, term)
  {
    if !ShowsEmptyState(newsletters, term) {
      assert Filter(newsletters, term)[0] in Filter(newsletters, term);
    }
  }

  /** What the one fetch on mount delivers: the list, or a failure (network, non-2xx, bad JSON). */
  datatype FetchOutcome = Loaded(newsletters: seq<Newsletter>) | FetchFailed

  /** The list state starts empty and is replaced only by a successful fetch; a failure is only logged. */
  function NewslettersAfterFetch(outcome: FetchOutcome): (r: seq<Newsletter>)
    ensures outcome.Loaded? ==> r == outcome.newsletters
    ensures outcome.FetchFailed? ==> r == []
  {
    match outcome
    case Loaded(ns) => ns
    case FetchFailed => []
  }

  /** After a failed fetch the page shows the empty state whatever the search term. */
  lemma FailedFetchShowsEmptyState(term: string)
    ensures ShowsEmptyState(NewslettersAfterFetch(FetchFailed), term)
  {
  }

  /** What the page shows after the fetch: a loaded list shows in full under the initial empty term,
      and a failed fetch cannot be told apart from a successful fetch of no newsletters. */
  lemma FetchOutcomeShown(ns: seq<Newsletter>, term: string)
    ensures Filter(NewslettersAfterFetch(Loaded(ns)), "") == ns
    ensures Filter(NewslettersAfterFetch(FetchFailed), term) == Filter(NewslettersAfterFetch(Loaded([])), term)
    ensures ShowsEmptyState(NewslettersAfterFetch(FetchFailed), term) == ShowsEmptyState(NewslettersAfterFetch(Loaded([])), term)
  {
    FilterEmptyTerm(ns);
  }

  /** A string that lacks the first character of a non-empty term does not include the term. */
  lemma {:induction false} MissingFirstCharNotContained(s: string, t: string)
    requires t != [] && t[0] !in s
    ensures !Contains(s, t)
    decreases |s|
  {
    if s != [] {
      assert s[0] != t[0];
      MissingFirstCharNotContained(s[1..], t);
    }
  }

  /** The example newsletter of the list view's scenario. */
  function TechWeekly(): (r: Newsletter) {
    Newsletter("1", "Tech Weekly", "AI news", "2024-01-01", 5)
  }

  /** Lower-casing agrees with a given string character by character. */
  lemma LowersTo(s: string, t: string)
    requires |s| == |t|
    requires forall i :: 0 <= i < |s| ==> LowerChar(s[i]) == t[i]
    ensures Lower(s) == t
  {
    var r := Lower(s);
    assert |r| == |t|;
    forall i | 0 <= i < |t| ensures r[i] == t[i] {
      assert r[i] == LowerChar(s[i]);
    }
  }

  lemma TechWeeklyNameLowered()
    ensures Lower("Tech Weekly") == "tech weekly"
  {
    LowersTo("Tech Weekly", "tech weekly");
  }

  lemma TechWeeklyPromptLowered()
    ensures Lower("AI news") == "ai news"
  {
    LowersTo("AI news", "ai news");
  }

  lemma TermsLowered()
    ensures Lower("tech") == "tech"
    ensures Lower("xyz") == "xyz"
  {
    LowersTo("tech", "tech");
    LowersTo("xyz", "xyz");
  }

  /** Filtering a one-element list keeps it exactly when it matches. */
  lemma FilterSingleton(n: Newsletter, term: string)
    ensures Filter([n], term) == if Matches(n, term) then [n] else []
  {
    assert [n][1..] == [];
  }

  lemma TechWeeklyMatchesTech()
    ensures Matches(TechWeekly(), "tech")
  {
    TechWeeklyNameLowered();
    TermsLowered();
    assert Contains("tech weekly", "tech");
  }

  lemma XyzNotInLowered()
    ensures !Contains("tech weekly", "xyz")
    ensures !Contains("ai news", "xyz")
  {
    MissingFirstCharNotContained("tech weekly", "xyz");
    MissingFirstCharNotContained("ai news", "xyz");
  }

  lemma TechWeeklyMissesXyz()
    ensures !Matches(TechWeekly(), "xyz")
  {
    TechWeeklyNameLowered();
    TechWeeklyPromptLowered();
    TermsLowered();
    XyzNotInLowered();
  }

  /** The example list of one newsletter, searched with "tech" and with "xyz". */
  lemma TechWeeklyScenario()
    ensures Filter([TechWeekly()], "tech") == [TechWeekly()]
    ensures Filter([TechWeekly()], "xyz") == []
    ensures ShowsEmptyState([TechWeekly()], "xyz")
  {
    TechWeeklyMatchesTech();
    TechWeeklyMissesXyz();
    FilterSingleton(TechWeekly(), "tech");
    FilterSingleton(TechWeekly(), "xyz");
  }
}
