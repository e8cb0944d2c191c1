/**
 * The system application scanner: how installed applications from several sources are
 * merged into one list, how a search query ranks them, and the name rules that decide
 * validity, icon and category. Registry, file-system and PATH scanning are I/O and arrive
 * here as the lists they produce.
 */
module AppScanner {
  import opened Wrappers
  import opened Text
  import opened Sorting
  import opened OrderedKeys

  datatype SystemApp = SystemApp(name: string, path: string, icon: string, category: string, source: string)

  /** A cache file older than this many seconds is rescanned (seven days). */
  const CacheMaxAge: int := 7 * 24 * 60 * 60

  /** At most this many search results are returned. */
  const MaxResults: nat := 50

  // ---------------------------------------------------------------------------------------
  // Match score
  // ---------------------------------------------------------------------------------------

  /** `idx` lists strictly increasing positions of `s` that spell out `q`. */
  ghost predicate Embeds(q: string, s: string, idx: seq<int>) {
    && |idx| == |q|
    && (forall k :: 0 <= k < |idx| ==> 0 <= idx[k] < |s| && s[idx[k]] == q[k])
    && (forall a, b :: 0 <= a < b < |idx| ==> idx[a] < idx[b])
  }

  /** The characters of `q` occur in `s` in order, not necessarily next to each other. */
  ghost predicate Subsequence(q: string, s: string) {
    exists idx :: Embeds(q, s, idx)
  }

  /** The query starts a word of the name: it follows a space, or opens the name. */
  predicate StartsWord(name: string, query: string) {
    Contains(" " + name + " ", " " + query + " ") || Contains(" " + name, " " + query)
  }

  /**
   * The score of a lower-cased name against a lower-cased query: 1000 for an exact match,
   * 900 for a prefix, 800 for the start of a word, 700 for a substring, otherwise 50 per
   * query character when the query is a subsequence of the name, and 0 when it is not.
   */
  ghost function MatchScore(name: string, query: string): int {
    if query == name then 1000
    else if StartsWith(name, query) then 900
    else if StartsWord(name, query) then 800
    else if Contains(name, query) then 700
    else if Subsequence(query, name) then 50 * |query|
    else 0
  }

  /** If `q` is a subsequence of `s`, the first character of `q` occurs in `s`. */
  lemma FirstCharOccurs(q: string, s: string)
    ensures q != [] && Subsequence(q, s) ==> exists j :: 0 <= j < |s| && s[j] == q[0]
  {
    if q != [] && Subsequence(q, s) {
      var idx :| Embeds(q, s, idx);
      assert s[idx[0]] == q[0];
    }
  }

  /**
   * Greedy matching loses nothing: if `q` is a subsequence of `s` and `i` is the first
   * position holding `q[0]`, the rest of `q` is a subsequence of what follows `i`.
   */
  lemma FirstMatchKeeps(q: string, s: string, i: int)
    requires q != [] && 0 <= i < |s| && s[i] == q[0]
    requires forall j :: 0 <= j < i ==> s[j] != q[0]
    requires Subsequence(q, s)
    ensures Subsequence(q[1..], s[i + 1..])
  {
    var idx :| Embeds(q, s, idx);
    assert s[idx[0]] == q[0];
    assert idx[0] >= i;
    var rest := seq(|q| - 1, k requires 0 <= k < |q| - 1 => idx[k + 1] - (i + 1));
    forall k | 0 <= k < |rest|
      ensures 0 <= rest[k] < |s[i + 1..]| && s[i + 1..][rest[k]] == q[1..][k]
    {
      assert idx[0] < idx[k + 1];
    }
    assert Embeds(q[1..], s[i + 1..], rest);
  }

  /** A substring is a subsequence: its positions are consecutive. */
  lemma SubstringIsSubsequence(name: string, query: string)
    requires Contains(name, query)
    ensures Subsequence(query, name)
  {
    var p :| 0 <= p <= |name| && OccursAt(name, p, query);
    var idx := seq(|query|, k requires 0 <= k < |query| => p + k);
    forall k | 0 <= k < |query| ensures name[idx[k]] == query[k] {
      assert name[p..p + |query|][k] == query[k];
    }
    assert Embeds(query, name, idx);
  }

  /** Starting a word of the name means occurring in the name. */
  lemma StartsWordContains(name: string, query: string)
    requires StartsWord(name, query)
    ensures Contains(name, query)
  {
    if Contains(" " + name + " ", " " + query + " ") {
      var p :| 0 <= p <= |" " + name + " "| && OccursAt(" " + name + " ", p, " " + query + " ");
      forall k | 0 <= k < |query| ensures name[p + k] == query[k] {
        assert (" " + name + " ")[p..p + |query| + 2][k + 1] == (" " + query + " ")[k + 1];
      }
      assert name[p..p + |query|] == query;
      assert OccursAt(name, p, query);
    } else {
      var p :| 0 <= p <= |" " + name| && OccursAt(" " + name, p, " " + query);
      forall k | 0 <= k < |query| ensures name[p + k] == query[k] {
        assert (" " + name)[p..p + |query| + 1][k + 1] == (" " + query)[k + 1];
      }
      assert name[p..p + |query|] == query;
      assert OccursAt(name, p, query);
    }
  }

  /** An app is a search hit exactly when the query is a subsequence of its name. */
  lemma ScorePositiveIffSubsequence(name: string, query: string)
    ensures MatchScore(name, query) > 0 <==> Subsequence(query, name)
  {
    if StartsWith(name, query) {
      StartsWithContains(name, query);
      SubstringIsSubsequence(name, query);
    } else if StartsWord(name, query) {
      StartsWordContains(name, query);
      SubstringIsSubsequence(name, query);
    } else if Contains(name, query) {
      SubstringIsSubsequence(name, query);
    }
  }

  /** `_calculate_match_score`: the tiered tests, then the greedy in-order character scan. */
  method CalculateMatchScore(name: string, query: string) returns (score: int)
    ensures score == MatchScore(name, query)
  {
    if query == name { return 1000; }
    if StartsWith(name, query) { return 900; }
    if StartsWord(name, query) { return 800; }
    if Contains(name, query) { return 700; }
    score := 0;
    var appIdx := 0;
    ghost var idx: seq<int> := [];
    for k := 0 to |query|
      invariant 0 <= appIdx <= |name|
      invariant score == 50 * k
      invariant Embeds(query[..k], name, idx)
      invariant forall t :: 0 <= t < k ==> idx[t] < appIdx
      invariant Subsequence(query, name) ==> Subsequence(query[k..], name[appIdx..])
    {
      // the inner `for i in range(app_idx, len(app_chars))` up to its `break`
      var i := appIdx;
      while i < |name| && name[i] != query[k]
        invariant appIdx <= i <= |name|
        invariant forall j :: appIdx <= j < i ==> name[j] != query[k]
      {
        i := i + 1;
      }
      if i == |name| {
        FirstCharOccurs(query[k..], name[appIdx..]);
        return 0;
      }
      if Subsequence(query, name) {
        FirstMatchKeeps(query[k..], name[appIdx..], i - appIdx);
        assert query[k..][1..] == query[k + 1..];
        assert name[appIdx..][i - appIdx + 1..] == name[i + 1..];
      }
      score := score + 50;
      idx := idx + [i];
      appIdx := i + 1;
      assert query[..k + 1] == query[..k] + [query[k]];
    }
    assert query[..|query|] == query;
    assert Embeds(query, name, idx);
  }

  // ---------------------------------------------------------------------------------------
  // Search
  // ---------------------------------------------------------------------------------------

  datatype Scored = Scored(app: SystemApp, score: int)

  /** `key=lambda x: x[1], reverse=True`: a higher score may come first. */
  predicate ByScore(a: Scored, b: Scored) {
    a.score >= b.score
  }

  /** The apps with a positive score against `query`, in their original order. */
  ghost function Hits(apps: seq<SystemApp>, query: string): seq<Scored> {
    if apps == [] then []
    else
      var last := apps[|apps| - 1];
      var s := MatchScore(Lower(last.name), query);
      Hits(apps[..|apps| - 1], query) + (if s > 0 then [Scored(last, s)] else [])
  }

  /** Every hit is an installed app with its positive score. */
  lemma {:induction false} HitSound(apps: seq<SystemApp>, query: string, k: int)
    requires 0 <= k < |Hits(apps, query)|
    ensures var x := Hits(apps, query)[k];
      x.app in apps && x.score == MatchScore(Lower(x.app.name), query) > 0
    decreases |apps|
  {
    var init := apps[..|apps| - 1];
    var h := Hits(init, query);
    if k < |h| {
      HitSound(init, query, k);
      assert Hits(apps, query)[k] == h[k];
      assert h[k].app in init;
    }
  }

  /** Every installed app with a positive score is a hit. */
  lemma {:induction false} HitComplete(apps: seq<SystemApp>, query: string, a: SystemApp) returns (k: nat)
    requires a in apps && MatchScore(Lower(a.name), query) > 0
    ensures k < |Hits(apps, query)| && Hits(apps, query)[k].app == a
    decreases |apps|
  {
    var init, last := apps[..|apps| - 1], apps[|apps| - 1];
    if a == last {
      k := |Hits(apps, query)| - 1;
    } else {
      assert apps == init + [last];
      k := HitComplete(init, query, a);
      assert Hits(apps, query)[k] == Hits(init, query)[k];
    }
  }

  function AppsOf(ranked: seq<Scored>): (r: seq<SystemApp>)
    ensures |r| == |ranked| && forall i :: 0 <= i < |r| ==> r[i] == ranked[i].app
  {
    seq(|ranked|, i requires 0 <= i < |ranked| => ranked[i].app)
  }

  /** The hits ranked by score, ties in their original order. */
  ghost function Ranked(apps: seq<SystemApp>, query: string): seq<Scored> {
    SortBy(Hits(apps, Lower(query)), ByScore)
  }

  /** `search_apps`: every app for an empty query, else the best `MaxResults` hits. */
  ghost function SearchResult(apps: seq<SystemApp>, query: string): seq<SystemApp> {
    if query == [] then apps
    else
      var ranked := Ranked(apps, query);
      AppsOf(if |ranked| <= MaxResults then ranked else ranked[..MaxResults])
  }

  lemma ByScorePreorder()
    ensures TotalPreorder(ByScore)
  {
  }

  method SearchApps(apps: seq<SystemApp>, query: string) returns (r: seq<SystemApp>)
    ensures r == SearchResult(apps, query)
  {
    if query == [] {
      return apps;
    }
    var q := Lower(query);
    var scored: seq<Scored> := [];
    for i := 0 to |apps|
      invariant scored == Hits(apps[..i], q)
    {
      var s := CalculateMatchScore(Lower(apps[i].name), q);
      if s > 0 {
        scored := scored + [Scored(apps[i], s)];
      }
      assert apps[..i + 1][..i] == apps[..i];
    }
    assert apps[..|apps|] == apps;
    var ranked := SortBy(scored, ByScore);
    r := AppsOf(if |ranked| <= MaxResults then ranked else ranked[..MaxResults]);
  }

  /** The ranked hits are the hits rearranged. */
  lemma RankedPermutes(apps: seq<SystemApp>, query: string)
    ensures multiset(Ranked(apps, query)) == multiset(Hits(apps, Lower(query)))
    ensures |Ranked(apps, query)| == |Hits(apps, Lower(query))|
  {
    SortByPermutation(Hits(apps, Lower(query)), ByScore);
  }

  /** Each ranked entry is a hit: an installed app with its positive score. */
  lemma RankedAt(apps: seq<SystemApp>, query: string, i: int)
    requires 0 <= i < |Ranked(apps, query)|
    ensures var x := Ranked(apps, query)[i];
      x.app in apps && x.score == MatchScore(Lower(x.app.name), Lower(query)) > 0
  {
    var hits := Hits(apps, Lower(query));
    RankedPermutes(apps, query);
    var k := IndexInPermutation(Ranked(apps, query), hits, i);
    HitSound(apps, Lower(query), k);
  }

  /** Each hit has a place among the ranked entries. */
  lemma HitRanked(apps: seq<SystemApp>, query: string, k: int) returns (m: nat)
    requires 0 <= k < |Hits(apps, Lower(query))|
    ensures m < |Ranked(apps, query)| && Ranked(apps, query)[m] == Hits(apps, Lower(query))[k]
  {
    RankedPermutes(apps, query);
    m := IndexInPermutation(Hits(apps, Lower(query)), Ranked(apps, query), k);
  }

  /** The ranked entries come in non-increasing order of score. */
  lemma RankedSorted(apps: seq<SystemApp>, query: string)
    ensures Sorted(Ranked(apps, query), ByScore)
  {
    ByScorePreorder();
    SortBySorted(Hits(apps, Lower(query)), ByScore);
  }

  /** A non-empty query returns the apps of the first `MaxResults` ranked entries. */
  lemma SearchResultIsRanked(apps: seq<SystemApp>, query: string)
    requires query != []
    ensures var r, ranked := SearchResult(apps, query), Ranked(apps, query);
      && |r| == (if |ranked| <= MaxResults then |ranked| else MaxResults)
      && forall i :: 0 <= i < |r| ==> r[i] == ranked[i].app
  {
  }

  /**
   * A search for a non-empty query returns the hits, at most `MaxResults` of them: apps of
   * the installed list whose lower-cased name holds the query as a subsequence.
   */
  lemma SearchReturnsHits(apps: seq<SystemApp>, query: string)
    requires query != []
    ensures var r := SearchResult(apps, query); var n := |Hits(apps, Lower(query))|;
      && |r| == (if n <= MaxResults then n else MaxResults)
      && forall i :: 0 <= i < |r| ==> r[i] in apps && Subsequence(Lower(query), Lower(r[i].name))
  {
    var r := SearchResult(apps, query);
    RankedPermutes(apps, query);
    SearchResultIsRanked(apps, query);
    forall i | 0 <= i < |r| ensures r[i] in apps && Subsequence(Lower(query), Lower(r[i].name)) {
      RankedAt(apps, query, i);
      ScorePositiveIffSubsequence(Lower(r[i].name), Lower(query));
    }
  }

  /** The results come in non-increasing order of their match score. */
  lemma SearchOrdered(apps: seq<SystemApp>, query: string)
    requires query != []
    ensures var r := SearchResult(apps, query);
      forall i, j :: 0 <= i < j < |r| ==>
        MatchScore(Lower(r[i].name), Lower(query)) >= MatchScore(Lower(r[j].name), Lower(query))
  {
    var ranked := Ranked(apps, query);
    var r := SearchResult(apps, query);
    SearchResultIsRanked(apps, query);
    RankedSorted(apps, query);
    forall i, j | 0 <= i < j < |r|
      ensures MatchScore(Lower(r[i].name), Lower(query)) >= MatchScore(Lower(r[j].name), Lower(query))
    {
      RankedAt(apps, query, i);
      RankedAt(apps, query, j);
      assert ByScore(ranked[i], ranked[j]);
    }
  }

  /** When there are at most `MaxResults` hits, every hit is returned. */
  lemma SearchComplete(apps: seq<SystemApp>, query: string)
    requires query != [] && |Hits(apps, Lower(query))| <= MaxResults
    ensures forall a :: a in apps && Subsequence(Lower(query), Lower(a.name)) ==> a in SearchResult(apps, query)
  {
    var hits := Hits(apps, Lower(query));
    var r := SearchResult(apps, query);
    RankedPermutes(apps, query);
    SearchResultIsRanked(apps, query);
    forall a | a in apps && Subsequence(Lower(query), Lower(a.name)) ensures a in r {
      ScorePositiveIffSubsequence(Lower(a.name), Lower(query));
      var k := HitComplete(apps, Lower(query), a);
      var m := HitRanked(apps, query, k);
      assert r[m] == a;
    }
  }

  /** Apps with equal scores keep the order in which the scan listed them. */
  lemma SearchTiesKeepOrder(apps: seq<SystemApp>, query: string, v: Scored)
    ensures Equivalents(Ranked(apps, query), v, ByScore) == Equivalents(Hits(apps, Lower(query)), v, ByScore)
  {
    ByScorePreorder();
    SortByStable(Hits(apps, Lower(query)), v, ByScore);
  }

  // ---------------------------------------------------------------------------------------
  // Merging the scanned sources
  // ---------------------------------------------------------------------------------------

  /** `apps_dict`: entries keyed by lower-cased path, with their insertion order. */
  datatype AppDict = AppDict(entries: map<string, SystemApp>, order: seq<string>)

  function Key(app: SystemApp): string {
    Lower(app.path)
  }

  /** The order lists the keys, and each entry sits under its own lower-cased path. */
  ghost predicate WellKeyed(d: AppDict) {
    Mirrors(d.order, d.entries) && forall k :: k in d.entries ==> Key(d.entries[k]) == k
  }

  /** The lower-cased paths of `apps`. */
  ghost function KeysOf(apps: seq<SystemApp>): set<string> {
    set a | a in apps :: Key(a)
  }

  /** `apps_dict[app.path.lower()] = app` */
  function Assign(d: AppDict, app: SystemApp): (r: AppDict)
    requires Distinct(d.order)
  {
    AppDict(d.entries[Key(app) := app], Put(d.order, Key(app)))
  }

  lemma AssignWellKeyed(d: AppDict, app: SystemApp)
    requires WellKeyed(d)
    ensures WellKeyed(Assign(d, app))
  {
  }

  /** The registry pass: every app is stored, a later one replacing an earlier one. */
  function AssignAll(d: AppDict, apps: seq<SystemApp>): (r: AppDict)
    requires WellKeyed(d)
    ensures WellKeyed(r)
  {
    if apps == [] then d
    else
      var m := AssignAll(d, apps[..|apps| - 1]);
      AssignWellKeyed(m, apps[|apps| - 1]);
      Assign(m, apps[|apps| - 1])
  }

  /** The later passes: an app is stored only when its path is not yet present. */
  function AddMissing(d: AppDict, apps: seq<SystemApp>): (r: AppDict)
    requires WellKeyed(d)
    ensures WellKeyed(r)
  {
    if apps == [] then d
    else
      var m := AddMissing(d, apps[..|apps| - 1]);
      AssignWellKeyed(m, apps[|apps| - 1]);
      if Key(apps[|apps| - 1]) in m.entries then m else Assign(m, apps[|apps| - 1])
  }

  /** One more app for the registry pass. */
  lemma AssignAllSnoc(d: AppDict, apps: seq<SystemApp>, i: nat)
    requires WellKeyed(d) && i < |apps|
    ensures WellKeyed(AssignAll(d, apps[..i]))
    ensures AssignAll(d, apps[..i + 1]) == Assign(AssignAll(d, apps[..i]), apps[i])
  {
    assert apps[..i + 1][..i] == apps[..i];
  }

  /** One more app for a later pass. */
  lemma AddMissingSnoc(d: AppDict, apps: seq<SystemApp>, i: nat)
    requires WellKeyed(d) && i < |apps|
    ensures WellKeyed(AddMissing(d, apps[..i]))
    ensures var m := AddMissing(d, apps[..i]);
      AddMissing(d, apps[..i + 1]) == if Key(apps[i]) in m.entries then m else Assign(m, apps[i])
  {
    assert apps[..i + 1][..i] == apps[..i];
  }

  lemma KeysOfSnoc(apps: seq<SystemApp>)
    requires apps != []
    ensures KeysOf(apps) == KeysOf(apps[..|apps| - 1]) + {Key(apps[|apps| - 1])}
  {
    assert forall a :: a in apps <==> a in apps[..|apps| - 1] || a == apps[|apps| - 1];
  }

  /** The registry pass ends with the keys it started with plus the paths of the apps. */
  lemma {:induction false} AssignAllKeys(d: AppDict, apps: seq<SystemApp>)
    requires WellKeyed(d)
    ensures AssignAll(d, apps).entries.Keys == d.entries.Keys + KeysOf(apps)
    decreases |apps|
  {
    if apps != [] {
      AssignAllKeys(d, apps[..|apps| - 1]);
      KeysOfSnoc(apps);
    }
  }

  /** So does each pass that only adds missing paths. */
  lemma {:induction false} AddMissingKeys(d: AppDict, apps: seq<SystemApp>)
    requires WellKeyed(d)
    ensures AddMissing(d, apps).entries.Keys == d.entries.Keys + KeysOf(apps)
    decreases |apps|
  {
    if apps != [] {
      AddMissingKeys(d, apps[..|apps| - 1]);
      KeysOfSnoc(apps);
    }
  }

  /** No later app of `apps` shares the path of `apps[i]`. */
  ghost predicate LastWithPath(apps: seq<SystemApp>, i: int)
    requires 0 <= i < |apps|
  {
    forall j :: i < j < |apps| ==> Key(apps[j]) != Key(apps[i])
  }

  /** No earlier app of `apps` shares the path of `apps[i]`. */
  ghost predicate FirstWithPath(apps: seq<SystemApp>, i: int)
    requires 0 <= i < |apps|
  {
    forall j :: 0 <= j < i ==> Key(apps[j]) != Key(apps[i])
  }

  /** In the registry pass, paths that no app has keep their entry. */
  lemma {:induction false} AssignAllKeepsOthers(d: AppDict, apps: seq<SystemApp>)
    requires WellKeyed(d)
    ensures var r := AssignAll(d, apps);
      forall k :: k in d.entries && k !in KeysOf(apps) ==> k in r.entries && r.entries[k] == d.entries[k]
    decreases |apps|
  {
    if apps != [] {
      var init, last := apps[..|apps| - 1], apps[|apps| - 1];
      AssignAllKeepsOthers(d, init);
      KeysOfSnoc(apps);
      assert AssignAll(d, apps).entries == AssignAll(d, init).entries[Key(last) := last];
    }
  }

  /** In the registry pass the last app with a path is the one stored under it. */
  lemma {:induction false} AssignAllLastWins(d: AppDict, apps: seq<SystemApp>)
    requires WellKeyed(d)
    ensures var r := AssignAll(d, apps);
      forall i :: 0 <= i < |apps| && LastWithPath(apps, i) ==> Key(apps[i]) in r.entries && r.entries[Key(apps[i])] == apps[i]
    decreases |apps|
  {
    if apps != [] {
      var init, last := apps[..|apps| - 1], apps[|apps| - 1];
      var m := AssignAll(d, init);
      var r := AssignAll(d, apps);
      assert r.entries == m.entries[Key(last) := last];
      AssignAllLastWins(d, init);
      forall i | 0 <= i < |init| && LastWithPath(apps, i)
        ensures Key(apps[i]) in r.entries && r.entries[Key(apps[i])] == apps[i]
      {
        LastWithPathInInit(apps, i);
        assert init[i] == apps[i];
      }
    }
  }

  lemma LastWithPathInInit(apps: seq<SystemApp>, i: int)
    requires 0 <= i < |apps| - 1 && LastWithPath(apps, i)
    ensures LastWithPath(apps[..|apps| - 1], i) && Key(apps[|apps| - 1]) != Key(apps[i])
  {
    var init := apps[..|apps| - 1];
    forall j | i < j < |init| ensures Key(init[j]) != Key(init[i]) {
      assert init[j] == apps[j];
    }
  }

  /** The first app with a path finds that path absent from the apps before it. */
  lemma FirstPathIsNew(apps: seq<SystemApp>, i: int)
    requires 0 <= i < |apps| && FirstWithPath(apps, i)
    ensures Key(apps[i]) !in KeysOf(apps[..i])
  {
    forall a | a in apps[..i] ensures Key(a) != Key(apps[i]) {
      var j :| 0 <= j < i && apps[..i][j] == a;
    }
  }

  /** A later pass never replaces an entry that is already present. */
  lemma {:induction false} AddMissingKeeps(d: AppDict, apps: seq<SystemApp>)
    requires WellKeyed(d)
    ensures var r := AddMissing(d, apps);
      forall k :: k in d.entries ==> k in r.entries && r.entries[k] == d.entries[k]
    decreases |apps|
  {
    if apps != [] {
      AddMissingKeeps(d, apps[..|apps| - 1]);
    }
  }

  /** In a later pass a new path gets the first app that has it. */
  lemma AddMissingFirst(d: AppDict, apps: seq<SystemApp>)
    requires WellKeyed(d)
    ensures var r := AddMissing(d, apps);
      forall i :: 0 <= i < |apps| && Key(apps[i]) !in d.entries && FirstWithPath(apps, i) ==>
        Key(apps[i]) in r.entries && r.entries[Key(apps[i])] == apps[i]
  {
    forall i | 0 <= i < |apps| && Key(apps[i]) !in d.entries && FirstWithPath(apps, i)
      ensures var r := AddMissing(d, apps); Key(apps[i]) in r.entries && r.entries[Key(apps[i])] == apps[i]
    {
      AddMissingFirstAt(d, apps, i);
    }
  }

  lemma {:induction false} AddMissingFirstAt(d: AppDict, apps: seq<SystemApp>, i: int)
    requires WellKeyed(d) && 0 <= i < |apps| && Key(apps[i]) !in d.entries && FirstWithPath(apps, i)
    ensures var r := AddMissing(d, apps); Key(apps[i]) in r.entries && r.entries[Key(apps[i])] == apps[i]
    decreases |apps|
  {
    if i == |apps| - 1 {
      AddMissingNewLast(d, apps);
    } else {
      var init := apps[..|apps| - 1];
      FirstWithPathInInit(apps, i);
      assert init[i] == apps[i];
      AddMissingFirstAt(d, init, i);
      AddMissingGrows(d, apps);
    }
  }

  /** One more app never removes or replaces an entry of the pass so far. */
  lemma AddMissingGrows(d: AppDict, apps: seq<SystemApp>)
    requires WellKeyed(d) && apps != []
    ensures var m := AddMissing(d, apps[..|apps| - 1]); var r := AddMissing(d, apps);
      forall k :: k in m.entries ==> k in r.entries && r.entries[k] == m.entries[k]
  {
  }

  /** The last app, first with its path and absent from `d`, is stored under its path. */
  lemma AddMissingNewLast(d: AppDict, apps: seq<SystemApp>)
    requires WellKeyed(d) && apps != []
    requires Key(apps[|apps| - 1]) !in d.entries && FirstWithPath(apps, |apps| - 1)
    ensures var r := AddMissing(d, apps);
      Key(apps[|apps| - 1]) in r.entries && r.entries[Key(apps[|apps| - 1])] == apps[|apps| - 1]
  {
    var init := apps[..|apps| - 1];
    FirstPathIsNew(apps, |apps| - 1);
    AddMissingKeys(d, init);
    assert Key(apps[|apps| - 1]) !in AddMissing(d, init).entries;
  }

  lemma FirstWithPathInInit(apps: seq<SystemApp>, i: int)
    requires 0 <= i < |apps| - 1 && FirstWithPath(apps, i)
    ensures FirstWithPath(apps[..|apps| - 1], i)
  {
    var init := apps[..|apps| - 1];
    forall j | 0 <= j < i ensures Key(init[j]) != Key(init[i]) {
      assert init[j] == apps[j];
    }
  }

  /** `apps_dict.values()`, in insertion order. */
  function Values(d: AppDict): (r: seq<SystemApp>)
    requires WellKeyed(d)
    ensures |r| == |d.order| && forall i :: 0 <= i < |r| ==> r[i] == d.entries[d.order[i]]
  {
    seq(|d.order|, i requires 0 <= i < |d.order| => d.entries[d.order[i]])
  }

  /** `key=lambda x: x.name.lower()` */
  predicate ByName(a: SystemApp, b: SystemApp) {
    StrLe(Lower(a.name), Lower(b.name))
  }

  lemma ByNamePreorder()
    ensures TotalPreorder(ByName)
  {
    forall a: SystemApp, b: SystemApp ensures ByName(a, b) || ByName(b, a) {
      StrLeTotal(Lower(a.name), Lower(b.name));
    }
    forall a: SystemApp, b: SystemApp, c: SystemApp | ByName(a, b) && ByName(b, c) ensures ByName(a, c) {
      StrLeTransitive(Lower(a.name), Lower(b.name), Lower(c.name));
    }
  }

  const EmptyDict := AppDict(map[], [])

  /** The dictionary after the registry, program-directory, PATH and system passes. */
  ghost function MergedDict(registry: seq<SystemApp>, programs: seq<SystemApp>,
                            pathApps: seq<SystemApp>, system: seq<SystemApp>): (d: AppDict)
    ensures WellKeyed(d)
  {
    assert WellKeyed(EmptyDict);
    AddMissing(AddMissing(AddMissing(AssignAll(EmptyDict, registry), programs), pathApps), system)
  }

  /** The scanned list: the merged entries sorted by lower-cased name. */
  ghost function Merged(registry: seq<SystemApp>, programs: seq<SystemApp>,
                        pathApps: seq<SystemApp>, system: seq<SystemApp>): seq<SystemApp> {
    SortBy(Values(MergedDict(registry, programs, pathApps, system)), ByName)
  }

  predicate UniquePaths(apps: seq<SystemApp>) {
    forall i, j :: 0 <= i < j < |apps| ==> Key(apps[i]) != Key(apps[j])
  }

  lemma InsertKeepsUniquePaths(s: seq<SystemApp>, x: SystemApp)
    requires UniquePaths(s) && forall e :: e in s ==> Key(e) != Key(x)
    ensures UniquePaths(Insert(s, x, ByName))
  {
    var p := Position(s, x, ByName);
    InsertSplits(s, x, ByName);
    var r := Insert(s, x, ByName);
    forall i, j | 0 <= i < j < |r| ensures Key(r[i]) != Key(r[j]) {
      if i == p { assert r[j] == s[j - 1]; }
      else if j == p { assert r[i] == s[i]; }
      else if j < p { assert r[i] == s[i] && r[j] == s[j]; }
      else if i < p { assert r[i] == s[i] && r[j] == s[j - 1]; }
      else { assert r[i] == s[i - 1] && r[j] == s[j - 1]; }
    }
  }

  lemma {:induction false} SortKeepsUniquePaths(s: seq<SystemApp>)
    requires UniquePaths(s)
    ensures UniquePaths(SortBy(s, ByName))
    decreases |s|
  {
    if s != [] {
      var init, last := s[..|s| - 1], s[|s| - 1];
      SortKeepsUniquePaths(init);
      SortByPermutation(init, ByName);
      forall e | e in SortBy(init, ByName) ensures Key(e) != Key(last) {
        assert e in multiset(init);
        var m :| 0 <= m < |init| && init[m] == e;
      }
      InsertKeepsUniquePaths(SortBy(init, ByName), last);
    }
  }

  /** The merged list holds one app per lower-cased path. */
  lemma MergedUniquePaths(registry: seq<SystemApp>, programs: seq<SystemApp>,
                          pathApps: seq<SystemApp>, system: seq<SystemApp>)
    ensures UniquePaths(Merged(registry, programs, pathApps, system))
  {
    var d := MergedDict(registry, programs, pathApps, system);
    var vs := Values(d);
    forall i, j | 0 <= i < j < |vs| ensures Key(vs[i]) != Key(vs[j]) {
      assert Key(vs[i]) == d.order[i] && Key(vs[j]) == d.order[j];
    }
    SortKeepsUniquePaths(vs);
  }

  /** The merged list is ordered by lower-cased name. */
  lemma MergedSortedByName(registry: seq<SystemApp>, programs: seq<SystemApp>,
                           pathApps: seq<SystemApp>, system: seq<SystemApp>)
    ensures Sorted(Merged(registry, programs, pathApps, system), ByName)
  {
    ByNamePreorder();
    SortBySorted(Values(MergedDict(registry, programs, pathApps, system)), ByName);
  }

  /** After the four passes the dictionary holds the paths of all four sources. */
  lemma MergedDictKeys(registry: seq<SystemApp>, programs: seq<SystemApp>,
                       pathApps: seq<SystemApp>, system: seq<SystemApp>)
    ensures MergedDict(registry, programs, pathApps, system).entries.Keys
         == KeysOf(registry) + KeysOf(programs) + KeysOf(pathApps) + KeysOf(system)
  {
    assert WellKeyed(EmptyDict);
    var d1 := AssignAll(EmptyDict, registry);
    var d2 := AddMissing(d1, programs);
    var d3 := AddMissing(d2, pathApps);
    var d4 := AddMissing(d3, system);
    assert MergedDict(registry, programs, pathApps, system) == d4;
    AssignAllKeys(EmptyDict, registry);
    AddMissingKeys(d1, programs);
    AddMissingKeys(d2, pathApps);
    AddMissingKeys(d3, system);
    assert d1.entries.Keys == KeysOf(registry);
    assert d4.entries.Keys == KeysOf(registry) + KeysOf(programs) + KeysOf(pathApps) + KeysOf(system);
  }

  /** The values of a well-keyed dictionary carry exactly its keys as paths. */
  lemma ValuesKeys(d: AppDict)
    requires WellKeyed(d)
    ensures KeysOf(Values(d)) == d.entries.Keys
  {
    var vs := Values(d);
    forall k | k in d.entries ensures k in KeysOf(vs) {
      var i :| 0 <= i < |d.order| && d.order[i] == k;
      assert vs[i] in vs;
    }
  }

  /** Sorting keeps the set of paths. */
  lemma SortKeepsKeys(vs: seq<SystemApp>)
    ensures KeysOf(SortBy(vs, ByName)) == KeysOf(vs)
  {
    SortByPermutation(vs, ByName);
    assert forall a :: a in SortBy(vs, ByName) <==> a in multiset(vs);
  }

  lemma KeysOfConcat(a: seq<SystemApp>, b: seq<SystemApp>)
    ensures KeysOf(a + b) == KeysOf(a) + KeysOf(b)
  {
    assert forall x :: x in a + b <==> x in a || x in b;
  }

  /** The merged list holds exactly the paths found by the four scans. */
  lemma MergedPaths(registry: seq<SystemApp>, programs: seq<SystemApp>,
                    pathApps: seq<SystemApp>, system: seq<SystemApp>)
    ensures KeysOf(Merged(registry, programs, pathApps, system)) == KeysOf(registry + programs + pathApps + system)
  {
    var d := MergedDict(registry, programs, pathApps, system);
    MergedDictKeys(registry, programs, pathApps, system);
    ValuesKeys(d);
    SortKeepsKeys(Values(d));
    KeysOfConcat(registry, programs);
    KeysOfConcat(registry + programs, pathApps);
    KeysOfConcat(registry + programs + pathApps, system);
  }

  /**
   * Earlier sources win: an app of the registry is the last registry entry with its path;
   * an app from the program directories whose path the registry lacks is the first such
   * entry, and no later source replaces either.
   */
  lemma MergedPriority(registry: seq<SystemApp>, programs: seq<SystemApp>,
                       pathApps: seq<SystemApp>, system: seq<SystemApp>)
    ensures var d := MergedDict(registry, programs, pathApps, system);
      && (forall i :: 0 <= i < |registry| && LastWithPath(registry, i) ==>
            Key(registry[i]) in d.entries && d.entries[Key(registry[i])] == registry[i])
      && (forall i :: 0 <= i < |programs| && Key(programs[i]) !in KeysOf(registry) && FirstWithPath(programs, i) ==>
            Key(programs[i]) in d.entries && d.entries[Key(programs[i])] == programs[i])
  {
    assert WellKeyed(EmptyDict);
    var d1 := AssignAll(EmptyDict, registry);
    var d2 := AddMissing(d1, programs);
    var d3 := AddMissing(d2, pathApps);
    AssignAllKeys(EmptyDict, registry);
    AddMissingKeys(d1, programs);
    AddMissingKeys(d2, pathApps);
    AssignAllLastWins(EmptyDict, registry);
    AddMissingFirst(d1, programs);
    AddMissingKeeps(d1, programs);
    AddMissingKeeps(d2, pathApps);
    AddMissingKeeps(d3, system);
  }

  // ---------------------------------------------------------------------------------------
  // Name rules
  // ---------------------------------------------------------------------------------------

  const SkipWords: seq<string> :=
    ["uninstall", "setup", "installer", "updater", "helper",
     "service", "background", "crash", "error", "debug"]

  /** `_is_valid_app`, with `_app_exists(app.path)` as `pathExists`. */
  function IsValidApp(app: SystemApp, pathExists: bool): (r: bool)
    ensures r <==> pathExists && |app.name| >= 3 && forall w :: w in SkipWords ==> !Contains(Lower(app.name), w)
  {
    if !pathExists then false
    else if exists i :: 0 <= i < |SkipWords| && Contains(Lower(app.name), SkipWords[i]) then false
    else |app.name| >= 3
  }

  const IconTable: seq<(seq<string>, string)> := [
    (["notepad"], "📝"), (["wordpad"], "📝"), (["word"], "📄"), (["write"], "📝"),
    (["code"], "💻"), (["visual studio"], "💻"), (["atom"], "💻"), (["sublime"], "💻"),
    (["chrome"], "🌐"), (["firefox"], "🌐"), (["edge"], "🌐"), (["opera"], "🌐"),
    (["brave"], "🌐"), (["safari"], "🌐"), (["internet explorer"], "🌐"),
    (["vlc"], "🎬"), (["media player"], "🎬"), (["spotify"], "🎵"), (["itunes"], "🎵"),
    (["audacity"], "🎵"), (["photoshop"], "🎨"), (["gimp"], "🎨"), (["paint"], "🎨"),
    (["excel"], "📊"), (["powerpoint"], "📊"), (["outlook"], "📧"), (["teams"], "💬"),
    (["slack"], "💬"), (["discord"], "💬"), (["zoom"], "📹"), (["skype"], "📹"),
    (["git"], "🔧"), (["github"], "🔧"), (["npm"], "📦"), (["node"], "🟢"),
    (["python"], "🐍"), (["java"], "☕"), (["docker"], "🐳"),
    (["cmd"], "💻"), (["powershell"], "💻"), (["terminal"], "💻"),
    (["task manager"], "⚙️"), (["registry"], "⚙️"), (["regedit"], "⚙️"),
    (["explorer"], "📁"), (["file manager"], "📁"),
    (["calculator"], "🔢"), (["calc"], "🔢"), (["notepad++"], "📝"),
    (["7-zip"], "📦"), (["winrar"], "📦"), (["zip"], "📦"),
    (["steam"], "🎮"), (["origin"], "🎮"), (["epic"], "🎮")
  ]

  const CategoryTable: seq<(seq<string>, string)> := [
    (["notepad", "wordpad", "word", "write", "code", "visual studio", "atom", "sublime", "vim", "emacs"], "Text Editors"),
    (["chrome", "firefox", "edge", "opera", "brave", "safari", "internet explorer", "browser"], "Web Browsers"),
    (["vlc", "media player", "spotify", "itunes", "audacity", "photoshop", "gimp", "paint"], "Media"),
    (["excel", "powerpoint", "outlook", "teams", "slack", "discord", "zoom", "skype", "office"], "Office"),
    (["git", "github", "npm", "node", "python", "java", "docker", "visual studio", "code"], "Development"),
    (["cmd", "powershell", "terminal", "task manager", "registry", "regedit", "explorer", "control panel"], "System"),
    (["calculator", "calc", "7-zip", "winrar", "zip", "utility"], "Utilities"),
    (["steam", "origin", "epic", "game", "gaming"], "Games"),
    (["photoshop", "gimp", "paint", "illustrator", "inkscape", "blender"], "Graphics")
  ]

  /**
   * `_get_app_icon`: the icon of the first key, in the dictionary's order, that occurs in
   * the lower-cased name, else the default.
   */
  function AppIcon(name: string): (r: string)
    ensures forall i :: (0 <= i < |IconTable| && AnyOccurs(IconTable[i].0, Lower(name))
              && forall j :: 0 <= j < i ==> !AnyOccurs(IconTable[j].0, Lower(name))) ==> r == IconTable[i].1
    ensures (forall i :: 0 <= i < |IconTable| ==> !AnyOccurs(IconTable[i].0, Lower(name))) ==> r == "📱"
  {
    FirstHit(IconTable, Lower(name), "📱")
  }

  /**
   * `_categorize_app`: the first category, in the dictionary's order, with a keyword in the
   * lower-cased name, else "Other".
   */
  function Categorize(name: string): (r: string)
    ensures forall i :: (0 <= i < |CategoryTable| && AnyOccurs(CategoryTable[i].0, Lower(name))
              && forall j :: 0 <= j < i ==> !AnyOccurs(CategoryTable[j].0, Lower(name))) ==> r == CategoryTable[i].1
    ensures (forall i :: 0 <= i < |CategoryTable| ==> !AnyOccurs(CategoryTable[i].0, Lower(name))) ==> r == "Other"
  {
    FirstHit(CategoryTable, Lower(name), "Other")
  }

  /** Icon and category fall back to their defaults when no keyword occurs. */
  lemma NameRuleDefaults(name: string)
    ensures (forall i :: 0 <= i < |IconTable| ==> !AnyOccurs(IconTable[i].0, Lower(name))) ==> AppIcon(name) == "📱"
    ensures (forall i :: 0 <= i < |CategoryTable| ==> !AnyOccurs(CategoryTable[i].0, Lower(name))) ==> Categorize(name) == "Other"
  {
  }

  /**
   * A name with "code" in it is filed under Text Editors, never Development: the earlier
   * entry of the category table wins.
   */
  lemma CodeIsATextEditor(name: string)
    requires Contains(Lower(name), "code")
    ensures Categorize(name) == "Text Editors"
  {
    assert CategoryTable[0].0[4] == "code";
    AnyOccursMeaning(CategoryTable[0].0, Lower(name));
  }

  // ---------------------------------------------------------------------------------------
  // The scanner object
  // ---------------------------------------------------------------------------------------

  /**
   * `_should_refresh_cache`: `cacheAge` is `time.time()` minus the file's modification time,
   * `None` when reading it raises.
   */
  function ShouldRefreshCache(fileExists: bool, cacheAge: Option<real>): (r: bool)
    ensures !r <==> fileExists && cacheAge.Some? && cacheAge.value <= CacheMaxAge as real
  {
    if !fileExists then true
    else match cacheAge
      case None => true
      case Some(age) => age > CacheMaxAge as real
  }

  class SystemAppScanner {
    var cachedApps: seq<SystemApp>

    constructor()
      ensures cachedApps == []
    {
      cachedApps := [];
    }

    /** The registry loop of `_scan_system_apps`. */
    static method StoreAll(d: AppDict, apps: seq<SystemApp>) returns (r: AppDict)
      requires WellKeyed(d)
      ensures r == AssignAll(d, apps)
    {
      r := d;
      for i := 0 to |apps|
        invariant r == AssignAll(d, apps[..i])
      {
        AssignAllSnoc(d, apps, i);
        r := Assign(r, apps[i]);
      }
      assert apps[..|apps|] == apps;
    }

    /** One of the later loops of `_scan_system_apps`. */
    static method StoreMissing(d: AppDict, apps: seq<SystemApp>) returns (r: AppDict)
      requires WellKeyed(d)
      ensures r == AddMissing(d, apps)
    {
      r := d;
      for i := 0 to |apps|
        invariant r == AddMissing(d, apps[..i])
      {
        AddMissingSnoc(d, apps, i);
        if Key(apps[i]) !in r.entries {
          r := Assign(r, apps[i]);
        }
      }
      assert apps[..|apps|] == apps;
    }

    /** `_scan_system_apps`, given what the four scans return; saving the cache is left out. */
    method ScanSystemApps(registry: seq<SystemApp>, programs: seq<SystemApp>,
                          pathApps: seq<SystemApp>, system: seq<SystemApp>)
      modifies this
      ensures cachedApps == Merged(registry, programs, pathApps, system)
    {
      assert WellKeyed(EmptyDict);
      var d := StoreAll(EmptyDict, registry);
      d := StoreMissing(d, programs);
      d := StoreMissing(d, pathApps);
      d := StoreMissing(d, system);
      cachedApps := SortBy(Values(d), ByName);
    }
  }
}
