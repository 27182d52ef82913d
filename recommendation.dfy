/** Personalised video topics (src/services/recommendationService.js): recency-weighted topic
    scores over the user's recent interactions, the four heaviest topics, and their mapping
    onto video categories by substring match, with a fixed default list. Scores are kept as
    an association list in the order keys were first written, as `Object.entries` lists
    them. */
module Recommendations {
  import opened Wrappers
  import opened Lists
  import opened Text
  import opened Interactions

  const DefaultTopics: seq<string> := ["Web Development", "Python", "AI", "React"]
  const TopCount: nat := 4

  /** `getDefaultTopics`. */
  function GetDefaultTopics(): (r: seq<string>)
    ensures |r| == TopCount && r[0] == "Web Development" && r[3] == "React"
  {
    DefaultTopics
  }

  /** A score table: keys in the order they were first written, and their scores. */
  datatype Scores = Scores(order: seq<string>, weight: map<string, real>)

  /** Each key is listed once, and exactly the scored keys are listed. */
  ghost predicate Valid(s: Scores) {
    && (forall i, j :: 0 <= i < j < |s.order| ==> s.order[i] != s.order[j])
    && (forall k :: k in s.weight <==> k in s.order)
  }

  predicate AllAtLeast(s: Scores, v: real) {
    forall k :: k in s.weight ==> s.weight[k] >= v
  }

  const NoScores := Scores([], map[])

  /** `scores[k] = (scores[k] || 0) + x`: an existing key keeps its place, a new one goes
      last. */
  function AddTo(s: Scores, k: string, x: real): (r: Scores)
    requires Valid(s)
    ensures Valid(r) && k in r.weight
    ensures r.weight[k] == if k in s.weight then s.weight[k] + x else x
    ensures r.order == if k in s.weight then s.order else s.order + [k]
    ensures forall j :: j in s.weight && j != k ==> j in r.weight && r.weight[j] == s.weight[j]
  {
    if k in s.weight then Scores(s.order, s.weight[k := s.weight[k] + x])
    else Scores(s.order + [k], s.weight[k := x])
  }

  /** `scores[k] = x`: an existing key keeps its place, a new one goes last. */
  function SetTo(s: Scores, k: string, x: real): (r: Scores)
    requires Valid(s)
    ensures Valid(r) && k in r.weight && r.weight[k] == x
    ensures r.order == if k in s.weight then s.order else s.order + [k]
    ensures forall j :: j in s.weight && j != k ==> j in r.weight && r.weight[j] == s.weight[j]
  {
    if k in s.weight then Scores(s.order, s.weight[k := x])
    else Scores(s.order + [k], s.weight[k := x])
  }

  /** Writing a weight of at least `v` keeps every weight at least `v`. */
  lemma WriteKeepsBound(s: Scores, k: string, x: real, v: real)
    requires Valid(s) && AllAtLeast(s, v) && v >= 0.0 && x >= v
    ensures AllAtLeast(AddTo(s, k, x), v) && AllAtLeast(SetTo(s, k, x), v)
  {
  }

  type Weighted = seq<(string, real)>

  function EntriesOf(order: seq<string>, weight: map<string, real>): (es: Weighted)
    requires forall k :: k in order ==> k in weight
    ensures |es| == |order| && forall i :: 0 <= i < |order| ==> es[i] == (order[i], weight[order[i]])
  {
    if order == [] then [] else [(order[0], weight[order[0]])] + EntriesOf(order[1..], weight)
  }

  /** `Object.entries(scores)`. */
  function Entries(s: Scores): (es: Weighted)
    requires Valid(s)
    ensures |es| == |s.order|
    ensures forall i :: 0 <= i < |es| ==> es[i].0 in s.weight && es[i].1 == s.weight[es[i].0]
    ensures forall k :: k in s.weight ==> exists i :: 0 <= i < |es| && es[i].0 == k
  {
    var es := EntriesOf(s.order, s.weight);
    assert forall k :: k in s.weight ==> exists i :: 0 <= i < |es| && es[i].0 == k by {
      forall k | k in s.weight
        ensures exists i :: 0 <= i < |es| && es[i].0 == k
      {
        var i :| 0 <= i < |s.order| && s.order[i] == k;
        assert es[i].0 == k;
      }
    }
    es
  }

  function KeysOf(w: Weighted): (ks: seq<string>)
    ensures |ks| == |w| && forall i :: 0 <= i < |w| ==> ks[i] == w[i].0
  {
    if w == [] then [] else [w[0].0] + KeysOf(w[1..])
  }

  // ---- Recency-weighted topic frequency --------------------------------------------------

  /** The weight the interaction at `index` of `total` adds to its topic. */
  function Recency(index: nat, total: nat): (x: real)
    requires index < total
    ensures 1.0 <= x < 2.0
  {
    1.0 + index as real / total as real
  }

  /** `topicFrequency` after the first `|topics|` interactions of `total`. */
  function TopicFrequency(topics: seq<Option<string>>, total: nat): (s: Scores)
    requires |topics| <= total
    ensures Valid(s)
    decreases |topics|
  {
    if topics == [] then NoScores
    else
      var i := |topics| - 1;
      var w := TopicFrequency(topics[..i], total);
      if Present(topics[i]) then AddTo(w, topics[i].value, Recency(i, total)) else w
  }

  /** The scored topics are exactly the truthy topics, each weighing at least 1. */
  lemma {:induction false} TopicFrequencyFacts(topics: seq<Option<string>>, total: nat)
    requires |topics| <= total
    ensures AllAtLeast(TopicFrequency(topics, total), 1.0)
    ensures forall k :: k in TopicFrequency(topics, total).weight <==> Some(k) in topics && k != ""
    decreases |topics|
  {
    if topics != [] {
      var i := |topics| - 1;
      TopicFrequencyFacts(topics[..i], total);
      var w := TopicFrequency(topics[..i], total);
      assert topics == topics[..i] + [topics[i]];
      if Present(topics[i]) {
        WriteKeepsBound(w, topics[i].value, Recency(i, total), 1.0);
      }
    }
  }

  /** The `forEach` that fills `topicFrequency`. */
  method ComputeTopicFrequency(topics: seq<Option<string>>) returns (w: Scores)
    ensures w == TopicFrequency(topics, |topics|)
  {
    w := NoScores;
    var index := 0;
    while index < |topics|
      invariant 0 <= index <= |topics|
      invariant w == TopicFrequency(topics[..index], |topics|)
    {
      assert topics[..index + 1][..index] == topics[..index];
      var topic := topics[index];
      if Present(topic) {
        w := AddTo(w, topic.value, Recency(index, |topics|));
      }
      index := index + 1;
    }
    assert topics[..index] == topics;
  }

  // ---- Ranking -----------------------------------------------------------------------------

  predicate SortedDesc(w: Weighted) {
    forall i, j :: 0 <= i < j < |w| ==> w[j].1 <= w[i].1
  }

  predicate NoneBelow(w: Weighted, v: real) {
    forall i :: 0 <= i < |w| ==> v <= w[i].1
  }

  /** Place `x` after every entry at least as heavy, as a stable sort does. */
  function Insert(sorted: Weighted, x: (string, real)): (r: Weighted)
    ensures multiset(r) == multiset(sorted) + multiset{x}
    ensures |r| == |sorted| + 1
    decreases |sorted|
  {
    if sorted == [] || sorted[|sorted| - 1].1 >= x.1 then sorted + [x]
    else
      var n := |sorted| - 1;
      assert sorted == sorted[..n] + [sorted[n]];
      Insert(sorted[..n], x) + [sorted[n]]
  }

  lemma {:induction false} InsertNoneBelow(sorted: Weighted, x: (string, real), v: real)
    requires NoneBelow(sorted, v) && v <= x.1
    ensures NoneBelow(Insert(sorted, x), v)
    decreases |sorted|
  {
    if !(sorted == [] || sorted[|sorted| - 1].1 >= x.1) {
      InsertNoneBelow(sorted[..|sorted| - 1], x, v);
    }
  }

  lemma {:induction false} InsertSorted(sorted: Weighted, x: (string, real))
    requires SortedDesc(sorted)
    ensures SortedDesc(Insert(sorted, x))
    decreases |sorted|
  {
    if !(sorted == [] || sorted[|sorted| - 1].1 >= x.1) {
      var n := |sorted| - 1;
      InsertSorted(sorted[..n], x);
      InsertNoneBelow(sorted[..n], x, sorted[n].1);
    }
  }

  /** `entries.sort((a, b) => b[1] - a[1])`. */
  function SortByWeight(w: Weighted): (r: Weighted)
    ensures multiset(r) == multiset(w) && |r| == |w|
    decreases |w|
  {
    if w == [] then []
    else
      var n := |w| - 1;
      assert w == w[..n] + [w[n]];
      Insert(SortByWeight(w[..n]), w[n])
  }

  lemma {:induction false} SortByWeightSorted(w: Weighted)
    ensures SortedDesc(SortByWeight(w))
    decreases |w|
  {
    if w != [] {
      SortByWeightSorted(w[..|w| - 1]);
      InsertSorted(SortByWeight(w[..|w| - 1]), w[|w| - 1]);
    }
  }

  /** `Object.entries(scores).sort(...).slice(0, 4).map(([k]) => k)`. */
  function TopKeys(s: Scores): seq<string>
    requires Valid(s)
  {
    KeysOf(Take(SortByWeight(Entries(s)), TopCount))
  }

  /** The entries, sorted, are the entries. */
  lemma SortedEntriesAreEntries(s: Scores)
    requires Valid(s)
    ensures forall e :: e in SortByWeight(Entries(s)) ==> e.0 in s.weight && e.1 == s.weight[e.0]
    ensures forall k :: k in s.weight ==> (k, s.weight[k]) in SortByWeight(Entries(s))
  {
    var es := Entries(s);
    var sorted := SortByWeight(es);
    forall e | e in sorted
      ensures e.0 in s.weight && e.1 == s.weight[e.0]
    {
      assert e in multiset(sorted);
    }
    forall k | k in s.weight
      ensures (k, s.weight[k]) in sorted
    {
      var m :| 0 <= m < |es| && es[m].0 == k;
      assert es[m] in multiset(es);
    }
  }

  /** The first `n` keys of a list are the keys of its first `n` entries. */
  lemma TopOfList(w: Weighted, n: nat)
    ensures |KeysOf(Take(w, n))| == Min(n, |w|)
    ensures forall i :: 0 <= i < |KeysOf(Take(w, n))| ==> KeysOf(Take(w, n))[i] == w[i].0 && w[i] in w
  {
  }

  /** At most four keys, each a scored key, in non-increasing score. */
  lemma TopKeysFacts(s: Scores)
    requires Valid(s)
    ensures |TopKeys(s)| == Min(TopCount, |s.order|)
    ensures forall i :: 0 <= i < |TopKeys(s)| ==> TopKeys(s)[i] in s.weight
    ensures forall i, j :: 0 <= i < j < |TopKeys(s)| ==> s.weight[TopKeys(s)[j]] <= s.weight[TopKeys(s)[i]]
  {
    var sorted := SortByWeight(Entries(s));
    SortByWeightSorted(Entries(s));
    SortedEntriesAreEntries(s);
    TopOfList(sorted, TopCount);
    var top := TopKeys(s);
    forall i | 0 <= i < |top|
      ensures top[i] in s.weight && s.weight[top[i]] == sorted[i].1
    {
      assert sorted[i] in sorted;
    }
  }

  /** In a sorted list, an entry whose key is not among the first `n` keys weighs no more
      than any of them. */
  lemma {:induction false} LeftOutWeighsLess(w: Weighted, n: nat, e: (string, real))
    requires SortedDesc(w) && e in w && e.0 !in KeysOf(Take(w, n))
    ensures forall i :: 0 <= i < Min(n, |w|) ==> e.1 <= w[i].1
  {
    var top := KeysOf(Take(w, n));
    var j :| 0 <= j < |w| && w[j] == e;
    assert |top| <= j;
  }

  /** No key left out outscores one kept. */
  lemma TopKeysAreBest(s: Scores)
    requires Valid(s)
    ensures forall i, k :: 0 <= i < |TopKeys(s)| && k in s.weight && k !in TopKeys(s) ==>
      TopKeys(s)[i] in s.weight && s.weight[k] <= s.weight[TopKeys(s)[i]]
  {
    var sorted := SortByWeight(Entries(s));
    SortByWeightSorted(Entries(s));
    SortedEntriesAreEntries(s);
    var top := TopKeys(s);
    forall i, k | 0 <= i < |top| && k in s.weight && k !in top
      ensures top[i] in s.weight && s.weight[k] <= s.weight[top[i]]
    {
      LeftOutWeighsLess(sorted, TopCount, (k, s.weight[k]));
      TopOfList(sorted, TopCount);
    }
  }

  // ---- Category mapping ------------------------------------------------------------------

  /** The category table, in its listed order. */
  const CategoryMap: seq<(string, string)> := [
    ("ai", "AI"), ("artificial intelligence", "AI"),
    ("ml", "Machine Learning"), ("machine learning", "Machine Learning"),
    ("data", "Data Science"), ("data science", "Data Science"),
    ("python", "Python"), ("javascript", "JavaScript"), ("js", "JavaScript"),
    ("react", "React"),
    ("web", "Web Development"), ("web development", "Web Development"),
    ("frontend", "Web Development"), ("backend", "Web Development"),
    ("full stack", "Web Development"), ("node", "Web Development"),
    ("game", "Game Development"), ("unity", "Game Development"),
    ("mobile", "Mobile Development"), ("android", "Mobile Development"), ("ios", "Mobile Development"),
    ("cloud", "Cloud Computing"), ("aws", "AWS"), ("azure", "Cloud Computing"),
    ("security", "Cybersecurity"), ("cyber", "Cybersecurity"),
    ("blockchain", "Blockchain"), ("database", "Database"), ("sql", "SQL"),
    ("devops", "DevOps"), ("docker", "DevOps"),
    ("design", "UI/UX"), ("ui", "UI/UX"), ("ux", "UI/UX"),
    ("roadmap", "Career Paths"), ("placement", "Interview Prep"), ("interview", "Interview Prep")]

  /** A key matches a lowercased topic when either contains the other. */
  predicate Matches(lower: string, key: string) {
    Contains(lower, key) || Contains(key, lower)
  }

  /** Some key of `table` matches the lowercased topic. */
  predicate MatchesAny(lower: string, table: seq<(string, string)>) {
    exists i :: 0 <= i < |table| && Matches(lower, table[i].0)
  }

  /** The inner loop over the first `|entries|` table entries: every matching key adds 1
      to its category; the flag says whether any matched. */
  function MatchEntries(scores: Scores, lower: string, entries: seq<(string, string)>): (r: (Scores, bool))
    requires Valid(scores)
    ensures Valid(r.0)
    ensures r.1 <==> MatchesAny(lower, entries)
    ensures !r.1 ==> r.0 == scores
    decreases |entries|
  {
    if entries == [] then (scores, false)
    else
      var n := |entries| - 1;
      var (s, matched) := MatchEntries(scores, lower, entries[..n]);
      assert forall i :: 0 <= i < n ==> entries[..n][i] == entries[i];
      if Matches(lower, entries[n].0) then (AddTo(s, entries[n].1, 1.0), true) else (s, matched)
  }

  /** One topic's contribution under a key table: the matching categories, or the
      capitalised topic itself (written with score 1) when nothing matched and the topic is
      longer than 3 UTF-16 code units. */
  function ScoreTopic(table: seq<(string, string)>, scores: Scores, topic: string): (r: Scores)
    requires Valid(scores)
    ensures Valid(r)
  {
    var m := MatchEntries(scores, Lower(topic), table);
    if !m.1 && Utf16Length(topic) > 3 then SetTo(m.0, Capitalize(topic), 1.0) else m.0
  }

  /** `categoryScores` after the first `|topics|` topics. */
  function CategoryScores(table: seq<(string, string)>, topics: seq<string>): (r: Scores)
    ensures Valid(r)
    decreases |topics|
  {
    if topics == [] then NoScores
    else ScoreTopic(table, CategoryScores(table, topics[..|topics| - 1]), topics[|topics| - 1])
  }

  /** An unmatched long topic stands for itself with score exactly 1, whatever it scored
      before; an unmatched short one contributes nothing. */
  lemma UnmatchedTopic(table: seq<(string, string)>, scores: Scores, topic: string)
    requires Valid(scores)
    requires !MatchesAny(Lower(topic), table)
    ensures Utf16Length(topic) > 3 ==> ScoreTopic(table, scores, topic) == SetTo(scores, Capitalize(topic), 1.0)
    ensures Utf16Length(topic) > 3 ==> ScoreTopic(table, scores, topic).weight[Capitalize(topic)] == 1.0
    ensures Utf16Length(topic) <= 3 ==> ScoreTopic(table, scores, topic) == scores
  {
  }

  /** Matching never lowers or removes a score. */
  lemma {:induction false} MatchEntriesGrows(scores: Scores, lower: string, entries: seq<(string, string)>)
    requires Valid(scores) && AllAtLeast(scores, 0.0)
    ensures AllAtLeast(MatchEntries(scores, lower, entries).0, 0.0)
    ensures forall k :: k in scores.weight ==>
      k in MatchEntries(scores, lower, entries).0.weight &&
      MatchEntries(scores, lower, entries).0.weight[k] >= scores.weight[k]
    decreases |entries|
  {
    if entries != [] {
      var n := |entries| - 1;
      MatchEntriesGrows(scores, lower, entries[..n]);
      WriteKeepsBound(MatchEntries(scores, lower, entries[..n]).0, entries[n].1, 1.0, 0.0);
    }
  }

  /** Every category of a matching key ends up with a score of at least 1. */
  lemma {:induction false} MatchedCategoriesScore(scores: Scores, lower: string, entries: seq<(string, string)>)
    requires Valid(scores) && AllAtLeast(scores, 0.0)
    ensures forall i :: 0 <= i < |entries| && Matches(lower, entries[i].0) ==>
      entries[i].1 in MatchEntries(scores, lower, entries).0.weight &&
      MatchEntries(scores, lower, entries).0.weight[entries[i].1] >= 1.0
    decreases |entries|
  {
    if entries != [] {
      var n := |entries| - 1;
      var prefix := entries[..n];
      MatchedCategoriesScore(scores, lower, prefix);
      MatchEntriesGrows(scores, lower, prefix);
      var s := MatchEntries(scores, lower, prefix).0;
      var r := MatchEntries(scores, lower, entries).0;
      forall i | 0 <= i < |entries| && Matches(lower, entries[i].0)
        ensures entries[i].1 in r.weight && r.weight[entries[i].1] >= 1.0
      {
        if i < n {
          assert prefix[i] == entries[i];
        }
      }
    }
  }

  lemma {:induction false} MatchEntriesKeeps(scores: Scores, lower: string, entries: seq<(string, string)>)
    requires Valid(scores) && AllAtLeast(scores, 1.0)
    ensures AllAtLeast(MatchEntries(scores, lower, entries).0, 1.0)
    decreases |entries|
  {
    if entries != [] {
      var n := |entries| - 1;
      MatchEntriesKeeps(scores, lower, entries[..n]);
      WriteKeepsBound(MatchEntries(scores, lower, entries[..n]).0, entries[n].1, 1.0, 1.0);
    }
  }

  /** Every category scores at least 1. */
  lemma {:induction false} CategoryScoresAtLeastOne(table: seq<(string, string)>, topics: seq<string>)
    ensures AllAtLeast(CategoryScores(table, topics), 1.0)
    decreases |topics|
  {
    if topics != [] {
      var prev := CategoryScores(table, topics[..|topics| - 1]);
      var topic := topics[|topics| - 1];
      CategoryScoresAtLeastOne(table, topics[..|topics| - 1]);
      MatchEntriesKeeps(prev, Lower(topic), table);
      WriteKeepsBound(MatchEntries(prev, Lower(topic), table).0, Capitalize(topic), 1.0, 1.0);
    }
  }

  /** The inner loop of `mapToVideoCategories` for one topic. */
  method ScoreOneTopic(table: seq<(string, string)>, scores: Scores, topic: string) returns (next: Scores)
    requires Valid(scores)
    ensures next == ScoreTopic(table, scores, topic)
  {
    var topicLower := Lower(topic);
    var matched := false;
    next := scores;
    var e := 0;
    while e < |table|
      invariant 0 <= e <= |table|
      invariant Valid(next)
      invariant (next, matched) == MatchEntries(scores, topicLower, table[..e])
    {
      assert table[..e + 1][..e] == table[..e];
      var (key, category) := table[e];
      if Contains(topicLower, key) || Contains(key, topicLower) {
        next := AddTo(next, category, 1.0);
        matched := true;
      }
      e := e + 1;
    }
    assert table[..e] == table;
    if !matched && Utf16Length(topic) > 3 {
      next := SetTo(next, Capitalize(topic), 1.0);
    }
  }

  /** `mapToVideoCategories`: fill `categoryScores` topic by topic over the category table,
      then keep the four best-scored categories. */
  method MapToVideoCategories(topics: seq<string>) returns (categories: seq<string>)
    ensures categories == TopKeys(CategoryScores(CategoryMap, topics))
    ensures |categories| <= TopCount
  {
    var table := CategoryMap;
    var scores := NoScores;
    var t := 0;
    while t < |topics|
      invariant 0 <= t <= |topics|
      invariant scores == CategoryScores(table, topics[..t])
    {
      assert topics[..t + 1][..t] == topics[..t];
      scores := ScoreOneTopic(table, scores, topics[t]);
      t := t + 1;
    }
    assert topics[..t] == topics;
    categories := TopKeys(scores);
    TopKeysFacts(scores);
  }

  // ---- The service -------------------------------------------------------------------------

  /** What the interactions request did: threw, answered with a non-ok status, or returned
      the topics of the interactions (`data.interactions || []`), oldest first. */
  datatype InteractionsResponse = RequestFails | NotOk | Received(topics: seq<Option<string>>)

  /** `getPersonalizedVideoTopics`. */
  method GetPersonalizedVideoTopics(token: Option<string>, response: InteractionsResponse)
    returns (videoTopics: seq<string>)
    ensures !Present(token) ==> videoTopics == []
    ensures Present(token) ==> 1 <= |videoTopics| <= TopCount
    ensures Present(token) && (response.RequestFails? || response.NotOk? || response == Received([])) ==>
      videoTopics == DefaultTopics
    ensures Present(token) && response.Received? && response.topics != [] ==>
      var mapped := TopKeys(CategoryScores(CategoryMap, TopKeys(TopicFrequency(response.topics, |response.topics|))));
      videoTopics == if mapped != [] then mapped else DefaultTopics
  {
    if !Present(token) {
      return [];
    }
    match response {
      case RequestFails => return GetDefaultTopics();
      case NotOk => return GetDefaultTopics();
      case Received(interactions) =>
        if |interactions| == 0 {
          return GetDefaultTopics();
        }
        var topicFrequency := ComputeTopicFrequency(interactions);
        var sortedTopics := TopKeys(topicFrequency);
        TopKeysFacts(topicFrequency);
        var mapped := MapToVideoCategories(sortedTopics);
        videoTopics := if |mapped| > 0 then mapped else GetDefaultTopics();
    }
  }
}
