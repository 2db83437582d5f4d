/** A moderation response (`ModerationResult`) and the selections it offers
    over one result's category flags and scores. Dictionaries are sequences of
    entries in their enumeration order; a lookup finds the first entry for a
    key. Scores are `real` (NaN is not modelled). */
module Moderation {
  import opened Common

  /** What the LINQ pipelines throw: a missing dictionary key, `First` of an
      empty sequence, or the `ArgumentNullException` of a LINQ operator given
      a null source. */
  datatype ModerationError = KeyNotFound(key: string) | EmptySequence | NullSource

  type Score = (string, real)

  /** One result (the source's `Result` class). */
  datatype ResultItem = ResultItem(categories: Option<seq<(string, bool)>>, categoryScores: Option<seq<Score>>, flagged: bool)

  datatype ModerationResult = ModerationResult(results: Option<seq<Option<ResultItem>>>, id: string)

  /** The keys of a dictionary's entries, in order (`Select(kv => kv.Key)`). */
  function Keys<V>(entries: seq<(string, V)>): (r: seq<string>)
    ensures |r| == |entries|
    ensures forall i | 0 <= i < |entries| :: r[i] == entries[i].0
  {
    seq(|entries|, i requires 0 <= i < |entries| => entries[i].0)
  }

  /** The categories whose flag is set, in dictionary order (`Where(kv => kv.Value)`). */
  function FlaggedKeys(categories: seq<(string, bool)>): (r: seq<string>)
    ensures |r| <= |categories|
  {
    if categories == [] then []
    else (if categories[0].1 then [categories[0].0] else []) + FlaggedKeys(categories[1..])
  }

  lemma {:induction false} FlaggedKeysMembers(categories: seq<(string, bool)>, k: string)
    ensures k in FlaggedKeys(categories) <==> (k, true) in categories
    decreases |categories|
  {
    if categories != [] {
      FlaggedKeysMembers(categories[1..], k);
      assert categories == [categories[0]] + categories[1..];
    }
  }

  /** The dictionary indexer: the score of the first entry for `key`. */
  function Lookup(scores: seq<Score>, key: string): (r: Option<real>)
    ensures r.Some? <==> exists i | 0 <= i < |scores| :: scores[i].0 == key
    ensures r.Some? ==> (key, r.value) in scores
  {
    if scores == [] then None
    else if scores[0].0 == key then Some(scores[0].1)
    else Lookup(scores[1..], key)
  }

  /** The sort key of each flagged category, looked up in order; the first
      category with no score throws. */
  function ScoresOf(keys: seq<string>, scores: seq<Score>): (r: Result<seq<Score>, ModerationError>)
    ensures r.Ok? <==> forall i | 0 <= i < |keys| :: Lookup(scores, keys[i]).Some?
    ensures r.Ok? ==> Keys(r.value) == keys
    ensures r.Ok? ==> forall i | 0 <= i < |keys| :: r.value[i].1 == Lookup(scores, keys[i]).value
    ensures r.Err? ==> r.error.KeyNotFound? && exists i | 0 <= i < |keys| :: keys[i] == r.error.key
                                                     && Lookup(scores, keys[i]).None?
                                                     && forall j | 0 <= j < i :: Lookup(scores, keys[j]).Some?
  {
    if keys == [] then Ok([])
    else
      match Lookup(scores, keys[0])
      case None => Err(KeyNotFound(keys[0]))
      case Some(v) =>
        match ScoresOf(keys[1..], scores)
        case Err(e) =>
          assert forall j | 1 <= j < |keys| :: keys[j] == keys[1..][j - 1];
          Err(e)
        case Ok(rest) =>
          assert forall j | 1 <= j < |keys| :: keys[j] == keys[1..][j - 1];
          Ok([(keys[0], v)] + rest)
  }

  /** Non-increasing scores. */
  predicate SortedDescending(s: seq<Score>) {
    forall i, j | 0 <= i < j < |s| :: s[i].1 >= s[j].1
  }

  /** The entries with score `v`, in order. */
  function WithScore(s: seq<Score>, v: real): seq<Score> {
    if s == [] then [] else (if s[0].1 == v then [s[0]] else []) + WithScore(s[1..], v)
  }

  /** `x` placed after every entry whose score is at least its own. */
  function Insert(x: Score, s: seq<Score>): seq<Score> {
    if s == [] then [x]
    else if s[0].1 >= x.1 then [s[0]] + Insert(x, s[1..])
    else [x] + s
  }

  /** `OrderByDescending`: a stable sort, highest score first. */
  function SortDescending(s: seq<Score>): seq<Score> {
    if s == [] then [] else Insert(s[|s| - 1], SortDescending(s[..|s| - 1]))
  }

  lemma {:induction false} InsertPermutes(x: Score, s: seq<Score>)
    ensures multiset(Insert(x, s)) == multiset(s) + multiset{x}
    decreases |s|
  {
    if s != [] && s[0].1 >= x.1 {
      InsertPermutes(x, s[1..]);
      assert s == [s[0]] + s[1..];
    }
  }

  lemma {:induction false} InsertSorted(x: Score, s: seq<Score>)
    requires SortedDescending(s)
    ensures SortedDescending(Insert(x, s))
    decreases |s|
  {
    if s != [] && s[0].1 >= x.1 {
      var tail := s[1..];
      InsertSorted(x, tail);
      InsertPermutes(x, tail);
      var r := Insert(x, s);
      forall i, j | 0 <= i < j < |r| ensures r[i].1 >= r[j].1 {
        if i == 0 {
          assert r[j] in multiset(Insert(x, tail));
          assert r[j] in tail || r[j] == x;
        } else {
          assert r[i] == Insert(x, tail)[i - 1] && r[j] == Insert(x, tail)[j - 1];
        }
      }
    }
  }

  /** Inserting `x` adds it after the entries of equal score. */
  lemma {:induction false} InsertWithScore(x: Score, s: seq<Score>, v: real)
    requires SortedDescending(s)
    ensures WithScore(Insert(x, s), v) == WithScore(s, v) + (if x.1 == v then [x] else [])
    decreases |s|
  {
    if s == [] {
      assert WithScore([x], v) == (if x.1 == v then [x] else []) + WithScore([], v);
    } else if s[0].1 >= x.1 {
      var tail := s[1..];
      InsertWithScore(x, tail, v);
      var r := Insert(x, s);
      assert r[1..] == Insert(x, tail);
    } else {
      assert ([x] + s)[1..] == s;
      if x.1 == v {
        NoneScored(s, v);
      }
    }
  }

  /** A sorted sequence led by a score below `v` has no entry scored `v`. */
  lemma {:induction false} NoneScored(s: seq<Score>, v: real)
    requires SortedDescending(s) && s != [] && s[0].1 < v
    ensures WithScore(s, v) == []
    decreases |s|
  {
    if |s| > 1 {
      NoneScored(s[1..], v);
    }
  }

  lemma {:induction false} WithScoreAppend(a: seq<Score>, b: seq<Score>, v: real)
    ensures WithScore(a + b, v) == WithScore(a, v) + WithScore(b, v)
    decreases |a|
  {
    if a == [] {
      assert a + b == b;
    } else {
      var ab := a + b;
      assert ab != [] && ab[0] == a[0];
      assert ab[1..] == a[1..] + b;
      WithScoreAppend(a[1..], b, v);
      var head := if a[0].1 == v then [a[0]] else [];
      assert WithScore(ab, v) == head + WithScore(a[1..] + b, v);
      assert WithScore(a, v) == head + WithScore(a[1..], v);
    }
  }

  /** The sort is a permutation into non-increasing order that keeps entries
      of equal score in their original order. */
  lemma {:induction false} SortDescendingCorrect(s: seq<Score>)
    ensures SortedDescending(SortDescending(s))
    ensures multiset(SortDescending(s)) == multiset(s)
    ensures forall v :: WithScore(SortDescending(s), v) == WithScore(s, v)
    decreases |s|
  {
    if s != [] {
      var init := s[..|s| - 1];
      var last := s[|s| - 1];
      SortDescendingCorrect(init);
      InsertSorted(last, SortDescending(init));
      InsertPermutes(last, SortDescending(init));
      assert s == init + [last];
      forall v ensures WithScore(SortDescending(s), v) == WithScore(s, v) {
        InsertWithScore(last, SortDescending(init), v);
        WithScoreAppend(init, [last], v);
        assert WithScore([last], v) == (if last.1 == v then [last] else []) + WithScore([], v);
      }
    }
  }

  lemma {:induction false} KeysInsert(x: Score, s: seq<Score>)
    ensures multiset(Keys(Insert(x, s))) == multiset(Keys(s)) + multiset{x.0}
    decreases |s|
  {
    if s != [] && s[0].1 >= x.1 {
      KeysInsert(x, s[1..]);
      KeysAppend([s[0]], Insert(x, s[1..]));
      KeysAppend([s[0]], s[1..]);
      assert s == [s[0]] + s[1..];
    } else {
      KeysAppend([x], s);
    }
  }

  /** The sort permutes the keys. */
  lemma {:induction false} KeysSortPermutes(s: seq<Score>)
    ensures multiset(Keys(SortDescending(s))) == multiset(Keys(s))
    decreases |s|
  {
    if s != [] {
      var init := s[..|s| - 1];
      KeysSortPermutes(init);
      KeysInsert(s[|s| - 1], SortDescending(init));
      assert s == init + [s[|s| - 1]];
      KeysAppend(init, [s[|s| - 1]]);
    }
  }

  lemma KeysAppend(a: seq<Score>, b: seq<Score>)
    ensures Keys(a + b) == Keys(a) + Keys(b)
  {
  }

  /** `FlaggedCategories`: the flagged categories, highest score first. Null
      categories throw (`Where`'s argument check). With no scores every sort
      key is null and the stable sort keeps dictionary order; a flagged
      category without a score throws. */
  function FlaggedCategories(item: ResultItem): (r: Result<seq<string>, ModerationError>)
    ensures item.categories.None? ==> r == Err(NullSource)
    ensures r.Err? <==> item.categories.None?
                        || (item.categoryScores.Some?
                            && exists k | k in FlaggedKeys(item.categories.value) :: Lookup(item.categoryScores.value, k).None?)
    ensures r.Err? && item.categories.Some? ==> r.error.KeyNotFound? && (r.error.key, true) in item.categories.value
    ensures item.categories.Some? && item.categoryScores.None? ==> r == Ok(FlaggedKeys(item.categories.value))
    ensures r.Ok? ==> multiset(r.value) == multiset(FlaggedKeys(item.categories.value))
  {
    match item.categories
    case None => Err(NullSource)
    case Some(categories) =>
      var flagged := FlaggedKeys(categories);
      match item.categoryScores
      case None => Ok(flagged)
      case Some(scores) =>
        match ScoresOf(flagged, scores)
        case Err(e) =>
          FlaggedKeysMembers(categories, e.key);
          Err(e)
        case Ok(scored) =>
          SortDescendingCorrect(scored);
          KeysSortPermutes(scored);
          Ok(Keys(SortDescending(scored)))
  }

  /** Exactly the flagged categories are listed. */
  lemma FlaggedCategoriesMembers(item: ResultItem, k: string)
    requires FlaggedCategories(item).Ok?
    ensures k in FlaggedCategories(item).value <==> (k, true) in item.categories.value
  {
    FlaggedKeysMembers(item.categories.value, k);
    assert k in FlaggedCategories(item).value <==> k in multiset(FlaggedCategories(item).value);
  }

  /** Each sorted entry carries the score its key looks up. */
  lemma SortedEntriesLookup(keys: seq<string>, scores: seq<Score>)
    requires ScoresOf(keys, scores).Ok?
    ensures forall e | e in ScoresOf(keys, scores).value :: Lookup(scores, e.0) == Some(e.1)
    ensures forall e | e in SortDescending(ScoresOf(keys, scores).value) :: Lookup(scores, e.0) == Some(e.1)
  {
    var scored := ScoresOf(keys, scores).value;
    forall e | e in scored ensures Lookup(scores, e.0) == Some(e.1) {
      var i :| 0 <= i < |scored| && scored[i] == e;
      assert Keys(scored)[i] == e.0;
    }
    SortDescendingCorrect(scored);
    forall e | e in SortDescending(scored) ensures Lookup(scores, e.0) == Some(e.1) {
      assert e in multiset(SortDescending(scored));
    }
  }

  /** With scores, the listed categories' scores never increase. */
  lemma FlaggedCategoriesSorted(item: ResultItem)
    requires item.categoryScores.Some? && FlaggedCategories(item).Ok?
    ensures var r := FlaggedCategories(item).value; var scores := item.categoryScores.value;
            forall i, j | 0 <= i < j < |r| :: Lookup(scores, r[i]).Some? && Lookup(scores, r[j]).Some?
                                              && Lookup(scores, r[i]).value >= Lookup(scores, r[j]).value
  {
    var scores := item.categoryScores.value;
    var scored := ScoresOf(FlaggedKeys(item.categories.value), scores).value;
    var sorted := SortDescending(scored);
    SortDescendingCorrect(scored);
    SortedEntriesLookup(FlaggedKeys(item.categories.value), scores);
    var r := FlaggedCategories(item).value;
    assert r == Keys(sorted);
    forall i, j | 0 <= i < j < |r|
      ensures Lookup(scores, r[i]) == Some(sorted[i].1) && Lookup(scores, r[j]) == Some(sorted[j].1)
    {
      assert sorted[i] in sorted && sorted[j] in sorted;
    }
  }

  /** The listed categories scored `v`, in order: those of the flagged
      categories scored `v`, in dictionary order (ties keep their order). */
  function KeysScored(keys: seq<string>, scores: seq<Score>, v: real): seq<string> {
    if keys == [] then [] else (if Lookup(scores, keys[0]) == Some(v) then [keys[0]] else []) + KeysScored(keys[1..], scores, v)
  }

  lemma FlaggedCategoriesStable(item: ResultItem, v: real)
    requires item.categoryScores.Some? && FlaggedCategories(item).Ok?
    ensures KeysScored(FlaggedCategories(item).value, item.categoryScores.value, v)
            == KeysScored(FlaggedKeys(item.categories.value), item.categoryScores.value, v)
  {
    var scores := item.categoryScores.value;
    var scored := ScoresOf(FlaggedKeys(item.categories.value), scores).value;
    var sorted := SortDescending(scored);
    SortDescendingCorrect(scored);
    SortedEntriesLookup(FlaggedKeys(item.categories.value), scores);
    KeysScoredOfEntries(sorted, scores, v);
    KeysScoredOfEntries(scored, scores, v);
  }

  /** For entries that carry their own looked-up scores, selecting by score
      commutes with taking the keys. */
  lemma {:induction false} KeysScoredOfEntries(s: seq<Score>, scores: seq<Score>, v: real)
    requires forall e | e in s :: Lookup(scores, e.0) == Some(e.1)
    ensures KeysScored(Keys(s), scores, v) == Keys(WithScore(s, v))
    decreases |s|
  {
    if s != [] {
      assert Keys(s)[1..] == Keys(s[1..]);
      KeysScoredOfEntries(s[1..], scores, v);
      KeysAppend(if s[0].1 == v then [s[0]] else [], WithScore(s[1..], v));
    }
  }

  /** `MainContentFlag`: the first flagged category, or null. */
  function MainContentFlag(item: ResultItem): (r: Result<Option<string>, ModerationError>)
    ensures r.Ok? <==> FlaggedCategories(item).Ok?
    ensures r.Ok? ==> (r.value.None? <==> FlaggedKeys(item.categories.value) == [])
    ensures r.Ok? && r.value.Some? ==> (r.value.value, true) in item.categories.value
  {
    match FlaggedCategories(item)
    case Err(e) => Err(e)
    case Ok(cats) =>
      if cats == [] then
        assert |multiset(FlaggedKeys(item.categories.value))| == 0;
        Ok(None)
      else
        FlaggedCategoriesMembers(item, cats[0]);
        assert FlaggedKeys(item.categories.value) != [] by {
          assert cats[0] in multiset(cats);
        }
        Ok(Some(cats[0]))
  }

  /** The main flag has the highest score of the flagged categories. */
  lemma MainContentFlagHighest(item: ResultItem, k: string)
    requires item.categoryScores.Some? && MainContentFlag(item).Ok? && MainContentFlag(item).value.Some?
    requires (k, true) in item.categories.value
    ensures Lookup(item.categoryScores.value, k).Some?
    ensures Lookup(item.categoryScores.value, MainContentFlag(item).value.value).Some?
    ensures Lookup(item.categoryScores.value, MainContentFlag(item).value.value).value >= Lookup(item.categoryScores.value, k).value
  {
    var r := FlaggedCategories(item).value;
    FlaggedKeysMembers(item.categories.value, k);
    FlaggedCategoriesMembers(item, k);
    FlaggedCategoriesSorted(item);
    var j :| 0 <= j < |r| && r[j] == k;
    if j > 0 {
      assert Lookup(item.categoryScores.value, r[0]).value >= Lookup(item.categoryScores.value, r[j]).value;
    }
  }

  /** `HighestFlagScore`: the score ranked first; null scores (rejected by
      `OrderByDescending`'s argument check) or none at all throw. */
  function HighestFlagScore(item: ResultItem): (r: Result<real, ModerationError>)
    ensures r.Err? <==> item.categoryScores.None? || item.categoryScores.value == []
    ensures r.Err? ==> r.error == (if item.categoryScores.None? then NullSource else EmptySequence)
    ensures r.Ok? ==> exists k :: (k, r.value) in item.categoryScores.value
    ensures r.Ok? ==> forall e | e in item.categoryScores.value :: e.1 <= r.value
  {
    match item.categoryScores
    case None => Err(NullSource)
    case Some(scores) =>
      if scores == [] then Err(EmptySequence)
      else
        var sorted := SortDescending(scores);
        SortDescendingCorrect(scores);
        assert |sorted| == |scores| by { assert |multiset(sorted)| == |multiset(scores)|; }
        assert sorted[0] in multiset(scores);
        assert forall e | e in scores :: e.1 <= sorted[0].1 by {
          forall e | e in scores ensures e.1 <= sorted[0].1 {
            assert e in multiset(sorted);
            var i :| 0 <= i < |sorted| && sorted[i] == e;
          }
        }
        Ok(sorted[0].1)
  }

  /** `ModerationResult.ToString`: the first result's main flag; null when
      there are no results or the first one is null, a throw when the list is
      empty. */
  function ToString(m: ModerationResult): (r: Result<Option<string>, ModerationError>)
    ensures m.results.None? ==> r == Ok(None)
    ensures m.results == Some([]) ==> r == Err(EmptySequence)
    ensures m.results.Some? && m.results.value != [] && m.results.value[0].None? ==> r == Ok(None)
    ensures m.results.Some? && m.results.value != [] && m.results.value[0].Some? ==> r == MainContentFlag(m.results.value[0].value)
  {
    match m.results
    case None => Ok(None)
    case Some(rs) =>
      if rs == [] then Err(EmptySequence)
      else if rs[0].None? then Ok(None)
      else MainContentFlag(rs[0].value)
  }
}
