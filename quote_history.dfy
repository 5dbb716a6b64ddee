/** The quote history service: sorted reads, lookup by Id, aggregate statistics and deletion, all over the shared log. */
module QuoteHistory {
  import opened Wrappers
  import opened Money
  import opened Records
  import opened Pricing

  // ---------------------------------------------------------------------------
  // Sorting by date, newest first
  // ---------------------------------------------------------------------------

  ghost predicate DateDescending(s: seq<SavedQuote>) {
    forall i, j :: 0 <= i < j < |s| ==> s[i].date >= s[j].date
  }

  /** The records of s dated d, in the order s has them. */
  function WithDate(s: seq<SavedQuote>, d: int): seq<SavedQuote> {
    if s == [] then []
    else (if s[0].date == d then [s[0]] else []) + WithDate(s[1..], d)
  }

  /** Places x before the first record that is not newer than it, so equal dates keep their original order. */
  function InsertByDate(x: SavedQuote, t: seq<SavedQuote>): (r: seq<SavedQuote>)
    ensures |r| == |t| + 1
  {
    if t == [] || x.date >= t[0].date then [x] + t
    else [t[0]] + InsertByDate(x, t[1..])
  }

  /** `[...history].sort((a, b) => b.date - a.date)`: a stable sort, newest first. */
  function SortByDate(s: seq<SavedQuote>): (r: seq<SavedQuote>)
    ensures |r| == |s|
  {
    if s == [] then [] else InsertByDate(s[0], SortByDate(s[1..]))
  }

  lemma {:induction false} InsertPermutes(x: SavedQuote, t: seq<SavedQuote>)
    ensures multiset(InsertByDate(x, t)) == multiset(t) + multiset{x}
  {
    if t != [] && x.date < t[0].date {
      InsertPermutes(x, t[1..]);
      assert t == [t[0]] + t[1..];
    }
  }

  lemma {:induction false} InsertKeepsDescending(x: SavedQuote, t: seq<SavedQuote>)
    requires DateDescending(t)
    ensures DateDescending(InsertByDate(x, t))
  {
    if t != [] && x.date < t[0].date {
      var tail := t[1..];
      InsertKeepsDescending(x, tail);
      InsertPermutes(x, tail);
      var r := InsertByDate(x, tail);
      forall k | 0 <= k < |r|
        ensures r[k].date <= t[0].date
      {
        assert r[k] in multiset(r);
        assert r[k] == x || r[k] in multiset(tail);
      }
    }
  }

  lemma {:induction false} InsertKeepsDateOrder(x: SavedQuote, t: seq<SavedQuote>, d: int)
    ensures WithDate(InsertByDate(x, t), d) == WithDate([x], d) + WithDate(t, d)
  {
    assert ([x] + t)[1..] == t;
    if t != [] && x.date < t[0].date {
      InsertKeepsDateOrder(x, t[1..], d);
      assert ([t[0]] + InsertByDate(x, t[1..]))[1..] == InsertByDate(x, t[1..]);
      assert [x][1..] == [];
    }
  }

  /** The sort returns the same records, newest first, and records with the same date keep their relative order. */
  lemma SortByDateCorrect(s: seq<SavedQuote>)
    ensures DateDescending(SortByDate(s))
    ensures multiset(SortByDate(s)) == multiset(s)
    ensures forall d :: WithDate(SortByDate(s), d) == WithDate(s, d)
  {
    SortPermutes(s);
    SortDescending(s);
    forall d ensures WithDate(SortByDate(s), d) == WithDate(s, d) {
      SortKeepsDateOrder(s, d);
    }
  }

  lemma {:induction false} SortPermutes(s: seq<SavedQuote>)
    ensures multiset(SortByDate(s)) == multiset(s)
  {
    if s != [] {
      SortPermutes(s[1..]);
      InsertPermutes(s[0], SortByDate(s[1..]));
      assert s == [s[0]] + s[1..];
    }
  }

  lemma {:induction false} SortDescending(s: seq<SavedQuote>)
    ensures DateDescending(SortByDate(s))
  {
    if s != [] {
      SortDescending(s[1..]);
      InsertKeepsDescending(s[0], SortByDate(s[1..]));
    }
  }

  lemma {:induction false} SortKeepsDateOrder(s: seq<SavedQuote>, d: int)
    ensures WithDate(SortByDate(s), d) == WithDate(s, d)
  {
    if s != [] {
      var rest := SortByDate(s[1..]);
      SortKeepsDateOrder(s[1..], d);
      InsertKeepsDateOrder(s[0], rest, d);
      assert [s[0]][1..] == [];
      assert WithDate([s[0]], d) == if s[0].date == d then [s[0]] else [];
      assert WithDate(s, d) == WithDate([s[0]], d) + WithDate(s[1..], d);
    }
  }

  // ---------------------------------------------------------------------------
  // Statistics
  // ---------------------------------------------------------------------------

  datatype Stats = Stats(totalQuotes: nat, averageQuote: real, totalRevenue: real, mostPopularSize: string)

  /** How many records have home size k. */
  function Count(s: seq<SavedQuote>, k: string): (r: nat)
    ensures r <= |s|
    ensures r == 0 <==> forall i :: 0 <= i < |s| ==> s[i].homeSize != k
  {
    if s == [] then 0
    else Count(s[..|s| - 1], k) + (if s[|s| - 1].homeSize == k then 1 else 0)
  }

  /** The sizeCount object after the forEach: home size -> number of records. */
  function SizeCounts(s: seq<SavedQuote>): map<string, nat> {
    if s == [] then map[]
    else
      var m := SizeCounts(s[..|s| - 1]);
      var k := s[|s| - 1].homeSize;
      m[k := (if k in m then m[k] else 0) + 1]
  }

  /** Object.keys(sizeCount): the home sizes in order of first insertion. */
  function KeyOrder(s: seq<SavedQuote>): seq<string> {
    if s == [] then []
    else
      var k := s[|s| - 1].homeSize;
      if k in SizeCounts(s[..|s| - 1]) then KeyOrder(s[..|s| - 1]) else KeyOrder(s[..|s| - 1]) + [k]
  }

  function CountOf(counts: map<string, nat>, k: string): Option<nat> {
    if k in counts then Some(counts[k]) else None
  }

  /** JavaScript's `>`: a comparison with undefined is false. */
  predicate Greater(a: Option<nat>, b: Option<nat>) {
    a.Some? && b.Some? && a.value > b.value
  }

  /** `keys.reduce((a, b) => sizeCount[a] > sizeCount[b] ? a : b, "N/A")`. */
  function Popular(keys: seq<string>, counts: map<string, nat>): string {
    if keys == [] then "N/A"
    else
      var a := Popular(keys[..|keys| - 1], counts);
      var b := keys[|keys| - 1];
      if Greater(CountOf(counts, a), CountOf(counts, b)) then a else b
  }

  /** getStats as a function of the history. */
  function StatsOf(s: seq<SavedQuote>): Stats {
    if |s| == 0 then Stats(0, 0.0, 0.0, "N/A")
    else Stats(|s|, Round2(Revenue(s) / |s| as real), Round2(Revenue(s)), Popular(KeyOrder(s), SizeCounts(s)))
  }

  /** sizeCount counts each home size exactly, and its key order lists each occurring home size once. */
  lemma {:induction false} TallyFacts(s: seq<SavedQuote>)
    ensures forall k :: k in SizeCounts(s) <==> k in KeyOrder(s)
    ensures forall k :: k in SizeCounts(s) ==> SizeCounts(s)[k] == Count(s, k) && Count(s, k) >= 1
    ensures forall k :: k !in SizeCounts(s) ==> Count(s, k) == 0
    ensures forall i :: 0 <= i < |s| ==> s[i].homeSize in SizeCounts(s)
    ensures forall k :: k in SizeCounts(s) ==> exists i :: 0 <= i < |s| && s[i].homeSize == k
    ensures forall i, j :: 0 <= i < j < |KeyOrder(s)| ==> KeyOrder(s)[i] != KeyOrder(s)[j]
  {
    if s != [] {
      var front := s[..|s| - 1];
      TallyFacts(front);
      assert forall i :: 0 <= i < |front| ==> front[i] == s[i];
      forall k | k in SizeCounts(s)
        ensures exists i :: 0 <= i < |s| && s[i].homeSize == k
      {
        if k != s[|s| - 1].homeSize {
          var i :| 0 <= i < |front| && front[i].homeSize == k;
          assert s[i].homeSize == k;
        }
      }
    }
  }

  /** Object.keys order is first-occurrence order: every occurrence of a later key comes after some occurrence of an earlier key. */
  lemma KeyOrderIsFirstOccurrence(s: seq<SavedQuote>)
    ensures forall i, j, b :: 0 <= i < j < |KeyOrder(s)| && 0 <= b < |s| && s[b].homeSize == KeyOrder(s)[j] ==>
      OccursBefore(s, KeyOrder(s)[i], b)
  {
    forall i, j, b | 0 <= i < j < |KeyOrder(s)| && 0 <= b < |s| && s[b].homeSize == KeyOrder(s)[j]
      ensures OccursBefore(s, KeyOrder(s)[i], b)
    {
      var a := EarlierKeyOccursBefore(s, i, j, b);
    }
  }

  /** Some record before position b has home size k. */
  ghost predicate OccursBefore(s: seq<SavedQuote>, k: string, b: int) {
    exists a :: 0 <= a < b && a < |s| && s[a].homeSize == k
  }

  /** For one pair of keys and one occurrence of the later one: a position of the earlier key before it. */
  lemma {:induction false} EarlierKeyOccursBefore(s: seq<SavedQuote>, i: nat, j: nat, b: nat) returns (a: nat)
    requires i < j < |KeyOrder(s)| && b < |s| && s[b].homeSize == KeyOrder(s)[j]
    ensures a < b && s[a].homeSize == KeyOrder(s)[i]
  {
    var front := s[..|s| - 1];
    var keys, fkeys := KeyOrder(s), KeyOrder(front);
    assert fkeys <= keys;
    KeyInOrderOccurs(front, keys[i]);
    assert keys[i] in fkeys;
    var a0 :| 0 <= a0 < |front| && front[a0].homeSize == keys[i];
    if j < |fkeys| {
      var b1 := b;
      if b == |s| - 1 {
        KeyInOrderOccurs(front, keys[j]);
        b1 :| 0 <= b1 < |front| && front[b1].homeSize == keys[j];
      } else {
        assert front[b].homeSize == keys[j];
      }
      var a1 := EarlierKeyOccursBefore(front, i, j, b1);
      a := a1;
    } else {
      assert keys[j] == s[|s| - 1].homeSize && keys[j] !in SizeCounts(front);
      if b < |s| - 1 {
        assert front[b].homeSize == keys[j];
        KeyInOrderOccurs(front, keys[j]);
      }
      a := a0;
    }
  }

  /** A key is listed exactly when some record has that home size. */
  lemma KeyInOrderOccurs(s: seq<SavedQuote>, k: string)
    ensures k in KeyOrder(s) <==> exists x :: 0 <= x < |s| && s[x].homeSize == k
    ensures k in KeyOrder(s) <==> k in SizeCounts(s)
  {
    TallyFacts(s);
  }

  /** The reference definition: the last key (in key order) whose count is maximal. */
  ghost function LastMaxIndex(keys: seq<string>, counts: map<string, nat>): (q: nat)
    requires |keys| > 0
    requires forall i :: 0 <= i < |keys| ==> keys[i] in counts
    ensures q < |keys|
    ensures forall j :: 0 <= j < |keys| ==> counts[keys[j]] <= counts[keys[q]]
    ensures forall j :: q < j < |keys| ==> counts[keys[j]] < counts[keys[q]]
  {
    if |keys| == 1 then 0
    else
      var p := LastMaxIndex(keys[..|keys| - 1], counts);
      assert forall j :: 0 <= j < |keys| - 1 ==> keys[..|keys| - 1][j] == keys[j];
      if counts[keys[|keys| - 1]] >= counts[keys[p]] then |keys| - 1 else p
  }

  lemma {:induction false} PopularIsKeyOrNA(keys: seq<string>, counts: map<string, nat>)
    ensures Popular(keys, counts) == "N/A" || Popular(keys, counts) in keys
  {
    if keys != [] {
      PopularIsKeyOrNA(keys[..|keys| - 1], counts);
      var a := Popular(keys[..|keys| - 1], counts);
      assert a in keys[..|keys| - 1] ==> a in keys;
    }
  }

  /** The strict `>` fold ends on the last key of maximal count. */
  lemma {:induction false} PopularIsLastMax(keys: seq<string>, counts: map<string, nat>, q: nat)
    requires forall i :: 0 <= i < |keys| ==> keys[i] in counts
    requires q < |keys|
    requires forall j :: 0 <= j < |keys| ==> counts[keys[j]] <= counts[keys[q]]
    requires forall j :: q < j < |keys| ==> counts[keys[j]] < counts[keys[q]]
    requires "N/A" in counts ==> counts["N/A"] <= counts[keys[q]]
    ensures Popular(keys, counts) == keys[q]
  {
    var front := keys[..|keys| - 1];
    assert forall j :: 0 <= j < |front| ==> front[j] == keys[j];
    if q == |keys| - 1 {
      PopularIsKeyOrNA(front, counts);
      var a := Popular(front, counts);
      if a != "N/A" {
        var j :| 0 <= j < |front| && front[j] == a;
      }
    } else {
      PopularIsLastMax(front, counts, q);
    }
  }

  /** r stands in the key order at some position after which every key has a strictly smaller count. */
  ghost predicate LaterKeysCountLess(s: seq<SavedQuote>, r: string) {
    var keys := KeyOrder(s);
    exists p :: 0 <= p < |keys| && keys[p] == r && forall j :: p < j < |keys| ==> Count(s, keys[j]) < Count(s, r)
  }

  /** mostPopularSize on a non-empty history: an occurring home size of maximal count, the last such in first-insertion order. */
  lemma MostPopularSize(s: seq<SavedQuote>)
    requires |s| > 0
    ensures exists i :: 0 <= i < |s| && s[i].homeSize == StatsOf(s).mostPopularSize
    ensures forall k :: Count(s, k) <= Count(s, StatsOf(s).mostPopularSize)
    ensures LaterKeysCountLess(s, StatsOf(s).mostPopularSize)
  {
    TallyFacts(s);
    var keys, counts := KeyOrder(s), SizeCounts(s);
    assert s[0].homeSize in keys;
    var q := LastMaxIndex(keys, counts);
    if "N/A" in counts {
      var j :| 0 <= j < |keys| && keys[j] == "N/A";
    }
    PopularIsLastMax(keys, counts, q);
    assert StatsOf(s).mostPopularSize == keys[q];
    forall k ensures Count(s, k) <= Count(s, keys[q]) {
      if k in counts {
        var j :| 0 <= j < |keys| && keys[j] == k;
      }
    }
  }

  /** On a non-empty history the totals are the rounded sum and the rounded unrounded-sum average. */
  lemma StatsTotals(s: seq<SavedQuote>)
    ensures |s| == 0 ==> StatsOf(s) == Stats(0, 0.0, 0.0, "N/A")
    ensures |s| > 0 ==> StatsOf(s).totalQuotes == |s|
    ensures |s| > 0 ==> StatsOf(s).totalRevenue == Round2(Revenue(s))
    ensures |s| > 0 ==> StatsOf(s).averageQuote == Round2(Revenue(s) / |s| as real)
  {
  }

  /** The worked example: two 2 Bedroom quotes of 100 and a Studio quote of 50. */
  lemma ExampleStats()
    ensures StatsOf([SavedQuote(1, 0, "2 Bedroom", "Weekly", 100.0),
                     SavedQuote(2, 0, "2 Bedroom", "Weekly", 100.0),
                     SavedQuote(3, 0, "Studio", "Weekly", 50.0)])
      == Stats(3, 83.33, 250.0, "2 Bedroom")
  {
    var a := SavedQuote(1, 0, "2 Bedroom", "Weekly", 100.0);
    var b := SavedQuote(2, 0, "2 Bedroom", "Weekly", 100.0);
    var c := SavedQuote(3, 0, "Studio", "Weekly", 50.0);
    var s := [a, b, c];
    assert s[..2] == [a, b] && [a, b][..1] == [a] && [a][..0] == [];
    assert SizeCounts([a]) == map["2 Bedroom" := 1];
    assert SizeCounts([a, b]) == map["2 Bedroom" := 2];
    assert SizeCounts(s) == map["2 Bedroom" := 2, "Studio" := 1];
    assert KeyOrder([a]) == ["2 Bedroom"];
    assert KeyOrder([a, b]) == ["2 Bedroom"];
    assert KeyOrder(s) == ["2 Bedroom", "Studio"];
    assert ["2 Bedroom", "Studio"][..1] == ["2 Bedroom"] && ["2 Bedroom"][..0] == [];
    assert Revenue([a]) == 100.0;
    assert Revenue([a, b]) == 200.0;
    assert Revenue(s) == 250.0;
    Round2Exact(250.0);
    assert (250.0 / 3.0 * 100.0 + 0.5).Floor == 8333;
  }

  // ---------------------------------------------------------------------------
  // Save and delete together
  // ---------------------------------------------------------------------------

  /** A saved quote is found under its new Id, and deleting that Id restores the history as it was. */
  lemma DeleteUndoesSave(s: seq<SavedQuote>, saved: SavedQuote)
    requires saved.id == NextId(s)
    ensures FirstWithId(s + [saved], saved.id) == Some(|s|)
    ensures (s + [saved])[..|s|] + (s + [saved])[|s| + 1..] == s
  {
    var t := s + [saved];
    assert t[..|s|] == s;
    assert forall i :: 0 <= i < |s| ==> t[i] == s[i];
    assert t[|s|].id == saved.id;
    var r := FirstWithId(t, saved.id);
    assert r.Some?;
    assert r.value == |s|;
  }

  // ---------------------------------------------------------------------------
  // The service object
  // ---------------------------------------------------------------------------

  class QuoteHistoryService {
    const log: QuoteLog

    constructor (log: QuoteLog)
      ensures this.log == log
    {
      this.log := log;
    }

    /** getAll: a sorted copy; the stored order is untouched. */
    method GetAll() returns (r: seq<SavedQuote>)
      ensures r == SortByDate(log.records)
      ensures DateDescending(r) && multiset(r) == multiset(log.records)
      ensures forall d :: WithDate(r, d) == WithDate(log.records, d)
    {
      r := SortByDate(log.records);
      SortByDateCorrect(log.records);
    }

    /** getById: the first record with that Id, or a not-found error. */
    method GetById(id: int) returns (r: Result<SavedQuote>)
      ensures r.Err? <==> forall i :: 0 <= i < |log.records| ==> log.records[i].id != id
      ensures r.Err? ==> r.error == QuoteNotFound(id)
      ensures r.Ok? ==> r.value.id == id && r.value in log.records
      ensures r.Ok? ==> exists i :: 0 <= i < |log.records| && log.records[i] == r.value && (forall j :: 0 <= j < i ==> log.records[j].id != id)
    {
      match FirstWithId(log.records, id)
      case None => r := Err(QuoteNotFound(id));
      case Some(i) => r := Ok(log.records[i]);
    }

    /** getRecent: the first five of the date-sorted order (all of it when there are fewer). */
    method GetRecent() returns (r: seq<SavedQuote>)
      ensures |r| == if |log.records| < 5 then |log.records| else 5
      ensures r == SortByDate(log.records)[..|r|]
      ensures DateDescending(r)
      ensures forall x :: x in r ==> x in log.records
    {
      var sorted := SortByDate(log.records);
      SortByDateCorrect(log.records);
      r := sorted[..if |sorted| < 5 then |sorted| else 5];
      forall x | x in r ensures x in log.records {
        assert x in multiset(sorted);
      }
    }

    /** getStats: count, rounded revenue, rounded average and most popular home size. */
    method GetStats() returns (st: Stats)
      ensures st == StatsOf(log.records)
    {
      var records := log.records;
      if |records| == 0 {
        return Stats(0, 0.0, 0.0, "N/A");
      }
      var totalQuotes := |records|;
      var totalRevenue := Revenue(records);
      var averageQuote := totalRevenue / totalQuotes as real;

      var sizeCount: map<string, nat> := map[];
      var keys: seq<string> := [];
      var i := 0;
      while i < |records|
        invariant 0 <= i <= |records|
        invariant sizeCount == SizeCounts(records[..i])
        invariant keys == KeyOrder(records[..i])
      {
        var size := records[i].homeSize;
        assert records[..i + 1][..i] == records[..i];
        if size !in sizeCount {
          keys := keys + [size];
        }
        sizeCount := sizeCount[size := (if size in sizeCount then sizeCount[size] else 0) + 1];
        i := i + 1;
      }
      assert records[..|records|] == records;
      var mostPopularSize := Popular(keys, sizeCount);

      st := Stats(totalQuotes, Round2(averageQuote), Round2(totalRevenue), mostPopularSize);
    }

    /** delete: removes the first record with that Id and returns it, or fails and changes nothing. */
    method Delete(id: int) returns (r: Result<SavedQuote>)
      modifies log
      ensures (forall i :: 0 <= i < |old(log.records)| ==> old(log.records)[i].id != id) ==>
        r == Err(QuoteNotFound(id)) && log.records == old(log.records)
      ensures FirstWithId(old(log.records), id).Some? ==>
        var i := FirstWithId(old(log.records), id).value;
        && r == Ok(old(log.records)[i])
        && log.records == old(log.records)[..i] + old(log.records)[i + 1..]
        && |log.records| == |old(log.records)| - 1
    {
      match FirstWithId(log.records, id)
      case None =>
        r := Err(QuoteNotFound(id));
      case Some(i) =>
        r := Ok(log.records[i]);
        log.records := log.records[..i] + log.records[i + 1..];
    }
  }
}
