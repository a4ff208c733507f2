/** The scenarios the cleaner unit tests exercise, written as client methods
    whose postconditions are the tests' assertions. The 502-quote fixture is a
    parameter: any duplicate-free history, with `last` the position of its
    latest quote. */
module CleanerTests {
  import opened Models
  import opened Series
  import opened Cleaners

  /** Clears the index of every record, as a caller may before re-cleaning. */
  method ClearIndexes<T>(s: seq<Entry<T>>)
    modifies set x | x in s
    ensures forall k :: 0 <= k < |s| ==> s[k].index == None
  {
    var n := 0;
    while n < |s|
      invariant 0 <= n <= |s|
      invariant forall k :: 0 <= k < n ==> s[k].index == None
    {
      s[n].index := None;
      n := n + 1;
    }
  }

  /** The latest quote is at position `last`. */
  predicate IsLatest<T>(s: seq<Entry<T>>, last: nat) {
    last < |s| && forall j :: 0 <= j < |s| ==> s[j].date <= s[last].date
  }

  /** Preparing the history keeps its length, indexes every record with a
      positive number, and gives the latest quote, as the caller holds it,
      the index N. */
  method PrepareHistoryTest(history: seq<Quote>, last: nat) returns (h: seq<Quote>)
    requires !HasDuplicateDate(history) && IsLatest(history, last)
    modifies set x | x in history
    ensures |h| == |history|
    ensures forall k :: 0 <= k < |h| ==> h[k].index.Some? && h[k].index.value > 0
    ensures history[last].index == Some(|history|)
  {
    var r := PrepareHistory(history);
    h := r.value;
    assert |h| == |multiset(h)| == |multiset(history)| == |history|;
    CountEarlierLatest(history, last);
  }

  /** In a prepared duplicate-free history only the latest quote has index N. */
  lemma IndexNIsLatest(history: seq<Quote>, last: nat, k: nat)
    requires !HasDuplicateDate(history) && IsLatest(history, last) && IndexedByRank(history)
    requires k < |history| && history[k].index == Some(|history|)
    ensures k == last
  {
    CountEarlierLatest(history, last);
    if k != last {
      RankInjective(history, k, last);
    }
  }

  /** Projects a prepared history onto its close prices, clears the indexes of
      that series and re-cleans it: it is fully and positively indexed again,
      and its last record is the latest close, with index N. */
  method RecleanClose(history: seq<Quote>, last: nat) returns (c: seq<BasicData>)
    requires !HasDuplicateDate(history) && IsLatest(history, last)
    ensures |c| == |history|
    ensures forall k :: 0 <= k < |c| ==> c[k].index.Some? && c[k].index.value > 0
    ensures c[|c| - 1].date == history[last].date && c[|c| - 1].index == Some(|history|)
    ensures c[|c| - 1].data == history[last].data.close
    ensures StrictlyAscending(c)
  {
    assert "C" in {"O", "H", "L", "C", "V"};
    var c0 := ConvertHistoryToBasic(history, ParseElement("C").value);
    ClearIndexes(c0);
    assert SameDates(c0, history);
    DuplicateSameDates(c0, history);
    var r := PrepareBasicData(c0);
    c := r.value;
    assert |c| == |multiset(c)| == |multiset(c0)| == |history|;

    CountEarlierLatest(history, last);
    CountEarlierSameDates(c0, history, history[last].date);
    assert c0[last] in multiset(c);
    var p :| 0 <= p < |c| && c[p] == c0[last];
    RankIsPosition(c0, c, p);
  }

  /** Projects a prepared history onto each of its five fields, named by
      their one-letter codes, and re-cleans the close series after clearing
      its indexes. Each projection has a record with index N, the one built
      from the latest quote, and only that record: it holds that quote's field.
      The re-cleaned close series is in date order and ends with the latest
      close at index N. */
  method CleanBasicDataTest(history: seq<Quote>, last: nat)
    returns (o: seq<BasicData>, h: seq<BasicData>, l: seq<BasicData>, c: seq<BasicData>, v: seq<BasicData>)
    requires !HasDuplicateDate(history) && IsLatest(history, last) && IndexedByRank(history)
    ensures |o| == |h| == |l| == |c| == |v| == |history|
    ensures forall k :: 0 <= k < |c| ==> c[k].index.Some? && c[k].index.value > 0
    ensures StrictlyAscending(c)
    ensures c[|c| - 1].date == history[last].date && c[|c| - 1].index == Some(|history|)
    ensures c[|c| - 1].data == history[last].data.close
    ensures o[last].index == Some(|history|) && h[last].index == Some(|history|)
    ensures l[last].index == Some(|history|) && v[last].index == Some(|history|)
    ensures forall k :: 0 <= k < |o| && o[k].index == Some(|history|) ==> o[k].data == history[last].data.open
    ensures forall k :: 0 <= k < |h| && h[k].index == Some(|history|) ==> h[k].data == history[last].data.high
    ensures forall k :: 0 <= k < |l| && l[k].index == Some(|history|) ==> l[k].data == history[last].data.low
    ensures forall k :: 0 <= k < |v| && v[k].index == Some(|history|) ==> v[k].data == history[last].data.volume
  {
    assert "O" in {"O", "H", "L", "C", "V"} && "H" in {"O", "H", "L", "C", "V"};
    assert "L" in {"O", "H", "L", "C", "V"} && "V" in {"O", "H", "L", "C", "V"};
    o := ConvertHistoryToBasic(history, ParseElement("O").value);
    h := ConvertHistoryToBasic(history, ParseElement("H").value);
    l := ConvertHistoryToBasic(history, ParseElement("L").value);
    c := RecleanClose(history, last);
    v := ConvertHistoryToBasic(history, ParseElement("V").value);
    forall k | 0 <= k < |history| && history[k].index == Some(|history|)
      ensures k == last
    {
      IndexNIsLatest(history, last, k);
    }
    CountEarlierLatest(history, last);
  }

  /** An empty quote history is refused as having no quotes. */
  method NoHistoryTest() returns (r: Result<seq<Quote>>)
    ensures r == Err(NoHistory(Quotes))
  {
    r := PrepareHistory([]);
  }

  /** Five quotes, the last two on 2017-01-06, are refused as holding a
      duplicate date. Dates are written as yyyymmdd numbers. */
  method DuplicateHistoryTest() returns (r: Result<seq<Quote>>)
    ensures r == Err(DuplicateDate)
  {
    var q0 := new Entry<Ohlcv>(20170103, Ohlcv(214.86, 220.33, 210.96, 216.99, 5923254.0), None);
    var q1 := new Entry<Ohlcv>(20170104, Ohlcv(214.75, 228.0, 214.31, 226.99, 11213471.0), None);
    var q2 := new Entry<Ohlcv>(20170105, Ohlcv(226.42, 227.48, 221.95, 226.75, 5911695.0), None);
    var q3 := new Entry<Ohlcv>(20170106, Ohlcv(226.93, 230.31, 225.45, 229.01, 5527893.0), None);
    var q4 := new Entry<Ohlcv>(20170106, Ohlcv(228.97, 231.92, 228.0, 231.28, 3979484.0), None);
    var badHistory := [q0, q1, q2, q3, q4];
    assert badHistory[3].date == badHistory[4].date;
    r := PrepareHistory(badHistory);
  }

  /** An empty single-value series is refused as having no basic data. */
  method NoBasicDataTest() returns (r: Result<seq<BasicData>>)
    ensures r == Err(NoHistory(BasicSeries))
  {
    r := PrepareBasicData([]);
  }

  /** Five values, the last two on 2017-01-06, are refused as holding a
      duplicate date. */
  method DuplicateBasicDataTest() returns (r: Result<seq<BasicData>>)
    ensures r == Err(DuplicateDate)
  {
    var b0 := new Entry<real>(20170103, 214.86, None);
    var b1 := new Entry<real>(20170104, 214.75, None);
    var b2 := new Entry<real>(20170105, 226.42, None);
    var b3 := new Entry<real>(20170106, 226.93, None);
    var b4 := new Entry<real>(20170106, 228.97, None);
    var bd := [b0, b1, b2, b3, b4];
    assert bd[3].date == bd[4].date;
    r := PrepareBasicData(bd);
  }
}
