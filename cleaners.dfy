/** History preparation: validate a series of dated records, put it in date
    order and number its records 1..N in place; and the projection of a quote
    series onto one of its price or volume fields. */
module Cleaners {
  import opened Models
  import opened Series

  /** Which kind of series an empty input was: the two validators report an
      empty input with different messages. */
  datatype SeriesKind = Quotes | BasicSeries

  /** The bad-history failures: no records at all, or a date that occurs twice. */
  datatype BadHistory = NoHistory(kind: SeriesKind) | DuplicateDate

  datatype Result<T> = Ok(value: T) | Err(error: BadHistory)

  /** Every record's index is its 1-based position. */
  ghost predicate IndexedInOrder<T>(h: seq<Entry<T>>)
    reads set x | x in h
  {
    forall k :: 0 <= k < |h| ==> h[k].index == Some(k + 1)
  }

  /** Whether each record's index is one plus the number of records dated
      before it, as preparation leaves a series. */
  ghost predicate IndexedByRank<T>(s: seq<Entry<T>>)
    reads set x | x in s
  {
    forall i :: 0 <= i < |s| ==> s[i].index == Some(CountEarlier(s, s[i].date) + 1)
  }

  /** Numbering a preparation of `s` by position numbers every record of `s`
      by its rank, wherever it stands in `s`. */
  lemma IndexedByRankOfPrepared<T>(s: seq<Entry<T>>, h: seq<Entry<T>>)
    requires Prepared(s, h) && IndexedInOrder(h)
    ensures IndexedByRank(s)
  {
    forall i | 0 <= i < |s|
      ensures s[i].index == Some(CountEarlier(s, s[i].date) + 1)
    {
      assert s[i] in multiset(h);
      var p :| 0 <= p < |h| && h[p] == s[i];
      RankIsPosition(s, h, p);
    }
  }

  /** Exchanges the records at positions j-1 and j. */
  method Swap<T>(a: array<Entry<T>>, j: int)
    requires 0 < j < a.Length
    modifies a
    ensures a[..] == old(a[..])[j - 1 := old(a[j])][j := old(a[j - 1])]
    ensures SameRecords(a[..], old(a[..]))
  {
    a[j - 1], a[j] := a[j], a[j - 1];
  }

  /** Moves the record at position i down into the sorted prefix before it. */
  method InsertAt<T>(a: array<Entry<T>>, i: int)
    requires 0 <= i < a.Length && NonDecreasing(a[..i])
    modifies a
    ensures NonDecreasing(a[..i + 1])
    ensures SameRecords(a[..], old(a[..]))
    ensures a[i + 1..] == old(a[i + 1..])
  {
    var j := i;
    while j > 0 && a[j - 1].date > a[j].date
      invariant 0 <= j <= i
      invariant forall p, q :: 0 <= p < q <= i && p != j && q != j ==> a[p].date <= a[q].date
      invariant forall q :: j < q <= i ==> a[j].date < a[q].date
      invariant SameRecords(a[..], old(a[..]))
      invariant a[i + 1..] == old(a[i + 1..])
    {
      Swap(a, j);
      j := j - 1;
    }
  }

  /** Sorts the records of `a` by date, keeping the same records. */
  method SortByDate<T>(a: array<Entry<T>>)
    modifies a
    ensures NonDecreasing(a[..])
    ensures SameRecords(a[..], old(a[..]))
  {
    var i := 0;
    while i < a.Length
      invariant 0 <= i <= a.Length
      invariant NonDecreasing(a[..i])
      invariant SameRecords(a[..], old(a[..]))
    {
      InsertAt(a, i);
      i := i + 1;
    }
    assert a[..i] == a[..];
  }

  /** Scans a date-sorted series for two neighbours with the same date, which
      in sorted order is the same as any two records sharing a date. */
  method FindDuplicateDate<T>(h: seq<Entry<T>>) returns (found: bool)
    requires NonDecreasing(h)
    ensures found <==> HasDuplicateDate(h)
    ensures !found ==> StrictlyAscending(h)
  {
    if h == [] {
      return false;
    }
    var k := 1;
    while k < |h|
      invariant 1 <= k <= |h|
      invariant StrictlyAscending(h[..k])
    {
      if h[k - 1].date == h[k].date {
        return true;
      }
      k := k + 1;
    }
    return false;
  }

  /** Writes index k+1 into the record at position k. */
  method AssignIndexes<T>(h: seq<Entry<T>>)
    requires StrictlyAscending(h)
    modifies set x | x in h
    ensures IndexedInOrder(h)
  {
    var n := 0;
    while n < |h|
      invariant 0 <= n <= |h|
      invariant forall j :: 0 <= j < n ==> h[j].index == Some(j + 1)
    {
      h[n].index := Some(n + 1);
      n := n + 1;
    }
  }

  /** Validates `s` and numbers its records in date order. An empty series and
      a series with a repeated date are refused before any record is touched.
      Otherwise the result holds the same records in ascending date order with
      index k+1 at position k, and since the indexes are written into the
      records themselves, every record the caller holds carries one plus the
      number of records dated before it. Indexes already present are ignored. */
  method Prepare<T>(s: seq<Entry<T>>, kind: SeriesKind) returns (r: Result<seq<Entry<T>>>)
    modifies set x | x in s
    ensures r.Ok? <==> s != [] && !HasDuplicateDate(s)
    ensures s == [] <==> r == Err(NoHistory(kind))
    ensures r == Err(DuplicateDate) <==> s != [] && HasDuplicateDate(s)
    ensures r.Ok? ==> Prepared(s, r.value) && IndexedInOrder(r.value)
    ensures r.Ok? ==> IndexedByRank(s)
    ensures r.Err? ==> forall i :: 0 <= i < |s| ==> s[i].index == old(s[i].index)
  {
    if |s| == 0 {
      return Err(NoHistory(kind));
    }
    var a := new Entry<T>[|s|](i requires 0 <= i < |s| => s[i]);
    assert a[..] == s;
    SortByDate(a);
    var h := a[..];

    var found := FindDuplicateDate(h);
    if found {
      DuplicatePreserved(h, s);
      return Err(DuplicateDate);
    }
    PreparedHasNoDuplicate(s, h);
    forall x | x in h
      ensures x in s
    {
      assert x in multiset(h);
    }
    AssignIndexes(h);

    IndexedByRankOfPrepared(s, h);
    return Ok(h);
  }

  /** Validates and indexes a quote series. */
  method PrepareHistory(history: seq<Quote>) returns (r: Result<seq<Quote>>)
    modifies set x | x in history
    ensures r.Ok? <==> history != [] && !HasDuplicateDate(history)
    ensures history == [] <==> r == Err(NoHistory(Quotes))
    ensures r == Err(DuplicateDate) <==> history != [] && HasDuplicateDate(history)
    ensures r.Ok? ==> Prepared(history, r.value) && IndexedInOrder(r.value)
    ensures r.Ok? ==> IndexedByRank(history)
    ensures r.Err? ==> forall i :: 0 <= i < |history| ==> history[i].index == old(history[i].index)
  {
    r := Prepare(history, Quotes);
  }

  /** Validates and indexes a single-value series. */
  method PrepareBasicData(basicData: seq<BasicData>) returns (r: Result<seq<BasicData>>)
    modifies set x | x in basicData
    ensures r.Ok? <==> basicData != [] && !HasDuplicateDate(basicData)
    ensures basicData == [] <==> r == Err(NoHistory(BasicSeries))
    ensures r == Err(DuplicateDate) <==> basicData != [] && HasDuplicateDate(basicData)
    ensures r.Ok? ==> Prepared(basicData, r.value) && IndexedInOrder(r.value)
    ensures r.Ok? ==> IndexedByRank(basicData)
    ensures r.Err? ==> forall i :: 0 <= i < |basicData| ==> basicData[i].index == old(basicData[i].index)
  {
    r := Prepare(basicData, BasicSeries);
  }

  /** The quote field a single-value series is built from. */
  datatype Element = Open | High | Low | Close | Volume

  /** The one-letter code that names an element. */
  function ElementCode(e: Element): (c: string)
    ensures c in {"O", "H", "L", "C", "V"}
  {
    match e
    case Open => "O"
    case High => "H"
    case Low => "L"
    case Close => "C"
    case Volume => "V"
  }

  /** Reads an element code; only the five one-letter codes name an element. */
  function ParseElement(c: string): (r: Option<Element>)
    ensures r.Some? <==> c in {"O", "H", "L", "C", "V"}
    ensures r.Some? ==> ElementCode(r.value) == c
  {
    if c == "O" then Some(Open)
    else if c == "H" then Some(High)
    else if c == "L" then Some(Low)
    else if c == "C" then Some(Close)
    else if c == "V" then Some(Volume)
    else None
  }

  lemma ElementCodeRoundTrip(e: Element)
    ensures ParseElement(ElementCode(e)) == Some(e)
  {
  }

  function Field(q: Ohlcv, e: Element): real {
    match e
    case Open => q.open
    case High => q.high
    case Low => q.low
    case Close => q.close
    case Volume => q.volume
  }

  /** Builds a new single-value series from one field of each quote. Entry k
      is a fresh record with the date and the index of quote k and the value
      of its chosen field; the quotes themselves are not changed. */
  method ConvertHistoryToBasic(history: seq<Quote>, element: Element) returns (basicData: seq<BasicData>)
    ensures |basicData| == |history|
    ensures forall k :: 0 <= k < |history| ==>
      basicData[k].date == history[k].date &&
      basicData[k].index == history[k].index &&
      basicData[k].data == Field(history[k].data, element)
    ensures forall k :: 0 <= k < |basicData| ==> fresh(basicData[k])
    ensures forall j, k :: 0 <= j < k < |basicData| ==> basicData[j] != basicData[k]
  {
    basicData := [];
    var k := 0;
    while k < |history|
      invariant 0 <= k <= |history|
      invariant |basicData| == k
      invariant forall j :: 0 <= j < k ==>
        basicData[j].date == history[j].date &&
        basicData[j].index == history[j].index &&
        basicData[j].data == Field(history[j].data, element)
      invariant forall j :: 0 <= j < k ==> fresh(basicData[j])
      invariant forall i, j :: 0 <= i < j < k ==> basicData[i] != basicData[j]
    {
      var b := new Entry<real>(history[k].date, Field(history[k].data, element), history[k].index);
      basicData := basicData + [b];
      k := k + 1;
    }
  }
}
