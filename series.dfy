/** Order, uniqueness and rank of the dates in a series of records, and the
    facts about them that history preparation relies on. Everything here reads
    only dates, which never change, so none of it depends on the heap. */
module Series {
  import opened Models

  /** Two records at different positions share a date. */
  predicate HasDuplicateDate<T>(s: seq<Entry<T>>) {
    exists i, j :: 0 <= i < j < |s| && s[i].date == s[j].date
  }

  predicate NonDecreasing<T>(s: seq<Entry<T>>) {
    forall i, j :: 0 <= i < j < |s| ==> s[i].date <= s[j].date
  }

  predicate StrictlyAscending<T>(s: seq<Entry<T>>) {
    forall i, j :: 0 <= i < j < |s| ==> s[i].date < s[j].date
  }

  /** `h` holds the same records as `s`, as often, in some order. */
  predicate SameRecords<T>(h: seq<Entry<T>>, s: seq<Entry<T>>) {
    multiset(h) == multiset(s)
  }

  /** `h` is what preparing `s` must produce: the same records, in strictly
      ascending date order. */
  predicate Prepared<T>(s: seq<Entry<T>>, h: seq<Entry<T>>) {
    SameRecords(h, s) && StrictlyAscending(h)
  }

  /** The number of records of `s` dated strictly before `d`: the rank that
      date `d` has in the series. */
  function CountEarlier<T>(s: seq<Entry<T>>, d: int): (n: nat)
    ensures n <= |s|
  {
    if s == [] then 0 else (if s[0].date < d then 1 else 0) + CountEarlier(s[1..], d)
  }

  lemma {:induction false} CountEarlierAppend<T>(a: seq<Entry<T>>, b: seq<Entry<T>>, d: int)
    ensures CountEarlier(a + b, d) == CountEarlier(a, d) + CountEarlier(b, d)
  {
    if a == [] {
      assert a + b == b;
    } else {
      assert (a + b)[1..] == a[1..] + b;
      CountEarlierAppend(a[1..], b, d);
    }
  }

  /** The rank of a date does not depend on the order of the records. */
  lemma {:induction false} CountEarlierPermutation<T>(a: seq<Entry<T>>, b: seq<Entry<T>>, d: int)
    requires multiset(a) == multiset(b)
    ensures CountEarlier(a, d) == CountEarlier(b, d)
    decreases |a|
  {
    if a == [] {
      assert |b| == |multiset(b)| == 0;
    } else {
      var x := a[0];
      assert x in multiset(b);
      var i :| 0 <= i < |b| && b[i] == x;
      var rest := b[..i] + b[i + 1..];
      assert b == b[..i] + ([x] + b[i + 1..]);
      assert a == [x] + a[1..];
      assert multiset(b) == multiset(b[..i]) + multiset{x} + multiset(b[i + 1..]);
      assert multiset(a) == multiset{x} + multiset(a[1..]);
      assert multiset(rest) == multiset(b[..i]) + multiset(b[i + 1..]);
      assert multiset(a[1..]) == multiset(a) - multiset{x};
      assert multiset(rest) == multiset(b) - multiset{x};
      CountEarlierPermutation(a[1..], rest, d);
      CountEarlierAppend(b[..i], [x] + b[i + 1..], d);
      CountEarlierAppend([x], b[i + 1..], d);
      CountEarlierAppend(b[..i], b[i + 1..], d);
    }
  }

  lemma {:induction false} CountEarlierNone<T>(s: seq<Entry<T>>, d: int)
    requires forall k :: 0 <= k < |s| ==> d <= s[k].date
    ensures CountEarlier(s, d) == 0
  {
    if s != [] {
      CountEarlierNone(s[1..], d);
    }
  }

  lemma {:induction false} CountEarlierAll<T>(s: seq<Entry<T>>, d: int)
    requires forall k :: 0 <= k < |s| ==> s[k].date < d
    ensures CountEarlier(s, d) == |s|
  {
    if s != [] {
      CountEarlierAll(s[1..], d);
    }
  }

  /** In a strictly ascending series the rank of a record's date is its position. */
  lemma {:induction false} CountEarlierAscending<T>(h: seq<Entry<T>>, k: nat)
    requires StrictlyAscending(h) && k < |h|
    ensures CountEarlier(h, h[k].date) == k
  {
    if k == 0 {
      CountEarlierNone(h[1..], h[0].date);
    } else {
      CountEarlierAscending(h[1..], k - 1);
    }
  }

  /** In any preparation of `s`, the record at position `k` is the one whose
      date has rank `k` in `s`. */
  lemma RankIsPosition<T>(s: seq<Entry<T>>, h: seq<Entry<T>>, k: nat)
    requires Prepared(s, h) && k < |h|
    ensures CountEarlier(s, h[k].date) == k
  {
    CountEarlierAscending(h, k);
    CountEarlierPermutation(h, s, h[k].date);
  }

  /** There is at most one preparation of a series: the sorted order of
      records with distinct dates is unique. */
  lemma PreparedUnique<T>(s: seq<Entry<T>>, h1: seq<Entry<T>>, h2: seq<Entry<T>>)
    requires Prepared(s, h1) && Prepared(s, h2)
    ensures h1 == h2
  {
    assert |h1| == |multiset(h1)| == |multiset(h2)| == |h2|;
    forall k | 0 <= k < |h1|
      ensures h1[k] == h2[k]
    {
      var x := h1[k];
      assert x in multiset(h2);
      var p :| 0 <= p < |h2| && h2[p] == x;
      RankIsPosition(s, h1, k);
      RankIsPosition(s, h2, p);
    }
  }

  lemma {:induction false} TwiceInSeq<T>(s: seq<Entry<T>>, x: Entry<T>)
    requires multiset(s)[x] >= 2
    ensures exists i, j :: 0 <= i < j < |s| && s[i] == x && s[j] == x
  {
    assert s == [s[0]] + s[1..];
    if s[0] == x {
      assert x in multiset(s[1..]);
      var j :| 0 <= j < |s[1..]| && s[1..][j] == x;
      assert s[0] == x && s[j + 1] == x;
    } else {
      TwiceInSeq(s[1..], x);
      var i, j :| 0 <= i < j < |s[1..]| && s[1..][i] == x && s[1..][j] == x;
      assert s[i + 1] == x && s[j + 1] == x;
    }
  }

  /** Whether a series has a repeated date does not depend on its order. */
  lemma DuplicatePreserved<T>(a: seq<Entry<T>>, b: seq<Entry<T>>)
    requires multiset(a) == multiset(b) && HasDuplicateDate(a)
    ensures HasDuplicateDate(b)
  {
    var p, q :| 0 <= p < q < |a| && a[p].date == a[q].date;
    if a[p] == a[q] {
      var x := a[p];
      assert a == a[..p] + [x] + a[p + 1..q] + [x] + a[q + 1..];
      assert multiset(a)[x] >= 2;
      TwiceInSeq(b, x);
      var i, j :| 0 <= i < j < |b| && b[i] == x && b[j] == x;
      assert b[i].date == b[j].date;
    } else {
      assert a[p] in multiset(b) && a[q] in multiset(b);
      var i :| 0 <= i < |b| && b[i] == a[p];
      var j :| 0 <= j < |b| && b[j] == a[q];
      if i < j {
        assert b[i].date == b[j].date;
      } else {
        assert b[j].date == b[i].date;
      }
    }
  }

  /** The records of a preparation of `s` are distinct exactly when `s` has no
      repeated date: a series has a preparation only if it is duplicate-free. */
  lemma PreparedHasNoDuplicate<T>(s: seq<Entry<T>>, h: seq<Entry<T>>)
    requires Prepared(s, h)
    ensures !HasDuplicateDate(s)
  {
    assert !HasDuplicateDate(h);
    if HasDuplicateDate(s) {
      DuplicatePreserved(s, h);
      assert false;
    }
  }

  lemma {:induction false} CountEarlierAllBut<T>(s: seq<Entry<T>>, d: int, i: nat)
    requires i < |s| && d <= s[i].date
    requires forall j :: 0 <= j < |s| && j != i ==> s[j].date < d
    ensures CountEarlier(s, d) == |s| - 1
  {
    if i == 0 {
      CountEarlierAll(s[1..], d);
    } else {
      CountEarlierAllBut(s[1..], d, i - 1);
    }
  }

  /** In a duplicate-free series the record with the latest date has the
      highest rank, one less than the length of the series. */
  lemma CountEarlierLatest<T>(s: seq<Entry<T>>, i: nat)
    requires !HasDuplicateDate(s) && i < |s|
    requires forall j :: 0 <= j < |s| ==> s[j].date <= s[i].date
    ensures CountEarlier(s, s[i].date) == |s| - 1
  {
    forall j | 0 <= j < |s| && j != i
      ensures s[j].date < s[i].date
    {
      if j < i {
        assert s[j].date != s[i].date;
      } else {
        assert s[i].date != s[j].date;
      }
    }
    CountEarlierAllBut(s, s[i].date, i);
  }

  lemma {:induction false} CountEarlierMonotone<T>(s: seq<Entry<T>>, d1: int, d2: int)
    requires d1 <= d2
    ensures CountEarlier(s, d1) <= CountEarlier(s, d2)
  {
    if s != [] {
      CountEarlierMonotone(s[1..], d1, d2);
    }
  }

  lemma {:induction false} CountEarlierGap<T>(s: seq<Entry<T>>, d1: int, d2: int, i: nat)
    requires i < |s| && d1 <= s[i].date < d2
    ensures CountEarlier(s, d1) < CountEarlier(s, d2)
  {
    if i == 0 {
      CountEarlierMonotone(s[1..], d1, d2);
    } else {
      CountEarlierGap(s[1..], d1, d2, i - 1);
    }
  }

  /** In a duplicate-free series different records have different ranks, so
      the indexes derived from ranks are distinct. */
  lemma RankInjective<T>(s: seq<Entry<T>>, i: nat, j: nat)
    requires !HasDuplicateDate(s) && i < |s| && j < |s| && i != j
    ensures CountEarlier(s, s[i].date) != CountEarlier(s, s[j].date)
  {
    if i < j {
      assert s[i].date != s[j].date;
    } else {
      assert s[j].date != s[i].date;
    }
    if s[i].date < s[j].date {
      CountEarlierGap(s, s[i].date, s[j].date, i);
    } else {
      CountEarlierGap(s, s[j].date, s[i].date, j);
    }
  }

  /** `a` and `b` carry the same dates position by position, as a projection
      and the series it was built from do. */
  predicate SameDates<A, B>(a: seq<Entry<A>>, b: seq<Entry<B>>) {
    |a| == |b| && forall k :: 0 <= k < |a| ==> a[k].date == b[k].date
  }

  lemma {:induction false} CountEarlierSameDates<A, B>(a: seq<Entry<A>>, b: seq<Entry<B>>, d: int)
    requires SameDates(a, b)
    ensures CountEarlier(a, d) == CountEarlier(b, d)
  {
    if a != [] {
      CountEarlierSameDates(a[1..], b[1..], d);
    }
  }

  lemma DuplicateSameDates<A, B>(a: seq<Entry<A>>, b: seq<Entry<B>>)
    requires SameDates(a, b)
    ensures HasDuplicateDate(a) <==> HasDuplicateDate(b)
  {
    if HasDuplicateDate(a) {
      var i, j :| 0 <= i < j < |a| && a[i].date == a[j].date;
      assert b[i].date == b[j].date;
    }
    if HasDuplicateDate(b) {
      var i, j :| 0 <= i < j < |b| && b[i].date == b[j].date;
      assert a[i].date == a[j].date;
    }
  }
}
