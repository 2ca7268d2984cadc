/** The county selector's list: the distinct county names of the data set,
    in order of first appearance, stably sorted by their position in
    `GeoOrder`, with every county missing from `GeoOrder` given key 999.
    Also the live feed's spelling normalisation of county names. */
module CountyOrder {
  import opened Registry
  import MockData

  /** The sort key of counties missing from `GeoOrder`. */
  const Unlisted := 999

  // ---------------------------------------------------------------------
  // Spelling normalisation
  // ---------------------------------------------------------------------

  /** One character of `str.replace('台', '臺')`. */
  function NormalizeChar(ch: char): char
  {
    if ch == '台' then '臺' else ch
  }

  /** A county name with every '台' replaced by '臺'. */
  function NormalizeCounty(name: string): (r: string)
    ensures |r| == |name|
    ensures forall i :: 0 <= i < |name| ==> r[i] == NormalizeChar(name[i])
    ensures '台' !in r
  {
    if name == [] then [] else [NormalizeChar(name[0])] + NormalizeCounty(name[1..])
  }

  /** Normalising twice is normalising once. */
  lemma NormalizeIdempotent(name: string)
    ensures NormalizeCounty(NormalizeCounty(name)) == NormalizeCounty(name)
  {
  }

  /** A name without '台' is left as it is. */
  lemma NormalizeFixesPlainNames(name: string)
    requires '台' !in name
    ensures NormalizeCounty(name) == name
  {
  }

  /** Every name of the display order is already in normal form, so a
      normalised feed name is listed exactly when its spelling matches. */
  lemma NormalizeFixesGeoOrder()
    ensures forall i :: 0 <= i < |GeoOrder| ==> NormalizeCounty(GeoOrder[i]) == GeoOrder[i]
  {
    forall i | 0 <= i < |GeoOrder|
      ensures NormalizeCounty(GeoOrder[i]) == GeoOrder[i]
    {
      NormalizeFixesPlainNames(GeoOrder[i]);
    }
  }

  /** The feed's '台中市' becomes the listed '臺中市'. */
  lemma NormalizeTaichung()
    ensures NormalizeCounty("台中市") == "臺中市"
    ensures "台中市" !in GeoOrder && "臺中市" in GeoOrder
  {
    assert GeoOrder[7] == "臺中市";
  }

  // ---------------------------------------------------------------------
  // Positions, first appearances
  // ---------------------------------------------------------------------

  /** Position of the first occurrence of `x` in `s`, or -1 when absent. */
  function IndexOf(s: seq<string>, x: string): (i: int)
    ensures x in s ==> 0 <= i < |s| && s[i] == x && forall j :: 0 <= j < i ==> s[j] != x
    ensures x !in s ==> i == -1
  {
    if s == [] then -1
    else if s[0] == x then 0
    else
      var j := IndexOf(s[1..], x);
      if j < 0 then -1 else j + 1
  }

  /** The distinct elements of `s` in order of first appearance (pandas' `unique`). */
  function Unique(s: seq<string>): (u: seq<string>)
    ensures forall x :: x in u <==> x in s
    ensures forall i, j :: 0 <= i < j < |u| ==> IndexOf(s, u[i]) < IndexOf(s, u[j])
  {
    if s == [] then []
    else
      var init := s[..|s| - 1];
      var last := s[|s| - 1];
      var u := Unique(init);
      assert s == init + [last];
      IndexOfExtend(init, last);
      if last in u then u else u + [last]
  }

  /** Appending an element leaves the first positions of earlier elements alone
      and puts a new element at the end. */
  lemma IndexOfExtend(s: seq<string>, y: string)
    ensures forall x :: x in s ==> IndexOf(s + [y], x) == IndexOf(s, x)
    ensures y !in s ==> IndexOf(s + [y], y) == |s|
  {
    forall x | x in s
      ensures IndexOf(s + [y], x) == IndexOf(s, x)
    {
      var i := IndexOf(s, x);
      var k := IndexOf(s + [y], x);
      assert (s + [y])[i] == x;
    }
  }

  /** The elements of `Unique` occur once each. */
  lemma UniqueIsDistinct(s: seq<string>)
    ensures Distinct(Unique(s))
  {
  }

  // ---------------------------------------------------------------------
  // Stable sort by display position
  // ---------------------------------------------------------------------

  /** `geo_order.index(c)` for listed counties, 999 for the rest. */
  function SortKey(county: string): (k: nat)
    ensures county in GeoOrder ==> k < |GeoOrder| && GeoOrder[k] == county
    ensures county !in GeoOrder ==> k == Unlisted
  {
    if county in GeoOrder then IndexOf(GeoOrder, county) else Unlisted
  }

  /** Keys never decrease along `s`. */
  predicate SortedBy(s: seq<string>, key: string -> nat)
  {
    forall i, j :: 0 <= i < j < |s| ==> key(s[i]) <= key(s[j])
  }

  /** The elements of `s` with key `k`, in their order in `s`. */
  function WithKey(s: seq<string>, key: string -> nat, k: nat): seq<string>
  {
    if s == [] then []
    else (if key(s[0]) == k then [s[0]] else []) + WithKey(s[1..], key, k)
  }

  /** `x` placed before the first element whose key is not smaller. */
  function Insert(x: string, s: seq<string>, key: string -> nat): seq<string>
  {
    if s == [] then [x]
    else if key(x) <= key(s[0]) then [x] + s
    else [s[0]] + Insert(x, s[1..], key)
  }

  lemma {:induction false} InsertPermutes(x: string, s: seq<string>, key: string -> nat)
    ensures multiset(Insert(x, s, key)) == multiset(s) + multiset{x}
  {
    if s != [] && key(x) > key(s[0]) {
      InsertPermutes(x, s[1..], key);
      assert s == [s[0]] + s[1..];
    }
  }

  lemma {:induction false} InsertElements(x: string, s: seq<string>, key: string -> nat)
    ensures forall y :: y in Insert(x, s, key) <==> y == x || y in s
  {
    if s != [] && key(x) > key(s[0]) {
      InsertElements(x, s[1..], key);
      assert s == [s[0]] + s[1..];
    }
  }

  /** An element no larger than any element of a sorted list may precede it. */
  lemma SortedCons(a: string, rest: seq<string>, key: string -> nat)
    requires SortedBy(rest, key)
    requires forall y :: y in rest ==> key(a) <= key(y)
    ensures SortedBy([a] + rest, key)
  {
    var r := [a] + rest;
    forall i, j | 0 <= i < j < |r|
      ensures key(r[i]) <= key(r[j])
    {
      assert r[j] == rest[j - 1];
      if i > 0 {
        assert r[i] == rest[i - 1];
      }
    }
  }

  lemma {:induction false} InsertKeepsSorted(x: string, s: seq<string>, key: string -> nat)
    requires SortedBy(s, key)
    ensures SortedBy(Insert(x, s, key), key)
  {
    if s == [] {
    } else if key(x) <= key(s[0]) {
      assert forall y :: y in s ==> key(s[0]) <= key(y);
      SortedCons(x, s, key);
    } else {
      var rest := Insert(x, s[1..], key);
      assert SortedBy(s[1..], key);
      InsertKeepsSorted(x, s[1..], key);
      InsertElements(x, s[1..], key);
      assert forall y :: y in s[1..] ==> key(s[0]) <= key(y);
      SortedCons(s[0], rest, key);
    }
  }

  lemma {:induction false} InsertKeepsDistinct(x: string, s: seq<string>, key: string -> nat)
    requires Distinct(s) && x !in s
    ensures Distinct(Insert(x, s, key))
  {
    if s != [] && key(x) > key(s[0]) {
      var rest := Insert(x, s[1..], key);
      InsertKeepsDistinct(x, s[1..], key);
      InsertElements(x, s[1..], key);
      assert s[0] !in s[1..];
      var r := [s[0]] + rest;
      forall i, j | 0 <= i < j < |r|
        ensures r[i] != r[j]
      {
        assert r[j] == rest[j - 1];
        if i > 0 {
          assert r[i] == rest[i - 1];
        } else {
          assert r[j] in rest;
        }
      }
    }
  }

  /** `WithKey` of a sequence with one more element at the front. */
  lemma WithKeyCons(a: string, rest: seq<string>, key: string -> nat, k: nat)
    ensures WithKey([a] + rest, key, k) == (if key(a) == k then [a] else []) + WithKey(rest, key, k)
  {
    assert ([a] + rest)[1..] == rest;
  }

  lemma {:induction false} InsertWithKey(x: string, s: seq<string>, key: string -> nat, k: nat)
    ensures WithKey(Insert(x, s, key), key, k) == (if key(x) == k then [x] else []) + WithKey(s, key, k)
  {
    var own := if key(x) == k then [x] else [];
    if s == [] {
      WithKeyCons(x, [], key, k);
    } else if key(x) <= key(s[0]) {
      WithKeyCons(x, s, key, k);
    } else {
      var head := if key(s[0]) == k then [s[0]] else [];
      var rest := Insert(x, s[1..], key);
      InsertWithKey(x, s[1..], key, k);
      WithKeyCons(s[0], rest, key, k);
      WithKeyCons(s[0], s[1..], key, k);
      assert s == [s[0]] + s[1..];
      assert head == [] || own == [];
      calc {
        WithKey(Insert(x, s, key), key, k);
        WithKey([s[0]] + rest, key, k);
        head + (own + WithKey(s[1..], key, k));
        own + (head + WithKey(s[1..], key, k));
        own + WithKey(s, key, k);
      }
    }
  }

  /** Python's `sorted(s, key=key)`: a stable insertion sort. */
  function Sort(s: seq<string>, key: string -> nat): (r: seq<string>)
    ensures multiset(r) == multiset(s)
    ensures forall y :: y in r <==> y in s
    ensures Distinct(s) ==> Distinct(r)
    ensures SortedBy(r, key)
    ensures forall k :: WithKey(r, key, k) == WithKey(s, key, k)
  {
    if s == [] then []
    else
      var rest := Sort(s[1..], key);
      assert s == [s[0]] + s[1..];
      InsertPermutes(s[0], rest, key);
      InsertElements(s[0], rest, key);
      InsertKeepsSorted(s[0], rest, key);
      assert Distinct(s) ==> Distinct(Insert(s[0], rest, key)) by {
        if Distinct(s) {
          assert s[0] !in s[1..];
          InsertKeepsDistinct(s[0], rest, key);
        }
      }
      assert forall k :: WithKey(Insert(s[0], rest, key), key, k) == WithKey(s, key, k) by {
        forall k
          ensures WithKey(Insert(s[0], rest, key), key, k) == WithKey(s, key, k)
        {
          InsertWithKey(s[0], rest, key, k);
        }
      }
      Insert(s[0], rest, key)
  }

  /** The county selector's list for a county column: every county of the
      column once, ordered by display position. */
  function SortedCounties(column: seq<string>): (r: seq<string>)
    ensures forall y :: y in r <==> y in column
    ensures Distinct(r)
    ensures SortedBy(r, SortKey)
  {
    UniqueIsDistinct(column);
    Sort(Unique(column), SortKey)
  }

  // ---------------------------------------------------------------------
  // Properties of the selector's list
  // ---------------------------------------------------------------------

  /** The list holds every county of the column exactly once. */
  lemma SortedCountiesArePermutation(column: seq<string>)
    ensures multiset(SortedCounties(column)) == multiset(Unique(column))
    ensures forall x :: x in SortedCounties(column) <==> x in column
    ensures Distinct(SortedCounties(column))
  {
    UniqueIsDistinct(column);
  }

  /** Listed counties come before unlisted ones. */
  lemma ListedBeforeUnlisted(column: seq<string>)
    ensures var r := SortedCounties(column);
      forall i, j :: 0 <= i < |r| && 0 <= j < |r| && r[i] in GeoOrder && r[j] !in GeoOrder ==> i < j
  {
  }

  /** Listed counties appear in display order. */
  lemma ListedFollowGeoOrder(column: seq<string>)
    ensures var r := SortedCounties(column);
      forall i, j :: 0 <= i < j < |r| && r[i] in GeoOrder && r[j] in GeoOrder ==> SortKey(r[i]) < SortKey(r[j])
  {
    var r := SortedCounties(column);
    SortedCountiesArePermutation(column);
    forall i, j | 0 <= i < j < |r| && r[i] in GeoOrder && r[j] in GeoOrder
      ensures SortKey(r[i]) < SortKey(r[j])
    {
      assert SortKey(r[i]) <= SortKey(r[j]);
      assert r[i] != r[j];
      ListedKeysDiffer(r[i], r[j]);
    }
  }

  /** Two different listed counties have different keys. */
  lemma ListedKeysDiffer(x: string, y: string)
    requires x in GeoOrder && y in GeoOrder && x != y
    ensures SortKey(x) != SortKey(y)
  {
  }

  /** Unlisted counties keep their order of first appearance. */
  lemma UnlistedKeepOrder(column: seq<string>)
    ensures WithKey(SortedCounties(column), SortKey, Unlisted) == WithKey(Unique(column), SortKey, Unlisted)
  {
  }

  /** Sorting an already sorted sequence changes nothing. */
  lemma {:induction false} SortOfSorted(s: seq<string>, key: string -> nat)
    requires SortedBy(s, key)
    ensures Sort(s, key) == s
  {
    if s != [] {
      SortOfSorted(s[1..], key);
      if |s| > 1 {
        assert key(s[0]) <= key(s[1..][0]);
      }
      assert [s[0]] + s[1..] == s;
    }
  }

  // ---------------------------------------------------------------------
  // The selector over the fallback data set
  // ---------------------------------------------------------------------

  /** The county column of a data set. */
  function CountyColumn(rows: seq<MockData.Row>): (column: seq<string>)
    ensures |column| == |rows|
    ensures forall i :: 0 <= i < |rows| ==> column[i] == rows[i].county
  {
    seq(|rows|, i requires 0 <= i < |rows| => rows[i].county)
  }

  /** `n` copies of `x`. */
  function Repeat(x: string, n: nat): (r: seq<string>)
    ensures |r| == n && forall i :: 0 <= i < n ==> r[i] == x
  {
    seq(n, _ => x)
  }

  /** The county column a site table produces: each county once per site. */
  function Expand(counties: seq<County>): seq<string>
  {
    if counties == [] then [] else Repeat(counties[0].name, |counties[0].sites|) + Expand(counties[1..])
  }

  lemma {:induction false} ExpandAppend(a: seq<County>, b: seq<County>)
    ensures Expand(a + b) == Expand(a) + Expand(b)
  {
    if a == [] {
      assert a + b == b;
    } else {
      assert (a + b)[1..] == a[1..] + b;
      ExpandAppend(a[1..], b);
    }
  }

  lemma {:induction false} ExpandNames(counties: seq<County>)
    ensures forall x :: x in Expand(counties) ==> x in Names(counties)
  {
    if counties != [] {
      ExpandNames(counties[1..]);
      assert Names(counties) == [counties[0].name] + Names(counties[1..]);
    }
  }

  lemma {:induction false} ExpandIsFirstOfPairs(counties: seq<County>)
    ensures |Expand(counties)| == |MockData.SitePairs(counties)|
    ensures forall i :: 0 <= i < |Expand(counties)| ==> Expand(counties)[i] == MockData.SitePairs(counties)[i].0
  {
    if counties != [] {
      ExpandIsFirstOfPairs(counties[1..]);
    }
  }

  /** A run of a new element adds that element once to `Unique`. */
  lemma {:induction false} UniqueAppendRun(s: seq<string>, x: string, n: nat)
    requires x !in s && n >= 1
    ensures Unique(s + Repeat(x, n)) == Unique(s) + [x]
  {
    var shorter := s + Repeat(x, n - 1);
    assert s + Repeat(x, n) == shorter + [x];
    UniqueSnoc(shorter, x);
    if n > 1 {
      UniqueAppendRun(s, x, n - 1);
      assert x in shorter;
    } else {
      assert shorter == s;
    }
  }

  /** `Unique` of a sequence with one more element at the end. */
  lemma UniqueSnoc(s: seq<string>, y: string)
    ensures Unique(s + [y]) == if y in s then Unique(s) else Unique(s) + [y]
  {
    assert (s + [y])[..|s|] == s;
  }

  /** A site table with distinct names and no empty county yields its names. */
  lemma {:induction false} UniqueOfExpand(counties: seq<County>)
    requires Distinct(Names(counties))
    requires forall i :: 0 <= i < |counties| ==> |counties[i].sites| >= 1
    ensures Unique(Expand(counties)) == Names(counties)
  {
    if counties != [] {
      var n := |counties|;
      var init := counties[..n - 1];
      var last := counties[n - 1];
      assert counties == init + [last];
      assert Names(init) == Names(counties)[..n - 1];
      UniqueOfExpand(init);
      ExpandAppend(init, [last]);
      var run := Repeat(last.name, |last.sites|);
      assert Expand([last]) == run + Expand([]);
      assert Expand(counties) == Expand(init) + run;
      ExpandNames(init);
      assert last.name !in Names(init);
      UniqueAppendRun(Expand(init), last.name, |last.sites|);
      calc {
        Unique(Expand(counties));
        Unique(Expand(init) + run);
        Unique(Expand(init)) + [last.name];
        Names(init) + [last.name];
        Names(counties);
      }
    }
  }

  /** In a distinct sequence every element's first position is its position. */
  lemma IndexOfDistinct(s: seq<string>, i: int)
    requires Distinct(s) && 0 <= i < |s|
    ensures IndexOf(s, s[i]) == i
  {
  }

  /** The display order is itself sorted by the display-order key. */
  lemma GeoOrderIsSorted()
    ensures SortedBy(GeoOrder, SortKey)
  {
    SiteMapFollowsGeoOrder();
    forall i | 0 <= i < |GeoOrder|
      ensures SortKey(GeoOrder[i]) == i
    {
      IndexOfDistinct(GeoOrder, i);
    }
  }

  /** With the fallback data set, the selector lists exactly the display order. */
  lemma FallbackCountiesInGeoOrder(draws: seq<MockData.CountyDraw>)
    requires MockData.ValidDraws(SiteMap, draws)
    ensures SortedCounties(CountyColumn(MockData.GenerateRichMockData(draws))) == GeoOrder
  {
    SiteMapFollowsGeoOrder();
    SiteMapSitesNonEmpty();
    ListedTableInGeoOrder(SiteMap, draws);
  }

  /** Any site table naming the display order's counties, each with a site,
      yields the display order. */
  lemma ListedTableInGeoOrder(counties: seq<County>, draws: seq<MockData.CountyDraw>)
    requires MockData.ValidDraws(counties, draws)
    requires Names(counties) == GeoOrder
    requires forall i :: 0 <= i < |counties| ==> |counties[i].sites| >= 1
    ensures SortedCounties(CountyColumn(MockData.MockRows(counties, draws))) == GeoOrder
  {
    MockColumn(counties, draws);
    SiteMapFollowsGeoOrder();
    UniqueOfExpand(counties);
    GeoOrderIsSorted();
    SortOfSorted(GeoOrder, SortKey);
  }

  /** The county column of generated rows repeats each county once per site. */
  lemma MockColumn(counties: seq<County>, draws: seq<MockData.CountyDraw>)
    requires MockData.ValidDraws(counties, draws)
    ensures CountyColumn(MockData.MockRows(counties, draws)) == Expand(counties)
  {
    var rows := MockData.MockRows(counties, draws);
    MockData.MockRowsKeys(counties, draws);
    ExpandIsFirstOfPairs(counties);
    assert forall i :: 0 <= i < |rows| ==> MockData.Keys(rows)[i].0 == rows[i].county;
  }
}
