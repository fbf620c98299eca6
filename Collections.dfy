/**
 * The collection operations the extractors and the analyser lean on: the
 * `defaultdict` size histogram filled in nested loops, the `defaultdict(list)`
 * grouping of words by row, Python's `max(d, key=d.get)`, `sorted` over the
 * keys of a dictionary, and the stable `sorted`/`list.sort` with a key.
 */
module Collections {

  // ---------------------------------------------------------------------
  // Histogram
  // ---------------------------------------------------------------------

  /** The items of all groups, group after group. */
  function Flatten<T>(groups: seq<seq<T>>): seq<T>
  {
    if groups == [] then [] else Flatten(groups[..|groups| - 1]) + groups[|groups| - 1]
  }

  /** Flattening one more group appends it. */
  lemma FlattenSnoc<T>(g: seq<seq<T>>, p: nat)
    requires p < |g|
    ensures Flatten(g[..p + 1]) == Flatten(g[..p]) + g[p]
  {
    assert g[..p + 1][..p] == g[..p];
  }

  /** The distinct items of `xs` in order of first appearance: the key order of a dict filled from `xs`. */
  function FirstSeen<T(==)>(xs: seq<T>): (r: seq<T>)
    ensures forall i :: 0 <= i < |r| ==> r[i] in xs
    ensures forall i :: 0 <= i < |xs| ==> xs[i] in r
    ensures forall i, j :: 0 <= i < j < |r| ==> r[i] != r[j]
  {
    if xs == [] then []
    else
      var p := FirstSeen(xs[..|xs| - 1]);
      if xs[|xs| - 1] in p then p else p + [xs[|xs| - 1]]
  }

  /** The `defaultdict(int)` that counts the items of `xs`, one `+= 1` per item. */
  function Histogram<T(==)>(xs: seq<T>): map<T, nat>
  {
    if xs == [] then map[]
    else
      var h := Histogram(xs[..|xs| - 1]);
      var x := xs[|xs| - 1];
      h[x := (if x in h then h[x] else 0) + 1]
  }

  /** The histogram has a key for each item seen, and no other. */
  lemma {:induction false} HistogramKeys<T>(xs: seq<T>)
    ensures forall x :: x in Histogram(xs) <==> x in xs
  {
    if xs != [] {
      var init := xs[..|xs| - 1];
      HistogramKeys(init);
      assert xs == init + [xs[|xs| - 1]];
    }
  }

  /** The histogram has a key for each item seen, holding the number of its occurrences. */
  lemma {:induction false} HistogramCounts<T(!new)>(xs: seq<T>)
    ensures forall x :: x in Histogram(xs) <==> x in xs
    ensures forall x :: x in Histogram(xs) ==> Histogram(xs)[x] == multiset(xs)[x]
  {
    if xs != [] {
      var init, x := xs[..|xs| - 1], xs[|xs| - 1];
      HistogramCounts(init);
      assert xs == init + [x];
      assert multiset(xs) == multiset(init) + multiset{x};
    }
  }

  /** One `+= 1` extends the histogram, and the key order when the key is new. */
  lemma TallyStep<T(!new)>(xs: seq<T>, x: T)
    ensures Histogram(xs + [x]) == Histogram(xs)[x := (if x in Histogram(xs) then Histogram(xs)[x] else 0) + 1]
    ensures FirstSeen(xs + [x]) == if x in Histogram(xs) then FirstSeen(xs) else FirstSeen(xs) + [x]
  {
    assert (xs + [x])[..|xs|] == xs;
    HistogramKeys(xs);
    if x !in Histogram(xs) {
      assert x !in FirstSeen(xs);
    }
  }

  /** `counts[x] += 1` on a `defaultdict(int)` whose key order is `order`. */
  method Bump<T(==,!new)>(counts0: map<T, nat>, order0: seq<T>, x: T, ghost seen: seq<T>)
    returns (counts: map<T, nat>, order: seq<T>)
    requires counts0 == Histogram(seen) && order0 == FirstSeen(seen)
    ensures counts == Histogram(seen + [x]) && order == FirstSeen(seen + [x])
  {
    TallyStep(seen, x);
    if x in counts0 {
      counts, order := counts0[x := counts0[x] + 1], order0;
    } else {
      counts, order := counts0[x := 1], order0 + [x];
    }
  }

  /** `counts[x] += 1` for every item of one group. */
  method TallyGroup<T(==,!new)>(counts0: map<T, nat>, order0: seq<T>, group: seq<T>, ghost done: seq<T>)
    returns (counts: map<T, nat>, order: seq<T>)
    requires counts0 == Histogram(done) && order0 == FirstSeen(done)
    ensures counts == Histogram(done + group) && order == FirstSeen(done + group)
  {
    counts, order := counts0, order0;
    assert done + group[..0] == done;
    for i := 0 to |group|
      invariant counts == Histogram(done + group[..i]) && order == FirstSeen(done + group[..i])
    {
      assert done + group[..i + 1] == (done + group[..i]) + [group[i]];
      counts, order := Bump(counts, order, group[i], done + group[..i]);
    }
    assert group[..|group|] == group;
  }

  /**
   * `counts[x] += 1` for every item of every group, on a `defaultdict(int)`;
   * `order` is the dictionary's key order.
   */
  method CountOccurrences<T(==,!new)>(groups: seq<seq<T>>) returns (counts: map<T, nat>, order: seq<T>)
    ensures counts == Histogram(Flatten(groups)) && order == FirstSeen(Flatten(groups))
    ensures forall x :: x in counts <==> x in Flatten(groups)
    ensures forall x :: x in counts ==> counts[x] == multiset(Flatten(groups))[x]
  {
    counts, order := map[], [];
    var p := 0;
    while p < |groups|
      invariant 0 <= p <= |groups|
      invariant counts == Histogram(Flatten(groups[..p])) && order == FirstSeen(Flatten(groups[..p]))
    {
      assert groups[..p + 1][..p] == groups[..p];
      counts, order := TallyGroup(counts, order, groups[p], Flatten(groups[..p]));
      p := p + 1;
    }
    assert groups[..p] == groups;
    HistogramCounts(Flatten(groups));
  }

  /** The position of Python's `max(order, key=counts.get)`: the first key with the largest count. */
  function FirstMaxIndex<T(==)>(order: seq<T>, counts: map<T, nat>): (m: nat)
    requires |order| > 0
    requires forall i :: 0 <= i < |order| ==> order[i] in counts
    ensures m < |order|
    ensures forall i :: 0 <= i < |order| ==> counts[order[i]] <= counts[order[m]]
    ensures forall i :: 0 <= i < m ==> counts[order[i]] < counts[order[m]]
  {
    if |order| == 1 then 0
    else
      var best := FirstMaxIndex(order[..|order| - 1], counts);
      if counts[order[|order| - 1]] > counts[order[best]] then |order| - 1 else best
  }

  // ---------------------------------------------------------------------
  // Sorting the keys of a dictionary
  // ---------------------------------------------------------------------

  ghost predicate Distinct<T>(xs: seq<T>)
  {
    forall i, j :: 0 <= i < j < |xs| ==> xs[i] != xs[j]
  }

  /** `r` holds the elements of `xs`, as many as there are. */
  ghost predicate Lists<T>(r: seq<T>, xs: seq<T>)
  {
    |r| == |xs| && (forall i :: 0 <= i < |r| ==> r[i] in xs) && (forall i :: 0 <= i < |xs| ==> xs[i] in r)
  }

  predicate StrictlyDescending(r: seq<int>)
  {
    forall i, j :: 0 <= i < j < |r| ==> r[i] > r[j]
  }

  predicate StrictlyAscending(r: seq<int>)
  {
    forall i, j :: 0 <= i < j < |r| ==> r[i] < r[j]
  }

  function MaxIndex(xs: seq<int>): (m: nat)
    requires |xs| > 0
    ensures m < |xs| && forall i :: 0 <= i < |xs| ==> xs[i] <= xs[m]
  {
    if |xs| == 1 then 0
    else
      var b := MaxIndex(xs[..|xs| - 1]);
      if xs[|xs| - 1] > xs[b] then |xs| - 1 else b
  }

  function MinIndex(xs: seq<int>): (m: nat)
    requires |xs| > 0
    ensures m < |xs| && forall i :: 0 <= i < |xs| ==> xs[m] <= xs[i]
  {
    if |xs| == 1 then 0
    else
      var b := MinIndex(xs[..|xs| - 1]);
      if xs[|xs| - 1] < xs[b] then |xs| - 1 else b
  }

  function RemoveAt<T>(xs: seq<T>, m: nat): seq<T>
    requires m < |xs|
  {
    xs[..m] + xs[m + 1..]
  }

  /** Removing one element of a duplicate-free sequence leaves exactly the others. */
  lemma RemoveAtFacts<T>(xs: seq<T>, m: nat)
    requires m < |xs| && Distinct(xs)
    ensures |RemoveAt(xs, m)| == |xs| - 1
    ensures Distinct(RemoveAt(xs, m))
    ensures forall i :: 0 <= i < |RemoveAt(xs, m)| ==> RemoveAt(xs, m)[i] in xs && RemoveAt(xs, m)[i] != xs[m]
    ensures forall i :: 0 <= i < |xs| && i != m ==> xs[i] in RemoveAt(xs, m)
  {
    var t := RemoveAt(xs, m);
    assert forall i :: 0 <= i < |t| ==> t[i] == if i < m then xs[i] else xs[i + 1];
    forall i | 0 <= i < |xs| && i != m ensures xs[i] in t {
      if i < m { assert t[i] == xs[i]; } else { assert t[i - 1] == xs[i]; }
    }
  }

  lemma ConsMax(xs: seq<int>, m: nat, rest: seq<int>)
    requires m < |xs| && Distinct(xs) && forall i :: 0 <= i < |xs| ==> xs[i] <= xs[m]
    requires Lists(rest, RemoveAt(xs, m)) && StrictlyDescending(rest)
    ensures Lists([xs[m]] + rest, xs) && StrictlyDescending([xs[m]] + rest)
  {
    RemoveAtFacts(xs, m);
    var t := RemoveAt(xs, m);
    var r := [xs[m]] + rest;
    forall i | 0 <= i < |r| ensures r[i] in xs {
      if i > 0 { assert rest[i - 1] in t; }
    }
    forall i | 0 <= i < |xs| ensures xs[i] in r {
      if i != m { assert xs[i] in t; assert xs[i] in rest; }
    }
    forall i, j | 0 <= i < j < |r| ensures r[i] > r[j] {
      assert rest[j - 1] in t;
    }
  }

  lemma ConsMin(xs: seq<int>, m: nat, rest: seq<int>)
    requires m < |xs| && Distinct(xs) && forall i :: 0 <= i < |xs| ==> xs[m] <= xs[i]
    requires Lists(rest, RemoveAt(xs, m)) && StrictlyAscending(rest)
    ensures Lists([xs[m]] + rest, xs) && StrictlyAscending([xs[m]] + rest)
  {
    RemoveAtFacts(xs, m);
    var t := RemoveAt(xs, m);
    var r := [xs[m]] + rest;
    forall i | 0 <= i < |r| ensures r[i] in xs {
      if i > 0 { assert rest[i - 1] in t; }
    }
    forall i | 0 <= i < |xs| ensures xs[i] in r {
      if i != m { assert xs[i] in t; assert xs[i] in rest; }
    }
    forall i, j | 0 <= i < j < |r| ensures r[i] < r[j] {
      assert rest[j - 1] in t;
    }
  }

  /** `sorted(keys, reverse=True)` over the keys of a dictionary, which are distinct. */
  function Descending(xs: seq<int>): (r: seq<int>)
    requires Distinct(xs)
    ensures Lists(r, xs) && StrictlyDescending(r)
    decreases |xs|
  {
    if xs == [] then []
    else
      var m := MaxIndex(xs);
      RemoveAtFacts(xs, m);
      var rest := Descending(RemoveAt(xs, m));
      ConsMax(xs, m, rest);
      [xs[m]] + rest
  }

  /** `sorted(keys)` over the keys of a dictionary, which are distinct. */
  function Ascending(xs: seq<int>): (r: seq<int>)
    requires Distinct(xs)
    ensures Lists(r, xs) && StrictlyAscending(r)
    decreases |xs|
  {
    if xs == [] then []
    else
      var m := MinIndex(xs);
      RemoveAtFacts(xs, m);
      var rest := Ascending(RemoveAt(xs, m));
      ConsMin(xs, m, rest);
      [xs[m]] + rest
  }

  /** Entry `k` of a strictly descending listing is an element, and only the entries before it are larger. */
  lemma DescendingRank(sorted: seq<int>, xs: seq<int>, k: nat)
    requires StrictlyDescending(sorted) && k < |sorted|
    requires (forall i :: 0 <= i < |sorted| ==> sorted[i] in xs) && (forall i :: 0 <= i < |xs| ==> xs[i] in sorted)
    ensures sorted[k] in xs
    ensures forall i :: 0 <= i < |xs| && xs[i] > sorted[k] ==> xs[i] in sorted[..k]
  {
    forall i | 0 <= i < |xs| && xs[i] > sorted[k] ensures xs[i] in sorted[..k] {
      var j :| 0 <= j < |sorted| && sorted[j] == xs[i];
      assert j < k;
      assert sorted[..k][j] == xs[i];
    }
  }

  // ---------------------------------------------------------------------
  // Grouping by row
  // ---------------------------------------------------------------------

  /** The items that pass `keep` and lie on row `y`, in input order. */
  function Bucket<T(==)>(items: seq<T>, row: T -> int, keep: T -> bool, y: int): (r: seq<T>)
    ensures forall i :: 0 <= i < |r| ==> keep(r[i]) && row(r[i]) == y && r[i] in items
  {
    if items == [] then []
    else
      var last := items[|items| - 1];
      Bucket(items[..|items| - 1], row, keep, y) + (if keep(last) && row(last) == y then [last] else [])
  }

  /** The rows of the items that pass `keep`, in order of first appearance: a `defaultdict`'s key order. */
  function RowsOf<T(==)>(items: seq<T>, row: T -> int, keep: T -> bool): (r: seq<int>)
    ensures Distinct(r)
    ensures forall i :: 0 <= i < |items| && keep(items[i]) ==> row(items[i]) in r
    ensures forall y :: y in r <==> Bucket(items, row, keep, y) != []
  {
    if items == [] then []
    else
      var init := items[..|items| - 1];
      var last := items[|items| - 1];
      var p := RowsOf(init, row, keep);
      RowsOfStep(items, row, keep, p);
      if keep(last) && row(last) !in p then p + [row(last)] else p
  }

  /** One more item keeps the rows distinct, complete, and each one backed by a kept item. */
  lemma RowsOfStep<T>(items: seq<T>, row: T -> int, keep: T -> bool, p: seq<int>)
    requires items != []
    requires var init := items[..|items| - 1];
      && Distinct(p)
      && (forall i :: 0 <= i < |init| && keep(init[i]) ==> row(init[i]) in p)
      && (forall y :: y in p <==> Bucket(init, row, keep, y) != [])
    ensures var last := items[|items| - 1];
      var r := if keep(last) && row(last) !in p then p + [row(last)] else p;
      && Distinct(r)
      && (forall i :: 0 <= i < |items| && keep(items[i]) ==> row(items[i]) in r)
      && (forall y :: y in r <==> Bucket(items, row, keep, y) != [])
  {
    var init, last := items[..|items| - 1], items[|items| - 1];
    var r := if keep(last) && row(last) !in p then p + [row(last)] else p;
    forall i | 0 <= i < |items| && keep(items[i]) ensures row(items[i]) in r {
      if i < |init| {
        assert items[i] == init[i];
      }
    }
    forall y ensures y in r <==> Bucket(items, row, keep, y) != [] {
      assert Bucket(items, row, keep, y) == Bucket(init, row, keep, y) + (if keep(last) && row(last) == y then [last] else []);
    }
  }

  /** When no item passes `keep` there is no row. */
  lemma {:induction false} NoKeptItemNoRow<T>(items: seq<T>, row: T -> int, keep: T -> bool)
    requires forall i :: 0 <= i < |items| ==> !keep(items[i])
    ensures RowsOf(items, row, keep) == []
  {
    if items != [] {
      var init := items[..|items| - 1];
      assert forall i :: 0 <= i < |init| ==> init[i] == items[i];
      NoKeptItemNoRow(init, row, keep);
    }
  }

  /**
   * `rows[row(w)].append(w)` on a `defaultdict(list)` for every item `w` that
   * passes `keep`, in input order; `order` is the dictionary's key order.
   */
  method GroupByRow<T(==)>(items: seq<T>, row: T -> int, keep: T -> bool) returns (rows: map<int, seq<T>>, order: seq<int>)
    ensures order == RowsOf(items, row, keep)
    ensures forall y :: y in rows <==> y in order
    ensures forall y :: y in rows ==> rows[y] == Bucket(items, row, keep, y)
  {
    rows, order := map[], [];
    for i := 0 to |items|
      invariant order == RowsOf(items[..i], row, keep)
      invariant forall y :: y in rows <==> y in order
      invariant forall y :: y in rows ==> rows[y] == Bucket(items[..i], row, keep, y)
    {
      var w := items[i];
      assert items[..i + 1][..i] == items[..i];
      if keep(w) {
        var y := row(w);
        if y in rows {
          rows := rows[y := rows[y] + [w]];
        } else {
          rows := rows[y := [w]];
          order := order + [y];
        }
      }
    }
    assert items[..|items|] == items;
  }

  // ---------------------------------------------------------------------
  // Stable sort with a key
  // ---------------------------------------------------------------------

  predicate SortedBy<T>(s: seq<T>, key: T -> real)
  {
    forall i, j :: 0 <= i < j < |s| ==> key(s[i]) <= key(s[j])
  }

  /** The elements of `s` whose key is `k`, in their order in `s`. */
  function WithKey<T>(s: seq<T>, key: T -> real, k: real): seq<T>
  {
    if s == [] then [] else (if key(s[0]) == k then [s[0]] else []) + WithKey(s[1..], key, k)
  }

  lemma WithKeyCons<T>(x: T, s: seq<T>, key: T -> real, k: real)
    ensures WithKey([x] + s, key, k) == (if key(x) == k then [x] else []) + WithKey(s, key, k)
  {
    assert ([x] + s)[1..] == s;
  }

  /** A head no larger than any element of a sorted tail keeps the sequence sorted. */
  lemma ConsSorted<T>(y: T, t: seq<T>, key: T -> real)
    requires SortedBy(t, key) && forall i :: 0 <= i < |t| ==> key(y) <= key(t[i])
    ensures SortedBy([y] + t, key)
  {
    var r := [y] + t;
    forall i, j | 0 <= i < j < |r| ensures key(r[i]) <= key(r[j]) {
      assert r[j] == t[j - 1];
      if i > 0 { assert r[i] == t[i - 1]; }
    }
  }

  /** The keys of a sorted sequence are no smaller than its head's, so also those of anything drawn from its tail. */
  lemma HeadBelow<T>(h: T, tail: seq<T>, x: T, t: seq<T>, key: T -> real)
    requires SortedBy([h] + tail, key) && key(h) < key(x)
    requires forall i :: 0 <= i < |t| ==> t[i] == x || t[i] in tail
    ensures forall i :: 0 <= i < |t| ==> key(h) <= key(t[i])
  {
    var s := [h] + tail;
    assert s[0] == h;
    forall i | 0 <= i < |t| ensures key(h) <= key(t[i]) {
      if t[i] != x {
        var j :| 0 <= j < |tail| && tail[j] == t[i];
        assert s[j + 1] == t[i];
      }
    }
  }

  /** Stability of one insertion step behind a head that sorts before `x`. */
  lemma HeadKeepsGroups<T>(h: T, tail: seq<T>, x: T, t: seq<T>, key: T -> real)
    requires forall k :: WithKey(t, key, k) == if key(x) == k then [x] + WithKey(tail, key, k) else WithKey(tail, key, k)
    requires key(h) < key(x)
    ensures forall k :: WithKey([h] + t, key, k) == if key(x) == k then [x] + WithKey([h] + tail, key, k) else WithKey([h] + tail, key, k)
  {
    forall k ensures WithKey([h] + t, key, k) == if key(x) == k then [x] + WithKey([h] + tail, key, k) else WithKey([h] + tail, key, k) {
      WithKeyCons(h, t, key, k);
      WithKeyCons(h, tail, key, k);
    }
  }

  /** Insertion in front of a sorted sequence whose head sorts no earlier than `x`. */
  lemma InsertFront<T>(x: T, s: seq<T>, key: T -> real)
    requires SortedBy(s, key) && (s == [] || key(x) <= key(s[0]))
    ensures SortedBy([x] + s, key)
    ensures forall k :: WithKey([x] + s, key, k) == if key(x) == k then [x] + WithKey(s, key, k) else WithKey(s, key, k)
  {
    ConsSorted(x, s, key);
    forall k ensures WithKey([x] + s, key, k) == if key(x) == k then [x] + WithKey(s, key, k) else WithKey(s, key, k) {
      WithKeyCons(x, s, key, k);
    }
  }

  /** Put `x` in front of the first element whose key is not smaller. */
  function InsertBy<T(==)>(x: T, s: seq<T>, key: T -> real): (r: seq<T>)
    requires SortedBy(s, key)
    ensures SortedBy(r, key)
    ensures |r| == |s| + 1
    ensures forall i :: 0 <= i < |r| ==> r[i] == x || r[i] in s
    ensures multiset(r) == multiset(s) + multiset{x}
    ensures forall k :: WithKey(r, key, k) == if key(x) == k then [x] + WithKey(s, key, k) else WithKey(s, key, k)
  {
    if s == [] || key(x) <= key(s[0]) then
      InsertFront(x, s, key);
      [x] + s
    else
      var h, tail := s[0], s[1..];
      assert s == [h] + tail;
      var t := InsertBy(x, tail, key);
      HeadBelow(h, tail, x, t, key);
      ConsSorted(h, t, key);
      HeadKeepsGroups(h, tail, x, t, key);
      [h] + t
  }

  /**
   * Python's `sorted(xs, key=key)` and `xs.sort(key=key)`: ordered by key, a
   * permutation of `xs`, and stable: the elements sharing a key keep their
   * input order.
   */
  function SortBy<T(==)>(xs: seq<T>, key: T -> real): (r: seq<T>)
    ensures SortedBy(r, key)
    ensures multiset(r) == multiset(xs)
    ensures forall k :: WithKey(r, key, k) == WithKey(xs, key, k)
  {
    if xs == [] then []
    else
      var t := SortBy(xs[1..], key);
      assert xs == [xs[0]] + xs[1..];
      assert forall k :: WithKey(xs, key, k) == (if key(xs[0]) == k then [xs[0]] else []) + WithKey(xs[1..], key, k);
      InsertBy(xs[0], t, key)
  }
}
