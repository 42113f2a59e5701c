/** Dataset splits: stable partitions, the protocol B split, and the leakage check. */
module Splits {
  import opened Base

  // ---- sorting by a key ---------------------------------------------------------------------

  function InsertBy<T>(s: seq<T>, x: T, key: T -> real): (r: seq<T>)
    ensures |r| == |s| + 1
  {
    if s == [] || key(x) < key(s[0]) then [x] + s else [s[0]] + InsertBy(s[1..], x, key)
  }

  function SortBy<T>(s: seq<T>, key: T -> real): (r: seq<T>)
    ensures |r| == |s|
  {
    if s == [] then [] else InsertBy(SortBy(s[1..], key), s[0], key)
  }

  predicate SortedBy<T>(s: seq<T>, key: T -> real) {
    forall i, j | 0 <= i < j < |s| :: key(s[i]) <= key(s[j])
  }

  lemma {:induction false} InsertByPermutes<T>(s: seq<T>, x: T, key: T -> real)
    ensures multiset(InsertBy(s, x, key)) == multiset(s) + multiset{x}
  {
    if s != [] && !(key(x) < key(s[0])) {
      InsertByPermutes(s[1..], x, key);
      assert s == [s[0]] + s[1..];
    }
  }

  lemma {:induction false} InsertBySorts<T>(s: seq<T>, x: T, key: T -> real)
    requires SortedBy(s, key)
    ensures SortedBy(InsertBy(s, x, key), key)
  {
    if s != [] && !(key(x) < key(s[0])) {
      var rest := s[1..];
      forall i, j | 0 <= i < j < |rest| ensures key(rest[i]) <= key(rest[j]) { assert rest[i] == s[i + 1] && rest[j] == s[j + 1]; }
      InsertBySorts(rest, x, key);
      InsertByPermutes(rest, x, key);
      AboveHead(s[0], rest, x, InsertBy(rest, x, key), key);
    }
  }

  lemma AboveHead<T>(head: T, rest: seq<T>, x: T, r: seq<T>, key: T -> real)
    requires SortedBy([head] + rest, key) && key(head) <= key(x)
    requires multiset(r) == multiset(rest) + multiset{x}
    ensures forall j | 0 <= j < |r| :: key(head) <= key(r[j])
  {
    forall j | 0 <= j < |r| ensures key(head) <= key(r[j]) {
      assert r[j] in multiset(r);
      if r[j] in rest {
        var k :| 0 <= k < |rest| && rest[k] == r[j];
        assert ([head] + rest)[0] == head && ([head] + rest)[k + 1] == r[j];
      }
    }
  }

  lemma {:induction false} SortByMeaning<T>(s: seq<T>, key: T -> real)
    ensures SortedBy(SortBy(s, key), key) && multiset(SortBy(s, key)) == multiset(s) && |SortBy(s, key)| == |s|
  {
    if s != [] {
      SortByMeaning(s[1..], key);
      InsertBySorts(SortBy(s[1..], key), s[0], key);
      InsertByPermutes(SortBy(s[1..], key), s[0], key);
      assert s == [s[0]] + s[1..];
      assert |multiset(SortBy(s, key))| == |multiset(s)|;
    }
  }

  /** Keys tell the elements of s apart. */
  predicate Separates<T(==)>(s: seq<T>, key: T -> real) {
    forall x, y | x in s && y in s && key(x) == key(y) :: x == y
  }

  lemma HeadsAgree<T>(a: seq<T>, b: seq<T>, key: T -> real)
    requires SortedBy(a, key) && SortedBy(b, key) && multiset(a) == multiset(b) && Separates(a, key)
    requires a != []
    ensures b != [] && a[0] == b[0]
  {
    assert a[0] in multiset(b);
    var i :| 0 <= i < |b| && b[i] == a[0];
    assert b[0] in multiset(a);
    var j :| 0 <= j < |a| && a[j] == b[0];
    assert key(a[0]) <= key(a[j]) && key(b[0]) <= key(b[i]);
  }

  lemma TailsAgree<T>(a: seq<T>, b: seq<T>)
    requires a != [] && b != [] && a[0] == b[0] && multiset(a) == multiset(b)
    ensures multiset(a[1..]) == multiset(b[1..])
  {
    assert a == [a[0]] + a[1..] && b == [b[0]] + b[1..];
    assert multiset(a[1..]) == multiset(a) - multiset{a[0]};
    assert multiset(b[1..]) == multiset(b) - multiset{b[0]};
  }

  lemma TailSorted<T>(a: seq<T>, key: T -> real)
    requires a != [] && SortedBy(a, key)
    ensures SortedBy(a[1..], key)
  {
    forall i, j | 0 <= i < j < |a[1..]| ensures key(a[1..][i]) <= key(a[1..][j]) {
      assert a[1..][i] == a[i + 1] && a[1..][j] == a[j + 1];
    }
  }

  lemma {:induction false} SortedIsUnique<T>(a: seq<T>, b: seq<T>, key: T -> real)
    requires SortedBy(a, key) && SortedBy(b, key) && multiset(a) == multiset(b) && Separates(a, key)
    ensures a == b
  {
    if a == [] {
      assert |multiset(b)| == 0;
    } else {
      HeadsAgree(a, b, key);
      TailsAgree(a, b);
      TailSorted(a, key);
      TailSorted(b, key);
      assert Separates(a[1..], key);
      SortedIsUnique(a[1..], b[1..], key);
      assert a == [a[0]] + a[1..] && b == [b[0]] + b[1..];
    }
  }

  predicate Distinct<T(==)>(s: seq<T>) {
    forall i, j | 0 <= i < j < |s| :: s[i] != s[j]
  }

  lemma {:induction false} DistinctCount<T>(s: seq<T>)
    ensures Distinct(s) <==> forall x :: multiset(s)[x] <= 1
  {
    if s != [] {
      var t := s[1..];
      DistinctCount(t);
      assert s == [s[0]] + t && multiset(s) == multiset{s[0]} + multiset(t);
      if Distinct(s) {
        forall i, j | 0 <= i < j < |t| ensures t[i] != t[j] { assert s[i + 1] != s[j + 1]; }
        forall k | 0 <= k < |t| ensures t[k] != s[0] { assert s[0] != s[k + 1]; }
        assert s[0] !in t;
      } else {
        var i, j :| 0 <= i < j < |s| && s[i] == s[j];
        if i == 0 {
          assert t[j - 1] == s[0];
          assert multiset(s)[s[0]] >= 2;
        } else {
          assert t[i - 1] == t[j - 1];
          var x :| multiset(t)[x] > 1;
          assert multiset(s)[x] > 1;
        }
      }
    }
  }

  lemma {:induction false} ElementsOf<T>(s: seq<T>) returns (elements: set<T>)
    requires Distinct(s)
    ensures forall x :: x in elements <==> x in s
    ensures |elements| == |s|
  {
    if s == [] {
      elements := {};
    } else {
      assert s == [s[0]] + s[1..];
      var rest := ElementsOf(s[1..]);
      elements := {s[0]} + rest;
      assert s[0] !in s[1..];
    }
  }

  // ---- the stable partition of one stratum -----------------------------------------------------

  function ValidationCount(n: nat, ratio: real): nat {
    if n <= 1 then 0
    else
      var rounded := (n as real * ratio + 0.5).Floor;
      var atLeastOne := if rounded > 1 then rounded else 1;
      if n - 1 < atLeastOne then n - 1 else atLeastOne
  }

  /** The validation paths of a stratum: the first few in the order of their digests. */
  function StablePartition(paths: seq<string>, ratio: real, digest: string -> real): seq<string> {
    SortBy(paths, digest)[..ValidationCount(|paths|, ratio)]
  }

  /** Only the set of paths matters, not the order in which they were listed. */
  lemma PartitionIgnoresOrder(a: seq<string>, b: seq<string>, ratio: real, digest: string -> real)
    requires multiset(a) == multiset(b) && Separates(a, digest)
    ensures StablePartition(a, ratio, digest) == StablePartition(b, ratio, digest)
  {
    SortByMeaning(a, digest);
    SortByMeaning(b, digest);
    assert |multiset(a)| == |multiset(b)|;
    SameSeparation(a, SortBy(a, digest), digest);
    SortedIsUnique(SortBy(a, digest), SortBy(b, digest), digest);
  }

  lemma SameSeparation<T>(a: seq<T>, b: seq<T>, key: T -> real)
    requires multiset(a) == multiset(b) && Separates(a, key)
    ensures Separates(b, key)
  {
    forall x | x in b ensures x in a { assert x in multiset(b); }
  }

  /** A stratum of two or more paths has some on each side, as near to the ratio as that allows; a
      single path is not validated on.  Those chosen have the least digests. */
  lemma PartitionIsProper(paths: seq<string>, ratio: real, digest: string -> real)
    requires Distinct(paths)
    ensures var chosen := StablePartition(paths, ratio, digest);
      && Distinct(chosen)
      && (forall x | x in chosen :: x in paths)
      && (forall x, y | x in chosen && y in paths && y !in chosen :: digest(x) <= digest(y))
      && (|paths| >= 2 ==> NearestTo(|chosen|, |paths| as real * ratio, |paths| - 1))
      && (|paths| <= 1 ==> chosen == [])
  {
    SortByMeaning(paths, digest);
    var sorted := SortBy(paths, digest);
    DistinctCount(paths);
    DistinctCount(sorted);
    var chosen := StablePartition(paths, ratio, digest);
    forall x | x in chosen ensures x in paths {
      assert x in sorted;
      assert x in multiset(paths);
    }
    ChosenAreLeast(paths, sorted, |chosen|, digest);
  }

  /** The first few of a sorted list are its least. */
  lemma ChosenAreLeast(paths: seq<string>, sorted: seq<string>, n: nat, digest: string -> real)
    requires multiset(sorted) == multiset(paths) && SortedBy(sorted, digest) && n <= |sorted|
    ensures forall x, y | x in sorted[..n] && y in paths && y !in sorted[..n] :: digest(x) <= digest(y)
  {
    forall x, y | x in sorted[..n] && y in paths && y !in sorted[..n] ensures digest(x) <= digest(y) {
      assert y in multiset(sorted);
      var i :| 0 <= i < n && sorted[i] == x;
      var j :| 0 <= j < |sorted| && sorted[j] == y;
      assert sorted[..n][i] == x;
      assert j >= n;
    }
  }

  /** Of the numbers from 1 to the last, n is the nearest to x, halves rounded up. */
  predicate NearestTo(n: nat, x: real, last: nat) {
    1 <= n <= last && (n > 1 ==> x >= n as real - 0.5) && (n < last ==> x < n as real + 0.5)
  }

  datatype Split = Train | Validation | Test | Calibration | Holdout

  /** All paths of the stratum have a split; both are used unless the stratum is a single path. */
  ghost predicate Served(g: seq<string>, splits: map<string, Split>) {
    && (forall x | x in g :: x in splits && (splits[x] == Validation || splits[x] == Test))
    && (|g| >= 2 ==> Uses(Validation, g, splits) && Uses(Test, g, splits))
    && (|g| == 1 ==> Uses(Test, g, splits))
  }

  predicate Uses(split: Split, g: seq<string>, splits: map<string, Split>) {
    exists x :: x in g && x in splits && splits[x] == split
  }

  /** Exactly the chosen paths of the group are validated on. */
  predicate Follows(g: seq<string>, splits: map<string, Split>, chosen: seq<string>) {
    forall x | x in g :: x in splits && (splits[x] == Validation <==> x in chosen) && (splits[x] == Test <==> x !in chosen)
  }

  function Assign(g: seq<string>, chosen: seq<string>): (m: map<string, Split>)
    ensures forall x :: x in m <==> x in g
  {
    map x | x in g :: if x in chosen then Validation else Test
  }

  lemma AssignServes(g: seq<string>, ratio: real, digest: string -> real)
    requires Distinct(g)
    ensures Served(g, Assign(g, StablePartition(g, ratio, digest)))
  {
    PartitionIsProper(g, ratio, digest);
    var chosen := StablePartition(g, ratio, digest);
    SomeOutside(g, chosen);
    if |g| >= 2 {
      assert chosen[0] in g && Assign(g, chosen)[chosen[0]] == Validation;
    }
  }

  /** A group that is served as its partition says. */
  ghost predicate Divides(g: seq<string>, splits: map<string, Split>, ratio: real, digest: string -> real) {
    Served(g, splits) && Follows(g, splits, StablePartition(g, ratio, digest))
  }

  /** Adding paths of other groups changes nothing for this one, and neither does adding this one. */
  lemma DividesStays(g: seq<string>, before: map<string, Split>, more: map<string, Split>, ratio: real, digest: string -> real)
    ensures Divides(g, before, ratio, digest) && (forall x | x in g :: x !in more) ==> Divides(g, before + more, ratio, digest)
    ensures Divides(g, more, ratio, digest) ==> Divides(g, before + more, ratio, digest)
  {
    hide StablePartition;
    var after := before + more;
    forall s | Uses(s, g, before) && forall x | x in g :: x !in more ensures Uses(s, g, after) {
      var x :| x in g && x in before && before[x] == s;
      assert after[x] == s;
    }
    forall s | Uses(s, g, more) ensures Uses(s, g, after) {
      var x :| x in g && x in more && more[x] == s;
      assert after[x] == s;
    }
  }

  /** Exactly the paths of these groups have a split. */
  ghost predicate Covering(splits: map<string, Split>, groups: seq<seq<string>>, n: nat) {
    n <= |groups| && forall x :: x in splits <==> exists i :: 0 <= i < n && x in groups[i]
  }

  lemma CoveringStep(splits: map<string, Split>, more: map<string, Split>, groups: seq<seq<string>>, n: nat)
    requires n < |groups| && Covering(splits, groups, n) && forall x :: x in more <==> x in groups[n]
    ensures Covering(splits + more, groups, n + 1)
  {
    forall x ensures x in splits + more <==> exists i :: 0 <= i < n + 1 && x in groups[i] {
      assert x in splits <==> exists i :: 0 <= i < n && x in groups[i];
    }
  }

  /** A shorter distinct selection leaves something out. */
  lemma SomeOutside(g: seq<string>, chosen: seq<string>)
    requires Distinct(g) && Distinct(chosen)
    ensures |chosen| < |g| ==> exists x :: x in g && x !in chosen
  {
    var a := ElementsOf(g);
    var b := ElementsOf(chosen);
    if a <= b {
      assert b == a + (b - a);
    } else {
      var x :| x in a && x !in b;
    }
  }

  /** Every path of every stratum gets its split. */
  method AssignSplits(groups: seq<seq<string>>, ratio: real, digest: string -> real)
    returns (r: Result<map<string, Split>, string>)
    requires forall i | 0 <= i < |groups| :: Distinct(groups[i])
    requires forall i, j, x | 0 <= i < j < |groups| && x in groups[i] :: x !in groups[j]
    ensures r.Err? <==> groups != [] && !(0.0 < ratio < 1.0)
    ensures r.Ok? ==> Covering(r.value, groups, |groups|)
    ensures r.Ok? ==> forall i | 0 <= i < |groups| :: Divides(groups[i], r.value, ratio, digest)
  {
    hide Divides, Covering, Distinct, StablePartition, Assign;
    var splits: map<string, Split> := map[];
    CoveringNone(groups);
    var i := 0;
    while i < |groups|
      invariant 0 <= i <= |groups|
      invariant i > 0 ==> 0.0 < ratio < 1.0
      invariant Covering(splits, groups, i)
      invariant forall k | 0 <= k < i :: Divides(groups[k], splits, ratio, digest)
    {
      if !(0.0 < ratio < 1.0) {
        return Err("validation_ratio must be between 0 and 1");
      }
      AssignDivides(groups[i], ratio, digest);
      var more := Assign(groups[i], StablePartition(groups[i], ratio, digest));
      forall k | 0 <= k <= i ensures Divides(groups[k], splits + more, ratio, digest) {
        DividesStays(groups[k], splits, more, ratio, digest);
      }
      CoveringStep(splits, more, groups, i);
      splits := splits + more;
      i := i + 1;
    }
    return Ok(splits);
  }

  lemma CoveringNone(groups: seq<seq<string>>)
    ensures Covering(map[], groups, 0)
  {
  }

  lemma AssignDivides(g: seq<string>, ratio: real, digest: string -> real)
    requires Distinct(g)
    ensures Divides(g, Assign(g, StablePartition(g, ratio, digest)), ratio, digest)
  {
    hide Served, StablePartition;
    AssignServes(g, ratio, digest);
  }

  // ---- the leakage check ---------------------------------------------------------------------------

  /** An empty string stands for a missing value. */
  datatype Row = Row(sampleId: string, imagePath: string, imageSha: string, maskPath: string, maskSha: string) {
    function Field(f: nat): string {
      if f == 0 then sampleId else if f == 1 then imagePath else if f == 2 then imageSha else if f == 3 then maskPath else maskSha
    }
  }

  const FIELDS: nat := 5

  datatype Overlap = Overlap(field: nat, value: string, left: Split, right: Split)

  predicate Repeats(a: Row, b: Row, f: nat) {
    f < FIELDS && a.Field(f) != "" && a.Field(f) == b.Field(f)
  }

  /** No non-empty field value occurs in two rows. */
  predicate Unrepeated(rows: seq<Row>) {
    forall i, j, f: nat | 0 <= i < j < |rows| && f < FIELDS :: !Repeats(rows[i], rows[j], f)
  }

  function AllRows(buckets: seq<(Split, seq<Row>)>): seq<Row> {
    if buckets == [] then [] else AllRows(buckets[..|buckets| - 1]) + buckets[|buckets| - 1].1
  }

  function AllSplits(buckets: seq<(Split, seq<Row>)>): (r: seq<Split>)
    ensures |r| == |AllRows(buckets)|
  {
    if buckets == [] then []
    else
      var last := buckets[|buckets| - 1];
      AllSplits(buckets[..|buckets| - 1]) + Copies(last.0, |last.1|)
  }

  function Copies(split: Split, n: nat): (r: seq<Split>)
    ensures |r| == n
  {
    seq(n, _ => split)
  }

  /** An overlap names a value that two rows share, and the splits of the two; `tags` are the splits
      of the rows. */
  predicate Genuine(o: Overlap, rows: seq<Row>, tags: seq<Split>) {
    |tags| == |rows| && exists i, j :: 0 <= i < j < |rows| && SharedBy(o, rows, tags, i, j)
  }

  predicate SharedBy(o: Overlap, rows: seq<Row>, tags: seq<Split>, i: nat, j: nat)
    requires |tags| == |rows| && i < |rows| && j < |rows|
  {
    Repeats(rows[i], rows[j], o.field) && rows[j].Field(o.field) == o.value && tags[i] == o.left && tags[j] == o.right
  }

  /** `seen` knows exactly the non-empty values of the rows so far, each with the split of such a row. */
  predicate Knows(seen: map<(nat, string), Split>, rows: seq<Row>, tags: seq<Split>) {
    && |tags| == |rows|
    && (forall i, f: nat | 0 <= i < |rows| && f < FIELDS && rows[i].Field(f) != "" :: (f, rows[i].Field(f)) in seen)
    && (forall k | k in seen :: k.0 < FIELDS && k.1 != "" && exists i :: 0 <= i < |rows| && Holds(rows[i], tags[i], k, seen[k]))
  }

  predicate Holds(row: Row, tag: Split, k: (nat, string), split: Split) {
    row.Field(k.0) == k.1 && tag == split
  }

  predicate Fresh(rows: seq<Row>, row: Row, fields: nat) {
    forall i, f: nat | 0 <= i < |rows| && f < fields && f < FIELDS :: !Repeats(rows[i], row, f)
  }

  /** What the fields before f of this row add to `seen`. */
  predicate Learns(seen: map<(nat, string), Split>, after: map<(nat, string), Split>, row: Row, split: Split, f: nat) {
    && (forall k | k in seen :: k in after && after[k] == seen[k])
    && (forall g: nat | g < f && row.Field(g) != "" :: (g, row.Field(g)) in after)
    && (forall k | k in after :: k in seen || (k.0 < f && k.1 != "" && Holds(row, split, k, after[k])))
  }

  lemma LearntRow(seen: map<(nat, string), Split>, after: map<(nat, string), Split>, rows: seq<Row>, tags: seq<Split>, row: Row, split: Split)
    requires Knows(seen, rows, tags) && Learns(seen, after, row, split, FIELDS)
    ensures Knows(after, rows + [row], tags + [split])
  {
    var all, from := rows + [row], tags + [split];
    forall k | k in after ensures k.0 < FIELDS && k.1 != "" && exists i :: 0 <= i < |all| && Holds(all[i], from[i], k, after[k]) {
      if k in seen {
        var i :| 0 <= i < |rows| && Holds(rows[i], tags[i], k, seen[k]);
        assert Holds(all[i], from[i], k, after[k]);
      } else {
        assert Holds(all[|rows|], from[|rows|], k, after[k]);
      }
    }
  }

  /** A value that was seen before makes a genuine overlap; one that was not makes none. */
  lemma SeenMeansRepeated(seen: map<(nat, string), Split>, rows: seq<Row>, tags: seq<Split>, row: Row, f: nat, split: Split)
    requires Knows(seen, rows, tags) && f < FIELDS && row.Field(f) != ""
    ensures var k := (f, row.Field(f)); k in seen ==> Genuine(Overlap(f, row.Field(f), seen[k], split), rows + [row], tags + [split])
    ensures (f, row.Field(f)) in seen <==> exists i :: 0 <= i < |rows| && Repeats(rows[i], row, f)
  {
    var k := (f, row.Field(f));
    if k in seen {
      var i :| 0 <= i < |rows| && Holds(rows[i], tags[i], k, seen[k]);
      assert Repeats(rows[i], row, f);
      assert SharedBy(Overlap(f, row.Field(f), seen[k], split), rows + [row], tags + [split], i, |rows|);
    }
  }

  /** Field f is empty or already known, or it is remembered now. */
  lemma LearnsNext(seen: map<(nat, string), Split>, after: map<(nat, string), Split>, row: Row, f: nat, split: Split)
    requires Learns(seen, after, row, split, f)
    ensures row.Field(f) == "" || (f, row.Field(f)) in after ==> Learns(seen, after, row, split, f + 1)
    ensures row.Field(f) != "" && (f, row.Field(f)) !in after ==> Learns(seen, after[(f, row.Field(f)) := split], row, split, f + 1)
    ensures row.Field(f) != "" ==> ((f, row.Field(f)) in after <==> (f, row.Field(f)) in seen)
    ensures (f, row.Field(f)) in seen ==> after[(f, row.Field(f))] == seen[(f, row.Field(f))]
  {
  }

  /** One field: a repeated value is an overlap, a new one is remembered. */
  method CheckField(row: Row, split: Split, f: nat, seen: map<(nat, string), Split>, known: map<(nat, string), Split>,
                    ghost rows: seq<Row>, ghost tags: seq<Split>)
    returns (after: map<(nat, string), Split>, overlaps: seq<Overlap>)
    requires Knows(seen, rows, tags) && Learns(seen, known, row, split, f) && f < FIELDS
    ensures Learns(seen, after, row, split, f + 1)
    ensures overlaps == [] <==> !exists i :: 0 <= i < |rows| && Repeats(rows[i], row, f)
    ensures forall o | o in overlaps :: Genuine(o, rows + [row], tags + [split])
  {
    var value := row.Field(f);
    after, overlaps := known, [];
    LearnsNext(seen, known, row, f, split);
    if value != "" {
      SeenMeansRepeated(seen, rows, tags, row, f, split);
      if (f, value) in known {
        overlaps := [Overlap(f, value, known[(f, value)], split)];
      } else {
        after := known[(f, value) := split];
      }
    }
  }

  /** One row: each non-empty field either was seen before or is remembered. */
  method CheckRow(row: Row, split: Split, seen: map<(nat, string), Split>, ghost rows: seq<Row>, ghost tags: seq<Split>)
    returns (after: map<(nat, string), Split>, overlaps: seq<Overlap>)
    requires Knows(seen, rows, tags)
    ensures Knows(after, rows + [row], tags + [split])
    ensures overlaps == [] <==> Fresh(rows, row, FIELDS)
    ensures forall o | o in overlaps :: Genuine(o, rows + [row], tags + [split])
  {
    after, overlaps := seen, [];
    var f: nat := 0;
    while f < FIELDS
      invariant f <= FIELDS
      invariant overlaps == [] <==> Fresh(rows, row, f)
      invariant forall o | o in overlaps :: Genuine(o, rows + [row], tags + [split])
      invariant Learns(seen, after, row, split, f)
    {
      var found: seq<Overlap>;
      after, found := CheckField(row, split, f, seen, after, rows, tags);
      overlaps := overlaps + found;
      FreshStep(rows, row, f);
      f := f + 1;
    }
    LearntRow(seen, after, rows, tags, row, split);
  }

  lemma FreshStep(rows: seq<Row>, row: Row, f: nat)
    requires f < FIELDS
    ensures Fresh(rows, row, f + 1) <==> Fresh(rows, row, f) && !exists i :: 0 <= i < |rows| && Repeats(rows[i], row, f)
  {
  }

  lemma GenuineGrows(o: Overlap, rows: seq<Row>, tags: seq<Split>, row: Row, tag: Split)
    requires Genuine(o, rows, tags)
    ensures Genuine(o, rows + [row], tags + [tag])
  {
    var i, j :| 0 <= i < j < |rows| && SharedBy(o, rows, tags, i, j);
    assert SharedBy(o, rows + [row], tags + [tag], i, j);
  }

  lemma UnrepeatedAppend(rows: seq<Row>, row: Row)
    ensures Unrepeated(rows + [row]) <==> Unrepeated(rows) && Fresh(rows, row, FIELDS)
  {
    var all := rows + [row];
    if Unrepeated(all) {
      forall i, j, f: nat | 0 <= i < j < |rows| && f < FIELDS ensures !Repeats(rows[i], rows[j], f) {
        assert !Repeats(all[i], all[j], f);
      }
      forall i, f: nat | 0 <= i < |rows| && f < FIELDS ensures !Repeats(rows[i], row, f) {
        assert !Repeats(all[i], all[|rows|], f);
      }
    }
  }

  /** The state of the check after some rows. */
  predicate Checked(seen: map<(nat, string), Split>, overlaps: seq<Overlap>, rows: seq<Row>, tags: seq<Split>) {
    && Knows(seen, rows, tags)
    && (overlaps == [] <==> Unrepeated(rows))
    && forall o | o in overlaps :: Genuine(o, rows, tags)
  }

  method CheckNext(row: Row, split: Split, seen: map<(nat, string), Split>, overlaps: seq<Overlap>, ghost rows: seq<Row>, ghost tags: seq<Split>)
    returns (after: map<(nat, string), Split>, all: seq<Overlap>)
    requires Checked(seen, overlaps, rows, tags)
    ensures Checked(after, all, rows + [row], tags + [split])
  {
    var found: seq<Overlap>;
    after, found := CheckRow(row, split, seen, rows, tags);
    CheckedStep(seen, overlaps, rows, tags, row, split, after, found);
    all := overlaps + found;
  }

  lemma PrefixGrows(done: seq<Row>, tags: seq<Split>, rows: seq<Row>, split: Split, i: nat)
    requires i < |rows|
    ensures done + rows[..i + 1] == done + rows[..i] + [rows[i]]
    ensures tags + Copies(split, i + 1) == tags + Copies(split, i) + [split]
    ensures i + 1 == |rows| ==> done + rows[..i + 1] == done + rows
  {
  }

  /** One split's rows. */
  method CheckBucket(split: Split, rows: seq<Row>, seen: map<(nat, string), Split>, overlaps: seq<Overlap>, ghost done: seq<Row>, ghost tags: seq<Split>)
    returns (after: map<(nat, string), Split>, all: seq<Overlap>)
    requires Checked(seen, overlaps, done, tags)
    ensures Checked(after, all, done + rows, tags + Copies(split, |rows|))
  {
    hide Checked;
    after, all := seen, overlaps;
    var i := 0;
    ghost var sofar, from := done, tags;
    while i < |rows|
      invariant 0 <= i <= |rows|
      invariant sofar == done + rows[..i] && (i == |rows| ==> sofar == done + rows)
      invariant from == tags + Copies(split, i)
      invariant Checked(after, all, sofar, from)
    {
      after, all := CheckNext(rows[i], split, after, all, sofar, from);
      PrefixGrows(done, tags, rows, split, i);
      sofar, from := sofar + [rows[i]], from + [split];
      i := i + 1;
    }
  }

  lemma CheckedStep(seen: map<(nat, string), Split>, overlaps: seq<Overlap>, rows: seq<Row>, tags: seq<Split>, row: Row, split: Split,
                    after: map<(nat, string), Split>, found: seq<Overlap>)
    requires Checked(seen, overlaps, rows, tags) && Knows(after, rows + [row], tags + [split])
    requires found == [] <==> Fresh(rows, row, FIELDS)
    requires forall o | o in found :: Genuine(o, rows + [row], tags + [split])
    ensures Checked(after, overlaps + found, rows + [row], tags + [split])
  {
    UnrepeatedAppend(rows, row);
    forall o | o in overlaps ensures Genuine(o, rows + [row], tags + [split]) { GenuineGrows(o, rows, tags, row, split); }
  }

  /** Accepts exactly when no non-empty sample, path or hash occurs twice in any of the splits; an
      overlap that is reported names a shared value and the splits of two rows that share it. */
  method ValidateSplitManifest(buckets: seq<(Split, seq<Row>)>) returns (r: Result<seq<nat>, seq<Overlap>>)
    ensures r.Ok? <==> Unrepeated(AllRows(buckets))
    ensures r.Ok? ==> |r.value| == |buckets| && forall b | 0 <= b < |buckets| :: r.value[b] == |buckets[b].1|
    ensures r.Err? ==> 1 <= |r.error| <= 10 && forall o | o in r.error :: Genuine(o, AllRows(buckets), AllSplits(buckets))
  {
    var seen: map<(nat, string), Split> := map[];
    var overlaps: seq<Overlap> := [];
    var b := 0;
    while b < |buckets|
      invariant 0 <= b <= |buckets|
      invariant Checked(seen, overlaps, AllRows(buckets[..b]), AllSplits(buckets[..b]))
    {
      assert buckets[..b + 1][..b] == buckets[..b];
      seen, overlaps := CheckBucket(buckets[b].0, buckets[b].1, seen, overlaps, AllRows(buckets[..b]), AllSplits(buckets[..b]));
      b := b + 1;
    }
    assert buckets[..b] == buckets;
    if overlaps != [] {
      return Err(if |overlaps| > 10 then overlaps[..10] else overlaps);
    }
    return Ok(seq(|buckets|, k requires 0 <= k < |buckets| => |buckets[k].1|));
  }

  // ---- protocol B ------------------------------------------------------------------------------------

  datatype Entry = Entry(row: Row, subtype: string, fromTest: bool)

  function Stratum(entries: seq<Entry>, subtype: string): seq<Entry> {
    if entries == [] then []
    else (if entries[0].subtype == subtype then [entries[0]] else []) + Stratum(entries[1..], subtype)
  }

  function Cut(n: nat): nat {
    if n > 1 then (if n / 2 > 1 then n / 2 else 1) else 1
  }

  function CalibrationPart(ranked: seq<Entry>): seq<Entry>
    requires ranked != []
  {
    ranked[..Cut(|ranked|)]
  }

  /** A single entry has nowhere else to go: it lands on both sides. */
  function HoldoutPart(ranked: seq<Entry>): seq<Entry>
    requires ranked != []
  {
    if ranked[Cut(|ranked|)..] != [] then ranked[Cut(|ranked|)..] else ranked[..1]
  }

  function Subtypes(entries: seq<Entry>): seq<string> {
    if entries == [] then []
    else
      var rest := Subtypes(entries[1..]);
      if entries[0].subtype in rest then rest else [entries[0].subtype] + rest
  }

  lemma {:induction false} SubtypesMeaning(entries: seq<Entry>)
    ensures Distinct(Subtypes(entries))
    ensures forall t :: t in Subtypes(entries) <==> exists e :: e in entries && e.subtype == t
  {
    if entries != [] {
      SubtypesMeaning(entries[1..]);
      assert entries == [entries[0]] + entries[1..];
    }
  }

  /** The members of a list that have one of these subtypes. */
  function Within(entries: seq<Entry>, subtypes: seq<string>): seq<Entry> {
    if subtypes == [] then [] else Within(entries, subtypes[..|subtypes| - 1]) + Stratum(entries, subtypes[|subtypes| - 1])
  }

  lemma {:induction false} StratumCount(entries: seq<Entry>, t: string, e: Entry)
    ensures multiset(Stratum(entries, t))[e] == if e.subtype == t then multiset(entries)[e] else 0
  {
    if entries != [] {
      StratumCount(entries[1..], t, e);
      assert entries == [entries[0]] + entries[1..];
    }
  }

  lemma {:induction false} WithinCount(entries: seq<Entry>, subtypes: seq<string>, e: Entry)
    requires Distinct(subtypes)
    ensures multiset(Within(entries, subtypes))[e] == if e.subtype in subtypes then multiset(entries)[e] else 0
  {
    if subtypes != [] {
      var n := |subtypes| - 1;
      assert subtypes == subtypes[..n] + [subtypes[n]];
      WithinCount(entries, subtypes[..n], e);
      StratumCount(entries, subtypes[n], e);
    }
  }

  /** Strata of all subtypes together are the entries again. */
  lemma WithinAll(entries: seq<Entry>, subtypes: seq<string>)
    requires Distinct(subtypes) && forall e | e in entries :: e.subtype in subtypes
    ensures multiset(Within(entries, subtypes)) == multiset(entries)
  {
    forall e ensures multiset(Within(entries, subtypes))[e] == multiset(entries)[e] {
      WithinCount(entries, subtypes, e);
      if e !in entries { assert e !in multiset(entries); }
    }
  }

  predicate SomeSingleton(entries: seq<Entry>, subtypes: seq<string>) {
    exists t :: t in subtypes && |Stratum(entries, t)| == 1
  }

  function Rows(entries: seq<Entry>): seq<Row> {
    seq(|entries|, i requires 0 <= i < |entries| => entries[i].row)
  }

  /** Entries of which no two share a non-empty field value. */
  predicate EntriesUnrepeated(entries: seq<Entry>) {
    Unrepeated(Rows(entries))
  }

  predicate Clash(a: Entry, b: Entry) {
    exists f: nat :: f < FIELDS && Repeats(a.row, b.row, f)
  }

  /** Sharing a value does not depend on the order of the entries. */
  lemma UnrepeatedIgnoresOrder(a: seq<Entry>, b: seq<Entry>)
    requires multiset(a) == multiset(b) && EntriesUnrepeated(a)
    ensures EntriesUnrepeated(b)
  {
    var rows := Rows(b);
    forall i, j, f: nat | 0 <= i < j < |rows| && f < FIELDS ensures !Repeats(rows[i], rows[j], f) {
      var m, n := TwoPlaces(b, a, i, j);
      if m < n { assert !Repeats(Rows(a)[m], Rows(a)[n], f); } else { assert !Repeats(Rows(a)[n], Rows(a)[m], f); }
    }
  }

  lemma RemoveAt<T>(s: seq<T>, i: nat)
    requires i < |s|
    ensures multiset(s[..i] + s[i + 1..]) == multiset(s) - multiset{s[i]}
  {
    assert s == s[..i] + [s[i]] + s[i + 1..];
  }

  /** Two places of one sequence have their counterparts in any reordering of it. */
  lemma TwoPlaces<T>(b: seq<T>, a: seq<T>, i: nat, j: nat) returns (m: nat, n: nat)
    requires multiset(a) == multiset(b) && i < j < |b|
    ensures m < |a| && n < |a| && m != n && a[m] == b[i] && a[n] == b[j]
  {
    assert b[i] in multiset(a);
    m :| m < |a| && a[m] == b[i];
    RemoveAt(a, m);
    RemoveAt(b, i);
    n := OtherPlace(a, m, b[..i] + b[i + 1..], j - 1);
    assert (b[..i] + b[i + 1..])[j - 1] == b[j];
  }

  lemma OtherPlace<T>(a: seq<T>, m: nat, rest: seq<T>, j: nat) returns (n: nat)
    requires m < |a| && multiset(rest) == multiset(a[..m] + a[m + 1..]) && j < |rest|
    ensures n < |a| && n != m && a[n] == rest[j]
  {
    var left := a[..m] + a[m + 1..];
    assert rest[j] in multiset(left);
    var k :| 0 <= k < |left| && left[k] == rest[j];
    n := if k < m then k else k + 1;
  }

  datatype Manifest = Manifest(train: seq<Row>, calibration: seq<Entry>, holdout: seq<Entry>)

  function Training(entries: seq<Entry>): seq<Entry> {
    if entries == [] then [] else (if entries[0].fromTest then [] else [entries[0]]) + Training(entries[1..])
  }

  function Testing(entries: seq<Entry>): seq<Entry> {
    if entries == [] then [] else (if entries[0].fromTest then [entries[0]] else []) + Testing(entries[1..])
  }

  lemma {:induction false} TrainingAndTesting(entries: seq<Entry>)
    ensures multiset(Training(entries)) + multiset(Testing(entries)) == multiset(entries)
    ensures (forall e | e in Training(entries) :: !e.fromTest) && forall e | e in Testing(entries) :: e.fromTest
  {
    if entries != [] {
      TrainingAndTesting(entries[1..]);
      assert entries == [entries[0]] + entries[1..];
    }
  }

  /** The calibration and the holdout side of these strata. */
  function Sides(tests: seq<Entry>, names: seq<string>, digest: Entry -> real): (seq<Entry>, seq<Entry>) {
    if names == [] then ([], [])
    else
      var (c, h) := Sides(tests, names[..|names| - 1], digest);
      var ranked := SortBy(Stratum(tests, names[|names| - 1]), digest);
      if ranked == [] then (c, h) else (c + CalibrationPart(ranked), h + HoldoutPart(ranked))
  }

  /** Strata of two or more entries are divided, nothing lost and nothing added. */
  lemma {:induction false} SidesCover(tests: seq<Entry>, names: seq<string>, digest: Entry -> real)
    requires forall t | t in names :: |Stratum(tests, t)| != 1
    ensures var (c, h) := Sides(tests, names, digest); multiset(c) + multiset(h) == multiset(Within(tests, names))
  {
    if names != [] {
      var n := |names| - 1;
      assert names[n] in names && forall t | t in names[..n] :: t in names;
      SidesCover(tests, names[..n], digest);
      var ranked := SortBy(Stratum(tests, names[n]), digest);
      SortByMeaning(Stratum(tests, names[n]), digest);
      if ranked != [] {
        PartsOfStratum(ranked);
        var (c, h) := Sides(tests, names[..n], digest);
        SumOfParts(c, h, CalibrationPart(ranked), HoldoutPart(ranked), Within(tests, names[..n]), Stratum(tests, names[n]));
      }
    }
  }

  lemma SumOfParts<T>(c: seq<T>, h: seq<T>, c1: seq<T>, h1: seq<T>, whole: seq<T>, part: seq<T>)
    requires multiset(c) + multiset(h) == multiset(whole) && multiset(c1) + multiset(h1) == multiset(part)
    ensures multiset(c + c1) + multiset(h + h1) == multiset(whole + part)
  {
  }

  lemma SingletonStaysPut(g: seq<Entry>, digest: Entry -> real)
    requires |g| == 1
    ensures SortBy(g, digest) == g && CalibrationPart(g) == g && HoldoutPart(g) == g
  {
    assert SortBy(g[1..], digest) == [];
    assert InsertBy([], g[0], digest) == [g[0]] + [];
    PartsOfStratum(g);
  }

  /** The one entry of a singleton stratum is on both sides. */
  lemma {:induction false} SingletonOnBothSides(tests: seq<Entry>, names: seq<string>, digest: Entry -> real, t: string)
    requires t in names && |Stratum(tests, t)| == 1
    ensures var (c, h) := Sides(tests, names, digest); Stratum(tests, t)[0] in c && Stratum(tests, t)[0] in h
  {
    var n := |names| - 1;
    if names[n] == t {
      SingletonStaysPut(Stratum(tests, t), digest);
    } else {
      assert names == names[..n] + [names[n]];
      SingletonOnBothSides(tests, names[..n], digest, t);
    }
  }

  lemma {:induction false} SidesHalve(tests: seq<Entry>, names: seq<string>, digest: Entry -> real, t: string)
    requires t in names && |Stratum(tests, t)| > 1
    ensures var (c, h) := Sides(tests, names, digest); Halves(tests, t, c, h, digest)
  {
    hide SortBy, Halves, CalibrationPart, HoldoutPart;
    var n := |names| - 1;
    var ranked := SortBy(Stratum(tests, names[n]), digest);
    SortByMeaning(Stratum(tests, names[n]), digest);
    var (c, h) := Sides(tests, names[..n], digest);
    if ranked != [] { HalvesOfStratum(tests, names[n], ranked, c, h, digest); }
    if names[n] != t {
      assert names == names[..n] + [names[n]];
      SidesHalve(tests, names[..n], digest, t);
    }
  }

  /** Calibration and holdout halves of every stratum, strata in the order of their names. */
  method SplitStrata(tests: seq<Entry>, names: seq<string>, digest: Entry -> real)
    returns (calibration: seq<Entry>, holdout: seq<Entry>)
    ensures (calibration, holdout) == Sides(tests, names, digest)
  {
    calibration, holdout := [], [];
    var k := 0;
    while k < |names|
      invariant 0 <= k <= |names|
      invariant (calibration, holdout) == Sides(tests, names[..k], digest)
    {
      var ranked := SortBy(Stratum(tests, names[k]), digest);
      assert names[..k + 1][..k] == names[..k];
      if ranked != [] {
        calibration := calibration + CalibrationPart(ranked);
        holdout := holdout + HoldoutPart(ranked);
      }
      k := k + 1;
    }
    assert names[..k] == names;
  }

  /** Both sides hold part of the stratum, calibration the half of it, rounded down, with the least digests. */
  ghost predicate Halves(tests: seq<Entry>, t: string, calibration: seq<Entry>, holdout: seq<Entry>, digest: Entry -> real) {
    exists c, h :: Parts(tests, t, c, h, digest) && c <= multiset(calibration) && h <= multiset(holdout)
  }

  predicate Parts(tests: seq<Entry>, t: string, c: multiset<Entry>, h: multiset<Entry>, digest: Entry -> real) {
    && c + h == multiset(Stratum(tests, t)) && |c| == |Stratum(tests, t)| / 2 && |h| >= 1
    && forall a, b | a in c && b in h :: digest(a) <= digest(b)
  }

  lemma PartsOfStratum(ranked: seq<Entry>)
    requires ranked != []
    ensures |ranked| > 1 ==> multiset(CalibrationPart(ranked)) + multiset(HoldoutPart(ranked)) == multiset(ranked)
    ensures |ranked| > 1 ==> |CalibrationPart(ranked)| == |ranked| / 2 && |HoldoutPart(ranked)| >= 1
    ensures |ranked| == 1 ==> CalibrationPart(ranked) == ranked && HoldoutPart(ranked) == ranked
  {
    var n := Cut(|ranked|);
    assert ranked == ranked[..n] + ranked[n..];
  }

  lemma PartsAreRanked(ranked: seq<Entry>, digest: Entry -> real)
    requires |ranked| > 1 && SortedBy(ranked, digest)
    ensures forall a, b | a in multiset(CalibrationPart(ranked)) && b in multiset(HoldoutPart(ranked)) :: digest(a) <= digest(b)
  {
    forall a, b | a in CalibrationPart(ranked) && b in HoldoutPart(ranked) ensures digest(a) <= digest(b) {
      var i :| 0 <= i < |CalibrationPart(ranked)| && CalibrationPart(ranked)[i] == a;
      var j :| 0 <= j < |HoldoutPart(ranked)| && HoldoutPart(ranked)[j] == b;
      assert ranked[i] == a && ranked[Cut(|ranked|) + j] == b;
    }
  }

  lemma HalvesOfStratum(tests: seq<Entry>, t: string, ranked: seq<Entry>, c0: seq<Entry>, h0: seq<Entry>, digest: Entry -> real)
    requires SortedBy(ranked, digest)
    requires ranked != [] && multiset(ranked) == multiset(Stratum(tests, t)) && |ranked| == |Stratum(tests, t)|
    ensures |ranked| > 1 ==> Halves(tests, t, c0 + CalibrationPart(ranked), h0 + HoldoutPart(ranked), digest)
    ensures forall u | Halves(tests, u, c0, h0, digest) :: Halves(tests, u, c0 + CalibrationPart(ranked), h0 + HoldoutPart(ranked), digest)
  {
    PartsOfStratum(ranked);
    var c, h := multiset(CalibrationPart(ranked)), multiset(HoldoutPart(ranked));
    if |ranked| > 1 {
      PartsAreRanked(ranked, digest);
      assert Parts(tests, t, c, h, digest);
    }
    forall u | Halves(tests, u, c0, h0, digest) ensures Halves(tests, u, c0 + CalibrationPart(ranked), h0 + HoldoutPart(ranked), digest) {
      var c1, h1 :| Parts(tests, u, c1, h1, digest) && c1 <= multiset(c0) && h1 <= multiset(h0);
      assert c1 <= multiset(c0 + CalibrationPart(ranked)) && h1 <= multiset(h0 + HoldoutPart(ranked));
    }
  }

  lemma {:induction false} StratumInhabited(entries: seq<Entry>, t: string)
    requires exists e :: e in entries && e.subtype == t
    ensures Stratum(entries, t) != []
  {
    var e :| e in entries && e.subtype == t;
    StratumCount(entries, t, e);
    assert multiset(entries)[e] > 0;
  }

  function Names(tests: seq<Entry>, text: string -> real): seq<string> {
    SortBy(Subtypes(tests), text)
  }

  lemma NamesMeaning(tests: seq<Entry>, text: string -> real)
    ensures Distinct(Names(tests, text))
    ensures forall t :: t in Names(tests, text) <==> t in Subtypes(tests)
    ensures forall e | e in tests :: e.subtype in Names(tests, text)
    ensures forall t | t in Names(tests, text) :: Stratum(tests, t) != []
  {
    SubtypesMeaning(tests);
    SortByMeaning(Subtypes(tests), text);
    DistinctCount(Subtypes(tests));
    DistinctCount(Names(tests, text));
    forall t ensures t in Names(tests, text) <==> t in Subtypes(tests) {
      assert t in multiset(Names(tests, text)) <==> t in multiset(Subtypes(tests));
    }
    forall t | t in Names(tests, text) ensures Stratum(tests, t) != [] { StratumInhabited(tests, t); }
  }

  /** The split as it is checked for leakage. */
  function Divided(entries: seq<Entry>, digest: Entry -> real, text: string -> real): seq<Entry> {
    var (c, h) := Sides(Testing(entries), Names(Testing(entries), text), digest);
    Training(entries) + c + h
  }

  /** Without singleton strata the division is a reordering of all entries. */
  lemma DividedCovers(entries: seq<Entry>, digest: Entry -> real, text: string -> real)
    requires !SomeSingleton(Testing(entries), Subtypes(Testing(entries)))
    ensures multiset(Divided(entries, digest, text)) == multiset(entries)
    ensures var tests := Testing(entries);
      var (c, h) := Sides(tests, Names(tests, text), digest);
      multiset(c) + multiset(h) == multiset(tests) && forall t | t in Subtypes(tests) :: Halves(tests, t, c, h, digest)
  {
    var tests := Testing(entries);
    var names := Names(tests, text);
    NamesMeaning(tests, text);
    SidesCover(tests, names, digest);
    WithinAll(tests, names);
    TrainingAndTesting(entries);
    forall t | t in Subtypes(tests) ensures var (c, h) := Sides(tests, names, digest); Halves(tests, t, c, h, digest) {
      SidesHalve(tests, names, digest, t);
    }
  }

  /** The division repeats no value exactly when there is no singleton stratum and the entries
      repeat none. */
  lemma DividedUnrepeatedIff(entries: seq<Entry>, digest: Entry -> real, text: string -> real)
    requires forall e | e in entries :: e.row.sampleId != ""
    ensures EntriesUnrepeated(Divided(entries, digest, text)) <==>
      !SomeSingleton(Testing(entries), Subtypes(Testing(entries))) && EntriesUnrepeated(entries)
  {
    var tests := Testing(entries);
    NamesMeaning(tests, text);
    if SomeSingleton(tests, Subtypes(tests)) {
      var t :| t in Subtypes(tests) && |Stratum(tests, t)| == 1;
      SingletonOnBothSides(tests, Names(tests, text), digest, t);
      var (c, h) := Sides(tests, Names(tests, text), digest);
      MemberOfStratum(entries, t);
      TwiceRepeats(Training(entries), c, h, Stratum(tests, t)[0]);
    } else {
      DividedCovers(entries, digest, text);
      if EntriesUnrepeated(entries) { UnrepeatedIgnoresOrder(entries, Divided(entries, digest, text)); }
      if EntriesUnrepeated(Divided(entries, digest, text)) { UnrepeatedIgnoresOrder(Divided(entries, digest, text), entries); }
    }
  }

  lemma MemberOfStratum(entries: seq<Entry>, t: string)
    ensures forall e | e in Stratum(Testing(entries), t) :: e in entries
  {
    forall e | e in Stratum(Testing(entries), t) ensures e in entries {
      StratumCount(Testing(entries), t, e);
      TrainingAndTesting(entries);
      assert e in multiset(Stratum(Testing(entries), t));
      assert e in multiset(Testing(entries));
      assert e in multiset(entries);
    }
  }

  /** The protocol B split: accepted exactly when no stratum of the source test set is a single
      entry and no field value repeats among the entries; then calibration and holdout together
      are the source test set, each entry once. */
  method SplitProtocolB(entries: seq<Entry>, digest: Entry -> real, text: string -> real, name: Entry -> real)
    returns (r: Result<Manifest, seq<Overlap>>)
    requires forall e | e in entries :: e.row.sampleId != ""
    ensures r.Ok? <==> !SomeSingleton(Testing(entries), Subtypes(Testing(entries))) && EntriesUnrepeated(entries)
    ensures r.Ok? ==>
      && r.value.train == Rows(Training(entries))
      && multiset(r.value.calibration) + multiset(r.value.holdout) == multiset(Testing(entries))
      && (forall e :: e in r.value.calibration || e in r.value.holdout <==> e in entries && e.fromTest)
      && SortedBy(r.value.calibration, name) && SortedBy(r.value.holdout, name)
      && (forall a, b | a in r.value.calibration && b in r.value.holdout :: !Clash(a, b))
      && (forall t | t in Subtypes(Testing(entries)) :: Halves(Testing(entries), t, r.value.calibration, r.value.holdout, digest))
  {
    var tests := Testing(entries);
    var calibration, holdout := SplitStrata(tests, SortBy(Subtypes(tests), text), digest);
    var left, right := SortBy(calibration, name), SortBy(holdout, name);
    SortByMeaning(calibration, name);
    SortByMeaning(holdout, name);
    ThreeBuckets(Training(entries), left, right);
    var checked := ValidateSplitManifest([(Train, Rows(Training(entries))), (Calibration, Rows(left)), (Holdout, Rows(right))]);
    DividedUnrepeatedIff(entries, digest, text);
    SortedSides(Training(entries), calibration, holdout, left, right);
    if checked.Err? {
      return Err(checked.error);
    }
    DividedCovers(entries, digest, text);
    SidesAreTests(entries, left, right);
    SidesDoNotClash(Training(entries), left, right);
    forall t | t in Subtypes(tests) ensures Halves(tests, t, left, right, digest) {
      assert Halves(tests, t, calibration, holdout, digest);
    }
    return Ok(Manifest(Rows(Training(entries)), left, right));
  }

  lemma SidesAreTests(entries: seq<Entry>, left: seq<Entry>, right: seq<Entry>)
    requires multiset(left) + multiset(right) == multiset(Testing(entries))
    ensures forall e :: e in left || e in right <==> e in entries && e.fromTest
  {
    TrainingAndTesting(entries);
    forall e ensures e in left || e in right <==> e in entries && e.fromTest {
      assert e in multiset(left) || e in multiset(right) <==> e in multiset(Testing(entries));
      assert e in multiset(entries) <==> e in multiset(Training(entries)) || e in multiset(Testing(entries));
    }
  }

  lemma SortedSides(train: seq<Entry>, c: seq<Entry>, h: seq<Entry>, left: seq<Entry>, right: seq<Entry>)
    requires multiset(c) == multiset(left) && multiset(h) == multiset(right)
    ensures EntriesUnrepeated(train + c + h) <==> EntriesUnrepeated(train + left + right)
  {
    if EntriesUnrepeated(train + c + h) { UnrepeatedIgnoresOrder(train + c + h, train + left + right); }
    if EntriesUnrepeated(train + left + right) { UnrepeatedIgnoresOrder(train + left + right, train + c + h); }
  }

  lemma ThreeBuckets(a: seq<Entry>, b: seq<Entry>, c: seq<Entry>)
    ensures AllRows([(Train, Rows(a)), (Calibration, Rows(b)), (Holdout, Rows(c))]) == Rows(a + b + c)
  {
    var x, y, z := (Train, Rows(a)), (Calibration, Rows(b)), (Holdout, Rows(c));
    assert [x, y, z][..2] == [x, y] && [x, y][..1] == [x] && [x][..0] == [];
    assert AllRows([x]) == Rows(a);
    assert AllRows([x, y]) == Rows(a) + Rows(b);
    assert Rows(a) + Rows(b) + Rows(c) == Rows(a + b + c);
  }

  lemma TwiceRepeats(train: seq<Entry>, left: seq<Entry>, right: seq<Entry>, e: Entry)
    requires e in left && e in right && e.row.sampleId != ""
    ensures !EntriesUnrepeated(train + left + right)
  {
    var i :| 0 <= i < |left| && left[i] == e;
    var j :| 0 <= j < |right| && right[j] == e;
    var rows := Rows(train + left + right);
    var m, n := |train| + i, |train| + |left| + j;
    assert rows[m] == e.row && rows[n] == e.row;
    assert Repeats(rows[m], rows[n], 0);
  }

  lemma SidesDoNotClash(train: seq<Entry>, left: seq<Entry>, right: seq<Entry>)
    requires EntriesUnrepeated(train + left + right)
    ensures forall a, b | a in left && b in right :: !Clash(a, b)
  {
    var rows := Rows(train + left + right);
    forall a, b | a in left && b in right ensures !Clash(a, b) {
      var i :| 0 <= i < |left| && left[i] == a;
      var j :| 0 <= j < |right| && right[j] == b;
      assert rows[|train| + i] == a.row && rows[|train| + |left| + j] == b.row;
    }
  }
}
