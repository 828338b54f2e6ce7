/**
 * `UpgradeRequestService.clean_for_model`: the upgrade requests a server returns are sorted
 * in place by `db_uuid`, and of each run of equal `db_uuid`s only the request with the
 * highest `id` is kept (the first of them when several share that `id`).
 *
 * Python's `sort(key=...)` and `max(..., key=...)` compute the keys first; here a record
 * travels with its keys as a `Keyed` value.
 */
module UpgradeRequestService {
  import opened Python

  type Row = map<string, PyVal>

  const ModelName: string := "upgrade.request"

  /** A record the keys can be read from: a string `db_uuid` and an integer `id`. */
  predicate UpgradeRow(row: Row) {
    "db_uuid" in row && row["db_uuid"].PStr? && "id" in row && row["id"].PInt?
  }

  predicate AllUpgradeRows(s: seq<Row>) {
    forall i | 0 <= i < |s| :: UpgradeRow(s[i])
  }

  /** A record with its sort key `db_uuid` and its `max` key `id`. */
  datatype Keyed = Keyed(uuid: string, id: int, row: Row)

  function Decorate(s: seq<Row>): (ks: seq<Keyed>)
    requires AllUpgradeRows(s)
    ensures |ks| == |s| && Consistent(ks)
    ensures forall i | 0 <= i < |s| :: ks[i] == Keyed(s[i]["db_uuid"].s, s[i]["id"].i, s[i])
  {
    if |s| == 0 then [] else Decorate(s[..|s| - 1]) + [Keyed(s[|s| - 1]["db_uuid"].s, s[|s| - 1]["id"].i, s[|s| - 1])]
  }

  /** The keys are those of the record. */
  predicate Consistent(ks: seq<Keyed>) {
    forall i | 0 <= i < |ks| ::
      UpgradeRow(ks[i].row) && ks[i] == Keyed(ks[i].row["db_uuid"].s, ks[i].row["id"].i, ks[i].row)
  }

  lemma {:induction false} RearrangedConsistent(s: seq<Keyed>, r: seq<Keyed>)
    requires Consistent(s) && multiset(r) == multiset(s)
    ensures Consistent(r)
  {
    forall i | 0 <= i < |r|
      ensures UpgradeRow(r[i].row) && r[i] == Keyed(r[i].row["db_uuid"].s, r[i].row["id"].i, r[i].row)
    {
      assert r[i] in multiset(s);
      var j :| 0 <= j < |s| && s[j] == r[i];
    }
  }

  function RowsOf(ks: seq<Keyed>): (s: seq<Row>)
    ensures |s| == |ks| && forall i | 0 <= i < |ks| :: s[i] == ks[i].row
  {
    if |ks| == 0 then [] else [ks[0].row] + RowsOf(ks[1..])
  }

  function Uuids(ks: seq<Keyed>): (us: seq<string>)
    ensures |us| == |ks| && forall i | 0 <= i < |ks| :: us[i] == ks[i].uuid
  {
    if |ks| == 0 then [] else Uuids(ks[..|ks| - 1]) + [ks[|ks| - 1].uuid]
  }

  predicate Ascending(ks: seq<Keyed>) {
    forall i, j | 0 <= i < j < |ks| :: StrLessEq(ks[i].uuid, ks[j].uuid)
  }

  predicate StrictlyAscending(ks: seq<Keyed>) {
    forall i, j | 0 <= i < j < |ks| :: StrLess(ks[i].uuid, ks[j].uuid)
  }

  predicate AdjacentAscending(ks: seq<Keyed>) {
    forall i | 0 < i < |ks| :: StrLessEq(ks[i - 1].uuid, ks[i].uuid)
  }

  lemma {:induction false} StrLessEqTransitive(a: string, b: string, c: string)
    requires StrLessEq(a, b) && StrLessEq(b, c)
    ensures StrLessEq(a, c)
  {
    if a != b && b != c {
      StrLessTransitive(a, b, c);
    }
  }

  /** Order between neighbours is order between any two. */
  lemma {:induction false} AdjacentAscendingGlobal(ks: seq<Keyed>)
    requires AdjacentAscending(ks)
    ensures Ascending(ks)
    decreases |ks|
  {
    if |ks| > 1 {
      var n := |ks| - 1;
      var p := ks[..n];
      assert AdjacentAscending(p);
      AdjacentAscendingGlobal(p);
      forall i, j | 0 <= i < j < |ks|
        ensures StrLessEq(ks[i].uuid, ks[j].uuid)
      {
        if j < n {
          assert ks[i] == p[i] && ks[j] == p[j];
        } else if i < n - 1 {
          assert StrLessEq(p[i].uuid, p[n - 1].uuid);
          StrLessEqTransitive(ks[i].uuid, ks[n - 1].uuid, ks[n].uuid);
        }
      }
    }
  }

  // ---------------------------------------------------------------------------
  // sort
  // ---------------------------------------------------------------------------

  /** Inserts `x` in front of the first record it does not exceed. */
  function Insert(x: Keyed, s: seq<Keyed>): (r: seq<Keyed>)
    ensures |r| == |s| + 1 && multiset(r) == multiset(s) + multiset{x}
    ensures r[0] == x || (|s| > 0 && r[0] == s[0])
  {
    if |s| == 0 || StrLessEq(x.uuid, s[0].uuid) then [x] + s
    else
      assert s == [s[0]] + s[1..];
      [s[0]] + Insert(x, s[1..])
  }

  /** Python's stable sort by `db_uuid`: each record goes in front of its equals. */
  function SortedByUuid(s: seq<Keyed>): (r: seq<Keyed>)
    ensures |r| == |s| && multiset(r) == multiset(s)
  {
    if |s| == 0 then []
    else
      assert s == [s[0]] + s[1..];
      Insert(s[0], SortedByUuid(s[1..]))
  }

  lemma {:induction false} InsertAscending(x: Keyed, s: seq<Keyed>)
    requires AdjacentAscending(s)
    ensures AdjacentAscending(Insert(x, s))
    decreases |s|
  {
    if |s| > 0 && !StrLessEq(x.uuid, s[0].uuid) {
      var t := s[1..];
      InsertAscending(x, t);
      StrLessTotal(x.uuid, s[0].uuid);
      var rt := Insert(x, t);
      assert Insert(x, s) == [s[0]] + rt;
      if |t| > 0 && rt[0] != x {
        assert rt[0] == s[1];
      }
    }
  }

  /** The sorted records ascend by `db_uuid`. */
  lemma {:induction false} SortedAscending(s: seq<Keyed>)
    ensures Ascending(SortedByUuid(s))
    decreases |s|
  {
    if |s| > 0 {
      SortedAscending(s[1..]);
      AscendingAdjacent(SortedByUuid(s[1..]));
      InsertAscending(s[0], SortedByUuid(s[1..]));
      AdjacentAscendingGlobal(SortedByUuid(s));
    }
  }

  lemma {:induction false} AscendingAdjacent(ks: seq<Keyed>)
    requires Ascending(ks)
    ensures AdjacentAscending(ks)
  {
  }

  /** Sorting only rearranges the records themselves. */
  lemma {:induction false} InsertRows(x: Keyed, s: seq<Keyed>)
    ensures multiset(RowsOf(Insert(x, s))) == multiset(RowsOf(s)) + multiset{x.row}
    decreases |s|
  {
    if |s| > 0 && !StrLessEq(x.uuid, s[0].uuid) {
      InsertRows(x, s[1..]);
      assert RowsOf(s) == [s[0].row] + RowsOf(s[1..]);
      assert RowsOf(Insert(x, s)) == [s[0].row] + RowsOf(Insert(x, s[1..]));
    } else {
      assert RowsOf(Insert(x, s)) == [x.row] + RowsOf(s);
    }
  }

  lemma {:induction false} SortedRows(s: seq<Keyed>)
    ensures multiset(RowsOf(SortedByUuid(s))) == multiset(RowsOf(s))
    decreases |s|
  {
    if |s| > 0 {
      SortedRows(s[1..]);
      InsertRows(s[0], SortedByUuid(s[1..]));
      assert RowsOf(s) == [s[0].row] + RowsOf(s[1..]);
    }
  }

  lemma {:induction false} DecoratedRows(s: seq<Row>)
    requires AllUpgradeRows(s)
    ensures RowsOf(Decorate(s)) == s
  {
  }

  // ---------------------------------------------------------------------------
  // groupby + max
  // ---------------------------------------------------------------------------

  /**
   * `[max(group, key=id) for _, group in groupby(s, key=db_uuid)]`, one record at a time:
   * a record joins the current run when its `db_uuid` equals the run's, and replaces the
   * run's representative only when its `id` is strictly greater.
   */
  function KeepMax(s: seq<Keyed>): (r: seq<Keyed>)
    ensures |r| <= |s|
    ensures |s| > 0 ==> |r| > 0 && r[|r| - 1].uuid == s[|s| - 1].uuid
  {
    if |s| == 0 then []
    else
      var p := KeepMax(s[..|s| - 1]);
      var x := s[|s| - 1];
      if |p| > 0 && p[|p| - 1].uuid == x.uuid then
        if x.id > p[|p| - 1].id then p[..|p| - 1] + [x] else p
      else p + [x]
  }

  /** Every kept record is one of the input records. */
  lemma {:induction false} KeepMaxMembers(s: seq<Keyed>)
    ensures forall k | 0 <= k < |KeepMax(s)| :: KeepMax(s)[k] in s
    decreases |s|
  {
    if |s| > 0 {
      var n := |s| - 1;
      KeepMaxMembers(s[..n]);
      var p := KeepMax(s[..n]);
      var r := KeepMax(s);
      forall k | 0 <= k < |r|
        ensures r[k] in s
      {
        if k < |p| && r[k] == p[k] {
          assert p[k] in s[..n];
        } else {
          assert r[k] == s[n];
        }
      }
    }
  }

  /** Every `db_uuid` of the input is represented in the output. */
  lemma {:induction false} KeepMaxCovers(s: seq<Keyed>)
    ensures forall i | 0 <= i < |s| :: s[i].uuid in Uuids(KeepMax(s))
    decreases |s|
  {
    if |s| > 0 {
      var n := |s| - 1;
      var p := KeepMax(s[..n]);
      KeepMaxCovers(s[..n]);
      var r := KeepMax(s);
      forall i | 0 <= i < |s|
        ensures s[i].uuid in Uuids(r)
      {
        if i == n {
          assert Uuids(r)[|r| - 1] == s[n].uuid;
        } else {
          assert s[i] == s[..n][i];
          var k :| 0 <= k < |p| && Uuids(p)[k] == s[i].uuid;
          assert Uuids(r)[k] == s[i].uuid;
        }
      }
    }
  }

  /** On input sorted by `db_uuid`, the output's `db_uuid`s strictly increase: one record each. */
  lemma {:induction false} KeepMaxAscending(s: seq<Keyed>)
    requires Ascending(s)
    ensures StrictlyAscending(KeepMax(s))
    decreases |s|
  {
    if |s| > 0 {
      var n := |s| - 1;
      var p := KeepMax(s[..n]);
      KeepMaxAscending(s[..n]);
      var x := s[n];
      if |p| > 0 && p[|p| - 1].uuid == x.uuid {
        StrictlyAscendingReplaceLast(p, x);
      } else {
        if |p| > 0 {
          assert p[|p| - 1].uuid == s[n - 1].uuid;
          assert StrLess(p[|p| - 1].uuid, x.uuid);
        }
        StrictlyAscendingExtend(p, x);
      }
    }
  }

  /** A record above the last `db_uuid` keeps the `db_uuid`s strictly increasing. */
  lemma {:induction false} StrictlyAscendingExtend(p: seq<Keyed>, x: Keyed)
    requires StrictlyAscending(p) && (|p| == 0 || StrLess(p[|p| - 1].uuid, x.uuid))
    ensures StrictlyAscending(p + [x])
  {
    var r := p + [x];
    forall i, j | 0 <= i < j < |r|
      ensures StrLess(r[i].uuid, r[j].uuid)
    {
      if j == |p| && i < |p| - 1 {
        StrLessTransitive(p[i].uuid, p[|p| - 1].uuid, x.uuid);
      }
    }
  }

  /** Replacing the last record by one with the same `db_uuid` keeps them strictly increasing. */
  lemma {:induction false} StrictlyAscendingReplaceLast(p: seq<Keyed>, x: Keyed)
    requires StrictlyAscending(p) && |p| > 0 && p[|p| - 1].uuid == x.uuid
    ensures StrictlyAscending(p[..|p| - 1] + [x])
  {
    var r := p[..|p| - 1] + [x];
    assert forall i | 0 <= i < |r| :: r[i].uuid == p[i].uuid;
  }

  /**
   * On input sorted by `db_uuid`, each kept record has the highest `id` among the input
   * records with its `db_uuid`.
   */
  lemma {:induction false} KeepMaxIsMax(s: seq<Keyed>)
    requires Ascending(s)
    ensures forall k, i | 0 <= k < |KeepMax(s)| && 0 <= i < |s| && s[i].uuid == KeepMax(s)[k].uuid ::
      s[i].id <= KeepMax(s)[k].id
    decreases |s|
  {
    if |s| > 0 {
      var n := |s| - 1;
      var q := s[..n];
      KeepMaxIsMax(q);
      KeepMaxAscending(q);
      assert s == q + [s[n]];
      MaxStep(q, s[n]);
    }
  }

  /** One step of `KeepMaxIsMax`: the new record either joins the last run or starts one. */
  lemma {:induction false} MaxStep(q: seq<Keyed>, x: Keyed)
    requires Ascending(q + [x])
    requires StrictlyAscending(KeepMax(q))
    requires forall k, i | 0 <= k < |KeepMax(q)| && 0 <= i < |q| && q[i].uuid == KeepMax(q)[k].uuid ::
      q[i].id <= KeepMax(q)[k].id
    ensures forall k, i | 0 <= k < |KeepMax(q + [x])| && 0 <= i < |q + [x]| && (q + [x])[i].uuid == KeepMax(q + [x])[k].uuid ::
      (q + [x])[i].id <= KeepMax(q + [x])[k].id
  {
    var p := KeepMax(q);
    if |p| > 0 && p[|p| - 1].uuid == x.uuid {
      MaxJoin(q, x);
    } else {
      MaxStart(q, x);
    }
  }

  /** The step of `KeepMaxIsMax` where the new record joins the last run. */
  lemma {:induction false} MaxJoin(q: seq<Keyed>, x: Keyed)
    requires StrictlyAscending(KeepMax(q))
    requires forall k, i | 0 <= k < |KeepMax(q)| && 0 <= i < |q| && q[i].uuid == KeepMax(q)[k].uuid ::
      q[i].id <= KeepMax(q)[k].id
    requires |KeepMax(q)| > 0 && KeepMax(q)[|KeepMax(q)| - 1].uuid == x.uuid
    ensures forall k, i | 0 <= k < |KeepMax(q + [x])| && 0 <= i < |q + [x]| && (q + [x])[i].uuid == KeepMax(q + [x])[k].uuid ::
      (q + [x])[i].id <= KeepMax(q + [x])[k].id
  {
    var s := q + [x];
    assert s[..|s| - 1] == q;
    var p := KeepMax(q);
    var r := KeepMax(s);
    var last := |p| - 1;
    forall k, i | 0 <= k < |r| && 0 <= i < |s| && s[i].uuid == r[k].uuid
      ensures s[i].id <= r[k].id
    {
      if k < last {
        assert r[k] == p[k];
        assert StrLess(p[k].uuid, p[last].uuid);
        if i == |q| {
          StrLessIrreflexive(x.uuid);
        } else {
          assert q[i] == s[i];
        }
      } else if i < |q| {
        assert q[i] == s[i];
        assert s[i].id <= p[last].id;
      }
    }
  }

  /** The step of `KeepMaxIsMax` where the new record starts a run of its own. */
  lemma {:induction false} MaxStart(q: seq<Keyed>, x: Keyed)
    requires Ascending(q + [x])
    requires StrictlyAscending(KeepMax(q))
    requires forall k, i | 0 <= k < |KeepMax(q)| && 0 <= i < |q| && q[i].uuid == KeepMax(q)[k].uuid ::
      q[i].id <= KeepMax(q)[k].id
    requires |KeepMax(q)| == 0 || KeepMax(q)[|KeepMax(q)| - 1].uuid != x.uuid
    ensures forall k, i | 0 <= k < |KeepMax(q + [x])| && 0 <= i < |q + [x]| && (q + [x])[i].uuid == KeepMax(q + [x])[k].uuid ::
      (q + [x])[i].id <= KeepMax(q + [x])[k].id
  {
    var s := q + [x];
    assert s[..|s| - 1] == q;
    var p := KeepMax(q);
    var r := KeepMax(s);
    assert r == p + [x];
    forall i | 0 <= i < |s| && s[i].uuid == x.uuid
      ensures i == |q|
    {
      if i < |q| {
        var u := q[|q| - 1].uuid;
        assert StrLessEq(s[|q| - 1].uuid, s[|q|].uuid);
        assert StrLess(u, x.uuid);
        assert StrLessEq(s[i].uuid, s[|q| - 1].uuid) || i == |q| - 1;
        StrLessEqTransitive(s[i].uuid, u, x.uuid);
        StrLessAsymmetric(u, x.uuid);
      }
    }
    forall k | 0 <= k < |p|
      ensures r[k] == p[k] && p[k].uuid != x.uuid
    {
      var u := q[|q| - 1].uuid;
      assert StrLessEq(s[|q| - 1].uuid, s[|q|].uuid);
      if k < |p| - 1 {
        assert StrLess(p[k].uuid, p[|p| - 1].uuid);
        StrLessTransitive(p[k].uuid, u, x.uuid);
      }
      StrLessIrreflexive(x.uuid);
    }
    forall k, i | 0 <= k < |r| && 0 <= i < |s| && s[i].uuid == r[k].uuid
      ensures s[i].id <= r[k].id
    {
      if k < |p| && i < |q| {
        assert q[i] == s[i];
      }
    }
  }

  /** Every record decorated from `before` sits somewhere in the sorted list. */
  lemma {:induction false} DecoratedInSorted(before: seq<Row>, i: nat)
    requires AllUpgradeRows(before) && i < |before|
    ensures exists m | 0 <= m < |SortedByUuid(Decorate(before))| ::
      SortedByUuid(Decorate(before))[m] == Decorate(before)[i]
  {
    var d := Decorate(before);
    assert d[i] in multiset(SortedByUuid(d));
  }

  /** Each kept record is one of the returned ones. */
  lemma {:induction false} CleanedMembers(before: seq<Row>)
    requires AllUpgradeRows(before)
    ensures forall k | 0 <= k < |KeepMax(SortedByUuid(Decorate(before)))| ::
      KeepMax(SortedByUuid(Decorate(before)))[k].row in before
  {
    var d := Decorate(before);
    var r := KeepMax(SortedByUuid(d));
    KeepMaxMembers(SortedByUuid(d));
    forall k | 0 <= k < |r|
      ensures r[k].row in before
    {
      assert r[k] in multiset(d);
      var i :| 0 <= i < |d| && d[i] == r[k];
    }
  }

  /** The keys of each kept record are those read from it. */
  lemma {:induction false} CleanedConsistent(before: seq<Row>)
    requires AllUpgradeRows(before)
    ensures Consistent(KeepMax(SortedByUuid(Decorate(before))))
  {
    var d := Decorate(before);
    var sorted := SortedByUuid(d);
    RearrangedConsistent(d, sorted);
    KeepMaxMembers(sorted);
    var r := KeepMax(sorted);
    forall k | 0 <= k < |r|
      ensures UpgradeRow(r[k].row) && r[k] == Keyed(r[k].row["db_uuid"].s, r[k].row["id"].i, r[k].row)
    {
      var m :| 0 <= m < |sorted| && sorted[m] == r[k];
    }
  }

  /** Every returned `db_uuid` is represented. */
  lemma {:induction false} CleanedCovers(before: seq<Row>)
    requires AllUpgradeRows(before)
    ensures forall i | 0 <= i < |before| ::
      before[i]["db_uuid"].s in Uuids(KeepMax(SortedByUuid(Decorate(before))))
  {
    var sorted := SortedByUuid(Decorate(before));
    KeepMaxCovers(sorted);
    forall i | 0 <= i < |before|
      ensures before[i]["db_uuid"].s in Uuids(KeepMax(sorted))
    {
      DecoratedInSorted(before, i);
    }
  }

  /** Each kept record carries the highest `id` of its `db_uuid`. */
  lemma {:induction false} CleanedMax(before: seq<Row>)
    requires AllUpgradeRows(before)
    ensures forall k, i | 0 <= k < |KeepMax(SortedByUuid(Decorate(before)))| && 0 <= i < |before| &&
      before[i]["db_uuid"].s == KeepMax(SortedByUuid(Decorate(before)))[k].uuid ::
      before[i]["id"].i <= KeepMax(SortedByUuid(Decorate(before)))[k].id
  {
    var sorted := SortedByUuid(Decorate(before));
    var r := KeepMax(sorted);
    SortedAscending(Decorate(before));
    KeepMaxIsMax(sorted);
    forall k, i | 0 <= k < |r| && 0 <= i < |before| && before[i]["db_uuid"].s == r[k].uuid
      ensures before[i]["id"].i <= r[k].id
    {
      DecoratedInSorted(before, i);
    }
  }

  /**
   * What `clean_for_model` promises for the records `before` the server returned: one
   * record per `db_uuid` in strictly increasing order, each one of the returned records,
   * every returned `db_uuid` represented, and each kept record carrying the highest `id`
   * of its `db_uuid`.
   */
  lemma {:induction false} CleanedRequests(before: seq<Row>)
    requires AllUpgradeRows(before)
    ensures StrictlyAscending(KeepMax(SortedByUuid(Decorate(before))))
    ensures forall k | 0 <= k < |KeepMax(SortedByUuid(Decorate(before)))| ::
      KeepMax(SortedByUuid(Decorate(before)))[k].row in before
    ensures forall i | 0 <= i < |before| ::
      before[i]["db_uuid"].s in Uuids(KeepMax(SortedByUuid(Decorate(before))))
    ensures forall k, i | 0 <= k < |KeepMax(SortedByUuid(Decorate(before)))| && 0 <= i < |before| &&
      before[i]["db_uuid"].s == KeepMax(SortedByUuid(Decorate(before)))[k].uuid ::
      before[i]["id"].i <= KeepMax(SortedByUuid(Decorate(before)))[k].id
  {
    SortedAscending(Decorate(before));
    KeepMaxAscending(SortedByUuid(Decorate(before)));
    CleanedMembers(before);
    CleanedCovers(before);
    CleanedMax(before);
  }

  // ---------------------------------------------------------------------------
  // The method
  // ---------------------------------------------------------------------------

  /** The records of `s` in the order `sort(key=db_uuid)` leaves them. */
  function SortedResponse(s: seq<Row>): (r: seq<Row>)
    requires AllUpgradeRows(s)
    ensures |r| == |s| && multiset(r) == multiset(s)
  {
    SortedRows(Decorate(s));
    DecoratedRows(s);
    RowsOf(SortedByUuid(Decorate(s)))
  }

  /** `response.sort(key=lambda r: r["db_uuid"])`. */
  method SortByUuid(a: array<Row>)
    requires AllUpgradeRows(a[..])
    modifies a
    ensures a[..] == SortedResponse(old(a[..]))
  {
    var sorted := SortedResponse(a[..]);
    CopyInto(a, sorted);
  }

  /** Overwrites the array, element by element, with `s`. */
  method CopyInto<T>(a: array<T>, s: seq<T>)
    requires |s| == a.Length
    modifies a
    ensures a[..] == s
  {
    for i := 0 to a.Length
      invariant forall k | 0 <= k < i :: a[k] == s[k]
    {
      a[i] := s[i];
    }
  }

  /** The `i`-th record after sorting, with the keys `clean_for_model` reads from it. */
  lemma {:induction false} SortedKeys(s: seq<Row>, i: int)
    requires AllUpgradeRows(s) && 0 <= i < |s|
    ensures UpgradeRow(SortedResponse(s)[i])
    ensures SortedByUuid(Decorate(s))[i] ==
      Keyed(SortedResponse(s)[i]["db_uuid"].s, SortedResponse(s)[i]["id"].i, SortedResponse(s)[i])
  {
    RearrangedConsistent(Decorate(s), SortedByUuid(Decorate(s)));
  }

  /** Reading the keys again from the sorted records gives the sorted decorated records. */
  lemma {:induction false} RedecorateSorted(s: seq<Row>)
    requires AllUpgradeRows(s)
    ensures AllUpgradeRows(SortedResponse(s))
    ensures Decorate(SortedResponse(s)) == SortedByUuid(Decorate(s))
  {
    forall i | 0 <= i < |s|
      ensures UpgradeRow(SortedResponse(s)[i])
    {
      SortedKeys(s, i);
    }
    forall i | 0 <= i < |s|
      ensures Decorate(SortedResponse(s))[i] == SortedByUuid(Decorate(s))[i]
    {
      SortedKeys(s, i);
    }
  }

  /** `[max(g, key=id) for _, g in groupby(rows, key=db_uuid)]`. */
  method GroupMax(rows: seq<Row>) returns (kept: seq<Row>)
    requires AllUpgradeRows(rows)
    ensures kept == RowsOf(KeepMax(Decorate(rows)))
  {
    var best: seq<Keyed> := [];
    for i := 0 to |rows|
      invariant best == KeepMax(Decorate(rows[..i]))
    {
      var row := rows[i];
      var x := Keyed(row["db_uuid"].s, row["id"].i, row);
      assert rows[..i + 1][..i] == rows[..i];
      if |best| > 0 && best[|best| - 1].uuid == x.uuid {
        if x.id > best[|best| - 1].id {
          best := best[..|best| - 1] + [x];
        }
      } else {
        best := best + [x];
      }
    }
    assert rows[..|rows|] == rows;
    kept := RowsOf(best);
  }

  /** `clean_for_model(response)`: sorts `response` in place and returns the kept records. */
  method CleanForModel(response: array<Row>) returns (requests: seq<Row>)
    requires AllUpgradeRows(response[..])
    modifies response
    ensures response[..] == SortedResponse(old(response[..]))
    ensures requests == RowsOf(KeepMax(SortedByUuid(Decorate(old(response[..])))))
  {
    RedecorateSorted(response[..]);
    SortByUuid(response);
    requests := GroupMax(response[..]);
  }
}
