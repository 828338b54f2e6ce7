/**
 * The helpers of `utils/utils.py`: the three-valued filter flag, the YES/NO wrapper used
 * when rendering table cells, `list_to_dict` and the YES/NO bucketing of grouped counts.
 */
module Utils {
  import opened Python

  // ---------------------------------------------------------------------------
  // TripleFlag and yes_or_no_value
  // ---------------------------------------------------------------------------

  /** Whether a filter keeps records with the field set, without it, or both. */
  datatype TripleFlag = Yes | No | Both {
    /** `str(flag)`, the member's value. */
    function ToString(): (r: string)
      ensures |r| > 0
    {
      match this
      case Yes => "YES"
      case No => "NO"
      case Both => "BOTH"
    }
  }

  /** Distinct members have distinct strings, so the value identifies the member. */
  lemma {:induction false} TripleFlagStringsDistinct(f: TripleFlag, g: TripleFlag)
    ensures f.ToString() == g.ToString() <==> f == g
  {
  }

  /** `yes_or_no_value(value)`. */
  function YesOrNoValue(value: PyVal): (r: string)
    ensures r == "YES" || r == "NO"
    ensures r == "YES" <==> Truthy(value)
  {
    if Truthy(value) then "YES" else "NO"
  }

  /** The YES and NO members print as `yes_or_no_value` of a true and a false value. */
  lemma {:induction false} FlagsMatchYesOrNo()
    ensures Yes.ToString() == YesOrNoValue(PBool(true))
    ensures No.ToString() == YesOrNoValue(PBool(false))
  {
  }

  // ---------------------------------------------------------------------------
  // BoolStr
  // ---------------------------------------------------------------------------

  /**
   * `str(BoolStr(value, value_if_true))`: the raw value when both are truthy, else YES or
   * NO by the value's truthiness. Python refuses a `__str__` that returns something other
   * than a string, which happens when the raw value is shown and is not a string.
   */
  function Render(value: PyVal, valueIfTrue: PyVal): (r: Result<string>)
    ensures !Truthy(valueIfTrue) ==> r == Ok(YesOrNoValue(value))
    ensures !Truthy(value) ==> r == Ok("NO")
    ensures Truthy(value) && Truthy(valueIfTrue) ==>
      if value.PStr? then r == Ok(value.s) else r == Err(StrReturnedNonString(value))
  {
    if Truthy(value) && Truthy(valueIfTrue) then
      if value.PStr? then Ok(value.s) else Err(StrReturnedNonString(value))
    else
      Ok(if Truthy(value) then "YES" else "NO")
  }

  /**
   * A value shown as YES/NO, or as itself when it is set and `valueIfTrue` asks for it.
   * `value` is never reassigned; `valueIfTrue` is (by `Subscription.get_sub_value`).
   */
  class BoolStr {
    const value: PyVal
    var valueIfTrue: PyVal

    constructor (value: PyVal, valueIfTrue: PyVal)
      ensures this.value == value && this.valueIfTrue == valueIfTrue
    {
      this.value := value;
      this.valueIfTrue := valueIfTrue;
    }

    /** `str(self)`. */
    function Str(): Result<string>
      reads this
    {
      Render(value, valueIfTrue)
    }
  }

  /** Rendering never fails unless the raw value is asked for. */
  lemma {:induction false} RenderYesNo(value: PyVal, valueIfTrue: PyVal)
    requires !Truthy(valueIfTrue)
    ensures Render(value, valueIfTrue).Ok?
    ensures Render(value, valueIfTrue).value == "YES" <==> Truthy(value)
    ensures Render(value, valueIfTrue).value == "YES" || Render(value, valueIfTrue).value == "NO"
  {
  }

  // ---------------------------------------------------------------------------
  // list_to_dict
  // ---------------------------------------------------------------------------

  /** The keys of the elements, in order. */
  function KeysOf<T, K>(data: seq<T>, key: T -> K): (ks: seq<K>)
    ensures |ks| == |data| && forall i | 0 <= i < |data| :: ks[i] == key(data[i])
  {
    if |data| == 0 then [] else KeysOf(data[..|data| - 1], key) + [key(data[|data| - 1])]
  }

  /** The dictionary `list_to_dict` has built after the given elements. */
  function BuildDict<T, K(==,!new)>(data: seq<T>, key: T -> K): OrderedDict<K, T> {
    if |data| == 0 then EmptyDict()
    else
      var n := |data| - 1;
      BuildDict(data[..n], key).Put(key(data[n]), data[n])
  }

  /** `list_to_dict(data_list, key_func)`. */
  method ListToDict<T, K(==,!new)>(dataList: seq<T>, keyFunc: T -> K) returns (r: OrderedDict<K, T>)
    ensures r == BuildDict(dataList, keyFunc)
  {
    r := EmptyDict();
    for i := 0 to |dataList|
      invariant r == BuildDict(dataList[..i], keyFunc)
    {
      assert dataList[..i + 1][..i] == dataList[..i];
      var key := keyFunc(dataList[i]);
      r := r.Put(key, dataList[i]);
    }
    assert dataList[..|dataList|] == dataList;
  }

  /** The keys are those of the input, each once, in order of first occurrence. */
  lemma {:induction false} BuildDictKeys<T, K(!new)>(data: seq<T>, key: T -> K)
    ensures BuildDict(data, key).Valid()
    ensures BuildDict(data, key).keys == Dedup(KeysOf(data, key))
    decreases |data|
  {
    if |data| > 0 {
      var n := |data| - 1;
      BuildDictKeys(data[..n], key);
      assert KeysOf(data, key)[..n] == KeysOf(data[..n], key);
      PutValid(BuildDict(data[..n], key), key(data[n]), data[n]);
    }
  }

  /** A key is present exactly when some element has it. */
  lemma {:induction false} BuildDictHasKey<T, K(!new)>(data: seq<T>, key: T -> K, k: K)
    ensures k in BuildDict(data, key).entries <==> exists i | 0 <= i < |data| :: key(data[i]) == k
  {
    BuildDictKeys(data, key);
    DedupMembers(KeysOf(data, key));
    if k in KeysOf(data, key) {
      var i :| 0 <= i < |data| && KeysOf(data, key)[i] == k;
      assert key(data[i]) == k;
    }
  }

  /** The value of a key is the last element with that key. */
  lemma {:induction false} BuildDictLastWins<T, K(!new)>(data: seq<T>, key: T -> K, i: nat)
    requires i < |data|
    requires forall j | i < j < |data| :: key(data[j]) != key(data[i])
    ensures key(data[i]) in BuildDict(data, key).entries
    ensures BuildDict(data, key).entries[key(data[i])] == data[i]
    decreases |data|
  {
    var n := |data| - 1;
    if i < n {
      BuildDictLastWins(data[..n], key, i);
    }
  }

  /** Every value is one of the elements, stored under its own key. */
  lemma {:induction false} BuildDictValues<T, K(!new)>(data: seq<T>, key: T -> K, k: K)
    requires k in BuildDict(data, key).entries
    ensures BuildDict(data, key).entries[k] in data
    ensures key(BuildDict(data, key).entries[k]) == k
    decreases |data|
  {
    var n := |data| - 1;
    if key(data[n]) != k {
      BuildDictValues(data[..n], key, k);
      assert forall x | x in data[..n] :: x in data;
    }
  }

  // ---------------------------------------------------------------------------
  // group_by_record_exists
  // ---------------------------------------------------------------------------

  const CountKey: string := "__count"

  /** What `group_by_record_exists` reads from a row: the key's value and an integer count. */
  predicate IsCountRow(row: map<string, PyVal>, key: string) {
    key in row && CountKey in row && row[CountKey].PInt?
  }

  /** The bucket a row falls in and its count. */
  function Reading(row: map<string, PyVal>, key: string): (string, int)
    requires IsCountRow(row, key)
  {
    (YesOrNoValue(row[key]), row[CountKey].i)
  }

  function Readings(rows: seq<Dict>, key: string): (rs: seq<(string, int)>)
    requires forall i | 0 <= i < |rows| :: IsCountRow(rows[i].entries, key)
    reads set i | 0 <= i < |rows| :: rows[i]
    ensures |rs| == |rows| && forall i | 0 <= i < |rows| :: rs[i] == Reading(rows[i].entries, key)
  {
    if |rows| == 0 then []
    else Readings(rows[..|rows| - 1], key) + [Reading(rows[|rows| - 1].entries, key)]
  }

  /** `d[k] += c` on a `defaultdict(int)`. */
  function Bump(d: OrderedDict<string, int>, k: string, c: int): (r: OrderedDict<string, int>)
    ensures r.entries == d.entries[k := d.Get(k, 0) + c]
  {
    d.Put(k, d.Get(k, 0) + c)
  }

  /** The `defaultdict(int)` after adding up the given readings. */
  function Tally(rs: seq<(string, int)>): OrderedDict<string, int> {
    if |rs| == 0 then EmptyDict()
    else Bump(Tally(rs[..|rs| - 1]), rs[|rs| - 1].0, rs[|rs| - 1].1)
  }

  lemma {:induction false} TallyPrefix(rs: seq<(string, int)>, i: nat)
    requires i < |rs|
    ensures Tally(rs[..i + 1]) == Bump(Tally(rs[..i]), rs[i].0, rs[i].1)
  {
    assert rs[..i + 1][..i] == rs[..i];
  }

  /** A row after `item[key] = yes_or_no_value(bool(item[key]))`. */
  function Marked(row: map<string, PyVal>, key: string): (m: map<string, PyVal>)
    ensures key in row ==> m == row[key := PStr(YesOrNoValue(row[key]))]
  {
    if key in row then row[key := PStr(YesOrNoValue(row[key]))] else row
  }

  method MarkRow(item: Dict, key: string)
    requires key in item.entries
    modifies item
    ensures item.entries == Marked(old(item.entries), key)
  {
    item.entries := item.entries[key := PStr(YesOrNoValue(item.entries[key]))];
  }

  /** The row `{key: k, "__count": v}`. */
  function BucketRow(key: string, k: string, v: int): map<string, PyVal> {
    map[key := PStr(k), CountKey := PInt(v)]
  }

  /**
   * `group_by_record_exists(datalist, key)`: overwrites each row's `key` with YES/NO and
   * returns one fresh row per bucket, in order of first occurrence, with its total count.
   */
  method GroupByRecordExists(datalist: seq<Dict>, key: string) returns (r: seq<Dict>)
    requires key != CountKey
    requires forall i | 0 <= i < |datalist| :: IsCountRow(datalist[i].entries, key)
    requires forall i, j | 0 <= i < j < |datalist| :: datalist[i] != datalist[j]
    modifies datalist
    ensures forall i | 0 <= i < |datalist| :: datalist[i].entries == Marked(old(datalist[i].entries), key)
    ensures var t := Tally(old(Readings(datalist, key)));
      |r| == |t.keys| &&
      forall i | 0 <= i < |r| :: fresh(r[i]) && r[i].entries == BucketRow(key, t.keys[i], t.Get(t.keys[i], 0))
  {
    var result := TallyRows(datalist, key);
    r := BucketRows(result, key);
  }

  /** `[{key: k, "__count": v} for k, v in result.items()]`. */
  method BucketRows(result: OrderedDict<string, int>, key: string) returns (r: seq<Dict>)
    ensures |r| == |result.keys|
    ensures forall i | 0 <= i < |r| :: fresh(r[i]) && r[i].entries == BucketRow(key, result.keys[i], result.Get(result.keys[i], 0))
  {
    r := [];
    for i := 0 to |result.keys|
      invariant |r| == i
      invariant forall j | 0 <= j < i ::
        fresh(r[j]) && r[j].entries == BucketRow(key, result.keys[j], result.Get(result.keys[j], 0))
    {
      var k := result.keys[i];
      var row := new Dict(BucketRow(key, k, result.Get(k, 0)));
      r := r + [row];
    }
  }

  lemma {:induction false} OthersDiffer<T>(s: seq<T>, i: nat)
    requires i < |s| && forall a, b | 0 <= a < b < |s| :: s[a] != s[b]
    ensures forall j | 0 <= j < |s| && j != i :: s[j] != s[i]
  {
    forall j | 0 <= j < |s| && j != i
      ensures s[j] != s[i]
    {
      if j < i {
        assert s[j] != s[i];
      } else {
        assert s[i] != s[j];
      }
    }
  }

  /** The loop of `group_by_record_exists`: mark every row and add its count to its bucket. */
  method TallyRows(datalist: seq<Dict>, key: string) returns (result: OrderedDict<string, int>)
    requires key != CountKey
    requires forall i | 0 <= i < |datalist| :: IsCountRow(datalist[i].entries, key)
    requires forall i, j | 0 <= i < j < |datalist| :: datalist[i] != datalist[j]
    modifies datalist
    ensures forall i | 0 <= i < |datalist| :: datalist[i].entries == Marked(old(datalist[i].entries), key)
    ensures result == Tally(old(Readings(datalist, key)))
  {
    ghost var rs := Readings(datalist, key);
    result := EmptyDict();
    for i := 0 to |datalist|
      invariant forall j | 0 <= j < i :: datalist[j].entries == Marked(old(datalist[j].entries), key)
      invariant forall j | i <= j < |datalist| :: datalist[j].entries == old(datalist[j].entries)
      invariant result == Tally(rs[..i])
    {
      var item := datalist[i];
      assert rs[i] == Reading(old(datalist[i].entries), key);
      OthersDiffer(datalist, i);
      MarkRow(item, key);
      var bucket := item.entries[key].s;
      assert (bucket, item.entries[CountKey].i) == rs[i];
      TallyPrefix(rs, i);
      result := Bump(result, bucket, item.entries[CountKey].i);
    }
    assert rs[..|datalist|] == rs;
  }

  function Labels(rs: seq<(string, int)>): (ls: seq<string>)
    ensures |ls| == |rs| && forall i | 0 <= i < |rs| :: ls[i] == rs[i].0
  {
    if |rs| == 0 then [] else Labels(rs[..|rs| - 1]) + [rs[|rs| - 1].0]
  }

  /** One bucket per label, in order of first occurrence. */
  lemma {:induction false} TallyKeys(rs: seq<(string, int)>)
    ensures Tally(rs).Valid()
    ensures Tally(rs).keys == Dedup(Labels(rs))
    decreases |rs|
  {
    if |rs| > 0 {
      var n := |rs| - 1;
      TallyKeys(rs[..n]);
      assert Labels(rs)[..n] == Labels(rs[..n]);
      var t := Tally(rs[..n]);
      PutValid(t, rs[n].0, t.Get(rs[n].0, 0) + rs[n].1);
    }
  }

  /** The readings of rows only ever fall in the YES and NO buckets. */
  lemma {:induction false} TallyYesNo(rows: seq<Dict>, key: string)
    requires forall i | 0 <= i < |rows| :: IsCountRow(rows[i].entries, key)
    ensures var t := Tally(Readings(rows, key));
      t.keys == Dedup(Labels(Readings(rows, key))) && Distinct(t.keys) &&
      forall k | k in t.keys :: k == "YES" || k == "NO"
  {
    var rs := Readings(rows, key);
    var ls := Labels(rs);
    assert forall i | 0 <= i < |ls| :: ls[i] == "YES" || ls[i] == "NO";
    TallyKeys(rs);
    DedupMembers(ls);
  }

  function SumCounts(rs: seq<(string, int)>): int {
    if |rs| == 0 then 0 else SumCounts(rs[..|rs| - 1]) + rs[|rs| - 1].1
  }

  /** The total of the values of the given keys. */
  function SumOver(ks: seq<string>, m: map<string, int>): int {
    if |ks| == 0 then 0
    else SumOver(ks[..|ks| - 1], m) + (if ks[|ks| - 1] in m then m[ks[|ks| - 1]] else 0)
  }

  lemma {:induction false} SumOverUnaffected(ks: seq<string>, m: map<string, int>, k: string, v: int)
    requires k !in ks
    ensures SumOver(ks, m[k := v]) == SumOver(ks, m)
    decreases |ks|
  {
    if |ks| > 0 {
      SumOverUnaffected(ks[..|ks| - 1], m, k, v);
    }
  }

  lemma {:induction false} SumOverBump(ks: seq<string>, m: map<string, int>, k: string, c: int)
    requires Distinct(ks) && k in ks && k in m
    ensures SumOver(ks, m[k := m[k] + c]) == SumOver(ks, m) + c
    decreases |ks|
  {
    var n := |ks| - 1;
    if ks[n] == k {
      assert k !in ks[..n];
      SumOverUnaffected(ks[..n], m, k, m[k] + c);
    } else {
      SumOverBump(ks[..n], m, k, c);
    }
  }

  /** Bucketing conserves counts: the bucket totals add up to the sum of the row counts. */
  lemma {:induction false} TallyConserves(rs: seq<(string, int)>)
    ensures SumOver(Tally(rs).keys, Tally(rs).entries) == SumCounts(rs)
    decreases |rs|
  {
    if |rs| > 0 {
      var n := |rs| - 1;
      TallyConserves(rs[..n]);
      var t := Tally(rs[..n]);
      TallyKeys(rs[..n]);
      TallyStep(t, rs[n].0, rs[n].1);
    }
  }

  lemma {:induction false} TallyStep(t: OrderedDict<string, int>, k: string, c: int)
    requires t.Valid()
    ensures var t' := Bump(t, k, c); SumOver(t'.keys, t'.entries) == SumOver(t.keys, t.entries) + c
  {
    if k in t.entries {
      SumOverBump(t.keys, t.entries, k, c);
    } else {
      SumOverUnaffected(t.keys, t.entries, k, c);
      assert (t.keys + [k])[..|t.keys|] == t.keys;
    }
  }
}
