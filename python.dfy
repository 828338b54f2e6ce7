/**
 * The small part of Python's built-in behaviour the plugin relies on: dynamic values,
 * truthiness, the exceptions the modelled code can raise, `str.replace`, `str(int)`,
 * `list.insert`, string ordering, insertion-ordered dictionaries and mutable row dicts.
 */
module Python {

  /** A dynamically typed value as it appears in Odoo domains and RPC rows. */
  datatype PyVal =
    | PNone
    | PBool(b: bool)
    | PInt(i: int)
    | PStr(s: string)
    | PList(items: seq<PyVal>)
    | PTuple(items: seq<PyVal>)

  /** `bool(v)`. */
  predicate Truthy(v: PyVal) {
    match v
    case PNone => false
    case PBool(b) => b
    case PInt(i) => i != 0
    case PStr(s) => s != ""
    case PList(xs) => xs != []
    case PTuple(xs) => xs != []
  }

  /** `isinstance(v, (list, tuple))`. */
  predicate IsSequence(v: PyVal) {
    v.PList? || v.PTuple?
  }

  /** The exceptions the modelled code raises, one constructor per kind of raise site. */
  datatype PyError =
    | NotADomain                            // AssertionError: a sub-domain that is not a list or tuple
    | MalformedDomain(domain: seq<PyVal>)   // ValueError: "Domain ... is syntactically not correct."
    | NoModelDefined                        // ValueError: "No model defined on Service"
    | LimitUnset                            // AttributeError: `limit` read before `with_limit`
    | MissingArgument(name: string)         // TypeError: a required keyword argument is absent
    | StrReturnedNonString(value: PyVal)    // TypeError: `__str__` returned a non-string
    | BadDate(text: string)                 // ValueError from `strptime`
    | NoneHasNoTraceback                    // AttributeError: 'NoneType' object has no attribute 'has_traceback'
    | MaxOfEmpty                            // ValueError: max() arg is an empty sequence
    | NoneNotOrderable                      // TypeError: '<' not supported between 'NoneType' and 'float'
    | ChoiceFromEmpty                       // IndexError: Cannot choose from an empty sequence
    | NotAString(value: PyVal)              // TypeError: `strptime` or `len` given something other than a str

  datatype Result<+T> = Ok(value: T) | Err(error: PyError)

  datatype Option<+T> = None | Some(value: T)

  /** `[x] * n`, which is empty for any `n <= 0`. */
  function Repeat<T>(x: T, n: int): (r: seq<T>)
    ensures |r| == if n <= 0 then 0 else n
    ensures forall i | 0 <= i < |r| :: r[i] == x
  {
    if n <= 0 then [] else [x] + Repeat(x, n - 1)
  }

  function Flatten<T>(ss: seq<seq<T>>): seq<T> {
    if |ss| == 0 then [] else Flatten(ss[..|ss| - 1]) + ss[|ss| - 1]
  }

  lemma {:induction false} FlattenAppend<T>(ss: seq<seq<T>>, tt: seq<seq<T>>)
    ensures Flatten(ss + tt) == Flatten(ss) + Flatten(tt)
    decreases |tt|
  {
    if |tt| == 0 {
      assert ss + tt == ss;
    } else {
      var n := |tt| - 1;
      assert (ss + tt)[..|ss + tt| - 1] == ss + tt[..n];
      FlattenAppend(ss, tt[..n]);
    }
  }

  /** `list.insert(i, x)` for `0 <= i <= len(list)`. */
  function InsertAt<T>(s: seq<T>, i: nat, x: T): (r: seq<T>)
    requires i <= |s|
    ensures |r| == |s| + 1 && r[i] == x
    ensures forall j | 0 <= j < i :: r[j] == s[j]
    ensures forall j | i < j < |r| :: r[j] == s[j - 1]
  {
    s[..i] + [x] + s[i..]
  }

  /** `s.startswith(p)`. */
  predicate StartsWith(s: string, p: string) {
    |p| <= |s| && s[..|p|] == p
  }

  /** `pat in s` for non-empty `pat`: `pat` occurs at some position of `s`. */
  predicate Contains(s: string, pat: string) {
    exists i | 0 <= i <= |s| :: StartsWith(s[i..], pat)
  }

  /**
   * `s.replace(pat, rep)`: every non-overlapping occurrence of `pat`, scanning from the
   * left, becomes `rep`; for an empty `pat`, `rep` is put around every character.
   */
  function Replace(s: string, pat: string, rep: string): string
    decreases |s|
  {
    if |pat| == 0 then
      if |s| == 0 then rep else rep + [s[0]] + Replace(s[1..], pat, rep)
    else if |s| == 0 then []
    else if StartsWith(s, pat) then rep + Replace(s[|pat|..], pat, rep)
    else [s[0]] + Replace(s[1..], pat, rep)
  }

  /** A string in which `pat` does not occur is left alone by `replace`. */
  lemma {:induction false} ReplaceAbsent(s: string, pat: string, rep: string)
    requires |pat| > 0 && !Contains(s, pat)
    ensures Replace(s, pat, rep) == s
    decreases |s|
  {
    if |s| > 0 {
      assert s[0..] == s;
      assert !Contains(s[1..], pat) by {
        forall i | 0 <= i <= |s[1..]|
          ensures !StartsWith(s[1..][i..], pat)
        {
          assert s[1..][i..] == s[i + 1..];
        }
      }
      ReplaceAbsent(s[1..], pat, rep);
      assert [s[0]] + s[1..] == s;
    }
  }

  /** `replace` turns a leading occurrence of `pat` into `rep` and carries on after it. */
  lemma {:induction false} ReplaceLeading(pat: string, s: string, rep: string)
    requires |pat| > 0
    ensures Replace(pat + s, pat, rep) == rep + Replace(s, pat, rep)
  {
    assert (pat + s)[..|pat|] == pat;
    assert (pat + s)[|pat|..] == s;
  }

  function DigitChar(d: nat): char
    requires d < 10
  {
    "0123456789"[d]
  }

  /** `str(n)` for a non-negative integer: its decimal digits, most significant first. */
  function NatToStr(n: nat): (r: string)
    ensures |r| > 0
    decreases n
  {
    if n < 10 then [DigitChar(n)] else NatToStr(n / 10) + [DigitChar(n % 10)]
  }

  /** `str(i)` for any integer. */
  function IntToStr(i: int): string {
    if i < 0 then "-" + NatToStr(-i) else NatToStr(i)
  }

  predicate IsDigit(c: char) {
    '0' <= c <= '9'
  }

  function DigitValue(c: char): nat
    requires IsDigit(c)
  {
    c as int - '0' as int
  }

  /** `int(s)` for a string of decimal digits. */
  function ParseNat(s: string): nat
    requires forall i | 0 <= i < |s| :: IsDigit(s[i])
  {
    if |s| == 0 then 0 else ParseNat(s[..|s| - 1]) * 10 + DigitValue(s[|s| - 1])
  }

  /** `int(str(n)) == n`, and `str(n)` consists of digits only. */
  lemma {:induction false} NatToStrRoundTrip(n: nat)
    ensures forall i | 0 <= i < |NatToStr(n)| :: IsDigit(NatToStr(n)[i])
    ensures ParseNat(NatToStr(n)) == n
    decreases n
  {
    if n >= 10 {
      NatToStrRoundTrip(n / 10);
      var r := NatToStr(n);
      assert r[..|r| - 1] == NatToStr(n / 10);
    }
  }

  /** The decimal rendering of a non-negative integer determines it. */
  lemma {:induction false} NatToStrInjective(m: nat, n: nat)
    requires NatToStr(m) == NatToStr(n)
    ensures m == n
  {
    NatToStrRoundTrip(m);
    NatToStrRoundTrip(n);
  }

  /** `s` contains no ", " separator. */
  predicate NoSep(s: string) {
    forall j | 0 <= j < |s| - 1 :: !(s[j] == ',' && s[j + 1] == ' ')
  }

  /** `s.find(", ")`: the position of the first ", " in `s`, if there is one. */
  function FirstSep(s: string): (k: Option<nat>)
    ensures k.Some? ==> k.value + 2 <= |s| && s[k.value] == ',' && s[k.value + 1] == ' '
    ensures k.None? ==> NoSep(s)
  {
    if |s| < 2 then None
    else if s[0] == ',' && s[1] == ' ' then Some(0)
    else match FirstSep(s[1..])
      case None => None
      case Some(k) => Some(k + 1)
  }

  /**
   * Reads back a `Name(a, b)` repr: the text after `prefix` and before the closing `)`,
   * cut at its first ", ".
   */
  function SplitFields(prefix: string, r: string): Option<(string, string)> {
    if |r| > |prefix| && r[..|prefix|] == prefix && r[|r| - 1] == ')' then
      var body := r[|prefix|..|r| - 1];
      match FirstSep(body)
      case None => None
      case Some(k) => Some((body[..k], body[k + 2..]))
    else None
  }

  /** After a first field without ", ", the separator that follows it is the first one. */
  lemma {:induction false} FirstSepAfter(a: string, rest: string)
    requires NoSep(a)
    ensures FirstSep(a + ", " + rest) == Some(|a|)
    decreases |a|
  {
    var s := a + ", " + rest;
    if |a| > 0 {
      assert !(s[0] == ',' && s[1] == ' ') by {
        if |a| == 1 { assert s[1] == ','; } else { assert s[1] == a[1]; }
      }
      assert s[1..] == a[1..] + ", " + rest;
      FirstSepAfter(a[1..], rest);
    }
  }

  /** `Name(a, b)` reads back as `a` and `b` when `a` holds no ", ". */
  lemma {:induction false} SplitFieldsRoundTrip(prefix: string, a: string, b: string)
    requires NoSep(a)
    ensures SplitFields(prefix, prefix + a + ", " + b + ")") == Some((a, b))
  {
    var r := prefix + a + ", " + b + ")";
    var body := a + ", " + b;
    assert r[..|prefix|] == prefix;
    assert r[|prefix|..|r| - 1] == body;
    FirstSepAfter(a, b);
    assert body[..|a|] == a && body[|a| + 2..] == b;
  }

  /** `str(i)` of an integer holds no ", ": it has only digits and a leading minus. */
  lemma {:induction false} IntToStrNoSep(i: int)
    ensures NoSep(IntToStr(i))
  {
    var n: nat := if i < 0 then -i else i;
    NatToStrRoundTrip(n);
    var r := IntToStr(i);
    if i < 0 {
      assert forall j | 1 <= j < |r| :: r[j] == NatToStr(n)[j - 1];
    }
    assert forall j | 0 <= j < |r| :: r[j] == '-' || IsDigit(r[j]);
  }

  /** Python's `<` on strings: lexicographic by code point, a proper prefix first. */
  predicate StrLess(a: string, b: string)
    decreases |a|
  {
    if |b| == 0 then false
    else if |a| == 0 then true
    else if a[0] != b[0] then a[0] < b[0]
    else StrLess(a[1..], b[1..])
  }

  predicate StrLessEq(a: string, b: string) {
    a == b || StrLess(a, b)
  }

  lemma {:induction false} StrLessIrreflexive(a: string)
    ensures !StrLess(a, a)
    decreases |a|
  {
    if |a| > 0 {
      StrLessIrreflexive(a[1..]);
    }
  }

  lemma {:induction false} StrLessTransitive(a: string, b: string, c: string)
    requires StrLess(a, b) && StrLess(b, c)
    ensures StrLess(a, c)
    decreases |a|
  {
    if |a| > 0 && a[0] == b[0] && b[0] == c[0] {
      StrLessTransitive(a[1..], b[1..], c[1..]);
    }
  }

  lemma {:induction false} StrLessTotal(a: string, b: string)
    ensures a == b || StrLess(a, b) || StrLess(b, a)
    decreases |a|
  {
    if |a| > 0 && |b| > 0 && a[0] == b[0] {
      StrLessTotal(a[1..], b[1..]);
      if a[1..] == b[1..] {
        assert a == [a[0]] + a[1..] && b == [b[0]] + b[1..];
      }
    }
  }

  lemma {:induction false} StrLessAsymmetric(a: string, b: string)
    requires StrLess(a, b)
    ensures !StrLess(b, a)
  {
    if StrLess(b, a) {
      StrLessTransitive(a, b, a);
      StrLessIrreflexive(a);
    }
  }

  /** The keys in the order they are first seen. */
  function Dedup<K(==)>(ks: seq<K>): seq<K> {
    if |ks| == 0 then []
    else
      var d := Dedup(ks[..|ks| - 1]);
      if ks[|ks| - 1] in d then d else d + [ks[|ks| - 1]]
  }

  predicate Distinct<K(==)>(ks: seq<K>) {
    forall i, j | 0 <= i < j < |ks| :: ks[i] != ks[j]
  }

  /** Index of the first occurrence of `k` in `ks`. */
  function FirstIndex<K(==)>(ks: seq<K>, k: K): (i: nat)
    requires k in ks
    ensures i < |ks| && ks[i] == k
    ensures forall m | 0 <= m < i :: ks[m] != k
  {
    if ks[0] == k then 0 else FirstIndex(ks[1..], k) + 1
  }

  /** `Dedup` keeps exactly the keys of its input. */
  lemma {:induction false} DedupMembers<K>(ks: seq<K>)
    ensures forall k :: k in Dedup(ks) <==> k in ks
    decreases |ks|
  {
    if |ks| > 0 {
      var n := |ks| - 1;
      DedupMembers(ks[..n]);
      assert ks == ks[..n] + [ks[n]];
    }
  }

  /** `Dedup` keeps each key once. */
  lemma {:induction false} DedupDistinct<K>(ks: seq<K>)
    ensures Distinct(Dedup(ks))
    decreases |ks|
  {
    if |ks| > 0 {
      var n := |ks| - 1;
      DedupDistinct(ks[..n]);
    }
  }

  /**
   * `Dedup` keeps exactly the keys of its input, each once, ordered by first
   * occurrence.
   */
  lemma {:induction false} DedupSpec<K>(ks: seq<K>)
    ensures Distinct(Dedup(ks))
    ensures forall k :: k in Dedup(ks) <==> k in ks
    ensures forall a, b | 0 <= a < b < |Dedup(ks)| ::
      FirstIndex(ks, Dedup(ks)[a]) < FirstIndex(ks, Dedup(ks)[b])
    decreases |ks|
  {
    DedupMembers(ks);
    DedupDistinct(ks);
    if |ks| > 0 {
      var n := |ks| - 1;
      var p := ks[..n];
      DedupSpec(p);
      assert ks == p + [ks[n]];
      forall k | k in p
        ensures FirstIndex(ks, k) == FirstIndex(p, k)
      {
        FirstIndexPrefix(p, ks[n], k);
      }
      if ks[n] !in p {
        assert FirstIndex(ks, ks[n]) == n by {
          FirstIndexLast(p, ks[n]);
        }
      }
    }
  }

  lemma {:induction false} FirstIndexPrefix<K>(p: seq<K>, x: K, k: K)
    requires k in p
    ensures FirstIndex(p + [x], k) == FirstIndex(p, k)
  {
    var i := FirstIndex(p, k);
    var j := FirstIndex(p + [x], k);
    assert forall m | 0 <= m < |p| :: (p + [x])[m] == p[m];
  }

  lemma {:induction false} FirstIndexLast<K>(p: seq<K>, x: K)
    requires x !in p
    ensures FirstIndex(p + [x], x) == |p|
  {
    var j := FirstIndex(p + [x], x);
  }

  /**
   * A Python `dict`: the keys in insertion order and the key-value mapping.
   * Assigning to a present key keeps its position and replaces its value.
   */
  datatype OrderedDict<K(==,!new), V> = OrderedDict(keys: seq<K>, entries: map<K, V>) {
    ghost predicate Valid() {
      Distinct(keys) && (forall k :: k in entries <==> k in keys)
    }

    /** `d[k] = v`. */
    function Put(k: K, v: V): (r: OrderedDict<K, V>)
      ensures r.entries == entries[k := v]
    {
      OrderedDict(if k in entries then keys else keys + [k], entries[k := v])
    }

    /** `d.get(k, default)`. */
    function Get(k: K, default: V): (r: V)
      ensures k in entries ==> r == entries[k]
      ensures k !in entries ==> r == default
    {
      if k in entries then entries[k] else default
    }
  }

  function EmptyDict<K(==,!new), V>(): (r: OrderedDict<K, V>)
    ensures r.Valid() && r.keys == []
  {
    OrderedDict([], map[])
  }

  /** `Put` keeps a dictionary well formed and appends only keys not yet present. */
  lemma {:induction false} PutValid<K(!new), V>(d: OrderedDict<K, V>, k: K, v: V)
    requires d.Valid()
    ensures d.Put(k, v).Valid()
    ensures d.Put(k, v).keys == if k in d.keys then d.keys else d.keys + [k]
  {
  }

  /** `str(v)`: a string as it is, anything else as its `repr`. */
  function StrOf(v: PyVal): (r: string)
    ensures v.PStr? ==> r == v.s
    ensures v.PInt? ==> r == IntToStr(v.i)
  {
    if v.PStr? then v.s else ReprOf(v)
  }

  /** `repr(v)`; quotes inside strings are not escaped. */
  function ReprOf(v: PyVal): string
    decreases v, 1
  {
    match v
    case PNone => "None"
    case PBool(b) => if b then "True" else "False"
    case PInt(i) => IntToStr(i)
    case PStr(s) => "'" + s + "'"
    case PList(xs) => "[" + ReprItems(xs) + "]"
    case PTuple(xs) => "(" + ReprItems(xs) + (if |xs| == 1 then ",)" else ")")
  }

  function ReprItems(xs: seq<PyVal>): string
    decreases xs, 0
  {
    if |xs| == 0 then ""
    else if |xs| == 1 then ReprOf(xs[0])
    else ReprOf(xs[0]) + ", " + ReprItems(xs[1..])
  }

  /** `[v for v in vs if v]`. */
  function TruthyOnly(vs: seq<PyVal>): (r: seq<PyVal>)
    ensures |r| <= |vs|
    ensures forall i | 0 <= i < |r| :: Truthy(r[i]) && r[i] in vs
    ensures forall i | 0 <= i < |vs| :: Truthy(vs[i]) ==> vs[i] in r
  {
    if |vs| == 0 then []
    else
      var r := TruthyOnly(vs[..|vs| - 1]);
      if Truthy(vs[|vs| - 1]) then r + [vs[|vs| - 1]] else r
  }

  /** Filtering works piecewise, so the kept values stay in their original order. */
  lemma {:induction false} TruthyOnlyAppend(a: seq<PyVal>, b: seq<PyVal>)
    ensures TruthyOnly(a + b) == TruthyOnly(a) + TruthyOnly(b)
    decreases |b|
  {
    if |b| == 0 {
      assert a + b == a;
    } else {
      var n := |b| - 1;
      assert (a + b)[..|a + b| - 1] == a + b[..n];
      TruthyOnlyAppend(a, b[..n]);
    }
  }

  /** A dict shared by reference and updated in place, such as an RPC result row. */
  class Dict {
    var entries: map<string, PyVal>

    constructor (entries: map<string, PyVal>)
      ensures this.entries == entries
    {
      this.entries := entries;
    }
  }

  /**
   * A list comprehension whose element expression may raise: every value when none
   * raises, else the first exception.
   */
  function Collect<X>(rs: seq<Result<X>>): (r: Result<seq<X>>)
    ensures r.Ok? ==> |r.value| == |rs|
  {
    if |rs| == 0 then Ok([])
    else
      var n := |rs| - 1;
      var prev := Collect(rs[..n]);
      if prev.Err? then prev
      else if rs[n].Err? then Err(rs[n].error)
      else Ok(prev.value + [rs[n].value])
  }

  /** Collecting one more element. */
  lemma {:induction false} CollectStep<X>(rs: seq<Result<X>>, i: nat)
    requires i < |rs|
    ensures Collect(rs[..i + 1]) ==
      if Collect(rs[..i]).Err? then Collect(rs[..i])
      else if rs[i].Err? then Err(rs[i].error)
      else Ok(Collect(rs[..i]).value + [rs[i].value])
  {
    assert rs[..i + 1][..i] == rs[..i];
  }

  /** One more outcome after a successful prefix: a failure decides the whole, a success extends it. */
  lemma {:induction false} CollectNext<X>(rs: seq<Result<X>>, i: nat, done: seq<X>)
    requires i < |rs| && Collect(rs[..i]) == Ok(done)
    ensures rs[i].Err? ==> Collect(rs) == Err(rs[i].error)
    ensures rs[i].Ok? ==> Collect(rs[..i + 1]) == Ok(done + [rs[i].value])
  {
    CollectStep(rs, i);
    if rs[i].Err? {
      CollectFailed(rs, i + 1);
    }
  }

  lemma {:induction false} CollectFailed<X>(rs: seq<Result<X>>, i: nat)
    requires i <= |rs| && Collect(rs[..i]).Err?
    ensures Collect(rs) == Collect(rs[..i])
    decreases |rs| - i
  {
    if i < |rs| {
      CollectStep(rs, i);
      CollectFailed(rs, i + 1);
    } else {
      assert rs[..i] == rs;
    }
  }

  /**
   * The comprehension succeeds exactly when every element does, giving the values in
   * order; otherwise it raises the first element's exception.
   */
  lemma {:induction false} CollectMeaning<X>(rs: seq<Result<X>>)
    ensures var r := Collect(rs);
      (r.Ok? <==> forall i | 0 <= i < |rs| :: rs[i].Ok?) &&
      (r.Ok? ==> forall i | 0 <= i < |rs| :: rs[i] == Ok(r.value[i])) &&
      (r.Err? ==> exists i | 0 <= i < |rs| :: rs[i] == Err(r.error) && forall j | 0 <= j < i :: rs[j].Ok?)
    decreases |rs|
  {
    if |rs| > 0 {
      var n := |rs| - 1;
      var p := rs[..n];
      CollectMeaning(p);
      assert forall i | 0 <= i < n :: p[i] == rs[i];
      var prev := Collect(p);
      if prev.Err? {
        var i :| 0 <= i < n && p[i] == Err(prev.error) && forall j | 0 <= j < i :: p[j].Ok?;
        assert rs[i] == Err(Collect(rs).error);
      } else if rs[n].Ok? {
        assert Collect(rs).value == prev.value + [rs[n].value];
      }
    }
  }
}
