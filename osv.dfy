/**
 * Odoo domains in prefix (Polish) notation: the operators `&`, `|` (binary) and `!`
 * (unary) and leaf terms `[field, operator, value]`. `normalize_domain` makes the implicit
 * top-level `&` operators explicit; `combine` and `AND` join several domains under one
 * operator honouring a unit and a zero domain.
 */
module Osv {
  import opened Python

  const NotOperator := PStr("!")
  const OrOperator := PStr("|")
  const AndOperator := PStr("&")

  const TrueLeaf := PTuple([PInt(1), PStr("="), PInt(1)])
  const FalseLeaf := PTuple([PInt(0), PStr("="), PInt(1)])

  const TrueDomain: seq<PyVal> := [TrueLeaf]
  const FalseDomain: seq<PyVal> := [FalseLeaf]

  /** `op_arity.get(token, 0)`. */
  function OpArity(t: PyVal): nat {
    if t == NotOperator then 1
    else if t == AndOperator || t == OrOperator then 2
    else 0
  }

  /**
   * How a token changes the number of expressions still expected: a term (a list or
   * tuple) fills one slot, an operator of arity `n` fills one and opens `n`, and any
   * other value counts as an operator of arity 0.
   */
  function Delta(t: PyVal): (d: int)
    ensures d >= -1
  {
    if IsSequence(t) then -1 else OpArity(t) - 1
  }

  /** The arity rules: `&` and `|` open one more slot, `!` none, anything else closes one. */
  lemma {:induction false} DeltaCases(t: PyVal)
    ensures IsSequence(t) ==> Delta(t) == -1
    ensures t == AndOperator || t == OrOperator ==> Delta(t) == 1
    ensures t == NotOperator ==> Delta(t) == 0
    ensures t !in {AndOperator, OrOperator, NotOperator} ==> Delta(t) == -1
  {
  }

  // ---------------------------------------------------------------------------
  // The reference definition of normalize_domain
  // ---------------------------------------------------------------------------

  /** The state of the arity counter: `expected`, and how many `&` were put in front. */
  datatype Scan = Scan(expected: nat, ands: nat)

  const Start := Scan(1, 0)

  /** One iteration of the loop over the tokens. */
  function Step(st: Scan, t: PyVal): Scan {
    if st.expected == 0 then Scan(1 + Delta(t), st.ands + 1)
    else Scan(st.expected + Delta(t), st.ands)
  }

  function ScanFrom(st: Scan, d: seq<PyVal>): Scan {
    if |d| == 0 then st else Step(ScanFrom(st, d[..|d| - 1]), d[|d| - 1])
  }

  /**
   * The normalisation of one token: an `any`/`not any` term gets its sub-domain
   * normalised, every other term becomes a tuple, an operator stays as it is.
   */
  /** A 3-element term whose operator is `any` or `not any`. */
  predicate IsAnyTerm(t: PyVal) {
    IsSequence(t) && |t.items| == 3 && (t.items[1] == PStr("any") || t.items[1] == PStr("not any"))
  }

  function NormToken(t: PyVal): Result<PyVal>
    decreases t, 0
  {
    if !IsSequence(t) then Ok(t)
    else if IsAnyTerm(t) then
      var sub := t.items[2];
      if !IsSequence(sub) then Err(NotADomain)
      else
        match Normalized(sub.items)
        case Err(e) => Err(e)
        case Ok(n) => Ok(PTuple([t.items[0], t.items[1], PList(n)]))
    else Ok(PTuple(t.items))
  }

  /** The tokens normalised one by one, in order; the first failure wins. */
  function NormTokens(d: seq<PyVal>): Result<seq<PyVal>>
    decreases d, 1
  {
    if |d| == 0 then Ok([])
    else
      match NormTokens(d[..|d| - 1])
      case Err(e) => Err(e)
      case Ok(ts) =>
        match NormToken(d[|d| - 1])
        case Err(e) => Err(e)
        case Ok(t) => Ok(ts + [t])
  }

  /** What `normalize_domain(d)` returns or raises, for a list or tuple `d`. */
  function Normalized(d: seq<PyVal>): Result<seq<PyVal>>
    decreases d, 2
  {
    if |d| == 0 then Ok(TrueDomain)
    else
      match NormTokens(d)
      case Err(e) => Err(e)
      case Ok(ts) =>
        var st := ScanFrom(Start, d);
        if st.expected != 0 then Err(MalformedDomain(d))
        else Ok(Repeat(AndOperator, st.ands) + ts)
  }

  // ---------------------------------------------------------------------------
  // normalize_domain as the loop it is
  // ---------------------------------------------------------------------------

  lemma {:induction false} AppendAssociative<T>(a: seq<T>, b: seq<T>, c: seq<T>)
    ensures (a + b) + c == a + (b + c)
  {
  }

  /** `normalize_domain(domain)`. */
  method NormalizeDomain(domain: seq<PyVal>) returns (r: Result<seq<PyVal>>)
    ensures r == Normalized(domain)
    decreases domain, 3
  {
    if |domain| == 0 {
      return Ok(TrueDomain);
    }
    var result: seq<PyVal> := [];
    var expected: nat := 1;
    ghost var ands: nat := 0;
    ghost var tokens: seq<PyVal> := [];
    var k := 0;
    while k < |domain|
      invariant 0 <= k <= |domain|
      invariant Scan(expected, ands) == ScanFrom(Start, domain[..k])
      invariant NormTokens(domain[..k]) == Ok(tokens)
      invariant result == Repeat(AndOperator, ands) + tokens
    {
      var token := domain[k];
      ScanNext(domain, k);
      if expected == 0 {
        assert Repeat(AndOperator, ands + 1) == [AndOperator] + Repeat(AndOperator, ands);
        result := [AndOperator] + result;
        expected := 1;
        ands := ands + 1;
      }
      var normal := token;
      if IsSequence(token) {
        expected := expected - 1;
        if IsAnyTerm(token) {
          if !IsSequence(token.items[2]) {
            NormTokensError(domain, k, NotADomain);
            return Err(NotADomain);
          }
          var sub := NormalizeDomain(token.items[2].items);
          if sub.Err? {
            NormTokensError(domain, k, sub.error);
            return Err(sub.error);
          }
          normal := PTuple([token.items[0], token.items[1], PList(sub.value)]);
        } else {
          normal := PTuple(token.items);
        }
      } else {
        expected := expected + OpArity(token) - 1;
      }
      NormTokensNext(domain, k, tokens, normal);
      AppendAssociative(Repeat(AndOperator, ands), tokens, [normal]);
      result := result + [normal];
      tokens := tokens + [normal];
      k := k + 1;
    }
    assert domain[..k] == domain;
    if expected != 0 {
      return Err(MalformedDomain(domain));
    }
    return Ok(result);
  }

  lemma {:induction false} ScanNext(d: seq<PyVal>, k: nat)
    requires k < |d|
    ensures ScanFrom(Start, d[..k + 1]) == Step(ScanFrom(Start, d[..k]), d[k])
  {
    assert d[..k + 1][..k] == d[..k];
  }

  lemma {:induction false} NormTokensNext(d: seq<PyVal>, k: nat, ts: seq<PyVal>, t: PyVal)
    requires k < |d| && NormTokens(d[..k]) == Ok(ts) && NormToken(d[k]) == Ok(t)
    ensures NormTokens(d[..k + 1]) == Ok(ts + [t])
  {
    assert d[..k + 1][..k] == d[..k];
  }

  /** A token that fails makes the whole domain fail with its error. */
  lemma {:induction false} NormTokensError(d: seq<PyVal>, k: nat, e: PyError)
    requires k < |d| && NormTokens(d[..k]).Ok? && NormToken(d[k]) == Err(e)
    ensures Normalized(d) == Err(e)
  {
    NormTokensFirstError(d, k, e);
  }

  lemma {:induction false} NormTokensFirstError(d: seq<PyVal>, k: nat, e: PyError)
    requires k < |d| && NormTokens(d[..k]).Ok? && NormToken(d[k]) == Err(e)
    ensures NormTokens(d) == Err(e)
    decreases |d|
  {
    if k == |d| - 1 {
      assert d[..|d| - 1] == d[..k];
    } else {
      var p := d[..|d| - 1];
      assert p[..k] == d[..k] && p[k] == d[k];
      NormTokensFirstError(p, k, e);
    }
  }

  // ---------------------------------------------------------------------------
  // Well-formed prefix expressions
  // ---------------------------------------------------------------------------

  function SumDelta(d: seq<PyVal>): int {
    if |d| == 0 then 0 else SumDelta(d[..|d| - 1]) + Delta(d[|d| - 1])
  }

  /** The number of expressions still missing after reading `d` from a single slot. */
  function Need(d: seq<PyVal>): int {
    1 + SumDelta(d)
  }

  /** `d` is exactly one complete prefix expression. */
  ghost predicate WellFormed(d: seq<PyVal>) {
    |d| > 0 && Need(d) == 0 && forall i | 0 <= i < |d| :: Need(d[..i]) > 0
  }

  /** A token that normalisation leaves unchanged. */
  predicate NormalToken(t: PyVal) {
    NormToken(t) == Ok(t)
  }

  /** One well-formed expression whose tokens are all in normal form. */
  ghost predicate IsNormalized(d: seq<PyVal>) {
    WellFormed(d) && forall i | 0 <= i < |d| :: NormalToken(d[i])
  }

  lemma {:induction false} SumDeltaAppend(a: seq<PyVal>, b: seq<PyVal>)
    ensures SumDelta(a + b) == SumDelta(a) + SumDelta(b)
    decreases |b|
  {
    if |b| == 0 {
      assert a + b == a;
    } else {
      var n := |b| - 1;
      assert (a + b)[..|a + b| - 1] == a + b[..n];
      SumDeltaAppend(a, b[..n]);
    }
  }

  /** Each leading `&` opens one more slot. */
  lemma {:induction false} SumDeltaAnds(n: nat)
    ensures SumDelta(Repeat(AndOperator, n)) == n
    decreases n
  {
    if n > 0 {
      assert Repeat(AndOperator, n) == [AndOperator] + Repeat(AndOperator, n - 1);
      SumDeltaAppend([AndOperator], Repeat(AndOperator, n - 1));
      assert [AndOperator][..0] == [];
      assert Delta(AndOperator) == 1;
      SumDeltaAnds(n - 1);
    }
  }

  /** Sequences whose tokens have the same arity effect have the same arity sum. */
  lemma {:induction false} SumDeltaPointwise(a: seq<PyVal>, b: seq<PyVal>)
    requires |a| == |b| && forall i | 0 <= i < |a| :: Delta(a[i]) == Delta(b[i])
    ensures SumDelta(a) == SumDelta(b)
    decreases |a|
  {
    if |a| > 0 {
      SumDeltaPointwise(a[..|a| - 1], b[..|b| - 1]);
    }
  }

  lemma {:induction false} ScanAppend(st: Scan, a: seq<PyVal>, b: seq<PyVal>)
    ensures ScanFrom(st, a + b) == ScanFrom(ScanFrom(st, a), b)
    decreases |b|
  {
    if |b| == 0 {
      assert a + b == a;
    } else {
      var n := |b| - 1;
      assert (a + b)[..|a + b| - 1] == a + b[..n];
      ScanAppend(st, a, b[..n]);
    }
  }

  /** The arity counter equals one, plus every inserted `&`, plus the arity sum. */
  lemma {:induction false} ScanCounts(d: seq<PyVal>)
    ensures ScanFrom(Start, d).expected == 1 + ScanFrom(Start, d).ands + SumDelta(d)
    decreases |d|
  {
    if |d| > 0 {
      ScanCounts(d[..|d| - 1]);
    }
  }

  /** `&` tokens are only ever added, never taken away. */
  lemma {:induction false} AndsMonotone(d: seq<PyVal>, i: nat, j: nat)
    requires i <= j <= |d|
    ensures ScanFrom(Start, d[..i]).ands <= ScanFrom(Start, d[..j]).ands
    decreases j - i
  {
    if i < j {
      AndsMonotone(d, i, j - 1);
      assert d[..j][..j - 1] == d[..j - 1];
    }
  }

  /** A token read when the counter is 0 adds a `&`. */
  lemma {:induction false} AndAdded(d: seq<PyVal>, i: nat)
    requires i < |d| && ScanFrom(Start, d[..i]).expected == 0
    ensures ScanFrom(Start, d[..i + 1]).ands == ScanFrom(Start, d[..i]).ands + 1
  {
    assert d[..i + 1][..i] == d[..i];
  }

  /** Normalising tokens one by one keeps their number and each token's arity. */
  lemma {:induction false} NormTokensShape(d: seq<PyVal>)
    ensures NormTokens(d).Ok? <==> forall i | 0 <= i < |d| :: NormToken(d[i]).Ok?
    ensures NormTokens(d).Ok? ==>
      (|NormTokens(d).value| == |d| &&
       forall i | 0 <= i < |d| :: NormToken(d[i]) == Ok(NormTokens(d).value[i]))
    decreases |d|
  {
    if |d| > 0 {
      var p := d[..|d| - 1];
      NormTokensShape(p);
      assert forall i | 0 <= i < |p| :: p[i] == d[i];
    }
  }

  lemma {:induction false} NormTokenDelta(t: PyVal)
    requires NormToken(t).Ok?
    ensures Delta(NormToken(t).value) == Delta(t)
  {
  }

  /** A well-formed expression read from any state with an open slot fills exactly that slot. */
  lemma {:induction false} ScanWellFormed(e: seq<PyVal>, st: Scan, i: nat)
    requires WellFormed(e) && 1 <= i <= |e|
    ensures var open := if st.expected == 0 then Scan(1, st.ands + 1) else st;
      ScanFrom(st, e[..i]).expected == open.expected - 1 + Need(e[..i]) &&
      ScanFrom(st, e[..i]).ands == open.ands
    decreases i
  {
    var ei := e[..i];
    assert ei[..i - 1] == e[..i - 1];
    if i == 1 {
      assert e[..0] == [];
    } else {
      ScanWellFormed(e, st, i - 1);
    }
  }

  /**
   * The implicit-`&` rule: a domain made of `m >= 1` complete expressions is accepted,
   * with `m - 1` operators `&` put in front.
   */
  lemma {:induction false} ScanForest(es: seq<seq<PyVal>>)
    requires |es| >= 1 && forall j | 0 <= j < |es| :: WellFormed(es[j])
    ensures ScanFrom(Start, Flatten(es)) == Scan(0, |es| - 1)
    decreases |es|
  {
    var n := |es| - 1;
    var e := es[n];
    assert e[..|e|] == e;
    if n == 0 {
      assert Flatten(es) == Flatten(es[..0]) + e == e;
      ScanWellFormed(e, Start, |e|);
    } else {
      ScanForest(es[..n]);
      ScanAppend(Start, Flatten(es[..n]), e);
      ScanWellFormed(e, Scan(0, n - 1), |e|);
    }
  }

  /**
   * A domain made of `m >= 1` complete expressions normalises to `m - 1` operators `&`
   * followed by its tokens, each in normal form and in the original order.
   */
  lemma {:induction false} ImplicitAnd(es: seq<seq<PyVal>>)
    requires |es| >= 1 && forall j | 0 <= j < |es| :: WellFormed(es[j])
    requires NormTokens(Flatten(es)).Ok?
    ensures Normalized(Flatten(es)) == Ok(Repeat(AndOperator, |es| - 1) + NormTokens(Flatten(es)).value)
  {
    var d := Flatten(es);
    assert |d| > 0 by {
      assert |es[0]| > 0;
      FlattenAppend([es[0]], es[1..]);
      assert [es[0]] + es[1..] == es;
      assert Flatten([es[0]]) == Flatten([es[0]][..0]) + es[0];
    }
    ScanForest(es);
  }

  /** A domain whose operators are owed more operands than it provides is rejected. */
  lemma {:induction false} TooFewOperandsRejected(d: seq<PyVal>)
    requires |d| > 0 && NormTokens(d).Ok? && SumDelta(d) >= 0
    ensures Normalized(d) == Err(MalformedDomain(d))
  {
    ScanCounts(d);
  }

  /** A domain whose last token is an operator is rejected. */
  lemma {:induction false} TrailingOperatorRejected(d: seq<PyVal>)
    requires |d| > 0 && NormTokens(d).Ok?
    requires d[|d| - 1] in {AndOperator, OrOperator, NotOperator}
    ensures Normalized(d) == Err(MalformedDomain(d))
  {
  }

  /**
   * The shape of a successful normalisation: some operators `&` in front of the input
   * tokens, each normalised and in the original order, and with the counter at 0.
   */
  lemma {:induction false} NormalizedShape(d: seq<PyVal>)
    requires |d| > 0 && Normalized(d).Ok?
    ensures NormTokens(d).Ok? && ScanFrom(Start, d).expected == 0
    ensures Normalized(d).value == Repeat(AndOperator, ScanFrom(Start, d).ands) + NormTokens(d).value
    ensures |NormTokens(d).value| == |d|
    ensures forall i | 0 <= i < |d| :: NormToken(d[i]) == Ok(NormTokens(d).value[i])
  {
    NormTokensShape(d);
  }

  /** The output of normalisation is one well-formed expression of normal tokens. */
  lemma {:induction false} NormalizedIsNormalized(d: seq<PyVal>)
    requires Normalized(d).Ok?
    ensures IsNormalized(Normalized(d).value)
    decreases d, 1
  {
    var r := Normalized(d).value;
    if |d| == 0 {
      assert r == [TrueLeaf];
      assert r[..0] == [] && r[..1] == r;
      assert SumDelta(r) == SumDelta([]) + Delta(TrueLeaf) == -1;
      assert NormalToken(TrueLeaf);
    } else {
      NormalizedShape(d);
      var ts := NormTokens(d).value;
      var k := ScanFrom(Start, d).ands;
      forall i | 0 <= i < |d|
        ensures NormalToken(ts[i]) && Delta(ts[i]) == Delta(d[i])
      {
        NormTokenIdempotent(d[i]);
      }
      ShapeWellFormed(d, ts, k);
      forall j | 0 <= j < |r|
        ensures NormalToken(r[j])
      {
        if j >= k {
          assert r[j] == ts[j - k];
        }
      }
    }
  }

  /** `&^k` followed by tokens of the same arities as `d` is well formed. */
  lemma {:induction false} ShapeWellFormed(d: seq<PyVal>, ts: seq<PyVal>, k: nat)
    requires |d| > 0 && ScanFrom(Start, d) == Scan(0, k)
    requires |ts| == |d| && forall i | 0 <= i < |d| :: Delta(ts[i]) == Delta(d[i])
    ensures WellFormed(Repeat(AndOperator, k) + ts)
  {
    ShapeComplete(d, ts, k);
    ShapePrefixesOpen(d, ts, k);
  }

  lemma {:induction false} ShapeComplete(d: seq<PyVal>, ts: seq<PyVal>, k: nat)
    requires |d| > 0 && ScanFrom(Start, d) == Scan(0, k)
    requires |ts| == |d| && forall i | 0 <= i < |d| :: Delta(ts[i]) == Delta(d[i])
    ensures Need(Repeat(AndOperator, k) + ts) == 0
  {
    NeedAfterAnds(k, ts);
    SumDeltaPointwise(ts, d);
    ScanCounts(d);
  }

  lemma {:induction false} NeedAfterAnds(k: nat, ts: seq<PyVal>)
    ensures Need(Repeat(AndOperator, k) + ts) == 1 + k + SumDelta(ts)
  {
    SumDeltaAppend(Repeat(AndOperator, k), ts);
    SumDeltaAnds(k);
  }

  lemma {:induction false} ShapePrefixesOpen(d: seq<PyVal>, ts: seq<PyVal>, k: nat)
    requires |d| > 0 && ScanFrom(Start, d) == Scan(0, k)
    requires |ts| == |d| && forall i | 0 <= i < |d| :: Delta(ts[i]) == Delta(d[i])
    ensures forall j | 0 <= j < k + |ts| :: Need((Repeat(AndOperator, k) + ts)[..j]) > 0
  {
    forall j | 0 <= j < k + |ts|
      ensures Need((Repeat(AndOperator, k) + ts)[..j]) > 0
    {
      if j <= k {
        LeadingAndsOpen(k, ts, j);
      } else {
        TokenPrefixOpen(d, ts, k, j - k);
        PrefixAfterAnds(k, ts, j - k);
      }
    }
  }

  lemma {:induction false} LeadingAndsOpen(k: nat, ts: seq<PyVal>, j: nat)
    requires j <= k
    ensures Need((Repeat(AndOperator, k) + ts)[..j]) > 0
  {
    assert (Repeat(AndOperator, k) + ts)[..j] == Repeat(AndOperator, j);
    SumDeltaAnds(j);
  }

  lemma {:induction false} PrefixAfterAnds(k: nat, ts: seq<PyVal>, i: nat)
    requires i <= |ts|
    ensures Need((Repeat(AndOperator, k) + ts)[..k + i]) == 1 + k + SumDelta(ts[..i])
  {
    var ands := Repeat(AndOperator, k);
    assert (ands + ts)[..k + i] == ands + ts[..i];
    SumDeltaAppend(ands, ts[..i]);
    SumDeltaAnds(k);
  }

  /** Inside the tokens, the inserted `&` keep a slot open until the very end. */
  lemma {:induction false} TokenPrefixOpen(d: seq<PyVal>, ts: seq<PyVal>, k: nat, i: nat)
    requires |d| > 0 && ScanFrom(Start, d) == Scan(0, k)
    requires |ts| == |d| && forall i | 0 <= i < |d| :: Delta(ts[i]) == Delta(d[i])
    requires 0 < i < |ts|
    ensures k + SumDelta(ts[..i]) >= 0
  {
    SumDeltaPointwise(ts[..i], d[..i]);
    ScanCounts(d[..i]);
    AndsMonotone(d, i, |d|);
    assert d[..|d|] == d;
    if ScanFrom(Start, d[..i]).expected == 0 {
      AndAdded(d, i);
      AndsMonotone(d, i + 1, |d|);
    }
  }

  /** Normalising a token twice gives the same token. */
  lemma {:induction false} NormTokenIdempotent(t: PyVal)
    requires NormToken(t).Ok?
    ensures NormalToken(NormToken(t).value)
    decreases t, 0
  {
    if IsAnyTerm(t) {
      NormalizedIdempotent(t.items[2].items);
    }
  }

  /** `normalize_domain` is idempotent. */
  lemma {:induction false} NormalizedIdempotent(d: seq<PyVal>)
    requires Normalized(d).Ok?
    ensures Normalized(Normalized(d).value) == Normalized(d)
    decreases d, 2
  {
    NormalizedIsNormalized(d);
    NormalizedFixpoint(Normalized(d).value);
  }

  /** A normalised domain is its own normalisation. */
  lemma {:induction false} NormalizedFixpoint(r: seq<PyVal>)
    requires IsNormalized(r)
    ensures Normalized(r) == Ok(r)
  {
    NormTokensShape(r);
    var ts := NormTokens(r).value;
    assert ts == r;
    ScanWellFormed(r, Start, |r|);
    assert r[..|r|] == r;
    assert ScanFrom(Start, r) == Scan(0, 0);
    assert Repeat(AndOperator, 0) + ts == r;
  }

  // ---------------------------------------------------------------------------
  // combine and AND
  // ---------------------------------------------------------------------------

  /** What the loop of `combine` has collected: the normalised parts, or why it stopped. */
  datatype Gathered = Parts(parts: seq<seq<PyVal>>) | Absorbed | Failed(error: PyError)

  /**
   * One iteration of the loop of `combine`: skip the unit, stop at the zero, skip an
   * empty domain, and otherwise append the normalised domain or stop at its error.
   */
  function GatherStep(unit: seq<PyVal>, zero: seq<PyVal>, acc: Gathered, d: seq<PyVal>): Gathered {
    if !acc.Parts? then acc
    else if d == unit then acc
    else if d == zero then Absorbed
    else if d == [] then acc
    else
      match Normalized(d)
      case Err(e) => Failed(e)
      case Ok(n) => Parts(acc.parts + [n])
  }

  /** The loop of `combine` over the first domains. */
  function Gather(unit: seq<PyVal>, zero: seq<PyVal>, ds: seq<seq<PyVal>>): Gathered {
    if |ds| == 0 then Parts([])
    else GatherStep(unit, zero, Gather(unit, zero, ds[..|ds| - 1]), ds[|ds| - 1])
  }

  lemma {:induction false} GatherNext(unit: seq<PyVal>, zero: seq<PyVal>, ds: seq<seq<PyVal>>, i: nat)
    requires i < |ds|
    ensures Gather(unit, zero, ds[..i + 1]) == GatherStep(unit, zero, Gather(unit, zero, ds[..i]), ds[i])
  {
    assert ds[..i + 1][..i] == ds[..i];
  }

  /** Once the loop has stopped, the remaining domains change nothing. */
  lemma {:induction false} GatherStopped(unit: seq<PyVal>, zero: seq<PyVal>, ds: seq<seq<PyVal>>, i: nat)
    requires i <= |ds| && !Gather(unit, zero, ds[..i]).Parts?
    ensures Gather(unit, zero, ds) == Gather(unit, zero, ds[..i])
    decreases |ds| - i
  {
    if i < |ds| {
      GatherNext(unit, zero, ds, i);
      GatherStopped(unit, zero, ds, i + 1);
    } else {
      assert ds[..i] == ds;
    }
  }

  /** The reference definition of `combine(operator, unit, zero, domains)`. */
  function Combined(op: PyVal, unit: seq<PyVal>, zero: seq<PyVal>, ds: seq<seq<PyVal>>): Result<seq<PyVal>> {
    if ds == [unit] then Ok(unit)
    else
      match Gather(unit, zero, ds)
      case Absorbed => Ok(zero)
      case Failed(e) => Err(e)
      case Parts(ps) =>
        var result := Repeat(op, |ps| - 1) + Flatten(ps);
        if result == [] then Ok(unit) else Ok(result)
  }

  /** `combine(operator, unit, zero, domains)`. */
  method Combine(op: PyVal, unit: seq<PyVal>, zero: seq<PyVal>, domains: seq<seq<PyVal>>)
    returns (r: Result<seq<PyVal>>)
    ensures r == Combined(op, unit, zero, domains)
  {
    var result: seq<PyVal> := [];
    var count := 0;
    if domains == [unit] {
      return Ok(unit);
    }
    ghost var parts: seq<seq<PyVal>> := [];
    for i := 0 to |domains|
      invariant result == Flatten(parts) && count == |parts|
      invariant Gather(unit, zero, domains[..i]) == Parts(parts)
    {
      var domain := domains[i];
      GatherNext(unit, zero, domains, i);
      if domain == unit {
        continue;
      }
      if domain == zero {
        GatherStopped(unit, zero, domains, i + 1);
        return Ok(zero);
      }
      if |domain| != 0 {
        var n := NormalizeDomain(domain);
        if n.Err? {
          GatherStopped(unit, zero, domains, i + 1);
          return Err(n.error);
        }
        result := result + n.value;
        count := count + 1;
        FlattenAppend(parts, [n.value]);
        assert Flatten([n.value]) == n.value by {
          assert [n.value][..0] == [];
        }
        parts := parts + [n.value];
      }
    }
    assert domains[..|domains|] == domains;
    result := Repeat(op, count - 1) + result;
    if result == [] {
      return Ok(unit);
    }
    return Ok(result);
  }

  /** `AND(domains)`. */
  function And(ds: seq<seq<PyVal>>): Result<seq<PyVal>> {
    Combined(AndOperator, TrueDomain, FalseDomain, ds)
  }

  // ---------------------------------------------------------------------------
  // Properties of combine and AND
  // ---------------------------------------------------------------------------

  /** Units and empty domains contribute nothing: only such domains combine to the unit. */
  lemma {:induction false} CombineOnlyUnits(op: PyVal, unit: seq<PyVal>, zero: seq<PyVal>, ds: seq<seq<PyVal>>)
    requires forall i | 0 <= i < |ds| :: ds[i] == unit || (ds[i] == [] && ds[i] != zero)
    ensures Combined(op, unit, zero, ds) == Ok(unit)
  {
    forall i | 0 <= i <= |ds|
      ensures Gather(unit, zero, ds[..i]) == Parts([])
    {
      GatherNoParts(unit, zero, ds, i);
    }
    assert ds[..|ds|] == ds;
  }

  lemma {:induction false} GatherNoParts(unit: seq<PyVal>, zero: seq<PyVal>, ds: seq<seq<PyVal>>, i: nat)
    requires i <= |ds|
    requires forall i | 0 <= i < |ds| :: ds[i] == unit || (ds[i] == [] && ds[i] != zero)
    ensures Gather(unit, zero, ds[..i]) == Parts([])
    decreases i
  {
    if i > 0 {
      GatherNoParts(unit, zero, ds, i - 1);
      GatherNext(unit, zero, ds, i - 1);
    }
  }

  /**
   * The zero absorbs: once a zero domain is met, and nothing before it failed, the
   * result is the zero, whatever follows.
   */
  lemma {:induction false} CombineZero(op: PyVal, unit: seq<PyVal>, zero: seq<PyVal>, ds: seq<seq<PyVal>>, i: nat)
    requires i < |ds| && ds[i] == zero && zero != unit
    requires forall j | 0 <= j < i :: ds[j] == unit || ds[j] == zero || Normalized(ds[j]).Ok?
    ensures Combined(op, unit, zero, ds) == Ok(zero)
  {
    GatherNoFailure(unit, zero, ds, i);
    GatherNext(unit, zero, ds, i);
    GatherStopped(unit, zero, ds, i + 1);
  }

  lemma {:induction false} GatherNoFailure(unit: seq<PyVal>, zero: seq<PyVal>, ds: seq<seq<PyVal>>, i: nat)
    requires i <= |ds|
    requires forall j | 0 <= j < i :: ds[j] == unit || ds[j] == zero || Normalized(ds[j]).Ok?
    ensures Gather(unit, zero, ds[..i]).Parts? || Gather(unit, zero, ds[..i]).Absorbed?
    decreases i
  {
    if i > 0 {
      GatherNoFailure(unit, zero, ds, i - 1);
      GatherNext(unit, zero, ds, i - 1);
    }
  }

  /**
   * The parts `combine` collects are the normalised forms of the domains that are
   * neither the unit, the zero nor empty.
   */
  lemma {:induction false} GatherParts(unit: seq<PyVal>, zero: seq<PyVal>, ds: seq<seq<PyVal>>)
    requires Gather(unit, zero, ds).Parts?
    ensures forall p | p in Gather(unit, zero, ds).parts :: |p| > 0 && IsNormalized(p)
    decreases |ds|
  {
    if |ds| > 0 {
      var n := |ds| - 1;
      var acc := Gather(unit, zero, ds[..n]);
      GatherParts(unit, zero, ds[..n]);
      var d := ds[n];
      if d != unit && d != zero && d != [] {
        NormalizedIsNormalized(d);
      }
    }
  }

  /** A binary operator followed by two complete expressions is a complete expression. */
  lemma {:induction false} WellFormedBinary(op: PyVal, a: seq<PyVal>, b: seq<PyVal>)
    requires Delta(op) == 1 && WellFormed(a) && WellFormed(b)
    ensures WellFormed([op] + a + b)
  {
    var r := [op] + a + b;
    SumDeltaAppend([op] + a, b);
    SumDeltaAppend([op], a);
    assert [op][..0] == [];
    forall j | 0 <= j < |r|
      ensures Need(r[..j]) > 0
    {
      if j == 0 {
        assert r[..0] == [];
      } else if j <= |a| {
        assert r[..j] == [op] + a[..j - 1];
        SumDeltaAppend([op], a[..j - 1]);
      } else {
        var m := j - 1 - |a|;
        assert r[..j] == ([op] + a) + b[..m];
        SumDeltaAppend([op] + a, b[..m]);
      }
    }
  }

  /** `n >= 1` complete expressions joined by `n - 1` binary operators form one expression. */
  lemma {:induction false} WellFormedChain(op: PyVal, ps: seq<seq<PyVal>>)
    requires Delta(op) == 1 && |ps| >= 1 && forall p | p in ps :: WellFormed(p)
    ensures WellFormed(Repeat(op, |ps| - 1) + Flatten(ps))
    decreases |ps|
  {
    var n := |ps| - 1;
    var init := ps[..n];
    assert Flatten(ps) == Flatten(init) + ps[n];
    if n == 0 {
      assert Flatten(init) == [];
      assert Repeat(op, 0) + Flatten(ps) == ps[0];
    } else {
      assert forall p | p in init :: p in ps;
      WellFormedChain(op, init);
      var c := Repeat(op, n - 1) + Flatten(init);
      assert Repeat(op, n) == [op] + Repeat(op, n - 1);
      assert Repeat(op, n) + Flatten(ps) == [op] + c + ps[n];
      WellFormedBinary(op, c, ps[n]);
    }
  }

  /** Every token of a chain of normal parts under an operator is normal. */
  lemma {:induction false} ChainTokensNormal(op: PyVal, ps: seq<seq<PyVal>>, c: seq<PyVal>)
    requires !IsSequence(op) && c == Repeat(op, |ps| - 1) + Flatten(ps)
    requires forall p | p in ps :: forall i | 0 <= i < |p| :: NormalToken(p[i])
    ensures forall i | 0 <= i < |c| :: NormalToken(c[i])
  {
    FlattenTokensNormal(ps);
    var n := |Repeat(op, |ps| - 1)|;
    forall i | 0 <= i < |c|
      ensures NormalToken(c[i])
    {
      if i >= n {
        assert c[i] == Flatten(ps)[i - n];
      }
    }
  }

  lemma {:induction false} FlattenTokensNormal(ps: seq<seq<PyVal>>)
    requires forall p | p in ps :: forall i | 0 <= i < |p| :: NormalToken(p[i])
    ensures forall i | 0 <= i < |Flatten(ps)| :: NormalToken(Flatten(ps)[i])
    decreases |ps|
  {
    if |ps| > 0 {
      var n := |ps| - 1;
      assert forall p | p in ps[..n] :: p in ps;
      FlattenTokensNormal(ps[..n]);
      assert ps[n] in ps;
    }
  }

  /**
   * `combine` with a binary operator and a normalised unit and zero returns a normalised
   * domain: one well-formed expression of normal tokens.
   */
  lemma {:induction false} CombinedIsNormalized(op: PyVal, unit: seq<PyVal>, zero: seq<PyVal>, ds: seq<seq<PyVal>>)
    requires op == AndOperator || op == OrOperator
    requires IsNormalized(unit) && IsNormalized(zero)
    requires Combined(op, unit, zero, ds).Ok?
    ensures IsNormalized(Combined(op, unit, zero, ds).value)
  {
    if ds != [unit] && Gather(unit, zero, ds).Parts? {
      var ps := Gather(unit, zero, ds).parts;
      GatherParts(unit, zero, ds);
      if |ps| > 0 {
        DeltaCases(op);
        WellFormedChain(op, ps);
        var c := Repeat(op, |ps| - 1) + Flatten(ps);
        ChainTokensNormal(op, ps, c);
      } else {
        assert Flatten(ps) == [];
      }
    }
  }

  lemma {:induction false} TrueAndFalseNormalized()
    ensures IsNormalized(TrueDomain) && IsNormalized(FalseDomain)
  {
    NormalizedIsNormalized([]);
    assert TrueDomain == Normalized([]).value;
    var f := FalseDomain;
    assert f[..0] == [] && f[..1] == f;
    assert SumDelta(f) == SumDelta([]) + Delta(FalseLeaf);
    assert NormalToken(FalseLeaf);
  }

  /** `AND` always returns a normalised domain when it succeeds. */
  lemma {:induction false} AndIsNormalized(ds: seq<seq<PyVal>>)
    requires And(ds).Ok?
    ensures IsNormalized(And(ds).value)
  {
    TrueAndFalseNormalized();
    CombinedIsNormalized(AndOperator, TrueDomain, FalseDomain, ds);
  }

  /**
   * `AND` of two ordinary domains: one `&` in front of their normalised forms; the unit
   * on either side leaves the other domain's normalised form.
   */
  lemma {:induction false} AndOfTwo(a: seq<PyVal>, b: seq<PyVal>)
    requires a != [] && a != TrueDomain && a != FalseDomain && Normalized(a).Ok?
    requires b != [] && b != TrueDomain && b != FalseDomain && Normalized(b).Ok?
    ensures And([a, b]) == Ok([AndOperator] + Normalized(a).value + Normalized(b).value)
  {
    var pa, pb := Normalized(a).value, Normalized(b).value;
    GatherTwo(a, b);
    FlattenTwo(pa, pb);
    assert Repeat(AndOperator, 1) == [AndOperator];
    assert [AndOperator] + pa + pb == Repeat(AndOperator, 1) + Flatten([pa, pb]);
    CombinedOfParts(AndOperator, TrueDomain, FalseDomain, [a, b], [pa, pb]);
  }

  /** The loop of `combine` over two ordinary domains that normalise collects both normal forms. */
  lemma {:induction false} GatherTwo(a: seq<PyVal>, b: seq<PyVal>)
    requires a != [] && a != TrueDomain && a != FalseDomain && Normalized(a).Ok?
    requires b != [] && b != TrueDomain && b != FalseDomain && Normalized(b).Ok?
    ensures Gather(TrueDomain, FalseDomain, [a, b]) == Parts([Normalized(a).value, Normalized(b).value])
  {
    var ds := [a, b];
    GatherNext(TrueDomain, FalseDomain, ds, 0);
    GatherNext(TrueDomain, FalseDomain, ds, 1);
    assert ds[..0] == [] && ds[..2] == ds;
    assert [] + [Normalized(a).value] == [Normalized(a).value];
  }

  /** What `combine` returns once its loop has collected the parts `ps`. */
  lemma {:induction false} CombinedOfParts(op: PyVal, unit: seq<PyVal>, zero: seq<PyVal>, ds: seq<seq<PyVal>>,
                                           ps: seq<seq<PyVal>>)
    requires ds != [unit] && Gather(unit, zero, ds) == Parts(ps)
    requires Repeat(op, |ps| - 1) + Flatten(ps) != []
    ensures Combined(op, unit, zero, ds) == Ok(Repeat(op, |ps| - 1) + Flatten(ps))
  {
  }

  lemma {:induction false} FlattenTwo<T>(a: seq<T>, b: seq<T>)
    ensures Flatten([a]) == a && Flatten([a, b]) == a + b
  {
    assert [a, b][..1] == [a];
    assert [a][..0] == [];
  }

  lemma {:induction false} AndWithTrue(a: seq<PyVal>)
    requires a != [] && a != TrueDomain && a != FalseDomain && Normalized(a).Ok?
    ensures And([TrueDomain, a]) == Normalized(a) && And([a, TrueDomain]) == Normalized(a)
  {
    TrueThenDomain(a);
    DomainThenTrue(a);
  }

  /** `AND([TRUE_DOMAIN, a])` is `a` normalised. */
  lemma {:induction false} TrueThenDomain(a: seq<PyVal>)
    requires a != [] && a != TrueDomain && a != FalseDomain && Normalized(a).Ok?
    ensures And([TrueDomain, a]) == Normalized(a)
  {
    var p := Normalized(a).value;
    NormalizedIsNormalized(a);
    var ds1 := [TrueDomain, a];
    assert Gather(TrueDomain, FalseDomain, ds1[..1]) == Parts([]) by {
      GatherNext(TrueDomain, FalseDomain, ds1, 0);
      assert ds1[..0] == [];
    }
    assert Gather(TrueDomain, FalseDomain, ds1) == Parts([p]) by {
      GatherNext(TrueDomain, FalseDomain, ds1, 1);
      assert ds1[..2] == ds1;
    }
    FlattenTwo(p, p);
  }

  /** `AND([a, TRUE_DOMAIN])` is `a` normalised. */
  lemma {:induction false} DomainThenTrue(a: seq<PyVal>)
    requires a != [] && a != TrueDomain && a != FalseDomain && Normalized(a).Ok?
    ensures And([a, TrueDomain]) == Normalized(a)
  {
    var p := Normalized(a).value;
    NormalizedIsNormalized(a);
    var ds2 := [a, TrueDomain];
    assert Gather(TrueDomain, FalseDomain, ds2[..1]) == Parts([p]) by {
      GatherNext(TrueDomain, FalseDomain, ds2, 0);
      assert ds2[..0] == [];
    }
    assert Gather(TrueDomain, FalseDomain, ds2) == Parts([p]) by {
      GatherNext(TrueDomain, FalseDomain, ds2, 1);
      assert ds2[..2] == ds2;
    }
    FlattenTwo(p, p);
  }

  // ---------------------------------------------------------------------------
  // Domains made of plain leaves only
  // ---------------------------------------------------------------------------

  /** Every token is a term that is not an `any`/`not any` term. */
  predicate PlainLeaves(d: seq<PyVal>) {
    forall i | 0 <= i < |d| :: IsSequence(d[i]) && !IsAnyTerm(d[i])
  }

  /** The tuples plain leaves normalise to, in order. */
  function Tupled(d: seq<PyVal>): (r: seq<PyVal>)
    requires forall i | 0 <= i < |d| :: d[i].PList? || d[i].PTuple?
    ensures |r| == |d| && forall i | 0 <= i < |d| :: r[i] == PTuple(d[i].items)
  {
    if |d| == 0 then [] else Tupled(d[..|d| - 1]) + [PTuple(d[|d| - 1].items)]
  }

  lemma {:induction false} PlainLeavesScan(d: seq<PyVal>)
    requires PlainLeaves(d) && |d| >= 1
    ensures NormTokens(d) == Ok(Tupled(d))
    ensures ScanFrom(Start, d) == Scan(0, |d| - 1)
    decreases |d|
  {
    var n := |d| - 1;
    var init := d[..n];
    if n == 0 {
      assert init == [];
      assert NormTokens(init) == Ok([]);
      assert ScanFrom(Start, init) == Start;
    } else {
      PlainLeavesScan(init);
    }
    assert NormToken(d[n]) == Ok(PTuple(d[n].items));
    assert Tupled(d) == Tupled(init) + [PTuple(d[n].items)];
  }

  /**
   * A list of plain leaves is joined by the implicit `&`: it normalises to one `&` fewer
   * than there are leaves, followed by the leaves as tuples.
   */
  lemma {:induction false} PlainLeavesNormalized(d: seq<PyVal>)
    requires PlainLeaves(d) && |d| >= 1
    ensures Normalized(d) == Ok(Repeat(AndOperator, |d| - 1) + Tupled(d))
  {
    PlainLeavesScan(d);
    NormalizedOfScan(d, |d| - 1, Tupled(d));
  }

  /** One unfolding of `Normalized` for a domain whose tokens normalise and whose count closes. */
  lemma {:induction false} NormalizedOfScan(d: seq<PyVal>, k: nat, ts: seq<PyVal>)
    requires |d| > 0 && NormTokens(d) == Ok(ts) && ScanFrom(Start, d) == Scan(0, k)
    ensures Normalized(d) == Ok(Repeat(AndOperator, k) + ts)
  {
  }
}
