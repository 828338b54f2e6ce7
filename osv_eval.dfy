/**
 * What a domain means: the prefix-notation reading Odoo gives a token list, for a
 * given interpretation of the leaves. It is the reference against which `AND` is
 * shown to be conjunction.
 */
module DomainEval {
  import opened Python
  import opened Osv

  /** One token applied to the values of the expressions that follow it (top first). */
  function Apply(t: PyVal, st: seq<bool>, leaf: PyVal -> bool): Option<seq<bool>> {
    if t == AndOperator then (if |st| >= 2 then Some([st[0] && st[1]] + st[2..]) else None)
    else if t == OrOperator then (if |st| >= 2 then Some([st[0] || st[1]] + st[2..]) else None)
    else if t == NotOperator then (if |st| >= 1 then Some([!st[0]] + st[1..]) else None)
    else Some([leaf(t)] + st)
  }

  /** Reads `d` from right to left on top of the values `s`. */
  function Run(d: seq<PyVal>, s: seq<bool>, leaf: PyVal -> bool): Option<seq<bool>> {
    if |d| == 0 then Some(s)
    else
      match Run(d[1..], s, leaf)
      case None => None
      case Some(st) => Apply(d[0], st, leaf)
  }

  /** The truth value of a token list that is one complete expression. */
  function Eval(d: seq<PyVal>, leaf: PyVal -> bool): Option<bool> {
    match Run(d, [], leaf)
    case Some(st) => if |st| == 1 then Some(st[0]) else None
    case None => None
  }

  /** Every suffix still closes at least one expression. */
  ghost predicate SuffixesClosed(d: seq<PyVal>) {
    forall j | 0 <= j < |d| :: SumDelta(d[j..]) <= -1
  }

  /**
   * A token list whose suffixes all close an expression pushes one value per
   * expression, whatever lies below it.
   */
  lemma {:induction false} RunPushes(d: seq<PyVal>, s: seq<bool>, leaf: PyVal -> bool)
    requires SuffixesClosed(d)
    ensures Run(d, [], leaf).Some? && |Run(d, [], leaf).value| == -SumDelta(d)
    ensures Run(d, s, leaf) == Some(Run(d, [], leaf).value + s)
    decreases |d|
  {
    if |d| > 0 {
      var t, rest := d[0], d[1..];
      assert d == [t] + rest;
      SumDeltaAppend([t], rest);
      assert [t][..0] == [];
      assert SuffixesClosed(rest) by {
        forall j | 0 <= j < |rest|
          ensures SumDelta(rest[j..]) <= -1
        {
          assert rest[j..] == d[j + 1..];
        }
      }
      RunPushes(rest, s, leaf);
      var v := Run(rest, [], leaf).value;
      assert SumDelta(d[0..]) <= -1;
      assert d[0..] == d;
      DeltaCases(t);
      assert |v| >= OpArity(t);
      ApplyFrame(t, v, s, leaf);
      assert Run(rest, s, leaf) == Some(v + s);
      assert Run(d, s, leaf) == Apply(t, v + s, leaf);
      assert Run(d, [], leaf) == Apply(t, v, leaf);
    } else {
      assert [] + s == s;
    }
  }

  lemma {:induction false} ApplyFrame(t: PyVal, v: seq<bool>, s: seq<bool>, leaf: PyVal -> bool)
    requires |v| >= OpArity(t)
    ensures Apply(t, v, leaf).Some?
    ensures Apply(t, v + s, leaf) == Some(Apply(t, v, leaf).value + s)
    ensures |Apply(t, v, leaf).value| == |v| - OpArity(t) + 1
  {
    if t == AndOperator || t == OrOperator {
      ApplyFrameBinary(t, v, s, leaf);
    } else if t == NotOperator {
      ApplyFrameNot(v, s, leaf);
    } else {
      assert Apply(t, v + s, leaf) == Some([leaf(t)] + (v + s));
      assert ([leaf(t)] + v) + s == [leaf(t)] + (v + s);
    }
  }

  lemma {:induction false} ApplyFrameBinary(t: PyVal, v: seq<bool>, s: seq<bool>, leaf: PyVal -> bool)
    requires (t == AndOperator || t == OrOperator) && |v| >= 2
    ensures Apply(t, v, leaf).Some? && |Apply(t, v, leaf).value| == |v| - 1
    ensures Apply(t, v + s, leaf) == Some(Apply(t, v, leaf).value + s)
  {
    assert (v + s)[2..] == v[2..] + s;
    assert (v + s)[0] == v[0] && (v + s)[1] == v[1];
    var x := if t == AndOperator then v[0] && v[1] else v[0] || v[1];
    assert Apply(t, v, leaf) == Some([x] + v[2..]);
    assert Apply(t, v + s, leaf) == Some([x] + (v[2..] + s));
    assert ([x] + v[2..]) + s == [x] + (v[2..] + s);
  }

  lemma {:induction false} ApplyFrameNot(v: seq<bool>, s: seq<bool>, leaf: PyVal -> bool)
    requires |v| >= 1
    ensures Apply(NotOperator, v, leaf).Some? && |Apply(NotOperator, v, leaf).value| == |v|
    ensures Apply(NotOperator, v + s, leaf) == Some(Apply(NotOperator, v, leaf).value + s)
  {
    assert (v + s)[1..] == v[1..] + s;
    assert (v + s)[0] == v[0];
    assert Apply(NotOperator, v + s, leaf) == Some([!v[0]] + (v[1..] + s));
    assert ([!v[0]] + v[1..]) + s == [!v[0]] + (v[1..] + s);
  }

  /** A complete expression has a value and pushes exactly that value. */
  lemma {:induction false} EvalWellFormed(a: seq<PyVal>, s: seq<bool>, leaf: PyVal -> bool)
    requires WellFormed(a)
    ensures Eval(a, leaf).Some?
    ensures Run(a, s, leaf) == Some([Eval(a, leaf).value] + s)
  {
    forall j | 0 <= j < |a|
      ensures SumDelta(a[j..]) <= -1
    {
      assert a == a[..j] + a[j..];
      SumDeltaAppend(a[..j], a[j..]);
    }
    RunPushes(a, s, leaf);
    RunPushes(a, [], leaf);
    var st := Run(a, [], leaf).value;
    assert SumDelta(a) == -1;
    assert st == [st[0]];
  }

  lemma {:induction false} RunAppend(a: seq<PyVal>, b: seq<PyVal>, s: seq<bool>, leaf: PyVal -> bool)
    requires Run(b, s, leaf).Some?
    ensures Run(a + b, s, leaf) == Run(a, Run(b, s, leaf).value, leaf)
    decreases |a|
  {
    if |a| > 0 {
      assert (a + b)[1..] == a[1..] + b;
      assert (a + b)[0] == a[0];
      RunAppend(a[1..], b, s, leaf);
    } else {
      assert a + b == b;
    }
  }

  /** `[op] + a + b` for two complete expressions applies the operator to their values. */
  lemma {:induction false} EvalBinary(op: PyVal, a: seq<PyVal>, b: seq<PyVal>, leaf: PyVal -> bool)
    requires op == AndOperator || op == OrOperator
    requires WellFormed(a) && WellFormed(b)
    ensures Eval(a, leaf).Some? && Eval(b, leaf).Some?
    ensures Eval([op] + a + b, leaf) ==
      Some(if op == AndOperator then Eval(a, leaf).value && Eval(b, leaf).value
           else Eval(a, leaf).value || Eval(b, leaf).value)
  {
    EvalWellFormed(b, [], leaf);
    var vb := Eval(b, leaf).value;
    assert [vb] + [] == [vb];
    assert Run(b, [], leaf) == Some([vb]);
    EvalWellFormed(a, [vb], leaf);
    var va := Eval(a, leaf).value;
    RunAppend(a, b, [], leaf);
    assert [va] + [vb] == [va, vb];
    assert Run(a + b, [], leaf) == Some([va, vb]);
    RunAppend([op], a + b, [], leaf);
    assert [op] + a + b == [op] + (a + b);
    assert Run([op], [va, vb], leaf) == Apply(op, [va, vb], leaf) by {
      assert [op][1..] == [];
    }
    var x := if op == AndOperator then va && vb else va || vb;
    assert [x] + [va, vb][2..] == [x];
  }

  /** A domain holds when it normalises and its normal form evaluates to true. */
  ghost predicate Holds(d: seq<PyVal>, leaf: PyVal -> bool) {
    Normalized(d).Ok? && Eval(Normalized(d).value, leaf) == Some(true)
  }

  /** Every domain of the list holds. */
  ghost predicate AllHold(ds: seq<seq<PyVal>>, leaf: PyVal -> bool) {
    forall i | 0 <= i < |ds| :: Holds(ds[i], leaf)
  }

  /** An interpretation of leaves that reads the TRUE and FALSE leaves as true and false. */
  ghost predicate Sound(leaf: PyVal -> bool) {
    leaf(TrueLeaf) && !leaf(FalseLeaf)
  }

  lemma {:induction false} ConstantDomains(leaf: PyVal -> bool)
    requires Sound(leaf)
    ensures Holds(TrueDomain, leaf) && Holds([], leaf) && !Holds(FalseDomain, leaf)
    ensures Eval(TrueDomain, leaf) == Some(true) && Eval(FalseDomain, leaf) == Some(false)
  {
    TrueAndFalseNormalized();
    NormalizedFixpoint(TrueDomain);
    NormalizedFixpoint(FalseDomain);
    assert TrueDomain[1..] == [] && FalseDomain[1..] == [];
    assert [leaf(TrueLeaf)] + [] == [leaf(TrueLeaf)];
    assert [leaf(FalseLeaf)] + [] == [leaf(FalseLeaf)];
    assert Run(TrueDomain, [], leaf) == Some([leaf(TrueLeaf)]);
    assert Run(FalseDomain, [], leaf) == Some([leaf(FalseLeaf)]);
  }

  /** What `combine` with `&` builds from `n >= 1` parts: `&^(n-1)` followed by the parts. */
  function AndChain(ps: seq<seq<PyVal>>): seq<PyVal> {
    Repeat(AndOperator, |ps| - 1) + Flatten(ps)
  }

  /** Every part evaluates to true. */
  ghost predicate AllTrue(ps: seq<seq<PyVal>>, leaf: PyVal -> bool) {
    forall p | p in ps :: Eval(p, leaf) == Some(true)
  }

  lemma {:induction false} AndChainOne(p: seq<PyVal>)
    ensures AndChain([p]) == p
  {
    FlattenTwo(p, p);
  }

  lemma {:induction false} AndChainStep(ps: seq<seq<PyVal>>)
    requires |ps| >= 2
    ensures AndChain(ps) == [AndOperator] + AndChain(ps[..|ps| - 1]) + ps[|ps| - 1]
  {
    var n := |ps| - 1;
    assert Flatten(ps) == Flatten(ps[..n]) + ps[n];
    assert Repeat(AndOperator, n) == [AndOperator] + Repeat(AndOperator, n - 1);
  }

  lemma {:induction false} AllTrueStep(ps: seq<seq<PyVal>>, leaf: PyVal -> bool)
    requires |ps| >= 1
    ensures AllTrue(ps, leaf) <==> AllTrue(ps[..|ps| - 1], leaf) && Eval(ps[|ps| - 1], leaf) == Some(true)
  {
    var n := |ps| - 1;
    assert ps == ps[..n] + [ps[n]];
    assert forall p | p in ps :: p in ps[..n] || p == ps[n];
  }

  /** The chain `&^(n-1)` followed by `n` parts evaluates to the conjunction of the parts. */
  lemma {:induction false} EvalAndChain(ps: seq<seq<PyVal>>, leaf: PyVal -> bool)
    requires |ps| >= 1 && forall p | p in ps :: WellFormed(p)
    ensures Eval(AndChain(ps), leaf) == Some(AllTrue(ps, leaf))
    decreases |ps|
  {
    var n := |ps| - 1;
    AllTrueStep(ps, leaf);
    EvalWellFormed(ps[n], [], leaf);
    if n == 0 {
      AndChainOne(ps[0]);
      assert ps == [ps[0]];
      assert ps[..0] == [];
      assert AllTrue(ps, leaf) == Eval(ps[0], leaf).value;
    } else {
      var init := ps[..n];
      assert forall p | p in init :: p in ps;
      EvalAndChain(init, leaf);
      DeltaCases(AndOperator);
      WellFormedChain(AndOperator, init);
      AndChainStep(ps);
      EvalBinary(AndOperator, AndChain(init), ps[n], leaf);
    }
  }

  /**
   * While `combine` is still collecting, the parts hold exactly when all the domains
   * read so far hold.
   */
  lemma {:induction false} GatherHolds(ds: seq<seq<PyVal>>, i: nat, leaf: PyVal -> bool)
    requires Sound(leaf) && i <= |ds|
    requires Gather(TrueDomain, FalseDomain, ds[..i]).Parts?
    ensures var ps := Gather(TrueDomain, FalseDomain, ds[..i]).parts;
      (forall p | p in ps :: Eval(p, leaf) == Some(true)) <==> AllHold(ds[..i], leaf)
    decreases i
  {
    ConstantDomains(leaf);
    if i > 0 {
      GatherNext(TrueDomain, FalseDomain, ds, i - 1);
      var acc := Gather(TrueDomain, FalseDomain, ds[..i - 1]);
      assert acc.Parts?;
      GatherHolds(ds, i - 1, leaf);
      assert ds[..i] == ds[..i - 1] + [ds[i - 1]];
      assert AllHold(ds[..i], leaf) <==> AllHold(ds[..i - 1], leaf) && Holds(ds[i - 1], leaf);
      var d := ds[i - 1];
      if d != TrueDomain && d != FalseDomain && d != [] {
        var ps := acc.parts + [Normalized(d).value];
        assert forall p | p in ps :: p in acc.parts || p == Normalized(d).value;
      }
    }
  }

  /**
   * `AND` is conjunction: when it succeeds, its result holds exactly when every one of
   * the given domains holds.
   */
  lemma {:induction false} AndMeansConjunction(ds: seq<seq<PyVal>>, leaf: PyVal -> bool)
    requires Sound(leaf) && And(ds).Ok?
    ensures Eval(And(ds).value, leaf) == Some(AllHold(ds, leaf))
  {
    ConstantDomains(leaf);
    assert ds[..|ds|] == ds;
    if ds == [TrueDomain] {
      assert AllHold(ds, leaf);
    } else {
      match Gather(TrueDomain, FalseDomain, ds)
      case Absorbed =>
        AbsorbedHasZero(ds, |ds|);
      case Parts(ps) =>
        GatherHolds(ds, |ds|, leaf);
        GatherParts(TrueDomain, FalseDomain, ds);
        if |ps| > 0 {
          EvalAndChain(ps, leaf);
          assert AndChain(ps) == And(ds).value;
        } else {
          assert Flatten(ps) == [];
        }
    }
  }

  /** What `AND` returns, once normalised again, holds exactly when all its parts hold. */
  lemma {:induction false} AndHolds(ds: seq<seq<PyVal>>, leaf: PyVal -> bool)
    requires Sound(leaf) && And(ds).Ok?
    ensures Holds(And(ds).value, leaf) <==> AllHold(ds, leaf)
  {
    AndIsNormalized(ds);
    NormalizedFixpoint(And(ds).value);
    AndMeansConjunction(ds, leaf);
  }

  /** The loop of `AND` stops early only at a FALSE domain that makes the conjunction false. */
  lemma {:induction false} AbsorbedHasZero(ds: seq<seq<PyVal>>, i: nat)
    requires i <= |ds| && Gather(TrueDomain, FalseDomain, ds[..i]).Absorbed?
    ensures exists j | 0 <= j < i :: ds[j] == FalseDomain
    decreases i
  {
    GatherNext(TrueDomain, FalseDomain, ds, i - 1);
    if !Gather(TrueDomain, FalseDomain, ds[..i - 1]).Parts? {
      AbsorbedHasZero(ds, i - 1);
    }
  }

  /** Each token of `ts` as a domain of its own. */
  function Singletons(ts: seq<PyVal>): (r: seq<seq<PyVal>>)
    ensures |r| == |ts| && forall i | 0 <= i < |ts| :: r[i] == [ts[i]]
  {
    if |ts| == 0 then [] else Singletons(ts[..|ts| - 1]) + [[ts[|ts| - 1]]]
  }

  lemma {:induction false} FlattenSingletons(ts: seq<PyVal>)
    ensures Flatten(Singletons(ts)) == ts
    decreases |ts|
  {
    if |ts| > 0 {
      var n := |ts| - 1;
      assert Singletons(ts)[..n] == Singletons(ts[..n]);
      FlattenSingletons(ts[..n]);
      assert ts == ts[..n] + [ts[n]];
    }
  }

  /** A single term is one expression, whose value is the leaf's. */
  lemma {:induction false} LeafHolds(t: PyVal, leaf: PyVal -> bool)
    requires IsSequence(t)
    ensures WellFormed([t]) && Eval([t], leaf) == Some(leaf(t))
  {
    assert [t][..0] == [] && [t][1..] == [];
    assert SumDelta([t]) == SumDelta([]) + Delta(t);
    assert Run([], [], leaf) == Some([]);
    assert t != AndOperator && t != OrOperator && t != NotOperator;
    assert [leaf(t)] + [] == [leaf(t)];
    assert Run([t], [], leaf) == Apply(t, [], leaf);
  }

  /** The singleton parts all hold exactly when every leaf holds. */
  lemma {:induction false} AllTrueSingletons(ts: seq<PyVal>, leaf: PyVal -> bool)
    requires forall i | 0 <= i < |ts| :: IsSequence(ts[i])
    ensures AllTrue(Singletons(ts), leaf) <==> forall i | 0 <= i < |ts| :: leaf(ts[i])
  {
    var ps := Singletons(ts);
    forall i | 0 <= i < |ps|
      ensures Eval(ps[i], leaf) == Some(leaf(ts[i]))
    {
      LeafHolds(ts[i], leaf);
    }
    if forall i | 0 <= i < |ts| :: leaf(ts[i]) {
      forall p | p in ps
        ensures Eval(p, leaf) == Some(true)
      {
        var i :| 0 <= i < |ps| && ps[i] == p;
      }
    }
    if AllTrue(ps, leaf) {
      forall i | 0 <= i < |ts|
        ensures leaf(ts[i])
      {
        assert ps[i] in ps;
      }
    }
  }

  /** A list of plain leaves holds exactly when every one of its leaves holds. */
  lemma {:induction false} PlainLeavesHold(d: seq<PyVal>, leaf: PyVal -> bool)
    requires PlainLeaves(d) && |d| >= 1
    ensures Holds(d, leaf) <==> forall i | 0 <= i < |d| :: leaf(PTuple(d[i].items))
  {
    var ts := Tupled(d);
    var ps := Singletons(ts);
    assert Normalized(d) == Ok(AndChain(ps)) by {
      PlainLeavesNormalized(d);
      FlattenSingletons(ts);
    }
    assert Eval(AndChain(ps), leaf) == Some(AllTrue(ps, leaf)) by {
      forall p | p in ps
        ensures WellFormed(p)
      {
        var i :| 0 <= i < |ps| && ps[i] == p;
        LeafHolds(ts[i], leaf);
      }
      EvalAndChain(ps, leaf);
    }
    AllTrueSingletons(ts, leaf);
  }
}
