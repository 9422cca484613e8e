/**
 * Response functions of a model, kept as terms instead of closures: building a circuit
 * only builds terms, and all numeric work happens in Eval, at a given parameter record.
 * Values are real numbers; the source's complex arithmetic is not modelled.
 */
module Responses {

  /** A parameter record: a scalar, or a record of named sub-records (instance -> parameter -> value). */
  datatype Params = Scalar(x: real) | Record(fields: map<string, Params>)

  /** What evaluating a response at a parameter record gives. */
  datatype Value =
    | Val(v: real)            // a number
    | Singular                // a division by zero (a resonance of the reflection series)
    | Missing(name: string)   // the lookup params[name] failed

  /** A response function. */
  datatype Resp =
    | Zero                    // the sentinel `zero`, recognised by identity, evaluating to 0
    | Base(id: nat)           // a component's own response function
    | Named(name: string, f: Resp)  // f applied to params[name] (_namedparamsfunc)
    | Ijkl(mij: Resp, mik: Resp, mil: Resp, mkj: Resp, mkk: Resp, mkl: Resp,
           mlj: Resp, mlk: Resp, mll: Resp)  // the responses combined by _model_ijkl

  /** The responses of the components themselves, which the model does not look into. */
  type Components = (nat, Params) -> Value

  /** The denominator of equation 6 of Filipsson (1981). */
  function Den(kk: real, kl: real, lk: real, ll: real): real {
    (1.0 - kl) * (1.0 - lk) - kk * ll
  }

  /** The numerator of equation 6 of Filipsson (1981). */
  function Num(ik: real, il: real, kj: real, kk: real, kl: real, lj: real, lk: real, ll: real): real {
    kj * il * (1.0 - lk) + lj * ik * (1.0 - kl) + kj * ll * ik + lj * kk * il
  }

  /** _model_ijkl on evaluated responses: the (i, j) response once ports k and l are joined. */
  function ModelIjkl(ij: real, ik: real, il: real, kj: real, kk: real, kl: real,
                     lj: real, lk: real, ll: real): Value
  {
    var d := Den(kk, kl, lk, ll);
    if d == 0.0 then Singular else Val(ij + Num(ik, il, kj, kk, kl, lj, lk, ll) / d)
  }

  predicate AllVal(vs: seq<Value>) {
    forall i :: 0 <= i < |vs| ==> vs[i].Val?
  }

  /** The failure a sequence of evaluations ends in: the first failed lookup, else a singularity. */
  function FirstFailure(vs: seq<Value>): (r: Value)
    ensures !r.Val?
  {
    if vs == [] then Singular
    else if vs[0].Missing? then vs[0]
    else FirstFailure(vs[1..])
  }

  /** Combine nine evaluated responses, in the order mij, mik, mil, mkj, mkk, mkl, mlj, mlk, mll. */
  function Apply9(vs: seq<Value>): Value
    requires |vs| == 9
  {
    if AllVal(vs) then ModelIjkl(vs[0].v, vs[1].v, vs[2].v, vs[3].v, vs[4].v, vs[5].v, vs[6].v, vs[7].v, vs[8].v)
    else FirstFailure(vs)
  }

  /** Evaluate a response at parameter record p. */
  function Eval(t: Resp, comp: Components, p: Params): Value {
    match t
    case Zero => Val(0.0)
    case Base(id) => comp(id, p)
    case Named(name, f) =>
      if p.Record? && name in p.fields then Eval(f, comp, p.fields[name]) else Missing(name)
    case Ijkl(mij, mik, mil, mkj, mkk, mkl, mlj, mlk, mll) =>
      Apply9([Eval(mij, comp, p), Eval(mik, comp, p), Eval(mil, comp, p),
              Eval(mkj, comp, p), Eval(mkk, comp, p), Eval(mkl, comp, p),
              Eval(mlj, comp, p), Eval(mlk, comp, p), Eval(mll, comp, p)])
  }

  /** The nine evaluated inputs of an Ijkl term. */
  function Inputs(t: Resp, comp: Components, p: Params): (vs: seq<Value>)
    requires t.Ijkl?
    ensures |vs| == 9
  {
    [Eval(t.mij, comp, p), Eval(t.mik, comp, p), Eval(t.mil, comp, p),
     Eval(t.mkj, comp, p), Eval(t.mkk, comp, p), Eval(t.mkl, comp, p),
     Eval(t.mlj, comp, p), Eval(t.mlk, comp, p), Eval(t.mll, comp, p)]
  }

  /** The denominator of an Ijkl term whose inputs all evaluate to numbers. */
  function InputsDen(t: Resp, comp: Components, p: Params): real
    requires t.Ijkl? && AllVal(Inputs(t, comp, p))
  {
    var vs := Inputs(t, comp, p);
    Den(vs[4].v, vs[5].v, vs[7].v, vs[8].v)
  }

  /** An Ijkl term whose inputs evaluate to numbers evaluates to equation 6 of those numbers. */
  lemma EvalIjkl(t: Resp, comp: Components, p: Params)
    requires t.Ijkl? && AllVal(Inputs(t, comp, p))
    ensures var vs := Inputs(t, comp, p);
      Eval(t, comp, p) == ModelIjkl(vs[0].v, vs[1].v, vs[2].v, vs[3].v, vs[4].v, vs[5].v, vs[6].v, vs[7].v, vs[8].v)
  {
  }

  /**
   * Equation 6 solves the junction. Join port k to port l (the wave leaving k enters l and
   * the other way round) and feed port j with a unit wave. If bk and bl are the waves
   * leaving k and l, they satisfy bk = Skj + Skk*bl + Skl*bk and bl = Slj + Slk*bl + Sll*bk,
   * and the wave leaving i is Sij + Sik*bl + Sil*bk. Whenever the denominator is not zero,
   * _model_ijkl returns exactly that wave.
   */
  lemma ModelIjklSolvesJunction(ij: real, ik: real, il: real, kj: real, kk: real, kl: real,
                                lj: real, lk: real, ll: real, bk: real, bl: real)
    requires Den(kk, kl, lk, ll) != 0.0
    requires bk == kj + kk * bl + kl * bk
    requires bl == lj + lk * bl + ll * bk
    ensures ModelIjkl(ij, ik, il, kj, kk, kl, lj, lk, ll) == Val(ij + ik * bl + il * bk)
  {
    var d := Den(kk, kl, lk, ll);
    assert (1.0 - kl) * bk == kj + kk * bl;
    assert (1.0 - lk) * bl == lj + ll * bk;
    calc {
      d * bk;
      (1.0 - lk) * ((1.0 - kl) * bk) - kk * ll * bk;
      (1.0 - lk) * (kj + kk * bl) - kk * ll * bk;
      (1.0 - lk) * kj + kk * ((1.0 - lk) * bl) - kk * ll * bk;
      (1.0 - lk) * kj + kk * (lj + ll * bk) - kk * ll * bk;
      (1.0 - lk) * kj + kk * lj;
    }
    calc {
      d * bl;
      (1.0 - kl) * ((1.0 - lk) * bl) - kk * ll * bl;
      (1.0 - kl) * (lj + ll * bk) - kk * ll * bl;
      (1.0 - kl) * lj + ll * ((1.0 - kl) * bk) - kk * ll * bl;
      (1.0 - kl) * lj + ll * (kj + kk * bl) - kk * ll * bl;
      (1.0 - kl) * lj + ll * kj;
    }
    calc {
      Num(ik, il, kj, kk, kl, lj, lk, ll);
      il * ((1.0 - lk) * kj + kk * lj) + ik * ((1.0 - kl) * lj + ll * kj);
      il * (d * bk) + ik * (d * bl);
      d * (ik * bl + il * bk);
    }
  }

  /** The wave leaving port k of the junction, by Cramer's rule. */
  function WaveK(kj: real, kk: real, kl: real, lj: real, lk: real, ll: real): real
    requires Den(kk, kl, lk, ll) != 0.0
  {
    ((1.0 - lk) * kj + kk * lj) / Den(kk, kl, lk, ll)
  }

  /** The wave leaving port l of the junction, by Cramer's rule. */
  function WaveL(kj: real, kk: real, kl: real, lj: real, lk: real, ll: real): real
    requires Den(kk, kl, lk, ll) != 0.0
  {
    ((1.0 - kl) * lj + ll * kj) / Den(kk, kl, lk, ll)
  }

  /** The junction equations have a solution whenever the denominator is not zero. */
  lemma JunctionSolvable(kj: real, kk: real, kl: real, lj: real, lk: real, ll: real)
    requires Den(kk, kl, lk, ll) != 0.0
    ensures var bk, bl := WaveK(kj, kk, kl, lj, lk, ll), WaveL(kj, kk, kl, lj, lk, ll);
      bk == kj + kk * bl + kl * bk && bl == lj + lk * bl + ll * bk
  {
    var d := Den(kk, kl, lk, ll);
    var bk, bl := WaveK(kj, kk, kl, lj, lk, ll), WaveL(kj, kk, kl, lj, lk, ll);
    assert d * bk == (1.0 - lk) * kj + kk * lj;
    assert d * bl == (1.0 - kl) * lj + ll * kj;
    var ek := kj + kk * bl + kl * bk;
    var el := lj + lk * bl + ll * bk;
    calc {
      d * ek;
      d * kj + kk * (d * bl) + kl * (d * bk);
      d * kj + kk * ((1.0 - kl) * lj + ll * kj) + kl * ((1.0 - lk) * kj + kk * lj);
      (1.0 - lk) * kj + kk * lj;
      d * bk;
    }
    calc {
      d * el;
      d * lj + lk * (d * bl) + ll * (d * bk);
      d * lj + lk * ((1.0 - kl) * lj + ll * kj) + ll * ((1.0 - lk) * kj + kk * lj);
      (1.0 - kl) * lj + ll * kj;
      d * bl;
    }
    CancelFactor(d, ek, bk);
    CancelFactor(d, el, bl);
  }

  lemma CancelFactor(d: real, x: real, y: real)
    requires d != 0.0 && d * x == d * y
    ensures x == y
  {
    assert x == (d * x) / d;
  }

  /** When port i couples to neither k nor l, joining k and l leaves the (i, j) response as it was. */
  lemma ModelIjklUncoupledRow(ij: real, kj: real, kk: real, kl: real, lj: real, lk: real, ll: real)
    requires Den(kk, kl, lk, ll) != 0.0
    ensures ModelIjkl(ij, 0.0, 0.0, kj, kk, kl, lj, lk, ll) == Val(ij)
  {
  }

  /** When neither k nor l couples to port j, joining k and l leaves the (i, j) response as it was. */
  lemma ModelIjklUncoupledColumn(ij: real, ik: real, il: real, kk: real, kl: real, lk: real, ll: real)
    requires Den(kk, kl, lk, ll) != 0.0
    ensures ModelIjkl(ij, ik, il, 0.0, kk, kl, 0.0, lk, ll) == Val(ij)
  {
  }
}
