/**
 * evaluate / simplifyAndEvaluate: forward evaluation of a stack into one
 * buffer slot per row. Values are abstract: V stands for one column of
 * results over all input rows, and the operators are given as functions, so
 * no floating-point behaviour is assumed.
 */
module Evaluation {
  import opened Operators
  import opened Stack
  import opened Liveness
  import opened Simplify

  /**
   * What a stack is evaluated against: the input columns, the constants
   * vector, the value an unset constant takes (a NaN column) and the meaning
   * of the unary and binary operator codes.
   */
  datatype Env<!V> = Env(
    column: int -> V,
    constants: seq<V>,
    unset: V,
    unary: (int, V) -> V,
    binary: (int, V, V) -> V)

  /** The value of a constant row with index k: unset when k is -1 or past the end. */
  function ConstantValue<V>(e: Env<V>, k: int): V {
    if 0 <= k < |e.constants| then e.constants[k] else e.unset
  }

  /**
   * The value of row i as an expression tree: the reference meaning of a
   * stack, defined by recursion on operands rather than by a buffer.
   */
  function Value<V>(p: Program, e: Env<V>, i: nat): V
    requires WellFormed(p) && i < |p|
    decreases i
  {
    var c := p[i];
    assert WellFormedAt(p, i);
    if c.op == Variable then e.column(c.p1)
    else if c.op == Constant then ConstantValue(e, c.p1)
    else if IsArity2(c.op) then e.binary(c.op, Value(p, e, c.p1), Value(p, e, c.p2))
    else e.unary(c.op, Value(p, e, c.p1))
  }

  /** The value a stack computes: that of its last row. */
  function Eval<V>(p: Program, e: Env<V>): V
    requires WellFormed(p) && |p| > 0
  {
    Value(p, e, |p| - 1)
  }

  /**
   * evaluate: fill the buffer row by row; each non-terminal row reads the
   * already computed slots of its operands. The result is the last slot.
   */
  method Evaluate<V>(p: Program, e: Env<V>) returns (r: V)
    requires WellFormed(p) && |p| > 0
    ensures r == Eval(p, e)
  {
    var buffer := new V[|p|](_ => e.unset);
    var i := 0;
    while i < |p|
      invariant 0 <= i <= |p|
      invariant forall j :: 0 <= j < i ==> buffer[j] == Value(p, e, j)
    {
      var c := p[i];
      assert WellFormedAt(p, i);
      if c.op == Variable {
        buffer[i] := e.column(c.p1);
      } else if c.op == Constant {
        buffer[i] := ConstantValue(e, c.p1);
      } else if IsArity2(c.op) {
        buffer[i] := e.binary(c.op, buffer[c.p1], buffer[c.p2]);
      } else {
        buffer[i] := e.unary(c.op, buffer[c.p1]);
      }
      i := i + 1;
    }
    r := buffer[|p| - 1];
  }

  /**
   * simplifyAndEvaluate: the same pass, but a slot is computed only for a
   * utilized row; the slots of unused rows are never read.
   */
  method SimplifyAndEvaluate<V>(p: Program, e: Env<V>) returns (r: V)
    requires WellFormed(p) && |p| > 0
    ensures r == Eval(p, e)
  {
    var used := GetUtilizedCommands(p);
    UtilizedClosed(p);
    UtilizedLast(p);
    var buffer := new V[|p|](_ => e.unset);
    var i := 0;
    while i < |p|
      invariant 0 <= i <= |p|
      invariant forall j :: 0 <= j < i && used[j] ==> buffer[j] == Value(p, e, j)
    {
      if used[i] {
        var c := p[i];
        assert WellFormedAt(p, i);
        assert OperandsMarked(p, used, i);
        if c.op == Variable {
          buffer[i] := e.column(c.p1);
        } else if c.op == Constant {
          buffer[i] := ConstantValue(e, c.p1);
        } else if IsArity2(c.op) {
          buffer[i] := e.binary(c.op, buffer[c.p1], buffer[c.p2]);
        } else {
          buffer[i] := e.unary(c.op, buffer[c.p1]);
        }
      }
      i := i + 1;
    }
    r := buffer[|p| - 1];
  }

  /** A utilized row of p and its renumbered copy in the simplified stack have the same value. */
  lemma {:induction false} SimplifiedValue<V>(p: Program, e: Env<V>, i: nat)
    requires WellFormed(p) && i < |p| && Utilized(p)[i]
    ensures WellFormed(Simplified(p)) && NewIndex(Utilized(p), i) < |Simplified(p)|
    ensures Value(Simplified(p), e, NewIndex(Utilized(p), i)) == Value(p, e, i)
    decreases i
  {
    var q, b := Simplified(p), Utilized(p);
    SimplifiedShape(p);
    UtilizedClosed(p);
    var c := p[i];
    var k := NewIndex(b, i);
    assert WellFormedAt(p, i);
    assert OperandsMarked(p, b, i);
    assert q[k] == Remap(c, b);
    if !IsTerminal(c.op) {
      SimplifiedValue(p, e, c.p1);
      if IsArity2(c.op) {
        SimplifiedValue(p, e, c.p2);
      }
    }
  }

  /**
   * Simplification preserves meaning: for every input and constants vector,
   * the simplified stack evaluates to what the original stack evaluates to.
   */
  lemma SimplifyPreservesValue<V>(p: Program, e: Env<V>)
    requires WellFormed(p) && |p| > 0
    ensures WellFormed(Simplified(p)) && |Simplified(p)| > 0
    ensures Eval(Simplified(p), e) == Eval(p, e)
  {
    SimplifiedShape(p);
    UtilizedLast(p);
    SimplifiedValue(p, e, |p| - 1);
  }

  /** Which block of parameters evaluateWithDerivative differentiates against. */
  datatype DerivativeTarget = WrtInputs | WrtConstants

  /**
   * The param_x_or_c flag of evaluateWithDerivative and
   * simplifyAndEvaluateWithDerivative: true (the default) asks for the
   * derivative with respect to the input columns, false for the one with
   * respect to the constants.
   */
  function SelectDerivative(paramXOrC: bool := true): (t: DerivativeTarget)
    ensures t == WrtInputs <==> paramXOrC
    ensures t == WrtConstants <==> !paramXOrC
  {
    if paramXOrC then WrtInputs else WrtConstants
  }
}
