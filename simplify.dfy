/**
 * simplifyStack: the stack cut down to the rows the last row uses, kept in
 * their relative order, with operand indices renumbered to the new positions.
 */
module Simplify {
  import opened Operators
  import opened Stack
  import opened Liveness

  /** The position a kept row i takes in the compacted stack: the kept rows before it. */
  function NewIndex(b: seq<bool>, i: nat): (k: nat)
    requires i <= |b|
    ensures k <= i
  {
    CountTrue(b[..i])
  }

  /** A kept row with its operands renumbered; a unary row reads its operand twice. */
  function Remap(c: Command, b: seq<bool>): Command
    requires IsOperator(c.op)
    requires !IsTerminal(c.op) ==> 0 <= c.p1 < |b| && 0 <= c.p2 < |b|
  {
    if IsTerminal(c.op) then c
    else
      var q1 := NewIndex(b, c.p1);
      Command(c.op, q1, if IsArity2(c.op) then NewIndex(b, c.p2) else q1)
  }

  lemma NewIndexStep(b: seq<bool>, i: nat)
    requires i < |b|
    ensures NewIndex(b, i + 1) == NewIndex(b, i) + (if b[i] then 1 else 0)
  {
    assert b[..i + 1][..i] == b[..i];
  }

  /** The kept rows of p[..n], renumbered, in order. */
  function Compact(p: Program, b: seq<bool>, n: nat): (q: Program)
    requires WellFormed(p) && |b| == |p| && n <= |p|
    ensures |q| == NewIndex(b, n)
  {
    if n == 0 then []
    else
      assert WellFormedAt(p, n - 1);
      NewIndexStep(b, n - 1);
      Compact(p, b, n - 1) + (if b[n - 1] then [Remap(p[n - 1], b)] else [])
  }

  /** The stack simplifyStack returns. */
  function Simplified(p: Program): (q: Program)
    requires WellFormed(p)
  {
    Compact(p, Utilized(p), |p|)
  }

  /** Kept rows get strictly increasing positions: relative order is preserved. */
  lemma {:induction false} NewIndexIncreasing(b: seq<bool>, i: nat, j: nat)
    requires i < j <= |b| && b[i]
    ensures NewIndex(b, i) < NewIndex(b, j)
    decreases j
  {
    NewIndexStep(b, j - 1);
    if i < j - 1 {
      NewIndexIncreasing(b, i, j - 1);
    }
  }

  lemma {:induction false} CompactAt(p: Program, b: seq<bool>, n: nat, i: nat)
    requires WellFormed(p) && |b| == |p| && i < n <= |p| && b[i]
    ensures WellFormedAt(p, i) && NewIndex(b, i) < |Compact(p, b, n)|
    ensures Compact(p, b, n)[NewIndex(b, i)] == Remap(p[i], b)
    decreases n
  {
    assert WellFormedAt(p, i);
    if i < n - 1 {
      CompactAt(p, b, n - 1, i);
      NewIndexIncreasing(b, i, n - 1);
    }
  }

  /** Every row of the compacted stack comes from some kept row. */
  lemma {:induction false} CompactOrigin(p: Program, b: seq<bool>, n: nat, k: nat) returns (i: nat)
    requires WellFormed(p) && |b| == |p| && n <= |p| && k < |Compact(p, b, n)|
    ensures i < n && b[i] && NewIndex(b, i) == k
    decreases n
  {
    if k < |Compact(p, b, n - 1)| {
      i := CompactOrigin(p, b, n - 1, k);
    } else {
      i := n - 1;
    }
  }

  /** Every kept row's operands are kept. */
  predicate KeepsOperands(p: Program, b: seq<bool>)
    requires WellFormed(p) && |b| == |p|
  {
    forall i :: 0 <= i < |p| && b[i] ==> OperandsMarked(p, b, i)
  }

  lemma {:induction false} CompactWellFormed(p: Program, b: seq<bool>, n: nat)
    requires WellFormed(p) && |b| == |p| && n <= |p| && KeepsOperands(p, b)
    ensures WellFormed(Compact(p, b, n))
    decreases n
  {
    if n > 0 {
      CompactWellFormed(p, b, n - 1);
      var q := Compact(p, b, n - 1);
      if b[n - 1] {
        var c := p[n - 1];
        assert WellFormedAt(p, n - 1);
        assert OperandsMarked(p, b, n - 1);
        if !IsTerminal(c.op) {
          NewIndexIncreasing(b, c.p1, n - 1);
          if IsArity2(c.op) {
            NewIndexIncreasing(b, c.p2, n - 1);
          }
        }
        var q' := q + [Remap(c, b)];
        forall j | 0 <= j < |q'|
          ensures WellFormedAt(q', j)
        {
          if j < |q| {
            assert WellFormedAt(q, j);
            assert q'[j] == q[j];
          } else {
            assert q'[j] == Remap(c, b) && |q| == NewIndex(b, n - 1);
          }
        }
        assert Compact(p, b, n) == q';
      } else {
        assert Compact(p, b, n) == q;
      }
    }
  }

  /**
   * simplifyStack keeps exactly the utilized rows: one row per utilized row,
   * in the same order, with the same operator, terminals unchanged, and
   * operands renumbered to the positions of the rows they read; the last row
   * stays last and the result is again a well-formed stack.
   */
  lemma SimplifiedShape(p: Program)
    requires WellFormed(p)
    ensures var q, b := Simplified(p), Utilized(p);
      WellFormed(q) && |q| == CountTrue(b)
      && (forall i :: 0 <= i < |p| && b[i] ==>
            WellFormedAt(p, i) && NewIndex(b, i) < |q|
            && q[NewIndex(b, i)] == Remap(p[i], b) && q[NewIndex(b, i)].op == p[i].op)
      && (forall i, j :: 0 <= i < j < |p| && b[i] && b[j] ==> NewIndex(b, i) < NewIndex(b, j))
      && (|p| > 0 ==> |q| > 0 && NewIndex(b, |p| - 1) == |q| - 1)
  {
    var q, b := Simplified(p), Utilized(p);
    assert b[..|p|] == b;
    UtilizedClosed(p);
    CompactWellFormed(p, b, |p|);
    forall i | 0 <= i < |p| && b[i]
      ensures WellFormedAt(p, i) && NewIndex(b, i) < |q| && q[NewIndex(b, i)] == Remap(p[i], b)
    {
      CompactAt(p, b, |p|, i);
    }
    forall i, j | 0 <= i < j < |p| && b[i] && b[j]
      ensures NewIndex(b, i) < NewIndex(b, j)
    {
      NewIndexIncreasing(b, i, j);
    }
    if |p| > 0 {
      UtilizedLast(p);
      NewIndexStep(b, |p| - 1);
    }
  }

  /** On an all-true bitmap a row keeps its own index. */
  lemma {:induction false} NewIndexAllKept(b: seq<bool>, i: nat)
    requires i <= |b| && forall k :: 0 <= k < |b| ==> b[k]
    ensures NewIndex(b, i) == i
  {
    if i > 0 {
      NewIndexAllKept(b, i - 1);
      NewIndexStep(b, i - 1);
    }
  }

  /** Every row of a simplified stack is utilized: nothing is left to remove. */
  lemma SimplifiedAllUtilized(p: Program)
    requires WellFormed(p)
    ensures WellFormed(Simplified(p))
    ensures forall k :: 0 <= k < |Simplified(p)| ==> Utilized(Simplified(p))[k]
  {
    var q, b := Simplified(p), Utilized(p);
    SimplifiedShape(p);
    var uq := Utilized(q);
    UtilizedClosed(p);
    UtilizedClosed(q);
    // Pull q's bitmap back along the renumbering and show it is closed in p.
    var t := seq(|p|, i requires 0 <= i < |p| => b[i] && NewIndex(b, i) < |q| && uq[NewIndex(b, i)]);
    if |p| > 0 {
      UtilizedLast(p);
      UtilizedLast(q);
    }
    forall i | 0 <= i < |p| && t[i]
      ensures OperandsMarked(p, t, i)
    {
      assert WellFormedAt(p, i);
      assert OperandsMarked(p, b, i);
      assert OperandsMarked(q, uq, NewIndex(b, i));
    }
    assert Closed(p, t);
    UtilizedLeast(p, t);
    forall k | 0 <= k < |q|
      ensures uq[k]
    {
      assert b[..|p|] == b;
      var i := CompactOrigin(p, b, |p|, k);
    }
  }

  /** Unary rows of a simplified stack read the same row twice. */
  predicate UnaryReadsTwice(q: Program)
    requires WellFormed(q)
  {
    forall k :: 0 <= k < |q| ==>
      (assert WellFormedAt(q, k);
       !IsTerminal(q[k].op) && !IsArity2(q[k].op) ==> q[k].p2 == q[k].p1)
  }

  lemma {:induction false} CompactAllKept(q: Program, u: seq<bool>, n: nat)
    requires WellFormed(q) && |u| == |q| && n <= |q| && UnaryReadsTwice(q)
    requires forall k :: 0 <= k < |u| ==> u[k]
    ensures Compact(q, u, n) == q[..n]
    decreases n
  {
    if n > 0 {
      CompactAllKept(q, u, n - 1);
      var c := q[n - 1];
      assert WellFormedAt(q, n - 1);
      if !IsTerminal(c.op) {
        NewIndexAllKept(u, c.p1);
        NewIndexAllKept(u, c.p2);
      }
      assert Remap(c, u) == c;
      assert q[..n] == q[..n - 1] + [c];
    }
  }

  /** simplifyStack is idempotent: simplifying a simplified stack changes nothing. */
  lemma SimplifyIdempotent(p: Program)
    requires WellFormed(p)
    ensures WellFormed(Simplified(p)) && Simplified(Simplified(p)) == Simplified(p)
  {
    var q, b := Simplified(p), Utilized(p);
    SimplifiedShape(p);
    SimplifiedAllUtilized(p);
    forall k | 0 <= k < |q|
      ensures WellFormedAt(q, k) && (!IsTerminal(q[k].op) && !IsArity2(q[k].op) ==> q[k].p2 == q[k].p1)
    {
      assert WellFormedAt(q, k);
      assert b[..|p|] == b;
      var i := CompactOrigin(p, b, |p|, k);
      assert WellFormedAt(p, i);
    }
    assert UnaryReadsTwice(q);
    CompactAllKept(q, Utilized(q), |q|);
    assert q[..|q|] == q;
  }

  /**
   * simplifyStack: mark the utilized rows, then copy them over in order,
   * looking up each operand's new position in a map from old row to new row.
   */
  method SimplifyStack(p: Program) returns (q: Program)
    requires WellFormed(p)
    ensures q == Simplified(p)
  {
    var used := GetUtilizedCommands(p);
    UtilizedClosed(p);
    var reducedParamMap: map<int, int> := map[];
    q := [];
    var i := 0;
    while i < |p|
      invariant 0 <= i <= |p|
      invariant q == Compact(p, used, i)
      invariant forall j :: 0 <= j < i && used[j] ==> j in reducedParamMap && reducedParamMap[j] == NewIndex(used, j)
    {
      if used[i] {
        var c := p[i];
        assert WellFormedAt(p, i);
        assert OperandsMarked(p, used, i);
        var row := c;
        if !IsTerminal(c.op) {
          var q1 := reducedParamMap[c.p1];
          var q2 := if IsArity2(c.op) then reducedParamMap[c.p2] else q1;
          row := Command(c.op, q1, q2);
        }
        reducedParamMap := reducedParamMap[i := |q|];
        q := q + [row];
      }
      i := i + 1;
    }
  }
}
