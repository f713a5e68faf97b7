/**
 * getUtilizedCommands: which rows the last row of a stack depends on,
 * found by one pass over the rows in reverse order.
 */
module Liveness {
  import opened Operators
  import opened Stack

  /** Before the pass only the last row is marked. */
  function Initial(n: nat): (b: seq<bool>)
    ensures |b| == n
  {
    seq(n, i => i == n - 1)
  }

  /** Processing row r: a marked non-terminal row marks its operand row(s). */
  function Mark(p: Program, b: seq<bool>, r: nat): (b': seq<bool>)
    requires WellFormed(p) && |b| == |p| && r < |p|
    ensures |b'| == |p|
  {
    var c := p[r];
    assert WellFormedAt(p, r);
    if b[r] && !IsTerminal(c.op) then
      var b1 := b[c.p1 := true];
      if IsArity2(c.op) then b1[c.p2 := true] else b1
    else b
  }

  /** The bitmap once rows |p|-1 down to k have been processed. */
  function UtilizedFrom(p: Program, k: nat): (b: seq<bool>)
    requires WellFormed(p) && k <= |p|
    ensures |b| == |p|
    decreases |p| - k
  {
    if k == |p| then Initial(|p|) else Mark(p, UtilizedFrom(p, k + 1), k)
  }

  /** The result of getUtilizedCommands: one flag per row. */
  function Utilized(p: Program): (b: seq<bool>)
    requires WellFormed(p)
    ensures |b| == |p|
  {
    UtilizedFrom(p, 0)
  }

  /** If row i is a non-terminal, the rows it reads are marked in s. */
  predicate OperandsMarked(p: Program, s: seq<bool>, i: int)
    requires WellFormed(p) && |s| == |p| && 0 <= i < |p|
  {
    assert WellFormedAt(p, i);
    !IsTerminal(p[i].op) ==> s[p[i].p1] && (IsArity2(p[i].op) ==> s[p[i].p2])
  }

  /**
   * A bitmap that holds the last row and, with every marked row, the rows
   * that row reads.
   */
  predicate Closed(p: Program, s: seq<bool>)
    requires WellFormed(p) && |s| == |p|
  {
    (|p| > 0 ==> s[|p| - 1])
    && forall i :: 0 <= i < |p| && s[i] ==> OperandsMarked(p, s, i)
  }

  /** Marks only accumulate: a row marked after k+1 stays marked after k. */
  lemma MarkKeeps(p: Program, k: nat, j: nat)
    requires WellFormed(p) && k < |p| && j < |p|
    ensures UtilizedFrom(p, k + 1)[j] ==> UtilizedFrom(p, k)[j]
  {
    assert WellFormedAt(p, k);
  }

  lemma {:induction false} Monotone(p: Program, k: nat, k': nat, j: nat)
    requires WellFormed(p) && k' <= k <= |p| && j < |p|
    ensures UtilizedFrom(p, k)[j] ==> UtilizedFrom(p, k')[j]
    decreases k - k'
  {
    if k' < k {
      Monotone(p, k, k' + 1, j);
      MarkKeeps(p, k', j);
    }
  }

  /** Processing row k only touches rows below k, so row j >= k is settled. */
  lemma {:induction false} Settled(p: Program, k: nat, j: nat)
    requires WellFormed(p) && k <= j + 1 && j < |p|
    ensures UtilizedFrom(p, k)[j] == UtilizedFrom(p, j + 1)[j]
    decreases j + 1 - k
  {
    if k < j + 1 {
      Settled(p, k + 1, j);
      assert WellFormedAt(p, k);
    }
  }

  /** The last row of a non-empty stack is always utilized. */
  lemma UtilizedLast(p: Program)
    requires WellFormed(p) && |p| > 0
    ensures Utilized(p)[|p| - 1]
  {
    Monotone(p, |p|, 0, |p| - 1);
  }

  /** A utilized non-terminal row's operands are utilized. */
  lemma UtilizedOperands(p: Program, i: nat)
    requires WellFormed(p) && i < |p| && Utilized(p)[i] && IsOperator(p[i].op) && !IsTerminal(p[i].op)
    ensures WellFormedAt(p, i) && Utilized(p)[p[i].p1]
    ensures IsArity2(p[i].op) ==> Utilized(p)[p[i].p2]
  {
    assert WellFormedAt(p, i);
    Settled(p, 0, i);
    Settled(p, i, i);
    Monotone(p, i, 0, p[i].p1);
    Monotone(p, i, 0, p[i].p2);
  }

  /** The utilized bitmap is closed. */
  lemma UtilizedClosed(p: Program)
    requires WellFormed(p)
    ensures Closed(p, Utilized(p))
  {
    if |p| > 0 {
      UtilizedLast(p);
    }
    forall i | 0 <= i < |p| && Utilized(p)[i]
      ensures OperandsMarked(p, Utilized(p), i)
    {
      assert WellFormedAt(p, i);
      if !IsTerminal(p[i].op) {
        UtilizedOperands(p, i);
      }
    }
  }

  lemma {:induction false} LeastFrom(p: Program, s: seq<bool>, k: nat)
    requires WellFormed(p) && |s| == |p| && Closed(p, s) && k <= |p|
    ensures forall j :: 0 <= j < |p| && UtilizedFrom(p, k)[j] ==> s[j]
    decreases |p| - k
  {
    if k < |p| {
      LeastFrom(p, s, k + 1);
      assert WellFormedAt(p, k);
      if UtilizedFrom(p, k + 1)[k] {
        assert OperandsMarked(p, s, k);
      }
    }
  }

  /**
   * Every closed bitmap contains the utilized one: together with
   * UtilizedClosed, Utilized(p) is the least set of rows that holds the last
   * row and is closed under operands, i.e. the transitive operand closure.
   */
  lemma UtilizedLeast(p: Program, s: seq<bool>)
    requires WellFormed(p) && |s| == |p| && Closed(p, s)
    ensures forall j :: 0 <= j < |p| && Utilized(p)[j] ==> s[j]
  {
    LeastFrom(p, s, 0);
  }

  /** getUtilizedCommands: a bool buffer marked by a reverse pass over the rows. */
  method GetUtilizedCommands(p: Program) returns (used: seq<bool>)
    requires WellFormed(p)
    ensures used == Utilized(p)
  {
    var n := |p|;
    if n == 0 {
      return [];
    }
    var marks := new bool[n];
    forall i | 0 <= i < n {
      marks[i] := i == n - 1;
    }
    assert marks[..] == Initial(n);
    var row := n;
    while row > 0
      invariant 0 <= row <= n
      invariant marks[..] == UtilizedFrom(p, row)
    {
      row := row - 1;
      var c := p[row];
      assert WellFormedAt(p, row);
      if marks[row] && !IsTerminal(c.op) {
        marks[c.p1] := true;
        if IsArity2(c.op) {
          marks[c.p2] := true;
        }
      }
    }
    used := marks[..];
  }

  /**
   * A five-row stack whose last row reads rows 2 and 0 only: row 3 is present
   * but unused, and so is row 1, which only row 2's unused neighbour needs.
   */
  lemma UnreferencedRowIsUnused()
    ensures var p := [Command(Variable, 0, 0), Command(Variable, 1, 0), Command(Add, 0, 0),
                      Command(Sin, 1, 1), Command(Multiply, 2, 0)];
            WellFormed(p) && Utilized(p) == [true, false, true, false, true]
  {
    var p := [Command(Variable, 0, 0), Command(Variable, 1, 0), Command(Add, 0, 0),
              Command(Sin, 1, 1), Command(Multiply, 2, 0)];
    assert WellFormedAt(p, 0) && WellFormedAt(p, 1) && WellFormedAt(p, 2) && WellFormedAt(p, 3) && WellFormedAt(p, 4);
    var s := [true, false, true, false, true];
    assert Closed(p, s);
    UtilizedLeast(p, s);
    UtilizedClosed(p);
    UtilizedLast(p);
    assert Utilized(p)[2] && Utilized(p)[0];
  }
}
