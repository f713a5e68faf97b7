/**
 * The stack program: an acyclic graph stored as rows (operator, param1, param2).
 * A non-terminal row may only refer to earlier rows, so a single forward pass
 * can evaluate it and a single backward pass can find what the last row needs.
 */
module Stack {
  import opened Operators

  datatype Command = Command(op: int, p1: int, p2: int)

  type Program = seq<Command>

  /** Row i is a known operator whose operands, if any, are earlier rows. */
  predicate WellFormedAt(p: Program, i: int)
    requires 0 <= i < |p|
  {
    var c := p[i];
    IsOperator(c.op)
    && (c.op == Variable ==> c.p1 >= 0)
    && (c.op == Constant ==> c.p1 >= -1)
    && (!IsTerminal(c.op) ==> 0 <= c.p1 < i && 0 <= c.p2 < i)
  }

  predicate WellFormed(p: Program) {
    forall i :: 0 <= i < |p| ==> WellFormedAt(p, i)
  }

  /** The number of true entries of a bitmap (std::count_if over it). */
  function CountTrue(b: seq<bool>): (n: nat)
    ensures n <= |b|
  {
    if |b| == 0 then 0 else CountTrue(b[..|b| - 1]) + (if b[|b| - 1] then 1 else 0)
  }
}
