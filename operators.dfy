/**
 * Operator codes of a stack command and the two static tables
 * AGraph::kIsArity2Map and AGraph::kIsTerminalMap.
 */
module Operators {

  const Variable := 0
  const Constant := 1
  const Add := 2
  const Subtract := 3
  const Multiply := 4
  const Divide := 5
  const Sin := 6
  const Cos := 7
  const Exp := 8
  const Log := 9
  const Power := 10
  const Abs := 11
  const Sqrt := 12

  /** Both tables have 13 entries; any other code indexes past their end. */
  predicate IsOperator(op: int) {
    0 <= op < 13
  }

  const IsArity2Map: seq<bool> :=
    [false, false, true, true, true, true, false, false, false, false, true, false, false]

  const IsTerminalMap: seq<bool> :=
    [true, true, false, false, false, false, false, false, false, false, false, false, false]

  /** kIsArity2Map[op]: the binary operators. */
  function IsArity2(op: int): (b: bool)
    requires IsOperator(op)
    ensures b <==> op == Add || op == Subtract || op == Multiply || op == Divide || op == Power
  {
    IsArity2Map[op]
  }

  /** kIsTerminalMap[op]: the leaves, a variable column or a constant. */
  function IsTerminal(op: int): (b: bool)
    requires IsOperator(op)
    ensures b <==> op == Variable || op == Constant
  {
    IsTerminalMap[op]
  }

  /** get_arity: the number of operands a command with this code reads. */
  function Arity(op: int): (n: nat)
    requires IsOperator(op)
    ensures n <= 2
    ensures n == 0 <==> IsTerminal(op)
    ensures n == 2 <==> IsArity2(op)
    ensures n == 1 <==> Sin <= op <= Sqrt && op != Power
  {
    if IsTerminalMap[op] then 0 else if IsArity2Map[op] then 2 else 1
  }
}
