/**
 * AGraph: an equation held as a stack program with its constants, a cached
 * fitness, a fit flag and a genetic age; and the text renderings built on
 * the utilized-rows bitmap.
 */
module AGraphs {
  import opened Wrappers
  import opened Operators
  import opened Stack
  import opened Liveness
  import opened Simplify
  import opened Format

  /** The fitness an AGraph holds before any is set, and after an invalidation. */
  const DefaultFitness: real := 1000000000.0

  /** Row i is a constant whose index is -1 or past the end of constants: still to be fitted. */
  predicate UnsetConstant(p: Program, constants: seq<real>, i: int)
    requires 0 <= i < |p|
  {
    p[i].op == Constant && (p[i].p1 == -1 || p[i].p1 >= |constants|)
  }

  // ---- the per-row stack listing (get_stack_element_string, get_stack_string)

  /** What follows "(i) <= " in the listing of row i. */
  function StackElementBody(p: Program, constants: seq<real>, i: nat, toStr: real -> string): string
    requires WellFormed(p) && i < |p|
  {
    var c := p[i];
    assert WellFormedAt(p, i);
    if c.op == Variable then "X_" + IntToString(c.p1)
    else if c.op == Constant then
      if UnsetConstant(p, constants, i) then "C"
      else "C_" + IntToString(c.p1) + " = " + toStr(constants[c.p1])
    else Substitute(Template(StackPrintMap, c.op), false, IntToString(c.p1), IntToString(c.p2))
  }

  /** get_stack_element_string: one line "(i) <= ..." per row. */
  function StackElementString(p: Program, constants: seq<real>, i: nat, toStr: real -> string): string
    requires WellFormed(p) && i < |p|
  {
    "(" + IntToString(i) + ") <= " + StackElementBody(p, constants, i, toStr) + "\n"
  }

  /** The listing of the selected rows among the first n. */
  function StackLines(p: Program, constants: seq<real>, rows: seq<bool>, n: nat, toStr: real -> string): string
    requires WellFormed(p) && |rows| == |p| && n <= |p|
  {
    if n == 0 then ""
    else StackLines(p, constants, rows, n - 1, toStr)
         + (if rows[n - 1] then StackElementString(p, constants, n - 1, toStr) else "")
  }

  /** Every row selected: the full listing. */
  function AllRows(n: nat): (b: seq<bool>)
    ensures |b| == n && forall i :: 0 <= i < n ==> b[i]
  {
    seq(n, _ => true)
  }

  /** get_stack_string: all rows, or only the utilized ones when isShort. */
  method StackString(p: Program, constants: seq<real>, isShort: bool, toStr: real -> string) returns (s: string)
    requires WellFormed(p)
    ensures s == StackLines(p, constants, if isShort then Utilized(p) else AllRows(|p|), |p|, toStr)
  {
    var commands: seq<bool>;
    if isShort {
      commands := GetUtilizedCommands(p);
    } else {
      commands := AllRows(|p|);
    }
    s := "";
    var i := 0;
    while i < |commands|
      invariant 0 <= i <= |commands| == |p|
      invariant s == StackLines(p, constants, commands, i, toStr)
    {
      ghost var next := StackLines(p, constants, commands, i + 1, toStr);
      if commands[i] {
        s := s + StackElementString(p, constants, i, toStr);
      }
      assert s == next;
      i := i + 1;
    }
  }

  /** The number of occurrences of ch in s. */
  function CountChar(s: string, ch: char): nat {
    if |s| == 0 then 0 else CountChar(s[..|s| - 1], ch) + (if s[|s| - 1] == ch then 1 else 0)
  }

  lemma {:induction false} CountCharAppend(a: string, b: string, ch: char)
    ensures CountChar(a + b, ch) == CountChar(a, ch) + CountChar(b, ch)
    decreases |b|
  {
    if |b| == 0 {
      assert a + b == a;
    } else {
      assert (a + b)[..|a + b| - 1] == a + b[..|b| - 1];
      CountCharAppend(a, b[..|b| - 1], ch);
    }
  }

  lemma {:induction false} CountCharSingleLine(s: string)
    requires SingleLine(s)
    ensures CountChar(s, '\n') == 0
    decreases |s|
  {
    if |s| > 0 {
      CountCharSingleLine(s[..|s| - 1]);
    }
  }

  lemma {:induction false} SubstituteSingleLine(s: string, firstFound: bool, arg1: string, arg2: string)
    requires SingleLine(s) && SingleLine(arg1) && SingleLine(arg2)
    ensures SingleLine(Substitute(s, firstFound, arg1, arg2))
    decreases |s|
  {
    if |s| > 0 {
      if PlaceholderAt(s, 0) {
        SubstituteSingleLine(s[2..], true, arg1, arg2);
      } else {
        SubstituteSingleLine(s[1..], firstFound, arg1, arg2);
      }
    }
  }

  lemma StackTemplateSingleLine(op: int)
    requires 2 <= op <= 12
    ensures SingleLine(Template(StackPrintMap, op))
  {
    if !IsArity2(op) {
      var (u, w) := UnaryPartsStack(op);
      assert Template(StackPrintMap, op) == u + "{}" + w;
    } else if op == Add {
      assert SingleLine("({}) + ({})");
    } else if op == Subtract {
      assert SingleLine("({}) - ({})");
    } else if op == Multiply {
      assert SingleLine("({}) * ({})");
    } else if op == Divide {
      assert SingleLine("({}) / ({}) ");
    } else {
      assert SingleLine("({}) ^ ({})");
    }
  }

  /** A row's listing is one line, when constant values render without a newline. */
  lemma StackElementBodySingleLine(p: Program, constants: seq<real>, i: nat, toStr: real -> string)
    requires WellFormed(p) && i < |p|
    requires forall x :: SingleLine(toStr(x))
    ensures SingleLine(StackElementBody(p, constants, i, toStr))
  {
    assert WellFormedAt(p, i);
    var c := p[i];
    if !IsTerminal(c.op) {
      StackTemplateSingleLine(c.op);
      SubstituteSingleLine(Template(StackPrintMap, c.op), false, IntToString(c.p1), IntToString(c.p2));
    } else if c.op == Constant && !UnsetConstant(p, constants, i) {
      var v := constants[c.p1];
      assert SingleLine(toStr(v));
      assert SingleLine("C_" + IntToString(c.p1) + " = " + toStr(v));
    }
  }

  lemma StackElementOneNewline(p: Program, constants: seq<real>, i: nat, toStr: real -> string)
    requires WellFormed(p) && i < |p|
    requires forall x :: SingleLine(toStr(x))
    ensures CountChar(StackElementString(p, constants, i, toStr), '\n') == 1
  {
    var body := StackElementBody(p, constants, i, toStr);
    StackElementBodySingleLine(p, constants, i, toStr);
    var head := "(" + IntToString(i) + ") <= " + body;
    assert SingleLine(head);
    CountCharSingleLine(head);
    CountCharAppend(head, "\n", '\n');
  }

  /**
   * The listing has exactly one line per selected row, provided the
   * rendering of constant values never contains a newline.
   */
  lemma {:induction false} StackLinesOnePerRow(p: Program, constants: seq<real>, rows: seq<bool>, n: nat, toStr: real -> string)
    requires WellFormed(p) && |rows| == |p| && n <= |p|
    requires forall x :: SingleLine(toStr(x))
    ensures CountChar(StackLines(p, constants, rows, n, toStr), '\n') == CountTrue(rows[..n])
    decreases n
  {
    if n > 0 {
      StackLinesOnePerRow(p, constants, rows, n - 1, toStr);
      assert rows[..n][..n - 1] == rows[..n - 1];
      var prev := StackLines(p, constants, rows, n - 1, toStr);
      if rows[n - 1] {
        StackElementOneNewline(p, constants, n - 1, toStr);
        CountCharAppend(prev, StackElementString(p, constants, n - 1, toStr), '\n');
      } else {
        assert prev + "" == prev;
      }
    }
  }

  // ---- the formatted renderings (get_formatted_element_string, get_formatted_string_using)

  /**
   * get_formatted_element_string given a list of operand texts: a variable
   * is X_k, a constant its value (or "?" when unset), and an operator its
   * template filled with list[param1] and list[param2]. None when one of
   * those reads is past the end of the list.
   */
  function FormattedElement(p: Program, constants: seq<real>, i: nat, list: seq<string>,
                            m: PrintMap, toStr: real -> string): (r: Option<string>)
    requires WellFormed(p) && i < |p|
    ensures r.None? <==> !IsTerminal(p[i].op) && (p[i].p1 >= |list| || p[i].p2 >= |list|)
  {
    var c := p[i];
    assert WellFormedAt(p, i);
    if c.op == Variable then Some("X_" + IntToString(c.p1))
    else if c.op == Constant then
      if UnsetConstant(p, constants, i) then Some("?") else Some(toStr(constants[c.p1]))
    else if c.p1 < |list| && c.p2 < |list| then
      Some(Substitute(Template(m, c.op), false, list[c.p1], list[c.p2]))
    else None
  }

  /**
   * The string_list of get_formatted_string_using as the code is written:
   * only utilized rows push a text, yet operands are looked up by their
   * row index in the stack.
   */
  function AsWrittenList(p: Program, constants: seq<real>, used: seq<bool>, n: nat,
                         m: PrintMap, toStr: real -> string): Option<seq<string>>
    requires WellFormed(p) && |used| == |p| && n <= |p|
  {
    if n == 0 then Some([])
    else
      match AsWrittenList(p, constants, used, n - 1, m, toStr)
      case None => None
      case Some(list) =>
        if !used[n - 1] then Some(list)
        else
          match FormattedElement(p, constants, n - 1, list, m, toStr)
          case None => None
          case Some(t) => Some(list + [t])
  }

  /** get_formatted_string_using as written: string_list.back(), None on an out-of-range read. */
  function AsWrittenFormattedString(p: Program, constants: seq<real>, m: PrintMap, toStr: real -> string): Option<string>
    requires WellFormed(p)
  {
    match AsWrittenList(p, constants, Utilized(p), |p|, m, toStr)
    case None => None
    case Some(list) => if |list| == 0 then None else Some(list[|list| - 1])
  }

  /** get_formatted_string_using exactly as written, with its loop and string_list. */
  method FormattedStringUsingAsWritten(p: Program, constants: seq<real>, m: PrintMap, toStr: real -> string)
    returns (r: Option<string>)
    requires WellFormed(p)
    ensures r == AsWrittenFormattedString(p, constants, m, toStr)
  {
    var utilizedRows := GetUtilizedCommands(p);
    var stringList: seq<string> := [];
    var i := 0;
    while i < |utilizedRows|
      invariant 0 <= i <= |utilizedRows| == |p|
      invariant AsWrittenList(p, constants, utilizedRows, i, m, toStr) == Some(stringList)
    {
      if utilizedRows[i] {
        var t := FormattedElement(p, constants, i, stringList, m, toStr);
        if t.None? {
          // string_list[param] past the end: undefined behaviour in the C++ code.
          assert AsWrittenList(p, constants, utilizedRows, i + 1, m, toStr) == None;
          AsWrittenStaysNone(p, constants, utilizedRows, i + 1, |p|, m, toStr);
          return None;
        }
        stringList := stringList + [t.value];
      }
      i := i + 1;
    }
    if |stringList| == 0 {
      return None;
    }
    r := Some(stringList[|stringList| - 1]);
  }

  lemma {:induction false} AsWrittenStaysNone(p: Program, constants: seq<real>, used: seq<bool>, k: nat, n: nat,
                                              m: PrintMap, toStr: real -> string)
    requires WellFormed(p) && |used| == |p| && k <= n <= |p|
    requires AsWrittenList(p, constants, used, k, m, toStr) == None
    ensures AsWrittenList(p, constants, used, n, m, toStr) == None
    decreases n - k
  {
    if k < n {
      AsWrittenStaysNone(p, constants, used, k, n - 1, m, toStr);
    }
  }

  /**
   * The reference rendering of row i as an expression tree: each operand's
   * text substituted into the operator's template.
   */
  function ExprText(p: Program, constants: seq<real>, i: nat, m: PrintMap, toStr: real -> string): string
    requires WellFormed(p) && i < |p|
    decreases i
  {
    var c := p[i];
    assert WellFormedAt(p, i);
    if c.op == Variable then "X_" + IntToString(c.p1)
    else if c.op == Constant then
      if UnsetConstant(p, constants, i) then "?" else toStr(constants[c.p1])
    else
      Substitute(Template(m, c.op), false, ExprText(p, constants, c.p1, m, toStr), ExprText(p, constants, c.p2, m, toStr))
  }

  /**
   * get_formatted_string_using as intended: string_list gets one entry per
   * row (an empty one for an unused row), so list[param] is the text of row
   * param; only utilized rows are rendered.
   */
  method FormattedStringUsing(p: Program, constants: seq<real>, m: PrintMap, toStr: real -> string)
    returns (r: string)
    requires WellFormed(p) && |p| > 0
    ensures r == ExprText(p, constants, |p| - 1, m, toStr)
  {
    var utilizedRows := GetUtilizedCommands(p);
    UtilizedClosed(p);
    UtilizedLast(p);
    var stringList: seq<string> := [];
    var i := 0;
    while i < |utilizedRows|
      invariant 0 <= i <= |utilizedRows| == |p|
      invariant |stringList| == i
      invariant forall j :: 0 <= j < i && utilizedRows[j] ==> stringList[j] == ExprText(p, constants, j, m, toStr)
    {
      var t := "";
      if utilizedRows[i] {
        assert WellFormedAt(p, i);
        assert OperandsMarked(p, utilizedRows, i);
        var c := p[i];
        if !IsTerminal(c.op) {
          assert stringList[c.p1] == ExprText(p, constants, c.p1, m, toStr);
          if IsArity2(c.op) {
            assert stringList[c.p2] == ExprText(p, constants, c.p2, m, toStr);
          } else {
            // A unary template has one placeholder; its second text is never used.
            SubstituteUnaryOperand(m, c.op, stringList[c.p1], stringList[c.p2], ExprText(p, constants, c.p2, m, toStr));
          }
        }
        t := FormattedElement(p, constants, i, stringList, m, toStr).value;
        assert t == ExprText(p, constants, i, m, toStr);
      }
      stringList := stringList + [t];
      i := i + 1;
    }
    r := stringList[|p| - 1];
  }

  function UnaryPartsStack(op: int): (parts: (string, string))
    requires 2 <= op <= 12 && !IsArity2(op)
    ensures Template(StackPrintMap, op) == parts.0 + "{}" + parts.1
    ensures NoPlaceholder(parts.0) && NoPlaceholder(parts.1)
    ensures SingleLine(parts.0) && SingleLine(parts.1)
  {
    if op == Sin then ("sin (", ")")
    else if op == Cos then ("cos (", ")")
    else if op == Exp then ("exp (", ")")
    else if op == Log then ("log (", ")")
    else if op == Abs then ("abs (", ")")
    else ("sqrt (", ")")
  }

  function UnaryPartsLatex(op: int): (parts: (string, string))
    requires 2 <= op <= 12 && !IsArity2(op)
    ensures Template(LatexPrintMap, op) == parts.0 + "{}" + parts.1
    ensures NoPlaceholder(parts.0) && NoPlaceholder(parts.1)
  {
    if op == Sin then ("sin{ ", " }")
    else if op == Cos then ("cos{ ", " }")
    else if op == Exp then ("exp{ ", " }")
    else if op == Log then ("log{ ", " }")
    else if op == Abs then ("|", "|")
    else ("\\sqrt{ ", " }")
  }

  function UnaryPartsConsole(op: int): (parts: (string, string))
    requires 2 <= op <= 12 && !IsArity2(op)
    ensures Template(ConsolePrintMap, op) == parts.0 + "{}" + parts.1
    ensures NoPlaceholder(parts.0) && NoPlaceholder(parts.1)
  {
    if op == Sin then ("sin(", ")")
    else if op == Cos then ("cos(", ")")
    else if op == Exp then ("exp(", ")")
    else if op == Log then ("log(", ")")
    else if op == Abs then ("|", "|")
    else ("sqrt(", ")")
  }

  /** A unary template split around its single placeholder. */
  function UnaryParts(m: PrintMap, op: int): (parts: (string, string))
    requires 2 <= op <= 12 && !IsArity2(op)
    ensures Template(m, op) == parts.0 + "{}" + parts.1
    ensures NoPlaceholder(parts.0) && NoPlaceholder(parts.1)
  {
    match m
    case StackPrintMap => UnaryPartsStack(op)
    case LatexPrintMap => UnaryPartsLatex(op)
    case ConsolePrintMap => UnaryPartsConsole(op)
  }

  /** A unary operator's template has one placeholder, so its second argument is never read. */
  lemma SubstituteUnaryOperand(m: PrintMap, op: int, arg1: string, arg2: string, arg2': string)
    requires 2 <= op <= 12 && !IsArity2(op)
    ensures Substitute(Template(m, op), false, arg1, arg2) == Substitute(Template(m, op), false, arg1, arg2')
  {
    var (u, w) := UnaryParts(m, op);
    SubstituteOne(u, w, arg1, arg2);
    SubstituteOne(u, w, arg1, arg2');
  }

  // ---- what the as-written rendering does

  /**
   * Row 0 is unused, so string_list holds one text when row 2 asks for
   * string_list[1]: the as-written rendering reads past the end, while the
   * intended rendering is sin(X_1).
   */
  lemma AsWrittenReadsPastEnd(toStr: real -> string)
    ensures var p := [Command(Variable, 0, 0), Command(Variable, 1, 0), Command(Sin, 1, 1)];
      WellFormed(p)
      && AsWrittenFormattedString(p, [], ConsolePrintMap, toStr) == None
      && ExprText(p, [], 2, ConsolePrintMap, toStr) == "sin(X_1)"
  {
    var p := [Command(Variable, 0, 0), Command(Variable, 1, 0), Command(Sin, 1, 1)];
    assert WellFormedAt(p, 0) && WellFormedAt(p, 1) && WellFormedAt(p, 2);
    var s := [false, true, true];
    assert Closed(p, s);
    UtilizedLeast(p, s);
    UtilizedClosed(p);
    UtilizedLast(p);
    assert OperandsMarked(p, Utilized(p), 2);
    assert Utilized(p) == s;
    assert IntToString(1) == "1";
    assert "X_" + "1" == "X_1";
    assert FormattedElement(p, [], 1, [], ConsolePrintMap, toStr) == Some("X_1");
    assert AsWrittenList(p, [], s, 1, ConsolePrintMap, toStr) == Some([]);
    assert s[1] && [] + ["X_1"] == ["X_1"];
    assert AsWrittenList(p, [], s, 2, ConsolePrintMap, toStr) == Some(["X_1"]);
    assert AsWrittenList(p, [], s, 3, ConsolePrintMap, toStr) == None;
    assert NoPlaceholder("sin(") && NoPlaceholder(")");
    SubstituteOne("sin(", ")", "X_1", "X_1");
    assert "sin(" + "{}" + ")" == "sin({})" == Template(ConsolePrintMap, Sin);
    assert ExprText(p, [], 1, ConsolePrintMap, toStr) == "X_1";
    assert "sin(" + "X_1" + ")" == "sin(X_1)";
  }

  lemma {:induction false} AsWrittenListAllUtilized(p: Program, constants: seq<real>, n: nat, m: PrintMap, toStr: real -> string)
    requires WellFormed(p) && n <= |p| && forall k :: 0 <= k < |p| ==> Utilized(p)[k]
    ensures var r := AsWrittenList(p, constants, Utilized(p), n, m, toStr);
      r.Some? && |r.value| == n && forall j :: 0 <= j < n ==> r.value[j] == ExprText(p, constants, j, m, toStr)
    decreases n
  {
    if n > 0 {
      AsWrittenListAllUtilized(p, constants, n - 1, m, toStr);
      assert WellFormedAt(p, n - 1);
    }
  }

  /** When every row is utilized, the as-written rendering reads in range and agrees with the intended one. */
  lemma AsWrittenAgreesWhenAllUtilized(p: Program, constants: seq<real>, m: PrintMap, toStr: real -> string)
    requires WellFormed(p) && |p| > 0 && forall k :: 0 <= k < |p| ==> Utilized(p)[k]
    ensures AsWrittenFormattedString(p, constants, m, toStr) == Some(ExprText(p, constants, |p| - 1, m, toStr))
  {
    AsWrittenListAllUtilized(p, constants, |p|, m, toStr);
  }

  /** So the as-written rendering is safe on a simplified stack. */
  lemma AsWrittenSafeOnSimplified(p: Program, constants: seq<real>, m: PrintMap, toStr: real -> string)
    requires WellFormed(p) && |p| > 0
    ensures WellFormed(Simplified(p)) && |Simplified(p)| > 0
    ensures AsWrittenFormattedString(Simplified(p), constants, m, toStr)
            == Some(ExprText(Simplified(p), constants, |Simplified(p)| - 1, m, toStr))
  {
    SimplifiedShape(p);
    SimplifiedAllUtilized(p);
    AsWrittenAgreesWhenAllUtilized(Simplified(p), constants, m, toStr);
  }

  /**
   * needsLocalOptimization looks at utilized rows only: it holds exactly
   * when the simplified stack has an unset constant.
   */
  lemma NeedsOptimizationIffSimplifiedHasUnset(p: Program, constants: seq<real>)
    requires WellFormed(p)
    ensures (exists i :: 0 <= i < |p| && Utilized(p)[i] && UnsetConstant(p, constants, i))
        <==> (exists k :: 0 <= k < |Simplified(p)| && UnsetConstant(Simplified(p), constants, k))
  {
    var q, b := Simplified(p), Utilized(p);
    SimplifiedShape(p);
    if i :| 0 <= i < |p| && b[i] && UnsetConstant(p, constants, i) {
      assert UnsetConstant(q, constants, NewIndex(b, i));
    }
    if k :| 0 <= k < |q| && UnsetConstant(q, constants, k) {
      assert b[..|p|] == b;
      var i := CompactOrigin(p, b, |p|, k);
      assert WellFormedAt(p, i);
      assert UnsetConstant(p, constants, i);
    }
  }

  // ---- the class

  class AGraph {
    var commandArray: Program
    var constants: seq<real>
    var fitness: real
    var fitSet: bool
    var geneticAge: int

    /** AGraph(): an empty stack, no constants, the default fitness, not fit, age 0. */
    constructor ()
      ensures commandArray == [] && constants == [] && fitness == DefaultFitness && !fitSet && geneticAge == 0
      ensures IsFitnessSet()
    {
      commandArray := [];
      constants := [];
      fitness := DefaultFitness;
      fitSet := false;
      geneticAge := 0;
    }

    /** AGraph(const AGraph&): copies the state; the flag becomes the source's isFitnessSet(). */
    constructor FromCopy(agraph: AGraph)
      ensures commandArray == agraph.commandArray && constants == agraph.constants
      ensures fitness == agraph.fitness && geneticAge == agraph.geneticAge
      ensures fitSet == agraph.IsFitnessSet()
    {
      commandArray := agraph.GetCommandArray();
      constants := agraph.GetLocalOptimizationParams();
      fitness := agraph.GetFitness();
      fitSet := agraph.IsFitnessSet();
      geneticAge := agraph.GetGeneticAge();
    }

    /** copy(): a new AGraph made by the copy constructor; this one is unchanged. */
    method Copy() returns (g: AGraph)
      ensures fresh(g)
      ensures g.commandArray == commandArray && g.constants == constants
      ensures g.fitness == fitness && g.geneticAge == geneticAge && g.fitSet == IsFitnessSet()
    {
      g := new AGraph.FromCopy(this);
    }

    function GetCommandArray(): Program
      reads this
    {
      commandArray
    }

    /** setCommandArray: the new stack, with the fitness reset to the default and the flag cleared. */
    method SetCommandArray(ca: Program)
      modifies this
      ensures GetCommandArray() == ca && fitness == DefaultFitness && !fitSet
      ensures constants == old(constants) && geneticAge == old(geneticAge)
      ensures IsFitnessSet()
    {
      commandArray := ca;
      fitness := DefaultFitness;
      fitSet := false;
    }

    /** notifyCommandArrayModificiation: the same invalidation without a new stack. */
    method NotifyCommandArrayModification()
      modifies this
      ensures fitness == DefaultFitness && !fitSet
      ensures commandArray == old(commandArray) && constants == old(constants) && geneticAge == old(geneticAge)
    {
      fitness := DefaultFitness;
      fitSet := false;
    }

    function GetFitness(): real
      reads this
    {
      fitness
    }

    /** setFitness: only the fitness changes; the flag is left as it was. */
    method SetFitness(f: real)
      modifies this
      ensures GetFitness() == f
      ensures commandArray == old(commandArray) && constants == old(constants)
      ensures fitSet == old(fitSet) && geneticAge == old(geneticAge)
    {
      fitness := f;
    }

    /** isFitnessSet: the fitness converted to bool, i.e. nonzero; the flag field is not read. */
    function IsFitnessSet(): (b: bool)
      reads this
      ensures b <==> fitness != 0.0
    {
      fitness != 0.0
    }

    method SetGeneticAge(age: int)
      modifies this
      ensures GetGeneticAge() == age
      ensures commandArray == old(commandArray) && constants == old(constants)
      ensures fitness == old(fitness) && fitSet == old(fitSet)
    {
      geneticAge := age;
    }

    function GetGeneticAge(): int
      reads this
    {
      geneticAge
    }

    /** getUtilizedCommands on this graph's stack. */
    method GetUtilizedCommands() returns (used: seq<bool>)
      requires WellFormed(commandArray)
      ensures used == Utilized(commandArray)
    {
      used := Liveness.GetUtilizedCommands(commandArray);
    }

    /** needsLocalOptimization: some utilized constant row has an unset index. */
    method NeedsLocalOptimization() returns (r: bool)
      requires WellFormed(commandArray)
      ensures r <==> exists row :: 0 <= row < |commandArray| && Utilized(commandArray)[row]
                                   && UnsetConstant(commandArray, constants, row)
    {
      var commands := GetUtilizedCommands();
      var row := 0;
      while row < |commands|
        invariant 0 <= row <= |commands| == |commandArray|
        invariant forall j :: 0 <= j < row && commands[j] ==> !UnsetConstant(commandArray, constants, j)
      {
        if commands[row] && commandArray[row].op == Constant {
          if commandArray[row].p1 == -1 || commandArray[row].p1 >= |constants| {
            return true;
          }
        }
        row := row + 1;
      }
      return false;
    }

    function GetNumberLocalOptimizationParams(): nat
      reads this
    {
      |constants|
    }

    /** setLocalOptimizationParams: replaces the constants and, unlike setCommandArray, keeps the fitness. */
    method SetLocalOptimizationParams(params: seq<real>)
      modifies this
      ensures GetLocalOptimizationParams() == params
      ensures commandArray == old(commandArray) && fitness == old(fitness)
      ensures fitSet == old(fitSet) && geneticAge == old(geneticAge)
    {
      constants := params;
    }

    function GetLocalOptimizationParams(): seq<real>
      reads this
    {
      constants
    }

    /**
     * getComplexity: the number of utilized rows, which is the length of
     * the simplified stack; at least one for a non-empty stack.
     */
    function GetComplexity(): (n: nat)
      reads this
      requires WellFormed(commandArray)
      ensures n == |Simplified(commandArray)| && n <= |commandArray|
      ensures |commandArray| > 0 ==> n >= 1
    {
      SimplifiedShape(commandArray);
      CountTrue(Utilized(commandArray))
    }

    /** getLatexString, rendered with the LaTeX print map. */
    method GetLatexString(toStr: real -> string) returns (s: string)
      requires WellFormed(commandArray) && |commandArray| > 0
      ensures s == ExprText(commandArray, constants, |commandArray| - 1, LatexPrintMap, toStr)
    {
      s := FormattedStringUsing(commandArray, constants, LatexPrintMap, toStr);
    }

    /** getConsoleString (also what operator<< prints), rendered with the console print map. */
    method GetConsoleString(toStr: real -> string) returns (s: string)
      requires WellFormed(commandArray) && |commandArray| > 0
      ensures s == ExprText(commandArray, constants, |commandArray| - 1, ConsolePrintMap, toStr)
    {
      s := FormattedStringUsing(commandArray, constants, ConsolePrintMap, toStr);
    }

    /** getStackString: the full listing, then the listing of the utilized rows. */
    method GetStackString(toStr: real -> string) returns (s: string)
      requires WellFormed(commandArray)
      ensures s == "---full stack---\n" + StackLines(commandArray, constants, AllRows(|commandArray|), |commandArray|, toStr)
                 + "---small stack---\n" + StackLines(commandArray, constants, Utilized(commandArray), |commandArray|, toStr)
    {
      var full := StackString(commandArray, constants, false, toStr);
      var short := StackString(commandArray, constants, true, toStr);
      s := "---full stack---\n" + full + "---small stack---\n" + short;
    }
  }
}
