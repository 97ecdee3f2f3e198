/**
 * The Intcode interpreter of the 2019 puzzles (src/intcode.rs; src/day02.rs
 * holds a private line-for-line copy of the same `Program`, `Command` and
 * `OpCode`).  Memory is a fixed-length sequence of unsigned cells and the
 * head points at the next four-cell instruction
 * `[opcode, address a, address b, destination]`.
 *
 * `Advance` and `Execute` are the specification: one step and a bounded run
 * on a memory value.  The class `Program` is the interpreter itself, with its
 * memory in an array that `Step` overwrites in place; its methods are proved
 * to do exactly what the specification says.
 */
module Intcode {
  import opened Wrappers
  import Text

  datatype OpCode = Add | Mul | Halt

  /** The memory value that selects each operation. */
  function Code(op: OpCode): nat {
    match op
    case Add => 1
    case Mul => 2
    case Halt => 99
  }

  /**
   * `OpCode::from`.  Only 1, 2 and 99 decode; any other value is the
   * interpreter's `unreachable!` panic, here `None`.
   */
  function DecodeOpCode(u: nat): (r: Option<OpCode>)
    ensures r.Some? <==> u == 1 || u == 2 || u == 99
    ensures r.Some? ==> Code(r.value) == u
  {
    if u == 1 then Some(Add) else if u == 2 then Some(Mul) else if u == 99 then Some(Halt) else None
  }

  lemma DecodeCode(op: OpCode)
    ensures DecodeOpCode(Code(op)) == Some(op)
  {
  }

  /** An instruction whose two operands have already been fetched. */
  datatype Command = Command(opcode: OpCode, inputA: nat, inputB: nat)

  /** `Command::output`: the value an instruction writes, or `None` for Halt. */
  function Output(c: Command): (r: Option<nat>)
    ensures r.None? <==> c.opcode == Halt
  {
    match c.opcode
    case Add => Some(c.inputA + c.inputB)
    case Mul => Some(c.inputA * c.inputB)
    case Halt => None
  }

  /**
   * `Command::from([a, b, c])`: the opcode from `a`, the operands from `b`
   * and `c` in that order.  `None` is the panic on an undecodable `a`.
   */
  function CommandFrom(arr: seq<nat>): (r: Option<Command>)
    requires |arr| == 3
    ensures r.Some? <==> DecodeOpCode(arr[0]).Some?
    ensures r.Some? ==> Code(r.value.opcode) == arr[0] && r.value.inputA == arr[1] && r.value.inputB == arr[2]
  {
    match DecodeOpCode(arr[0])
    case Some(op) => Some(Command(op, arr[1], arr[2]))
    case None => None
  }

  /** The interpreter's state as a value: memory and head. */
  datatype Machine = Machine(data: seq<nat>, head: nat)

  /**
   * What one call to `step` reports: `Continue` is `Some(())`, `Stop` is
   * `None` (opcode 99 and every out-of-range access alike), `Panic` is the
   * abort on an undecodable opcode.
   */
  datatype Signal = Continue | Stop | Panic(opcode: nat)

  datatype Transition = Transition(signal: Signal, after: Machine)

  /** The three addresses of the instruction at the head, and the cells they name, lie inside memory. */
  predicate OperandsInBounds(m: Machine) {
    && m.head + 3 < |m.data|
    && m.data[m.head + 1] < |m.data|
    && m.data[m.head + 2] < |m.data|
    && m.data[m.head + 3] < |m.data|
  }

  /** The cell a successful step overwrites. */
  function Destination(m: Machine): nat
    requires OperandsInBounds(m)
  {
    m.data[m.head + 3]
  }

  /**
   * One step of the interpreter.  The opcode is decoded first; then
   * the two operands are fetched through their addresses, the result is
   * computed (Halt has none), the destination address is read and the result
   * is written there, and the head moves on by four.  Every failing access
   * stops the step before anything is written.
   */
  function Advance(m: Machine): (t: Transition)
    ensures t.signal != Continue ==> t.after == m
    ensures t.signal.Panic? <==> m.head < |m.data| && DecodeOpCode(m.data[m.head]).None?
    ensures t.signal.Panic? ==> t.signal.opcode == m.data[m.head]
    ensures t.signal == Continue <==>
      m.head < |m.data| && (m.data[m.head] == 1 || m.data[m.head] == 2) && OperandsInBounds(m)
    ensures t.signal == Continue ==>
      && |t.after.data| == |m.data|
      && t.after.head == m.head + 4
      && forall i :: 0 <= i < |m.data| && i != Destination(m) ==> t.after.data[i] == m.data[i]
  {
    var d, h := m.data, m.head;
    if h >= |d| then Transition(Stop, m)
    else match DecodeOpCode(d[h])
      case None => Transition(Panic(d[h]), m)
      case Some(op) =>
        if h + 1 >= |d| || d[h + 1] >= |d| || h + 2 >= |d| || d[h + 2] >= |d| then Transition(Stop, m)
        else match Output(Command(op, d[d[h + 1]], d[d[h + 2]]))
          case None => Transition(Stop, m)
          case Some(out) =>
            if h + 3 >= |d| || d[h + 3] >= |d| then Transition(Stop, m)
            else Transition(Continue, Machine(d[d[h + 3] := out], h + 4))
  }

  lemma StepAdd(m: Machine)
    requires m.head < |m.data| && m.data[m.head] == 1 && OperandsInBounds(m)
    ensures var d, h := m.data, m.head;
      Advance(m) == Transition(Continue, Machine(d[d[h + 3] := d[d[h + 1]] + d[d[h + 2]]], h + 4))
  {
  }

  lemma StepMul(m: Machine)
    requires m.head < |m.data| && m.data[m.head] == 2 && OperandsInBounds(m)
    ensures var d, h := m.data, m.head;
      Advance(m) == Transition(Continue, Machine(d[d[h + 3] := d[d[h + 1]] * d[d[h + 2]]], h + 4))
  {
  }

  /** How a bounded run ends: at a `None` from `step`, at a panic, or with its step budget spent. */
  datatype RunOutcome = Stopped | Panicked(opcode: nat) | OutOfFuel

  datatype Execution = Execution(outcome: RunOutcome, final: Machine)

  /**
   * `run`, which calls `step` until it reports `None`, with at most `fuel`
   * calls of `step`.
   */
  function Execute(m: Machine, fuel: nat): (e: Execution)
    ensures |e.final.data| == |m.data|
    ensures e.outcome == Stopped ==> Advance(e.final).signal == Stop
    ensures e.outcome.Panicked? ==> Advance(e.final).signal == Panic(e.outcome.opcode)
    decreases fuel
  {
    if fuel == 0 then Execution(OutOfFuel, m)
    else
      var t := Advance(m);
      match t.signal
      case Continue => Execute(t.after, fuel - 1)
      case Stop => Execution(Stopped, m)
      case Panic(x) => Execution(Panicked(x), m)
  }

  /** Running a program that has already stopped changes nothing. */
  lemma RunAgain(m: Machine, fuel: nat, more: nat)
    requires Execute(m, fuel).outcome == Stopped
    requires more >= 1
    ensures Execute(Execute(m, fuel).final, more) == Execute(m, fuel)
  {
  }

  /** A run with some fuel left is one step followed by the rest of the run. */
  lemma ExecuteUnfold(m: Machine, fuel: nat)
    requires fuel >= 1
    ensures Execute(m, fuel) ==
      match Advance(m).signal
      case Continue => Execute(Advance(m).after, fuel - 1)
      case Stop => Execution(Stopped, m)
      case Panic(x) => Execution(Panicked(x), m)
  {
  }

  /** Once a run has ended by itself, a larger budget gives the same result. */
  lemma {:induction false} MoreFuel(m: Machine, fuel: nat, more: nat)
    requires Execute(m, fuel).outcome != OutOfFuel
    ensures Execute(m, fuel + more) == Execute(m, fuel)
    decreases fuel
  {
    ExecuteUnfold(m, fuel);
    ExecuteUnfold(m, fuel + more);
    if Advance(m).signal == Continue {
      MoreFuel(Advance(m).after, fuel - 1, more);
      assert fuel - 1 + more == fuel + more - 1;
    }
  }

  /**
   * The head only ever moves forward by four and memory never grows, so a
   * run stops or panics within `fuel` steps once `fuel` steps of four would
   * carry the head past the end of memory.
   */
  lemma {:induction false} EndsWithin(m: Machine, fuel: nat)
    requires fuel >= 1 && m.head + 4 * fuel > |m.data|
    ensures Execute(m, fuel).outcome != OutOfFuel
    decreases fuel
  {
    if Advance(m).signal == Continue {
      EndsWithin(Advance(m).after, fuel - 1);
    }
  }

  /** Every run ends by itself: more steps than memory cells is always enough. */
  lemma RunEnds(m: Machine, fuel: nat)
    requires fuel > |m.data|
    ensures Execute(m, fuel).outcome != OutOfFuel
  {
    EndsWithin(m, fuel);
  }

  /** Continuing a run that used up its budget by `b` more steps. */
  function Resume(e: Execution, b: nat): Execution {
    if e.outcome == OutOfFuel then Execute(e.final, b) else e
  }

  /** A run of `a + b` steps is a run of `a` steps followed by a run of `b` steps from where it left off. */
  lemma {:induction false} ExecuteSplit(m: Machine, a: nat, b: nat)
    ensures Execute(m, a + b) == Resume(Execute(m, a), b)
    decreases a
  {
    if a > 0 {
      var t := Advance(m);
      ExecuteUnfold(m, a);
      ExecuteUnfold(m, a + b);
      if t.signal == Continue {
        ExecuteSplit(t.after, a - 1, b);
        assert a - 1 + b == a + b - 1;
      }
    }
  }

  /**
   * The `first_steps` test on the memory that its program text loads (see
   * `LoadRender`): 70 lands in cell 3, then 3500 in cell 0, and the third
   * step meets opcode 99.
   */
  lemma FirstSteps()
    ensures var m := Machine([1, 9, 10, 3, 2, 3, 11, 0, 99, 30, 40, 50], 0);
      && Advance(m) == Transition(Continue, Machine([1, 9, 10, 70, 2, 3, 11, 0, 99, 30, 40, 50], 4))
      && Advance(Advance(m).after) == Transition(Continue, Machine([3500, 9, 10, 70, 2, 3, 11, 0, 99, 30, 40, 50], 8))
      && Execute(m, 3) == Execution(Stopped, Machine([3500, 9, 10, 70, 2, 3, 11, 0, 99, 30, 40, 50], 8))
  {
    var m0 := Machine([1, 9, 10, 3, 2, 3, 11, 0, 99, 30, 40, 50], 0);
    var m1 := Machine([1, 9, 10, 70, 2, 3, 11, 0, 99, 30, 40, 50], 4);
    var m2 := Machine([3500, 9, 10, 70, 2, 3, 11, 0, 99, 30, 40, 50], 8);
    StepAdd(m0);
    assert m0.data[3 := 30 + 40] == m1.data;
    StepMul(m1);
    assert m1.data[0 := 70 * 50] == m2.data;
    Halts(m2);
    ExecuteUnfold(m0, 3);
    ExecuteUnfold(m1, 2);
    ExecuteUnfold(m2, 1);
  }

  /** Opcode 99 at the head stops the step, whether or not its operand addresses are in range. */
  lemma Halts(m: Machine)
    requires m.head < |m.data| && m.data[m.head] == 99
    ensures Advance(m) == Transition(Stop, m)
  {
  }

  /** A lone halt: the program stops at once with nothing changed. */
  lemma LoneHalt()
    ensures Execute(Machine([99], 0), 1) == Execution(Stopped, Machine([99], 0))
  {
    ExecuteUnfold(Machine([99], 0), 1);
  }

  lemma AddZeros()
    ensures Execute(Machine([1, 0, 0, 0, 99], 0), 2) == Execution(Stopped, Machine([2, 0, 0, 0, 99], 4))
  {
    var m0, m1 := Machine([1, 0, 0, 0, 99], 0), Machine([2, 0, 0, 0, 99], 4);
    StepAdd(m0);
    assert m0.data[0 := 1 + 1] == m1.data;
    ExecuteUnfold(m0, 2);
    ExecuteUnfold(m1, 1);
  }

  lemma MulThree()
    ensures Execute(Machine([2, 3, 0, 3, 99], 0), 2) == Execution(Stopped, Machine([2, 3, 0, 6, 99], 4))
  {
    var m0, m1 := Machine([2, 3, 0, 3, 99], 0), Machine([2, 3, 0, 6, 99], 4);
    StepMul(m0);
    assert m0.data[3 := 3 * 2] == m1.data;
    ExecuteUnfold(m0, 2);
    ExecuteUnfold(m1, 1);
  }

  lemma TwoSteps()
    ensures Execute(Machine([1, 1, 1, 4, 99, 5, 6, 0, 99], 0), 3) == Execution(Stopped, Machine([30, 1, 1, 4, 2, 5, 6, 0, 99], 8))
  {
    var m0 := Machine([1, 1, 1, 4, 99, 5, 6, 0, 99], 0);
    var m1 := Machine([1, 1, 1, 4, 2, 5, 6, 0, 99], 4);
    var m2 := Machine([30, 1, 1, 4, 2, 5, 6, 0, 99], 8);
    StepAdd(m0);
    assert m0.data[4 := 1 + 1] == m1.data;
    StepMul(m1);
    assert m1.data[0 := 5 * 6] == m2.data;
    ExecuteUnfold(m0, 3);
    ExecuteUnfold(m1, 2);
    ExecuteUnfold(m2, 1);
  }

  /** A head that runs off the end stops the run just as opcode 99 does, while an unknown opcode panics. */
  lemma StopsAndPanics()
    ensures Execute(Machine([1, 0, 0, 0], 0), 5) == Execution(Stopped, Machine([2, 0, 0, 0], 4))
    ensures Execute(Machine([7, 0, 0, 0, 99], 0), 5) == Execution(Panicked(7), Machine([7, 0, 0, 0, 99], 0))
    ensures Execute(Machine([1, 9, 0, 0, 99], 0), 5) == Execution(Stopped, Machine([1, 9, 0, 0, 99], 0))
  {
    var m0, m1 := Machine([1, 0, 0, 0], 0), Machine([2, 0, 0, 0], 4);
    StepAdd(m0);
    assert m0.data[0 := 1 + 1] == m1.data;
    ExecuteUnfold(m0, 5);
    ExecuteUnfold(m1, 4);
    ExecuteUnfold(Machine([7, 0, 0, 0, 99], 0), 5);
    ExecuteUnfold(Machine([1, 9, 0, 0, 99], 0), 5);
  }

  /** `filter_map(|n| n.parse::<usize>().ok())`: the tokens that parse, in order. */
  function KeepNumbers(tokens: seq<string>): (r: seq<nat>)
    ensures |r| <= |tokens|
    ensures forall k :: 0 <= k < |r| ==> r[k] <= Text.USIZE_MAX
  {
    if tokens == [] then []
    else
      match Text.ParseUnsigned(tokens[0], Text.USIZE_MAX)
      case Some(n) => [n] + KeepNumbers(tokens[1..])
      case None => KeepNumbers(tokens[1..])
  }

  /** One token is kept exactly when it parses, as the value it parses to. */
  lemma KeepNumbersSingle(t: string)
    ensures KeepNumbers([t]) ==
      if Text.ParseUnsigned(t, Text.USIZE_MAX).Some? then [Text.ParseUnsigned(t, Text.USIZE_MAX).value] else []
  {
    assert [t][1..] == [];
  }

  /** Keeping numbers token by token: filtering a concatenation concatenates the parts. */
  lemma {:induction false} KeepNumbersAppend(a: seq<string>, b: seq<string>)
    ensures KeepNumbers(a + b) == KeepNumbers(a) + KeepNumbers(b)
    decreases |a|
  {
    if a != [] {
      assert (a + b)[0] == a[0];
      assert (a + b)[1..] == a[1..] + b;
      KeepNumbersAppend(a[1..], b);
      match Text.ParseUnsigned(a[0], Text.USIZE_MAX)
      case Some(n) =>
        assert KeepNumbers(a + b) == [n] + (KeepNumbers(a[1..]) + KeepNumbers(b));
      case None =>
    } else {
      assert a + b == b;
    }
  }

  /** `Program::from(String)`: the memory it loads. */
  function Load(s: string): (r: seq<nat>)
    ensures forall k :: 0 <= k < |r| ==> r[k] <= Text.USIZE_MAX
  {
    KeepNumbers(Text.Split(s, ','))
  }

  /** Text without a comma is a single token, so it loads as one cell or none. */
  lemma LoadOneToken(s: string)
    requires ',' !in s
    ensures Load(s) ==
      if Text.ParseUnsigned(s, Text.USIZE_MAX).Some? then [Text.ParseUnsigned(s, Text.USIZE_MAX).value] else []
  {
    Text.SplitOfPiece(s, [], ',');
    KeepNumbersSingle(s);
  }

  /**
   * A file that ends in a newline loses its last cell: "99\n" does not
   * parse, so the filter drops it.
   */
  lemma TrailingNewline()
    ensures Load("1,99\n") == [1]
  {
    SplitTwo();
    KeepOneOfTwo();
  }

  lemma SplitTwo()
    ensures Text.Split("1,99\n", ',') == ["1", "99\n"]
  {
    Text.SplitOfPiece("1", "99\n", ',');
    Text.SplitOfPiece("99\n", "", ',');
    assert "1" + [','] + "99\n" == "1,99\n";
  }

  lemma KeepOneOfTwo()
    ensures KeepNumbers(["1", "99\n"]) == [1]
  {
    Text.ParseExamples();
    assert Text.ParseUnsigned("1", Text.USIZE_MAX) == Some(1) by {
      assert Text.Value("1") == 1;
    }
    assert ["1", "99\n"][1..] == ["99\n"];
    assert ["99\n"][1..] == [];
  }

  /** Program text for a memory: each cell in decimal, separated by commas. */
  function Render(cells: seq<nat>): string
    requires |cells| >= 1
  {
    Text.Join(Numerals(cells), ',')
  }

  function Numerals(cells: seq<nat>): (r: seq<string>)
    ensures |r| == |cells|
    ensures forall k :: 0 <= k < |r| ==> r[k] == Text.NatToString(cells[k])
  {
    if cells == [] then [] else [Text.NatToString(cells[0])] + Numerals(cells[1..])
  }

  lemma {:induction false} KeepNumbersOfNumerals(cells: seq<nat>)
    requires forall k :: 0 <= k < |cells| ==> cells[k] <= Text.USIZE_MAX
    ensures KeepNumbers(Numerals(cells)) == cells
    decreases |cells|
  {
    if cells != [] {
      Text.ParseUnsignedOfNatToString(cells[0], Text.USIZE_MAX);
      KeepNumbersOfNumerals(cells[1..]);
      assert Numerals(cells)[1..] == Numerals(cells[1..]);
    }
  }

  /** Loading the text of a memory gives that memory back. */
  lemma LoadRender(cells: seq<nat>)
    requires |cells| >= 1
    requires forall k :: 0 <= k < |cells| ==> cells[k] <= Text.USIZE_MAX
    ensures Load(Render(cells)) == cells
  {
    var tokens := Numerals(cells);
    forall k | 0 <= k < |tokens|
      ensures ',' !in tokens[k]
    {
      assert Text.AllDigits(tokens[k]);
    }
    Text.SplitJoin(tokens, ',');
    KeepNumbersOfNumerals(cells);
  }

  /** The interpreter, with its memory in an array that steps overwrite in place. */
  class Program {
    var data: array<nat>
    var head: nat

    /** The interpreter's state as a value. */
    function State(): Machine
      reads this, data
    {
      Machine(data[..], head)
    }

    /** `Program::from(String)`: the numbers of the text in order, head at 0. */
    constructor FromText(s: string)
      ensures fresh(data)
      ensures State() == Machine(Load(s), 0)
    {
      var cells := Load(s);
      var a := new nat[|cells|](i requires 0 <= i < |cells| => cells[i]);
      assert a[..] == cells;
      data := a;
      head := 0;
    }

    /** `step`, in place; the new state and the signal are those of `Advance`. */
    method Step() returns (signal: Signal)
      modifies this, data
      ensures data == old(data)
      ensures Advance(old(State())) == Transition(signal, State())
    {
      var n := data.Length;
      if head >= n {
        return Stop;
      }
      var code := data[head];
      var op := DecodeOpCode(code);
      if op.None? {
        return Panic(code);
      }
      if head + 1 >= n || data[head + 1] >= n || head + 2 >= n || data[head + 2] >= n {
        return Stop;
      }
      var output := Output(Command(op.value, data[data[head + 1]], data[data[head + 2]]));
      if output.None? {
        return Stop;
      }
      if head + 3 >= n || data[head + 3] >= n {
        return Stop;
      }
      data[data[head + 3]] := output.value;
      head := head + 4;
      return Continue;
    }

    /** `run` with at most `fuel` calls of `step`. */
    method Run(fuel: nat) returns (outcome: RunOutcome)
      modifies this, data
      ensures data == old(data)
      ensures Execute(old(State()), fuel) == Execution(outcome, State())
      ensures fuel > old(data.Length) ==> outcome != OutOfFuel
    {
      ghost var start := State();
      if fuel > data.Length {
        RunEnds(start, fuel);
      }
      var left := fuel;
      while left > 0
        invariant data == old(data)
        invariant Execute(old(State()), fuel) == Execute(State(), left)
        decreases left
      {
        var signal := Step();
        match signal
        case Stop =>
          return Stopped;
        case Panic(x) =>
          return Panicked(x);
        case Continue =>
          left := left - 1;
      }
      return OutOfFuel;
    }

    /** `first`: the cell at address 0, the program's answer. */
    method First() returns (v: nat)
      requires data.Length >= 1
      ensures v == data[0]
    {
      v := data[0];
    }

    /** `change_values(x, y)`: the noun and verb go into cells 1 and 2; nothing else changes. */
    method ChangeValues(x: nat, y: nat)
      requires data.Length >= 3
      modifies data
      ensures data[..] == old(data[..])[1 := x][2 := y]
      ensures head == old(head)
    {
      data[1] := x;
      data[2] := y;
    }
  }
}
