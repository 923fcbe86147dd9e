/** The instruction-level `VirtualMachine`: runs a linked `List<ASM>` on one `ArrayDeque<Int>`
    whose index 0 is the top of the stack. */
module ListVm {
  import opened Wrappers
  import opened Int32
  import opened Asm

  /** `ip` and the stack, top first. `ip` is a Kotlin `Int` taken from the program; it only
      ever holds a popped value, a successor of a valid index, or the program size. */
  datatype VmState = VmState(ip: int, stack: seq<Int32>)

  function Comparison(b: bool): Int32 {
    if b then 1 else 0
  }

  /** The result of `left <op> right`, with Kotlin's wrapping arithmetic. */
  function ApplyOp(op: Op, left: Int32, right: Int32): (r: Result<Int32>)
    ensures r.Err? <==> (op == Div || op == Mod) && right == 0
    ensures op.Add? ==> r.Ok? && (r.value - (left as int + right as int)) % MODULUS == 0
    ensures op.Sub? ==> r.Ok? && (r.value - (left as int - right as int)) % MODULUS == 0
    ensures op.Mul? ==> r.Ok? && (r.value - (left as int * right as int)) % MODULUS == 0
    ensures op.Div? && right != 0 && !(left == MIN && right == -1) ==> r.value == TruncDiv(left, right)
    ensures op.Div? && left == MIN && right == -1 ==> r.value == MIN
    ensures op.Mod? && right != 0 ==> r.value == TruncRem(left, right)
    ensures op.GreaterThan? ==> r == Ok(if left > right then 1 else 0)
    ensures op.LessThan? ==> r == Ok(if left < right then 1 else 0)
    ensures op.GreaterThanOrEqual? ==> r == Ok(if left >= right then 1 else 0)
    ensures op.LessThanOrEqual? ==> r == Ok(if left <= right then 1 else 0)
    ensures op.Equal? ==> r == Ok(if left == right then 1 else 0)
  {
    match op
    case Add => Ok(KotlinAdd(left, right))
    case Sub => Ok(KotlinSub(left, right))
    case Mul => Ok(KotlinMul(left, right))
    case Div => KotlinDiv(left, right)
    case Mod => KotlinRem(left, right)
    case GreaterThan => Ok(Comparison(left > right))
    case LessThan => Ok(Comparison(left < right))
    case GreaterThanOrEqual => Ok(Comparison(left >= right))
    case LessThanOrEqual => Ok(Comparison(left <= right))
    case Equal => Ok(Comparison(left == right))
  }

  /** `repeat(n) { pop() }`: a count of zero or less pops nothing. */
  function PopN(stack: seq<Int32>, n: int): (r: Result<seq<Int32>>)
    ensures r.Ok? <==> n <= |stack|
    ensures r.Ok? ==> r.value == if n <= 0 then stack else stack[n..]
  {
    if n <= 0 then Ok(stack)
    else if n > |stack| then Err("ArrayDeque is empty.")
    else Ok(stack[n..])
  }

  /** `handle(instruction)` once `ip` has been advanced past it. */
  function Handle(size: nat, ins: Instruction, st: VmState): Result<VmState> {
    var s := st.stack;
    match ins
    case LoadConstant(v) => Ok(st.(stack := [v] + s))
    case LoadRelative(k) =>
      if 0 <= k < |s| then Ok(st.(stack := [s[k]] + s)) else Err("Index out of bounds")
    case LoadLabel(l) => Err("Can not load from label, need to be linked")
    case Store(k) =>
      if s == [] then Err("ArrayDeque is empty.")
      else if 0 <= k < |s| - 1 then Ok(st.(stack := s[1..][k := s[0]]))
      else Err("Index out of bounds")
    case Jump =>
      if s == [] then Err("ArrayDeque is empty.") else Ok(VmState(s[0], s[1..]))
    case JumpWhenZero =>
      if |s| < 2 then Err("ArrayDeque is empty.")
      else Ok(VmState(if s[1] == 0 then s[0] else st.ip, s[2..]))
    case Pop(n) =>
      var rest :- PopN(s, n);
      Ok(st.(stack := rest))
    case Exit => Ok(st.(ip := size))
    case Operation(op) =>
      if |s| < 2 then Err("ArrayDeque is empty.")
      else
        var v :- ApplyOp(op, s[0], s[1]);
        Ok(st.(stack := [v] + s[2..]))
  }

  /** `step`: nothing past the end; a negative `ip` indexes out of bounds. */
  function Transition(program: seq<Instruction>, st: VmState): Result<VmState> {
    if st.ip >= |program| then Ok(st)
    else if st.ip < 0 then Err("Index out of bounds")
    else Handle(|program|, program[st.ip], st.(ip := st.ip + 1))
  }

  predicate Halted(program: seq<Instruction>, st: VmState) {
    st.ip >= |program|
  }

  /** `run` with at most `fuel` steps: the state it reaches, or the first error. */
  function Execute(program: seq<Instruction>, st: VmState, fuel: nat): Result<VmState>
    decreases fuel
  {
    if Halted(program, st) || fuel == 0 then Ok(st)
    else
      var next :- Transition(program, st);
      Execute(program, next, fuel - 1)
  }

  class VirtualMachine {
    const instructions: seq<Instruction>
    var stack: seq<Int32>
    var ip: int

    function State(): VmState
      reads this
    {
      VmState(ip, stack)
    }

    constructor (instructions: seq<Instruction>)
      ensures this.instructions == instructions && State() == VmState(0, [])
    {
      this.instructions := instructions;
      stack := [];
      ip := 0;
    }

    /** `pop()`: `removeFirst`, which throws on an empty deque. */
    method PopValue() returns (r: Result<Int32>)
      modifies this
      ensures ip == old(ip)
      ensures r.Ok? <==> old(stack) != []
      ensures r.Ok? ==> r.value == old(stack)[0] && stack == old(stack)[1..]
    {
      if stack == [] {
        return Err("ArrayDeque is empty.");
      }
      r := Ok(stack[0]);
      stack := stack[1..];
    }

    method Step() returns (r: Outcome)
      modifies this
      ensures r.Pass? <==> Transition(instructions, old(State())).Ok?
      ensures r.Pass? ==> State() == Transition(instructions, old(State())).value
    {
      if ip >= |instructions| {
        return Pass;
      }
      if ip < 0 {
        return Fail("Index out of bounds");
      }
      var ins := instructions[ip];
      ip := ip + 1;
      r := HandleInstruction(ins);
    }

    method HandleInstruction(ins: Instruction) returns (r: Outcome)
      modifies this
      ensures r.Pass? <==> Handle(|instructions|, ins, old(State())).Ok?
      ensures r.Pass? ==> State() == Handle(|instructions|, ins, old(State())).value
    {
      match ins {
        case LoadConstant(v) =>
          stack := [v] + stack;
        case LoadRelative(k) =>
          if !(0 <= k < |stack|) {
            return Fail("Index out of bounds");
          }
          stack := [stack[k]] + stack;
        case LoadLabel(_) =>
          return Fail("Can not load from label, need to be linked");
        case Store(k) =>
          var value := PopValue();
          if value.Err? {
            return Fail(value.message);
          }
          if !(0 <= k < |stack|) {
            return Fail("Index out of bounds");
          }
          stack := stack[k := value.value];
        case Jump =>
          var target := PopValue();
          if target.Err? {
            return Fail(target.message);
          }
          ip := target.value;
        case JumpWhenZero =>
          var address := PopValue();
          if address.Err? {
            return Fail(address.message);
          }
          var condition := PopValue();
          if condition.Err? {
            return Fail(condition.message);
          }
          if condition.value == 0 {
            ip := address.value;
          }
        case Pop(n) =>
          r := PopCount(n);
          return;
        case Exit =>
          ip := |instructions|;
        case Operation(op) =>
          r := Operate(op);
          return;
      }
      return Pass;
    }

    /** `Pop(n)`: `repeat(n) { pop() }`. */
    method PopCount(n: Int32) returns (r: Outcome)
      modifies this
      ensures r.Pass? <==> Handle(|instructions|, Pop(n), old(State())).Ok?
      ensures r.Pass? ==> State() == Handle(|instructions|, Pop(n), old(State())).value
    {
      var i := 0;
      while i < n
        invariant 0 <= i <= if n < 0 then 0 else n
        invariant ip == old(ip)
        invariant i <= |old(stack)| && stack == old(stack)[i..]
      {
        var v := PopValue();
        if v.Err? {
          return Fail(v.message);
        }
        i := i + 1;
      }
      return Pass;
    }

    /** An operation: pop `left`, pop `right`, push `left <op> right`. */
    method Operate(op: Op) returns (r: Outcome)
      modifies this
      ensures r.Pass? <==> Handle(|instructions|, Operation(op), old(State())).Ok?
      ensures r.Pass? ==> State() == Handle(|instructions|, Operation(op), old(State())).value
    {
      var left := PopValue();
      if left.Err? {
        return Fail(left.message);
      }
      var right := PopValue();
      if right.Err? {
        return Fail(right.message);
      }
      var result := ApplyOp(op, left.value, right.value);
      if result.Err? {
        return Fail(result.message);
      }
      stack := [result.value] + stack;
      return Pass;
    }

    /** `run`, stopped after `fuel` steps. */
    method Run(fuel: nat) returns (r: Outcome)
      modifies this
      ensures r.Pass? <==> Execute(instructions, old(State()), fuel).Ok?
      ensures r.Pass? ==> State() == Execute(instructions, old(State()), fuel).value
    {
      var steps := 0;
      while ip < |instructions| && steps < fuel
        invariant 0 <= steps <= fuel
        invariant Execute(instructions, old(State()), fuel) == Execute(instructions, State(), fuel - steps)
        decreases fuel - steps
      {
        r := Step();
        if r.Fail? {
          return;
        }
        steps := steps + 1;
      }
      return Pass;
    }
  }

  // ---------------------------------------------------------------------------------------
  // Properties of the instruction semantics

  /** `Load.Relative(k)` pushes a copy of the value at depth `k`, 0 being the top. */
  lemma LoadRelativeCopies(size: nat, k: Int32, st: VmState)
    ensures Handle(size, LoadRelative(k), st).Ok? <==> 0 <= k < |st.stack|
    ensures Handle(size, LoadRelative(k), st).Ok? ==>
      var s := Handle(size, LoadRelative(k), st).value.stack;
      |s| == |st.stack| + 1 && s[0] == st.stack[k] && s[1..] == st.stack
  {
  }

  /** `Store(k)` pops a value and overwrites depth `k` of what remains: one value fewer, the
      popped value at depth `k`, every other depth unchanged. */
  lemma StoreOverwrites(size: nat, k: Int32, st: VmState)
    requires st.stack != [] && 0 <= k < |st.stack| - 1
    ensures Handle(size, Store(k), st).Ok?
    ensures var s := Handle(size, Store(k), st).value.stack;
      && |s| == |st.stack| - 1
      && s[k] == st.stack[0]
      && forall j :: 0 <= j < |s| && j != k ==> s[j] == st.stack[j + 1]
  {
  }

  /** A `Store(k)` followed by `Load.Relative(k)` reads back the stored value. */
  lemma StoreThenLoad(size: nat, k: Int32, st: VmState)
    requires st.stack != [] && 0 <= k < |st.stack| - 1
    ensures var s1 := Handle(size, Store(k), st);
      s1.Ok? && Handle(size, LoadRelative(k), s1.value).Ok?
      && Handle(size, LoadRelative(k), s1.value).value.stack[0] == st.stack[0]
  {
    StoreOverwrites(size, k, st);
  }

  /** `Pop(n)` removes exactly `n` values and fails when fewer are there. */
  lemma PopRemoves(size: nat, n: Int32, st: VmState)
    requires n >= 0
    ensures Handle(size, Pop(n), st).Ok? <==> n <= |st.stack|
    ensures Handle(size, Pop(n), st).Ok? ==>
      Handle(size, Pop(n), st).value == st.(stack := st.stack[n..])
      && |Handle(size, Pop(n), st).value.stack| == |st.stack| - n
  {
  }

  /** A constant pushed and popped again leaves the stack as it was. */
  lemma PushThenPop(size: nat, v: Int32, st: VmState)
    ensures var s1 := Handle(size, LoadConstant(v), st);
      s1.Ok? && Handle(size, Pop(1), s1.value) == Ok(st)
  {
    assert ([v] + st.stack)[1..] == st.stack;
  }

  /** `JumpWhenZero` pops the address, then the condition, and jumps iff the condition is 0. */
  lemma JumpWhenZeroBranches(size: nat, st: VmState)
    requires |st.stack| >= 2
    ensures Handle(size, JumpWhenZero, st).Ok?
    ensures Handle(size, JumpWhenZero, st).value.stack == st.stack[2..]
    ensures Handle(size, JumpWhenZero, st).value.ip == if st.stack[1] == 0 then st.stack[0] else st.ip
  {
  }

  /** An operation pops the left operand (the top), then the right, and pushes one result. */
  lemma OperationPopsTwoPushesOne(size: nat, op: Op, st: VmState)
    requires |st.stack| >= 2 && ApplyOp(op, st.stack[0], st.stack[1]).Ok?
    ensures Handle(size, Operation(op), st).Ok?
    ensures var s := Handle(size, Operation(op), st).value.stack;
      |s| == |st.stack| - 1 && s[1..] == st.stack[2..]
      && s[0] == ApplyOp(op, st.stack[0], st.stack[1]).value
  {
  }

  /** `Exit` ends the run: the machine is halted and any further running changes nothing. */
  lemma {:induction false} ExitHalts(program: seq<Instruction>, st: VmState, fuel: nat)
    requires 0 <= st.ip < |program| && program[st.ip] == Exit
    ensures Transition(program, st).Ok?
    ensures Halted(program, Transition(program, st).value)
    ensures Execute(program, Transition(program, st).value, fuel) == Transition(program, st)
  {
    var next := Transition(program, st).value;
    HaltedIsFixpoint(program, next, fuel);
  }

  /** A halted machine is a fixed point of `step` and of `run`. */
  lemma {:induction false} HaltedIsFixpoint(program: seq<Instruction>, st: VmState, fuel: nat)
    requires Halted(program, st)
    ensures Transition(program, st) == Ok(st)
    ensures Execute(program, st, fuel) == Ok(st)
  {
  }

  /** Running for `a + b` steps is running for `a` steps and then for `b` more. */
  lemma {:induction false} ExecuteSplits(program: seq<Instruction>, st: VmState, a: nat, b: nat)
    ensures Execute(program, st, a + b)
         == match Execute(program, st, a) case Ok(mid) => Execute(program, mid, b) case Err(m) => Err(m)
    decreases a
  {
    if a == 0 {
    } else if Halted(program, st) {
      HaltedIsFixpoint(program, st, b);
    } else {
      match Transition(program, st)
      case Ok(next) =>
        assert Execute(program, st, a + b) == Execute(program, next, (a - 1) + b);
        ExecuteSplits(program, next, a - 1, b);
      case Err(_) =>
    }
  }

  /** The linked `fn main() { return v }` with its bootstrap halts after eight steps with `ip`
      8 and the single result `v` on the stack; `v == 0` is the program `fn main() {}`. */
  lemma ReturnConstantRuns(v: Int32)
    ensures Execute([LoadConstant(0), LoadConstant(4), LoadConstant(5), Jump, Exit,
                     LoadConstant(v), Store(1), Jump], VmState(0, []), 8) == Ok(VmState(8, [v]))
  {
    var p := [LoadConstant(0), LoadConstant(4), LoadConstant(5), Jump, Exit,
              LoadConstant(v), Store(1), Jump];
    var s0, s1, s2, s3 := VmState(0, []), VmState(1, [0]), VmState(2, [4, 0]), VmState(3, [5, 4, 0]);
    var s4, s5, s6, s7 := VmState(5, [4, 0]), VmState(6, [v, 4, 0]), VmState(7, [4, v]), VmState(4, [v]);
    var s8 := VmState(8, [v]);
    assert Transition(p, s7) == Ok(s8);
    assert Execute(p, s7, 1) == Ok(s8);
    assert Transition(p, s6) == Ok(s7) by {
      assert [4, v][1..] == [v];
    }
    assert Execute(p, s6, 2) == Ok(s8);
    assert Transition(p, s5) == Ok(s6) by {
      assert [4, 0][1 := v] == [4, v];
    }
    assert Execute(p, s5, 3) == Ok(s8);
    assert Transition(p, s4) == Ok(s5) by {
      assert [v] + [4, 0] == [v, 4, 0];
    }
    assert Execute(p, s4, 4) == Ok(s8);
    assert Transition(p, s3) == Ok(s4);
    assert Execute(p, s3, 5) == Ok(s8);
    assert Transition(p, s2) == Ok(s3) by {
      assert [5] + [4, 0] == [5, 4, 0];
    }
    assert Execute(p, s2, 6) == Ok(s8);
    assert Transition(p, s1) == Ok(s2) by {
      assert [4] + [0] == [4, 0];
    }
    assert Execute(p, s1, 7) == Ok(s8);
    assert Transition(p, s0) == Ok(s1) by {
      assert [0] + [] == [0];
    }
  }
}
