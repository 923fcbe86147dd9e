/** The prototype virtual machine: an `ArrayStack` whose top is the last element, and a
    machine that runs an `ArrayProgram` one instruction at a time until the instruction
    counter leaves the program. Kotlin `Int` arithmetic wraps. */
module PrototypeVm {
  import opened Wrappers
  import opened Int32
  import opened InstructionSet

  /** The message of `ArrayDeque.removeLast` on an empty deque. */
  const EmptyStack := "ArrayDeque is empty."

  // ---------------------------------------------------------------------------------------
  // The stack as a value; the top is the last element

  function Pushed(s: seq<Int32>, v: Int32): seq<Int32> {
    s + [v]
  }

  /** `pop`: the top and the remaining stack, failing on an empty stack. */
  function Popped(s: seq<Int32>): (r: Result<(Int32, seq<Int32>)>)
    ensures r.Ok? <==> s != []
    ensures r.Ok? ==> r.value.1 + [r.value.0] == s
  {
    if s == [] then Err(EmptyStack) else Ok((s[|s| - 1], s[..|s| - 1]))
  }

  /** `get(offset)`: the element `offset` places below the top, failing outside the stack. */
  function ElementAt(s: seq<Int32>, offset: int): (r: Result<Int32>)
    ensures r.Ok? <==> 0 <= offset < |s|
  {
    var index := |s| - 1 - offset;
    if 0 <= index < |s| then Ok(s[index]) else Err("Index out of bounds")
  }

  /** `push` grows the stack by one, `pop` then returns the value pushed and the stack as it
      was, `peek` sees the value pushed, and every older element moves one place deeper. */
  lemma PushThenPop(s: seq<Int32>, v: Int32, k: int)
    ensures |Pushed(s, v)| == |s| + 1
    ensures Popped(Pushed(s, v)) == Ok((v, s))
    ensures ElementAt(Pushed(s, v), 0) == Ok(v)
    ensures 0 <= k ==> ElementAt(Pushed(s, v), k + 1) == ElementAt(s, k)
  {
    assert Pushed(s, v)[..|s|] == s;
  }

  // ---------------------------------------------------------------------------------------
  // The machine as a value

  datatype ProtoState = ProtoState(counter: int, stack: seq<Int32>)

  /** `canContinue`: an instruction exists at the counter. */
  predicate CanContinue(p: ArrayProgram, counter: int) {
    Get(p, counter).Some?
  }

  /** `step`: past the end nothing happens; otherwise the counter moves on and the instruction
      runs. A pop of an empty stack fails. Every step that runs moves the counter forward. */
  function Transition(p: ArrayProgram, st: ProtoState): (r: Result<ProtoState>)
    ensures r.Ok? && CanContinue(p, st.counter) ==> st.counter < r.value.counter <= Size(p)
  {
    match Get(p, st.counter)
    case None => Ok(st)
    case Some(ins) =>
      var c := st.counter + 1;
      match ins
      case Push(v) => Ok(ProtoState(c, Pushed(st.stack, v)))
      case Pop =>
        var (_, s) :- Popped(st.stack);
        Ok(ProtoState(c, s))
      case Swap =>
        var (a, s1) :- Popped(st.stack);
        var (b, s2) :- Popped(s1);
        Ok(ProtoState(c, Pushed(Pushed(s2, a), b)))
      case Add =>
        var (a, s1) :- Popped(st.stack);
        var (b, s2) :- Popped(s1);
        Ok(ProtoState(c, Pushed(s2, KotlinAdd(a, b))))
      case Subtract =>
        var (a, s1) :- Popped(st.stack);
        var (b, s2) :- Popped(s1);
        Ok(ProtoState(c, Pushed(s2, KotlinSub(a, b))))
      case Halt => Ok(ProtoState(Size(p), st.stack))
  }

  /** `execute`: step while an instruction exists. No instruction moves the counter back, so
      every run ends, and it ends where no instruction can continue. */
  function Run(p: ArrayProgram, st: ProtoState): (r: Result<ProtoState>)
    ensures r.Ok? ==> !CanContinue(p, r.value.counter)
    decreases if CanContinue(p, st.counter) then Size(p) - st.counter else 0
  {
    if !CanContinue(p, st.counter) then Ok(st)
    else
      var next :- Transition(p, st);
      Run(p, next)
  }

  // ---------------------------------------------------------------------------------------
  // Properties

  lemma StepPastEnd(p: ArrayProgram, st: ProtoState)
    requires !CanContinue(p, st.counter)
    ensures Transition(p, st) == Ok(st) && Run(p, st) == Ok(st)
  {
  }

  /** `Push` pushes its value; `Pop` discards the top and fails on an empty stack. */
  lemma PushAndPop(p: ArrayProgram, st: ProtoState)
    requires CanContinue(p, st.counter)
    ensures p.instructions[st.counter].Push? ==>
      Transition(p, st) == Ok(ProtoState(st.counter + 1, st.stack + [p.instructions[st.counter].value]))
    ensures p.instructions[st.counter] == Pop ==>
      (Transition(p, st).Ok? <==> st.stack != []) &&
      (st.stack != [] ==> Transition(p, st) == Ok(ProtoState(st.counter + 1, st.stack[..|st.stack| - 1])))
  {
  }

  /** `Swap` exchanges the two top values; `Add` pushes top + second and `Subtract` pushes
      top - second in place of both; each fails with fewer than two values. */
  lemma TwoOperandInstructions(p: ArrayProgram, st: ProtoState, s: seq<Int32>, second: Int32, top: Int32)
    requires CanContinue(p, st.counter) && st.stack == s + [second, top]
    ensures p.instructions[st.counter] == Swap ==>
      Transition(p, st) == Ok(ProtoState(st.counter + 1, s + [top, second]))
    ensures p.instructions[st.counter] == Add ==>
      Transition(p, st) == Ok(ProtoState(st.counter + 1, s + [Wrap(top + second)]))
    ensures p.instructions[st.counter] == Subtract ==>
      Transition(p, st) == Ok(ProtoState(st.counter + 1, s + [Wrap(top - second)]))
  {
    assert (s + [second, top])[..|s| + 1] == s + [second];
    assert (s + [second])[..|s|] == s;
    assert Pushed(Pushed(s, top), second) == s + [top, second];
  }

  lemma TwoOperandsNeeded(p: ArrayProgram, st: ProtoState)
    requires CanContinue(p, st.counter) && |st.stack| < 2
    requires p.instructions[st.counter] in {Swap, Add, Subtract}
    ensures Transition(p, st) == Err(EmptyStack)
  {
    assert Get(p, st.counter) == Some(p.instructions[st.counter]);
    if st.stack != [] {
      assert Popped(st.stack) == Ok((st.stack[0], []));
    }
  }

  /** `Halt` moves the counter to the program size, after which nothing can continue and the
      run ends with the stack as it is. */
  lemma HaltStops(p: ArrayProgram, st: ProtoState)
    requires CanContinue(p, st.counter) && p.instructions[st.counter] == Halt
    ensures Transition(p, st) == Ok(ProtoState(Size(p), st.stack))
    ensures Run(p, st) == Ok(ProtoState(Size(p), st.stack))
  {
    assert !CanContinue(p, Size(p));
  }

  /** A run that can continue is the run from the state after one step. */
  lemma RunSteps(p: ArrayProgram, st: ProtoState, next: ProtoState)
    requires CanContinue(p, st.counter) && Transition(p, st) == Ok(next)
    ensures Run(p, st) == Run(p, next)
  {
  }

  /** `[Push 1, Push 2, Add, Halt]` ends with 3 on top. */
  lemma AdditionExample()
    ensures var r := Run(ProgramOf([Push(1), Push(2), Add, Halt]), ProtoState(0, []));
      r == Ok(ProtoState(4, [3])) && ElementAt(r.value.stack, 0) == Ok(3)
  {
    var p := ProgramOf([Push(1), Push(2), Add, Halt]);
    var s0, s1, s2, s3 := ProtoState(0, []), ProtoState(1, [1]), ProtoState(2, [1, 2]), ProtoState(3, [3]);
    assert Transition(p, s0) == Ok(s1) by {
      assert Pushed([], 1) == [1];
    }
    assert Transition(p, s1) == Ok(s2) by {
      assert Pushed([1], 2) == [1, 2];
    }
    assert Transition(p, s2) == Ok(s3) by {
      assert [1, 2] == [] + [1, 2];
      TwoOperandInstructions(p, s2, [], 1, 2);
      assert p.instructions[2] == Add;
      assert Wrap(2 + 1) == 3 && [] + [3] == [3];
    }
    RunSteps(p, s0, s1);
    RunSteps(p, s1, s2);
    RunSteps(p, s2, s3);
    HaltStops(p, s3);
  }

  // ---------------------------------------------------------------------------------------
  // `ArrayStack` as the source runs it

  class ArrayStack {
    var elements: seq<Int32>

    constructor ()
      ensures elements == []
    {
      elements := [];
    }

    method Get(offset: int) returns (r: Result<Int32>)
      ensures r == ElementAt(elements, offset)
    {
      var index := |elements| - 1 - offset;
      if index < 0 || index >= |elements| {
        return Err("Index out of bounds");
      }
      return Ok(elements[index]);
    }

    method Push(value: Int32)
      modifies this
      ensures elements == Pushed(old(elements), value)
    {
      elements := elements + [value];
    }

    method Pop() returns (r: Result<Int32>)
      modifies this
      ensures Popped(old(elements)).Ok? <==> r.Ok?
      ensures r.Ok? ==> (r.value, elements) == Popped(old(elements)).value
      ensures r.Err? ==> r.message == EmptyStack && elements == old(elements)
    {
      if elements == [] {
        return Err(EmptyStack);
      }
      r := Ok(elements[|elements| - 1]);
      elements := elements[..|elements| - 1];
    }

    method Peek() returns (r: Result<Int32>)
      ensures r == ElementAt(elements, 0)
    {
      r := Get(0);
    }
  }

  // ---------------------------------------------------------------------------------------
  // The machine as the source runs it

  class VirtualMachine {
    const program: ArrayProgram
    const stack: ArrayStack
    var instructionCounter: int

    function State(): ProtoState
      reads this, stack
    {
      ProtoState(instructionCounter, stack.elements)
    }

    constructor (program: ArrayProgram, stack: ArrayStack)
      ensures this.program == program && this.stack == stack && instructionCounter == 0
    {
      this.program := program;
      this.stack := stack;
      instructionCounter := 0;
    }

    method CanContinueNow() returns (r: bool)
      ensures r == CanContinue(program, instructionCounter)
    {
      r := Get(program, instructionCounter).Some?;
    }

    /** `step`; a pop of an empty stack aborts it with the counter already moved on. */
    method Step() returns (r: Outcome)
      modifies this, stack
      ensures r.Pass? <==> Transition(program, old(State())).Ok?
      ensures r.Pass? ==> State() == Transition(program, old(State())).value
    {
      var next := Get(program, instructionCounter);
      if next.None? {
        return Pass;
      }
      var instruction := next.value;
      match instruction {
        case Push(v) =>
          instructionCounter := instructionCounter + 1;
          stack.Push(v);
        case Pop =>
          instructionCounter := instructionCounter + 1;
          var a := stack.Pop();
          if a.Err? {
            return Fail(a.message);
          }
        case Swap => r := TwoOperandStep(instruction); return;
        case Add => r := TwoOperandStep(instruction); return;
        case Subtract => r := TwoOperandStep(instruction); return;
        case Halt =>
          instructionCounter := Size(program);
      }
      return Pass;
    }

    /** `execute`: step while an instruction exists at the counter; a failing step aborts
        the run. */
    method Execute() returns (r: Outcome)
      modifies this, stack
      ensures r.Pass? <==> Run(program, old(State())).Ok?
      ensures r.Pass? ==> State() == Run(program, old(State())).value
    {
      var more := CanContinueNow();
      while more
        invariant more == CanContinue(program, instructionCounter)
        invariant Run(program, old(State())) == Run(program, State())
        decreases if more then Size(program) - instructionCounter else 0
      {
        ghost var before := State();
        r := Step();
        if r.Fail? {
          return;
        }
        RunSteps(program, before, State());
        more := CanContinueNow();
      }
      return Pass;
    }

    /** `Swap`, `Add` and `Subtract`: pop the top and the one below it, push the result. */
    method TwoOperandStep(instruction: Instr) returns (r: Outcome)
      requires Get(program, instructionCounter) == Some(instruction)
      requires instruction.Swap? || instruction.Add? || instruction.Subtract?
      modifies this, stack
      ensures r.Pass? <==> Transition(program, old(State())).Ok?
      ensures r.Pass? ==> State() == Transition(program, old(State())).value
    {
      instructionCounter := instructionCounter + 1;
      var ab := PopTwo();
      if ab.Err? {
        return Fail(ab.message);
      }
      match instruction {
        case Swap =>
          stack.Push(ab.value.0);
          stack.Push(ab.value.1);
        case Add =>
          stack.Push(KotlinAdd(ab.value.0, ab.value.1));
        case Subtract =>
          stack.Push(KotlinSub(ab.value.0, ab.value.1));
      }
      return Pass;
    }

    /** The two pops of a two-operand instruction: the top, then the one below it. */
    method PopTwo() returns (r: Result<(Int32, Int32)>)
      modifies stack
      ensures var p1 := Popped(old(stack.elements));
        r.Ok? <==> p1.Ok? && Popped(p1.value.1).Ok?
      ensures var p1 := Popped(old(stack.elements));
        r.Ok? ==> p1.Ok? && r.value == (p1.value.0, Popped(p1.value.1).value.0)
                  && stack.elements == Popped(p1.value.1).value.1
    {
      var a := stack.Pop();
      if a.Err? {
        return Err(a.message);
      }
      var b := stack.Pop();
      if b.Err? {
        return Err(b.message);
      }
      return Ok((a.value, b.value));
    }
  }
}
