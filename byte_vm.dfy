/** `ByteCodeVirtualMachine`: runs the byte encoding of a linked program on an
    `ArrayDeque<Int>` whose index 0 is the top of the stack, reading each opcode as a signed
    byte and each operand as a big-endian `Int` through `ByteBuffer.wrap(buffer, ip, 4)`. */
module ByteVm {
  import opened Wrappers
  import opened Int32
  import opened Asm
  import opened Encoder
  import opened ListVm

  /** `byte.toInt()`: Kotlin's `Byte` is signed, so 0x80..0xFF come out negative. */
  function Signed(b: Byte): (v: int)
    ensures -128 <= v < 128
    ensures b < 0x80 ==> v == b
    ensures b >= 0x80 ==> v < 0
  {
    if b < 0x80 then b else b - 0x100
  }

  /** `ByteBuffer.wrap(buffer, at, 4).int`: four bytes big-endian, or an
      `IndexOutOfBoundsException` when fewer than four remain. */
  function ReadInt(buffer: seq<Byte>, at: int): (r: Result<Int32>)
    ensures r.Ok? <==> 0 <= at && at + 4 <= |buffer|
  {
    if 0 <= at && at + 4 <= |buffer| then
      Ok(Int32Of(buffer[at], buffer[at + 1], buffer[at + 2], buffer[at + 3]))
    else Err("Index out of bounds")
  }

  predicate IsArithmetic(code: int) {
    0x30 <= code <= 0x34
  }

  predicate IsComparison(code: int) {
    0x40 <= code <= 0x44
  }

  /** The inner `when (byte.toInt())` of the two operation ranges. */
  function ByteOperation(code: int, left: Int32, right: Int32): Result<Int32>
    requires IsArithmetic(code) || IsComparison(code)
  {
    if code == 0x30 then Ok(KotlinAdd(left, right))
    else if code == 0x31 then Ok(KotlinSub(left, right))
    else if code == 0x32 then Ok(KotlinMul(left, right))
    else if code == 0x33 then KotlinDiv(left, right)
    else if code == 0x34 then KotlinRem(left, right)
    else if code == 0x40 then Ok(Comparison(left == right))
    else if code == 0x41 then Ok(Comparison(left > right))
    else if code == 0x42 then Ok(Comparison(left < right))
    else if code == 0x43 then Ok(Comparison(left >= right))
    else Ok(Comparison(left <= right))
  }

  /** Each operation opcode computes what the instruction-level machine computes for the
      operator the encoder gave that opcode. */
  lemma ByteOperationIsApplyOp(code: int, left: Int32, right: Int32)
    requires IsArithmetic(code) || IsComparison(code)
    ensures OpOfCode(code).Some?
    ensures ByteOperation(code, left, right) == ApplyOp(OpOfCode(code).value, left, right)
  {
  }

  /** `handle(byte)` once `ip` has been advanced past the opcode. */
  function ByteHandle(buffer: seq<Byte>, code: int, st: VmState): Result<VmState> {
    var s := st.stack;
    if code == 0x00 then Ok(st.(ip := |buffer|))
    else if code == 0x01 then
      if s == [] then Err("ArrayDeque is empty.") else Ok(VmState(s[0], s[1..]))
    else if code == 0x02 then
      if |s| < 2 then Err("ArrayDeque is empty.")
      else Ok(VmState(if s[1] == 0 then s[0] else st.ip, s[2..]))
    else if code == 0x10 then
      var v :- ReadInt(buffer, st.ip);
      Ok(VmState(st.ip + 4, [v] + s))
    else if code == 0x11 then
      var k :- ReadInt(buffer, st.ip);
      if 0 <= k < |s| then Ok(VmState(st.ip + 4, [s[k]] + s)) else Err("Index out of bounds")
    else if code == 0x20 then
      var k :- ReadInt(buffer, st.ip);
      if s == [] then Err("ArrayDeque is empty.")
      else if 0 <= k < |s| - 1 then Ok(VmState(st.ip + 4, s[1..][k := s[0]]))
      else Err("Index out of bounds")
    else if code == 0x21 then
      var n :- ReadInt(buffer, st.ip);
      var rest :- PopN(s, n);
      Ok(VmState(st.ip + 4, rest))
    else if IsArithmetic(code) || IsComparison(code) then
      if |s| < 2 then Err("ArrayDeque is empty.")
      else
        var v :- ByteOperation(code, s[0], s[1]);
        Ok(st.(stack := [v] + s[2..]))
    else Err("Unknown operation")
  }

  /** `step`: nothing at or past the end of the buffer; a negative `ip` indexes out of
      bounds. */
  function ByteTransition(buffer: seq<Byte>, st: VmState): Result<VmState> {
    if st.ip >= |buffer| then Ok(st)
    else if st.ip < 0 then Err("Index out of bounds")
    else ByteHandle(buffer, Signed(buffer[st.ip]), st.(ip := st.ip + 1))
  }

  /** `run` with at most `fuel` steps. */
  function ByteExecute(buffer: seq<Byte>, st: VmState, fuel: nat): Result<VmState>
    decreases fuel
  {
    if st.ip >= |buffer| || fuel == 0 then Ok(st)
    else
      var next :- ByteTransition(buffer, st);
      ByteExecute(buffer, next, fuel - 1)
  }

  // ---------------------------------------------------------------------------------------
  // The byte machine decodes, then does what the instruction machine does

  /** A step of the byte machine at `at` is the instruction machine's `handle` of the
      instruction decoded there, resuming at the address after it; where nothing decodes,
      the step fails. */
  lemma {:induction false} ByteStepDecodes(buffer: seq<Byte>, at: nat, stack: seq<Int32>)
    requires at < |buffer|
    ensures Decode(buffer, at).None? ==> ByteTransition(buffer, VmState(at, stack)).Err?
    ensures Decode(buffer, at).Some? ==>
      ByteTransition(buffer, VmState(at, stack))
        == Handle(|buffer|, Decode(buffer, at).value.0, VmState(Decode(buffer, at).value.1, stack))
  {
    var code := buffer[at];
    var st := VmState(at + 1, stack);
    if IsArithmetic(code) || IsComparison(code) {
      ByteOperationIsApplyOp(code, 0, 0);
      if |stack| >= 2 {
        ByteOperationIsApplyOp(code, stack[0], stack[1]);
      }
    }
  }

  /** Whether `handle` succeeds and the stack it leaves do not depend on the program size or
      on where execution resumes. */
  lemma HandleStackIgnoresIp(size1: nat, size2: nat, ins: Instruction, ip1: int, ip2: int,
                             stack: seq<Int32>)
    ensures var r1 := Handle(size1, ins, VmState(ip1, stack));
      var r2 := Handle(size2, ins, VmState(ip2, stack));
      (r1.Ok? <==> r2.Ok?) && (r1.Ok? ==> r1.value.stack == r2.value.stack)
  {
  }

  /** Where `handle` leaves `ip`: at the program size after `Exit`, at the popped address after
      `Jump` or a taken `JumpWhenZero`, and where it was otherwise. */
  lemma HandleResumes(size: nat, ins: Instruction, st: VmState)
    requires Handle(size, ins, st).Ok?
    ensures var ip := Handle(size, ins, st).value.ip;
      && (ins.Exit? ==> ip == size)
      && (ins.Jump? ==> ip == st.stack[0])
      && (ins.JumpWhenZero? ==> ip == if st.stack[1] == 0 then st.stack[0] else st.ip)
      && (!ins.Exit? && !ins.Jump? && !ins.JumpWhenZero? ==> ip == st.ip)
  {
  }

  /** Instruction `i` of a label-free program starts before the end of its encoding, and the
      encoding ends at the address one past the last instruction. */
  lemma AddressWithin(p: seq<Instruction>, i: nat)
    requires LabelFree(p) && i < |p|
    ensures Address(p, i) < Address(p, i + 1) <= Address(p, |p|) == |EncodeAll(p).value|
  {
    SumSizesPrefix(ByteEncoder, p, i);
    assert p[..|p|] == p;
    var rest := p[i + 1..];
    assert p == p[..i + 1] + rest;
    SumSizesAppend(ByteEncoder, p[..i + 1], rest);
  }

  /** On the encoding `b` of a label-free program `p`, the byte machine at the address of
      instruction `i` takes the same step as the instruction machine at index `i`: both fail
      or both succeed with the same stack; falling through lands on the address of
      instruction `i + 1`, `Exit` on the end of the buffer, and a jump on the popped value. */
  lemma StepCorresponds(p: seq<Instruction>, i: nat, stack: seq<Int32>)
    requires LabelFree(p) && i < |p|
    ensures var l := Transition(p, VmState(i, stack));
      var b := ByteTransition(EncodeAll(p).value, VmState(Address(p, i), stack));
      && (l.Ok? <==> b.Ok?)
      && (l.Ok? ==> b.value.stack == l.value.stack)
      && (l.Ok? && !p[i].Jump? && !p[i].JumpWhenZero? ==>
            0 <= l.value.ip <= |p| && b.value.ip == Address(p, l.value.ip))
      && (l.Ok? && p[i].Jump? ==> b.value.ip == l.value.ip)
      && (l.Ok? && p[i].JumpWhenZero? ==>
            (stack[1] == 0 ==> b.value.ip == l.value.ip)
            && (stack[1] != 0 ==> l.value.ip == i + 1 && b.value.ip == Address(p, i + 1)))
  {
    var buffer := EncodeAll(p).value;
    DecodeAtAddress(p, i);
    AddressWithin(p, i);
    ByteStepDecodes(buffer, Address(p, i), stack);
    HandlesCorrespond(|p|, |buffer|, p[i], i + 1, Address(p, i + 1), stack,
      Transition(p, VmState(i, stack)), ByteTransition(buffer, VmState(Address(p, i), stack)));
  }

  /** One instruction handled on two machines that differ only in program size and in where
      the next instruction is: both fail or neither, the stacks agree, and the new counters
      are the two sizes, the same jump target, or the two resume points. */
  lemma HandlesCorrespond(size1: nat, size2: nat, ins: Instruction, ip1: int, ip2: int,
                          stack: seq<Int32>, l: Result<VmState>, b: Result<VmState>)
    requires l == Handle(size1, ins, VmState(ip1, stack))
    requires b == Handle(size2, ins, VmState(ip2, stack))
    ensures l.Ok? <==> b.Ok?
    ensures l.Ok? ==> b.value.stack == l.value.stack
    ensures l.Ok? && ins.Exit? ==> l.value.ip == size1 && b.value.ip == size2
    ensures l.Ok? && (ins.Jump? || (ins.JumpWhenZero? && stack[1] == 0)) ==> b.value.ip == l.value.ip
    ensures l.Ok? && !ins.Exit? && !ins.Jump? && !(ins.JumpWhenZero? && stack[1] == 0) ==>
      l.value.ip == ip1 && b.value.ip == ip2
  {
    HandleStackIgnoresIp(size1, size2, ins, ip1, ip2, stack);
    if l.Ok? {
      HandleResumes(size1, ins, VmState(ip1, stack));
      HandleResumes(size2, ins, VmState(ip2, stack));
    }
  }

  // ---------------------------------------------------------------------------------------
  // The machine as the source runs it

  class ByteCodeVirtualMachine {
    const buffer: seq<Byte>
    var stack: seq<Int32>
    var ip: int

    function State(): VmState
      reads this
    {
      VmState(ip, stack)
    }

    constructor (buffer: seq<Byte>)
      ensures this.buffer == buffer && State() == VmState(0, [])
    {
      this.buffer := buffer;
      stack := [];
      ip := 0;
    }

    /** `stack.removeFirst()`. */
    method PopValue() returns (r: Result<Int32>)
      modifies this
      ensures ip == old(ip)
      ensures r.Ok? <==> old(stack) != []
      ensures r.Ok? ==> r.value == old(stack)[0] && stack == old(stack)[1..]
    {
      if stack == [] {
        return Err("ArrayDeque is empty.");
      }
      r := Ok(stack[0]);
      stack := stack[1..];
    }

    method Step() returns (r: Outcome)
      modifies this
      ensures r.Pass? <==> ByteTransition(buffer, old(State())).Ok?
      ensures r.Pass? ==> State() == ByteTransition(buffer, old(State())).value
    {
      if ip >= |buffer| {
        return Pass;
      }
      if ip < 0 {
        return Fail("Index out of bounds");
      }
      r := HandleByte(buffer[ip]);
    }

    method HandleByte(byte: Byte) returns (r: Outcome)
      requires 0 <= ip < |buffer| && buffer[ip] == byte
      modifies this
      ensures r.Pass? <==> ByteTransition(buffer, old(State())).Ok?
      ensures r.Pass? ==> State() == ByteTransition(buffer, old(State())).value
    {
      ip := ip + 1;
      var code := Signed(byte);
      if code == 0x00 {
        ip := |buffer|;
      } else if code == 0x01 {
        var target := PopValue();
        if target.Err? {
          return Fail(target.message);
        }
        ip := target.value;
      } else if code == 0x02 {
        var address := PopValue();
        if address.Err? {
          return Fail(address.message);
        }
        var condition := PopValue();
        if condition.Err? {
          return Fail(condition.message);
        }
        if condition.value == 0 {
          ip := address.value;
        }
      } else if code == 0x10 || code == 0x11 || code == 0x20 || code == 0x21 {
        var operand := ReadInt(buffer, ip);
        if operand.Err? {
          return Fail(operand.message);
        }
        r := HandleOperand(code, operand.value);
        return;
      } else if IsArithmetic(code) || IsComparison(code) {
        var left := PopValue();
        if left.Err? {
          return Fail(left.message);
        }
        var right := PopValue();
        if right.Err? {
          return Fail(right.message);
        }
        var result := ByteOperation(code, left.value, right.value);
        if result.Err? {
          return Fail(result.message);
        }
        stack := [result.value] + stack;
      } else {
        return Fail("Unknown operation");
      }
      return Pass;
    }

    /** The four opcodes with an operand, once it has been read at `ip`. */
    method HandleOperand(code: int, operand: Int32) returns (r: Outcome)
      requires code == 0x10 || code == 0x11 || code == 0x20 || code == 0x21
      requires ReadInt(buffer, ip) == Ok(operand)
      modifies this
      ensures r.Pass? <==> ByteHandle(buffer, code, old(State())).Ok?
      ensures r.Pass? ==> State() == ByteHandle(buffer, code, old(State())).value
    {
      if code == 0x10 {
        stack := [operand] + stack;
      } else if code == 0x11 {
        if !(0 <= operand < |stack|) {
          return Fail("Index out of bounds");
        }
        stack := [stack[operand]] + stack;
      } else if code == 0x20 {
        var value := PopValue();
        if value.Err? {
          return Fail(value.message);
        }
        if !(0 <= operand < |stack|) {
          return Fail("Index out of bounds");
        }
        stack := stack[operand := value.value];
      } else {
        var i := 0;
        while i < operand
          invariant 0 <= i <= if operand < 0 then 0 else operand
          invariant ip == old(ip)
          invariant i <= |old(stack)| && stack == old(stack)[i..]
        {
          var v := PopValue();
          if v.Err? {
            return Fail(v.message);
          }
          i := i + 1;
        }
      }
      ip := ip + 4;
      return Pass;
    }

    /** `run`, stopped after `fuel` steps. */
    method Run(fuel: nat) returns (r: Outcome)
      modifies this
      ensures r.Pass? <==> ByteExecute(buffer, old(State()), fuel).Ok?
      ensures r.Pass? ==> State() == ByteExecute(buffer, old(State()), fuel).value
    {
      var steps := 0;
      while ip < |buffer| && steps < fuel
        invariant 0 <= steps <= fuel
        invariant ByteExecute(buffer, old(State()), fuel) == ByteExecute(buffer, State(), fuel - steps)
        decreases fuel - steps
      {
        r := Step();
        if r.Fail? {
          return;
        }
        steps := steps + 1;
      }
      return Pass;
    }
  }
}
