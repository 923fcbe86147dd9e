/** The Rust port of the byte-code machine (`VM` in `rust-vm`): a `usize` instruction pointer
    and a `Vec<i32>` stack whose LAST element is the top. Integer overflow is modelled as in a
    debug build, where it panics; every panic is an `Err`. */
module RustVm {
  import opened Wrappers
  import opened Int32
  import opened Encoder
  import opened ListVm
  import opened ByteVm

  const USIZE_MODULUS: int := 0x1_0000_0000_0000_0000

  /** A `Vec<i32>` holds at most `isize::MAX` bytes, so fewer than 2^61 elements; a code
      buffer is a `Vec<u8>` of fewer than 2^63 bytes. */
  const MAX_STACK: int := 0x2000_0000_0000_0000
  const MAX_CODE: int := 0x8000_0000_0000_0000

  /** `v as usize`: a negative `i32` is sign-extended, so it becomes `2^64 + v`. */
  function AsUsize(v: int): (u: nat)
    requires MIN <= v
    ensures v >= 0 ==> u == v
    ensures v < 0 ==> u >= USIZE_MODULUS + MIN
  {
    if v >= 0 then v else v + USIZE_MODULUS
  }

  datatype RustState = RustState(ip: nat, stack: seq<Int32>)

  /** `get_i32` reads `code[ip..ip + 4]` big-endian; indexing past the end panics. */
  function GetI32(code: seq<Byte>, ip: nat): (r: Result<Int32>)
    ensures r.Ok? <==> ip + 4 <= |code|
    ensures r.Ok? ==> r == ReadInt(code, ip)
  {
    if ip + 4 <= |code| then Ok(Int32Of(code[ip], code[ip + 1], code[ip + 2], code[ip + 3]))
    else Err("index out of bounds")
  }

  /** `self.stack.pop().expect("Stack underflow")`, from the end of the vector. */
  function PopBack(stack: seq<Int32>): (r: Result<(Int32, seq<Int32>)>)
    ensures r.Ok? <==> stack != []
    ensures r.Ok? ==> r.value == (stack[|stack| - 1], stack[..|stack| - 1])
  {
    if stack == [] then Err("Stack underflow") else Ok((stack[|stack| - 1], stack[..|stack| - 1]))
  }

  /** `self.stack.push(v)`: growing past the largest vector the allocator allows panics with
      "capacity overflow". */
  function PushBack(stack: seq<Int32>, v: Int32): (r: Result<seq<Int32>>)
    ensures r.Ok? <==> |stack| + 1 < MAX_STACK
    ensures r.Ok? ==> r.value == stack + [v]
  {
    if |stack| + 1 < MAX_STACK then Ok(stack + [v]) else Err("capacity overflow")
  }

  /** `for _ in 0..repeats { pop }`: nothing for a count of zero or less. */
  function PopBackN(stack: seq<Int32>, n: int): (r: Result<seq<Int32>>)
    ensures r.Ok? <==> n <= |stack|
    ensures r.Ok? ==> r.value == if n <= 0 then stack else stack[..|stack| - n]
  {
    if n <= 0 then Ok(stack)
    else if n > |stack| then Err("Stack underflow")
    else Ok(stack[..|stack| - n])
  }

  /** `self.stack.len() - offset as usize - 1`, which underflows, and so panics, unless the
      offset is a depth within the stack. */
  function DepthIndex(len: nat, offset: Int32): (r: Result<nat>)
    requires len < MAX_STACK
    ensures r.Ok? <==> 0 <= offset < len
    ensures r.Ok? ==> r.value == len - 1 - offset
  {
    var u := AsUsize(offset);
    if u > len then Err("attempt to subtract with overflow")
    else if u + 1 > len then Err("attempt to subtract with overflow")
    else Ok(len - u - 1)
  }

  /** The inner `match code` of the two operation ranges, with checked arithmetic. */
  function RustOperation(code: int, left: Int32, right: Int32): Result<Int32>
    requires IsArithmetic(code) || IsComparison(code)
  {
    if code == 0x30 then Checked(left + right)
    else if code == 0x31 then Checked(left - right)
    else if code == 0x32 then Checked(left * right)
    else if code == 0x33 then RustDiv(left, right)
    else if code == 0x34 then RustRem(left, right)
    else if code == 0x40 then Ok(Comparison(left == right))
    else if code == 0x41 then Ok(Comparison(left > right))
    else if code == 0x42 then Ok(Comparison(left < right))
    else if code == 0x43 then Ok(Comparison(left >= right))
    else Ok(Comparison(left <= right))
  }

  /** Where the checked operation does not panic, the wrapping Kotlin one gives the same
      value; comparisons never panic. */
  lemma RustOperationAgrees(code: int, left: Int32, right: Int32)
    requires IsArithmetic(code) || IsComparison(code)
    ensures IsComparison(code) ==> RustOperation(code, left, right).Ok?
    ensures RustOperation(code, left, right).Ok? ==>
      ByteOperation(code, left, right) == RustOperation(code, left, right)
  {
    if code == 0x33 && RustDiv(left, right).Ok? {
      KotlinAgreesWithRustDiv(left, right);
    }
    if code == 0x34 && RustRem(left, right).Ok? {
      KotlinAgreesWithRustRem(left, right);
    }
  }

  /** The body of `step` after `self.ip += 1`. */
  function RustHandle(code: seq<Byte>, op: Byte, st: RustState): (r: Result<RustState>)
    requires |st.stack| < MAX_STACK
    ensures r.Ok? ==> |r.value.stack| < MAX_STACK
  {
    var s := st.stack;
    if op == 0x00 then Ok(st.(ip := |code|))
    else if op == 0x01 then
      var (v, rest) :- PopBack(s);
      Ok(RustState(AsUsize(v), rest))
    else if op == 0x02 then
      var (address, s1) :- PopBack(s);
      var (result, s2) :- PopBack(s1);
      Ok(RustState(if result == 0 then AsUsize(address) else st.ip, s2))
    else if op == 0x10 then
      var v :- GetI32(code, st.ip);
      var pushed :- PushBack(s, v);
      Ok(RustState(st.ip + 4, pushed))
    else if op == 0x11 then
      var offset :- GetI32(code, st.ip);
      var at :- DepthIndex(|s|, offset);
      var pushed :- PushBack(s, s[at]);
      Ok(RustState(st.ip + 4, pushed))
    else if op == 0x20 then
      var offset :- GetI32(code, st.ip);
      var (value, rest) :- PopBack(s);
      var at :- DepthIndex(|rest|, offset);
      Ok(RustState(st.ip + 4, rest[at := value]))
    else if op == 0x21 then
      var repeats :- GetI32(code, st.ip);
      var rest :- PopBackN(s, repeats);
      Ok(RustState(st.ip + 4, rest))
    else if IsArithmetic(op) || IsComparison(op) then
      var (left, s1) :- PopBack(s);
      var (right, s2) :- PopBack(s1);
      var v :- RustOperation(op, left, right);
      var pushed :- PushBack(s2, v);
      Ok(st.(stack := pushed))
    else Err("Unknown opcode")
  }

  /** `step`: nothing at or past the end of the code. */
  function RustStep(code: seq<Byte>, st: RustState): (r: Result<RustState>)
    requires |st.stack| < MAX_STACK
    ensures r.Ok? ==> |r.value.stack| < MAX_STACK
  {
    if st.ip >= |code| then Ok(st)
    else RustHandle(code, code[st.ip], st.(ip := st.ip + 1))
  }

  /** `run` with at most `fuel` steps. */
  function RustExecute(code: seq<Byte>, st: RustState, fuel: nat): (r: Result<RustState>)
    requires |st.stack| < MAX_STACK
    ensures r.Ok? ==> |r.value.stack| < MAX_STACK
    decreases fuel
  {
    if st.ip >= |code| || fuel == 0 then Ok(st)
    else
      var next :- RustStep(code, st);
      RustExecute(code, next, fuel - 1)
  }

  /** `get_result`: the top of the stack, the last element of the vector. */
  function ResultOf(st: RustState): (r: Result<Int32>)
    ensures r.Ok? <==> st.stack != []
    ensures r.Ok? ==> r.value == st.stack[|st.stack| - 1]
  {
    if st.stack == [] then Err("Stack underflow") else Ok(st.stack[|st.stack| - 1])
  }

  // ---------------------------------------------------------------------------------------
  // Refinement of the Kotlin byte machine

  /** The Rust vector holds the Kotlin deque back to front. */
  function Reverse(s: seq<Int32>): (r: seq<Int32>)
    ensures |r| == |s| && forall i :: 0 <= i < |s| ==> r[i] == s[|s| - 1 - i]
  {
    seq(|s|, i requires 0 <= i < |s| => s[|s| - 1 - i])
  }

  lemma ReversePush(v: Int32, s: seq<Int32>)
    ensures Reverse([v] + s) == Reverse(s) + [v]
  {
  }

  lemma ReverseDrop(s: seq<Int32>, n: nat)
    requires n <= |s|
    ensures Reverse(s)[..|s| - n] == Reverse(s[n..])
  {
  }

  lemma ReverseUpdate(s: seq<Int32>, k: nat, v: Int32)
    requires k < |s|
    ensures Reverse(s[k := v]) == Reverse(s)[|s| - 1 - k := v]
  {
  }

  /** Reading the vector back to front twice gives the deque back. */
  lemma {:induction false} ReverseInvolution(s: seq<Int32>)
    ensures Reverse(Reverse(s)) == s
  {
    var r := Reverse(Reverse(s));
    assert |r| == |s|;
    forall i | 0 <= i < |s|
      ensures r[i] == s[i]
    {
      assert r[i] == Reverse(s)[|s| - 1 - i];
    }
  }

  /** The stack operations of the Rust machine on the reversed deque are the Kotlin ones:
      `pop` takes the deque's top, `push` puts a value on top, `Pop(n)` drops the top n
      values and `get_result` reads the top, each failing exactly when the Kotlin one does. */
  lemma RustStackMirrorsDeque(s: seq<Int32>, v: Int32, n: int, ip: nat)
    ensures PopBack(Reverse(s)).Ok? <==> s != []
    ensures s != [] ==> PopBack(Reverse(s)).value == (s[0], Reverse(s[1..]))
    ensures PushBack(Reverse(s), v).Ok? ==> PushBack(Reverse(s), v).value == Reverse([v] + s)
    ensures PopBackN(Reverse(s), n).Ok? <==> PopN(s, n).Ok?
    ensures PopN(s, n).Ok? ==> PopBackN(Reverse(s), n).value == Reverse(PopN(s, n).value)
    ensures ResultOf(RustState(ip, Reverse(s))).Ok? <==> s != []
    ensures s != [] ==> ResultOf(RustState(ip, Reverse(s))).value == s[0]
  {
    ReversePush(v, s);
    if s != [] {
      ReverseDrop(s, 1);
    }
    if 0 < n <= |s| {
      ReverseDrop(s, n);
    }
  }

  /** The Rust state mirrors the Kotlin one: the same instruction pointer, read as a `usize`,
      and the same values with the top at the other end. */
  predicate Mirrors(k: VmState, r: RustState) {
    MIN <= k.ip && r.ip == AsUsize(k.ip) && r.stack == Reverse(k.stack)
  }

  /** A Rust step that does not panic takes the mirrored Kotlin state to the mirror of its own
      result; where only the Rust step panics, the opcode is an arithmetic one whose checked
      operation overflowed. */
  lemma RustRefinesByteVm(code: seq<Byte>, k: VmState, r: RustState)
    requires |code| < MAX_CODE && |r.stack| + 1 < MAX_STACK
    requires Mirrors(k, r) && k.ip >= 0
    ensures RustStep(code, r).Ok? ==>
      ByteTransition(code, k).Ok? && Mirrors(ByteTransition(code, k).value, RustStep(code, r).value)
    ensures ByteTransition(code, k).Ok? && RustStep(code, r).Err? ==>
      && k.ip < |code| && IsArithmetic(code[k.ip]) && |k.stack| >= 2
      && RustOperation(code[k.ip], k.stack[0], k.stack[1]).Err?
  {
    if k.ip < |code| {
      var op := code[k.ip];
      var k', r' := k.(ip := k.ip + 1), r.(ip := r.ip + 1);
      assert Signed(op) == op || (op >= 0x80 && Signed(op) < 0);
      if op == 0x10 || op == 0x11 || op == 0x20 || op == 0x21 {
        HandleWithOperandRefines(code, op, k', r');
      } else if IsArithmetic(op) || IsComparison(op) {
        HandleOperationRefines(code, op, k', r');
      }
    }
  }

  /** `RustRefinesByteVm` for the four opcodes that read an operand. */
  lemma HandleWithOperandRefines(code: seq<Byte>, op: Byte, k: VmState, r: RustState)
    requires op == 0x10 || op == 0x11 || op == 0x20 || op == 0x21
    requires |code| < MAX_CODE && |r.stack| + 1 < MAX_STACK
    requires Mirrors(k, r) && k.ip >= 0
    ensures RustHandle(code, op, r).Ok? ==>
      ByteHandle(code, op, k).Ok? && Mirrors(ByteHandle(code, op, k).value, RustHandle(code, op, r).value)
    ensures ByteHandle(code, op, k).Ok? ==> RustHandle(code, op, r).Ok?
  {
    if op == 0x10 {
      LoadConstantRefines(code, op, k, r);
    } else if op == 0x11 {
      LoadRelativeRefines(code, op, k, r);
    } else if op == 0x20 {
      StoreRefines(code, op, k, r);
    } else {
      PopRefines(code, op, k, r);
    }
  }

  lemma LoadConstantRefines(code: seq<Byte>, op: Byte, k: VmState, r: RustState)
    requires op == 0x10
    requires |code| < MAX_CODE && |r.stack| + 1 < MAX_STACK
    requires Mirrors(k, r) && k.ip >= 0
    ensures RustHandle(code, op, r).Ok? ==>
      ByteHandle(code, op, k).Ok? && Mirrors(ByteHandle(code, op, k).value, RustHandle(code, op, r).value)
    ensures ByteHandle(code, op, k).Ok? ==> RustHandle(code, op, r).Ok?
  {
    if ReadInt(code, k.ip).Ok? {
      ReversePush(ReadInt(code, k.ip).value, k.stack);
    }
  }

  lemma LoadRelativeRefines(code: seq<Byte>, op: Byte, k: VmState, r: RustState)
    requires op == 0x11
    requires |code| < MAX_CODE && |r.stack| + 1 < MAX_STACK
    requires Mirrors(k, r) && k.ip >= 0
    ensures RustHandle(code, op, r).Ok? ==>
      ByteHandle(code, op, k).Ok? && Mirrors(ByteHandle(code, op, k).value, RustHandle(code, op, r).value)
    ensures ByteHandle(code, op, k).Ok? ==> RustHandle(code, op, r).Ok?
  {
    var s := k.stack;
    if ReadInt(code, k.ip).Ok? {
      var operand := ReadInt(code, k.ip).value;
      if 0 <= operand < |s| {
        ReversePush(s[operand], s);
      }
    }
  }

  lemma StoreRefines(code: seq<Byte>, op: Byte, k: VmState, r: RustState)
    requires op == 0x20
    requires |code| < MAX_CODE && |r.stack| + 1 < MAX_STACK
    requires Mirrors(k, r) && k.ip >= 0
    ensures RustHandle(code, op, r).Ok? ==>
      ByteHandle(code, op, k).Ok? && Mirrors(ByteHandle(code, op, k).value, RustHandle(code, op, r).value)
    ensures ByteHandle(code, op, k).Ok? ==> RustHandle(code, op, r).Ok?
  {
    var s := k.stack;
    if ReadInt(code, k.ip).Ok? && s != [] {
      var operand := ReadInt(code, k.ip).value;
      ReverseDrop(s, 1);
      if 0 <= operand < |s| - 1 {
        ReverseUpdate(s[1..], operand, s[0]);
      }
    }
  }

  lemma PopRefines(code: seq<Byte>, op: Byte, k: VmState, r: RustState)
    requires op == 0x21
    requires |code| < MAX_CODE && |r.stack| + 1 < MAX_STACK
    requires Mirrors(k, r) && k.ip >= 0
    ensures RustHandle(code, op, r).Ok? ==>
      ByteHandle(code, op, k).Ok? && Mirrors(ByteHandle(code, op, k).value, RustHandle(code, op, r).value)
    ensures ByteHandle(code, op, k).Ok? ==> RustHandle(code, op, r).Ok?
  {
    var s := k.stack;
    if ReadInt(code, k.ip).Ok? {
      var operand := ReadInt(code, k.ip).value;
      if 0 < operand <= |s| {
        ReverseDrop(s, operand);
      }
    }
  }

  /** `RustRefinesByteVm` for the arithmetic and comparison opcodes. */
  lemma HandleOperationRefines(code: seq<Byte>, op: Byte, k: VmState, r: RustState)
    requires IsArithmetic(op) || IsComparison(op)
    requires |code| < MAX_CODE && |r.stack| + 1 < MAX_STACK
    requires Mirrors(k, r) && k.ip >= 0
    ensures RustHandle(code, op, r).Ok? ==>
      ByteHandle(code, op, k).Ok? && Mirrors(ByteHandle(code, op, k).value, RustHandle(code, op, r).value)
    ensures ByteHandle(code, op, k).Ok? && RustHandle(code, op, r).Err? ==>
      IsArithmetic(op) && |k.stack| >= 2 && RustOperation(op, k.stack[0], k.stack[1]).Err?
  {
    var s := k.stack;
    if |s| >= 2 {
      ReverseDrop(s, 1);
      ReverseDrop(s, 2);
      assert r.stack[..|s| - 1][..|s| - 2] == r.stack[..|s| - 2];
      RustOperationAgrees(op, s[0], s[1]);
      var v := RustOperation(op, s[0], s[1]);
      if v.Ok? {
        ReversePush(v.value, s[2..]);
      }
    }
  }

  /** The two machines part ways on a jump to a negative address: the Kotlin machine then
      fails indexing the buffer, while the Rust machine reads the address as a huge `usize`
      and halts. */
  lemma NegativeJumpDiverges(code: seq<Byte>, target: Int32, s: seq<Int32>)
    requires 0 < |code| < MAX_CODE && code[0] == 0x01 && target < 0 && |s| + 1 < MAX_STACK
    ensures var k := ByteTransition(code, VmState(0, [target] + s));
      k == Ok(VmState(target, s)) && ByteTransition(code, k.value).Err?
    ensures var r := RustStep(code, RustState(0, s + [target]));
      r == Ok(RustState(AsUsize(target), s)) && r.value.ip >= |code|
      && RustStep(code, r.value) == r
  {
    assert (s + [target])[..|s|] == s;
  }

  /** The machines also part ways on overflow: `MAX + 1` wraps to `MIN` on the Kotlin machine
      and panics on the Rust one. */
  lemma OverflowDiverges()
    ensures ByteOperation(0x30, MAX, 1) == Ok(MIN)
    ensures RustOperation(0x30, MAX, 1).Err?
  {
  }

  // ---------------------------------------------------------------------------------------
  // The machine as the source runs it

  class VM {
    const code: seq<Byte>
    var ip: nat
    var stack: seq<Int32>

    function State(): RustState
      reads this
    {
      RustState(ip, stack)
    }

    /** `VM::new`. */
    constructor (code: seq<Byte>)
      ensures this.code == code && State() == RustState(0, [])
    {
      this.code := code;
      ip := 0;
      stack := [];
    }

    /** `get_result`. */
    method GetResult() returns (r: Result<Int32>)
      ensures r == ResultOf(State())
    {
      if stack == [] {
        return Err("Stack underflow");
      }
      return Ok(stack[|stack| - 1]);
    }

    /** `get_i32`: read four bytes at `ip` and advance past them. */
    method ReadI32() returns (r: Result<Int32>)
      modifies this
      ensures r == GetI32(code, old(ip))
      ensures stack == old(stack)
      ensures r.Ok? ==> ip == old(ip) + 4
    {
      if ip + 4 > |code| {
        return Err("index out of bounds");
      }
      r := Ok(Int32Of(code[ip], code[ip + 1], code[ip + 2], code[ip + 3]));
      ip := ip + 4;
    }

    method PopValue() returns (r: Result<Int32>)
      modifies this
      ensures ip == old(ip)
      ensures r.Ok? <==> old(stack) != []
      ensures r.Ok? ==> r.value == old(stack)[|old(stack)| - 1] && stack == old(stack)[..|old(stack)| - 1]
    {
      if stack == [] {
        return Err("Stack underflow");
      }
      r := Ok(stack[|stack| - 1]);
      stack := stack[..|stack| - 1];
    }

    /** `run`, stopped after `fuel` steps. */
    method Run(fuel: nat) returns (r: Outcome)
      requires |stack| < MAX_STACK
      modifies this
      ensures r.Pass? <==> RustExecute(code, old(State()), fuel).Ok?
      ensures r.Pass? ==> State() == RustExecute(code, old(State()), fuel).value
    {
      var steps := 0;
      while ip < |code| && steps < fuel
        invariant 0 <= steps <= fuel && |stack| < MAX_STACK
        invariant RustExecute(code, old(State()), fuel) == RustExecute(code, State(), fuel - steps)
        decreases fuel - steps
      {
        r := Step();
        if r.Fail? {
          return;
        }
        steps := steps + 1;
      }
      return Pass;
    }

    method Step() returns (r: Outcome)
      requires |stack| < MAX_STACK
      modifies this
      ensures r.Pass? <==> RustStep(code, old(State())).Ok?
      ensures r.Pass? ==> State() == RustStep(code, old(State())).value
    {
      if ip >= |code| {
        return Pass;
      }
      var op := code[ip];
      ip := ip + 1;
      if op == 0x00 {
        ip := |code|;
      } else if op == 0x01 {
        var v := PopValue();
        if v.Err? {
          return Fail(v.message);
        }
        ip := AsUsize(v.value);
      } else if op == 0x02 {
        var address := PopValue();
        if address.Err? {
          return Fail(address.message);
        }
        var result := PopValue();
        if result.Err? {
          return Fail(result.message);
        }
        if result.value == 0 {
          ip := AsUsize(address.value);
        }
      } else if op == 0x10 || op == 0x11 || op == 0x20 || op == 0x21 {
        r := StepWithOperand(op);
        return;
      } else if IsArithmetic(op) || IsComparison(op) {
        var left := PopValue();
        if left.Err? {
          return Fail(left.message);
        }
        var right := PopValue();
        if right.Err? {
          return Fail(right.message);
        }
        var result := RustOperation(op, left.value, right.value);
        if result.Err? {
          return Fail(result.message);
        }
        if |stack| + 1 >= MAX_STACK {
          return Fail("capacity overflow");
        }
        stack := stack + [result.value];
      } else {
        return Fail("Unknown opcode");
      }
      return Pass;
    }

    /** The four opcodes that read an operand with `get_i32`. */
    method StepWithOperand(op: Byte) returns (r: Outcome)
      requires op == 0x10 || op == 0x11 || op == 0x20 || op == 0x21
      requires |stack| < MAX_STACK
      modifies this
      ensures r.Pass? <==> RustHandle(code, op, old(State())).Ok?
      ensures r.Pass? ==> State() == RustHandle(code, op, old(State())).value
    {
      var operand := ReadI32();
      if operand.Err? {
        return Fail(operand.message);
      }
      if op == 0x10 {
        if |stack| + 1 >= MAX_STACK {
          return Fail("capacity overflow");
        }
        stack := stack + [operand.value];
      } else if op == 0x11 {
        var at := DepthIndex(|stack|, operand.value);
        if at.Err? {
          return Fail(at.message);
        }
        if |stack| + 1 >= MAX_STACK {
          return Fail("capacity overflow");
        }
        stack := stack + [stack[at.value]];
      } else if op == 0x20 {
        var value := PopValue();
        if value.Err? {
          return Fail(value.message);
        }
        var at := DepthIndex(|stack|, operand.value);
        if at.Err? {
          return Fail(at.message);
        }
        stack := stack[at.value := value.value];
      } else {
        var i := 0;
        while i < operand.value
          invariant 0 <= i <= if operand.value < 0 then 0 else operand.value
          invariant ip == old(ip) + 4
          invariant i <= |old(stack)| && stack == old(stack)[..|old(stack)| - i]
        {
          var v := PopValue();
          if v.Err? {
            return Fail(v.message);
          }
          i := i + 1;
        }
      }
      return Pass;
    }
  }
}
