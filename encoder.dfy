/** `Encoder`, `NullEncoder` and `ByteEncoder`: the size the linker assumes for each
    instruction, and the serialisation of a linked program to opcodes followed by 4-byte
    big-endian two's-complement operands. */
module Encoder {
  import opened Wrappers
  import opened Int32
  import opened Asm

  /** One byte of the buffer, as an unsigned value. */
  type Byte = x: int | 0 <= x < 256

  /** The two encoders the source provides to the linker. */
  datatype Encoder = NullEncoder | ByteEncoder

  /** `sizeOf`: one slot per instruction for `NullEncoder`; for `ByteEncoder` five bytes for
      the instructions with an operand (every `Load`, `Store`, `Pop`) and one otherwise. */
  function SizeOf(enc: Encoder, ins: Instruction): (n: nat)
    ensures enc.NullEncoder? ==> n == 1
    ensures enc.ByteEncoder? ==> n == (if HasOperand(ins) then 5 else 1)
  {
    match enc
    case NullEncoder => 1
    case ByteEncoder => if ins.IsLoad() || ins.Store? || ins.Pop? then 5 else 1
  }

  predicate HasOperand(ins: Instruction) {
    ins.LoadConstant? || ins.LoadRelative? || ins.LoadLabel? || ins.Store? || ins.Pop?
  }

  /** The sizes of a sequence of instructions added up. */
  function SumSizes(enc: Encoder, p: seq<Instruction>): nat
    decreases |p|
  {
    if p == [] then 0 else SumSizes(enc, p[..|p| - 1]) + SizeOf(enc, p[|p| - 1])
  }

  lemma {:induction false} SumSizesAppend(enc: Encoder, p: seq<Instruction>, q: seq<Instruction>)
    ensures SumSizes(enc, p + q) == SumSizes(enc, p) + SumSizes(enc, q)
    decreases |q|
  {
    if q == [] {
      assert p + q == p;
    } else {
      assert (p + q)[..|p + q| - 1] == p + q[..|q| - 1];
      SumSizesAppend(enc, p, q[..|q| - 1]);
    }
  }

  /** One more instruction adds its size, and a prefix is never larger than the whole. */
  lemma {:induction false} SumSizesPrefix(enc: Encoder, p: seq<Instruction>, i: nat)
    requires i <= |p|
    ensures i < |p| ==> SumSizes(enc, p[..i + 1]) == SumSizes(enc, p[..i]) + SizeOf(enc, p[i])
    ensures SumSizes(enc, p[..i]) <= SumSizes(enc, p)
  {
    assert p == p[..i] + p[i..];
    SumSizesAppend(enc, p[..i], p[i..]);
    if i < |p| {
      assert p[..i + 1][..i] == p[..i];
      assert p[i..] == [p[i]] + p[i + 1..];
      SumSizesAppend(enc, [p[i]], p[i + 1..]);
      assert [p[i]][..0] == [];
    }
  }

  /** Linking never asks for the size of a `Load.Label` after rewriting it, and it need not:
      its size is that of the `Load.Constant` that replaces it. */
  lemma LabelSizedAsConstant(enc: Encoder, l: string, v: Int32)
    ensures SizeOf(enc, LoadLabel(l)) == SizeOf(enc, LoadConstant(v))
  {
  }

  // ---------------------------------------------------------------------------------------
  // Bytes

  /** `ByteBuffer.putInt`: big-endian two's complement. */
  function Int32Bytes(v: Int32): (b: seq<Byte>)
    ensures |b| == 4
  {
    var u := v % MODULUS;
    [u / 0x100_0000, (u / 0x1_0000) % 0x100, (u / 0x100) % 0x100, u % 0x100]
  }

  /** `ByteBuffer.getInt` and Rust's `i32::from_be_bytes` on four bytes. */
  function Int32Of(b0: Byte, b1: Byte, b2: Byte, b3: Byte): Int32 {
    var u := b0 * 0x100_0000 + b1 * 0x1_0000 + b2 * 0x100 + b3;
    if u > MAX then u - MODULUS else u
  }

  /** Reading back the four bytes of an operand gives the operand. */
  lemma Int32RoundTrip(v: Int32)
    ensures var b := Int32Bytes(v); Int32Of(b[0], b[1], b[2], b[3]) == v
  {
    var u := v % MODULUS;
    var q1 := u / 0x100;
    var q2 := q1 / 0x100;
    var q3 := q2 / 0x100;
    assert u == q1 * 0x100 + u % 0x100;
    assert q1 == q2 * 0x100 + q1 % 0x100;
    assert q2 == q3 * 0x100 + q2 % 0x100;
    assert u / 0x1_0000 == q2 by {
      DivDiv(u, 0x100, 0x100);
    }
    assert u / 0x100_0000 == q3 by {
      DivDiv(u, 0x1_0000, 0x100);
    }
    assert u == q3 * 0x100_0000 + (q2 % 0x100) * 0x1_0000 + (q1 % 0x100) * 0x100 + u % 0x100;
    assert v >= 0 ==> u == v;
    assert v < 0 ==> u == v + MODULUS;
  }

  lemma DivDiv(u: nat, a: nat, b: nat)
    requires (a == 0x100 && b == 0x100) || (a == 0x1_0000 && b == 0x100)
    ensures u / a / b == u / (a * b)
  {
    var q := u / a / b;
    assert q * b <= u / a < q * b + b;
    assert (u / a) * a <= u < (u / a) * a + a;
    if a == 0x100 {
      assert q * 0x1_0000 <= u < q * 0x1_0000 + 0x1_0000;
    } else {
      assert q * 0x100_0000 <= u < q * 0x100_0000 + 0x100_0000;
    }
  }

  /** The opcode of each instruction; `Load.Label` has none. */
  function Opcode(ins: Instruction): Option<Byte> {
    match ins
    case Exit => Some(0x00)
    case Jump => Some(0x01)
    case JumpWhenZero => Some(0x02)
    case LoadConstant(_) => Some(0x10)
    case LoadRelative(_) => Some(0x11)
    case LoadLabel(_) => None
    case Store(_) => Some(0x20)
    case Pop(_) => Some(0x21)
    case Operation(op) =>
      Some(match op
        case Add => 0x30 case Sub => 0x31 case Mul => 0x32 case Div => 0x33 case Mod => 0x34
        case Equal => 0x40 case GreaterThan => 0x41 case LessThan => 0x42
        case GreaterThanOrEqual => 0x43 case LessThanOrEqual => 0x44)
  }

  function Operand(ins: Instruction): Int32
    requires HasOperand(ins) && !ins.LoadLabel?
  {
    match ins
    case LoadConstant(v) => v
    case LoadRelative(k) => k
    case Store(k) => k
    case Pop(n) => n
  }

  /** `encode(instruction, buffer)`: the opcode, then the operand for the five-byte forms; a
      `Load.Label` throws `NotImplementedError`. */
  function EncodeOne(ins: Instruction): (r: Result<seq<Byte>>)
    ensures r.Err? <==> ins.LoadLabel?
    ensures r.Ok? ==> |r.value| == SizeOf(ByteEncoder, ins)
  {
    match Opcode(ins)
    case None => Err("An operation is not implemented.")
    case Some(code) => Ok([code] + if HasOperand(ins) then Int32Bytes(Operand(ins)) else [])
  }

  /** `encode(instructions)`: the instructions' encodings one after the other. */
  function EncodeAll(p: seq<Instruction>): (r: Result<seq<Byte>>)
    ensures r.Ok? <==> LabelFree(p)
    ensures r.Ok? ==> |r.value| == SumSizes(ByteEncoder, p)
    ensures r.Err? ==> r.message == "An operation is not implemented."
    decreases |p|
  {
    if p == [] then Ok([])
    else
      var init :- EncodeAll(p[..|p| - 1]);
      var last :- EncodeOne(p[|p| - 1]);
      Ok(init + last)
  }

  /** The start address of instruction `i` in the encoding of `p`. */
  function Address(p: seq<Instruction>, i: nat): nat
    requires i <= |p|
  {
    SumSizes(ByteEncoder, p[..i])
  }

  /** The encoding of a label-free program holds instruction `i`'s own encoding at its start
      address. */
  lemma {:induction false} EncodingAt(p: seq<Instruction>, i: nat)
    requires LabelFree(p) && i < |p|
    ensures Address(p, i) + SizeOf(ByteEncoder, p[i]) <= |EncodeAll(p).value|
    ensures EncodeAll(p).value[Address(p, i)..Address(p, i) + SizeOf(ByteEncoder, p[i])]
         == EncodeOne(p[i]).value
    decreases |p|
  {
    var init := p[..|p| - 1];
    assert LabelFree(init) by {
      assert forall j :: 0 <= j < |init| ==> init[j] == p[j];
    }
    var prefix := EncodeAll(init).value;
    var last := EncodeOne(p[|p| - 1]).value;
    assert EncodeAll(p).value == prefix + last;
    if i == |p| - 1 {
      assert p[..i] == init;
      assert Address(p, i) == |prefix|;
      SliceOfSecond(prefix, last);
    } else {
      EncodingAt(init, i);
      assert init[..i] == p[..i];
      assert init[i] == p[i];
      var lo, hi := Address(p, i), Address(p, i) + SizeOf(ByteEncoder, p[i]);
      assert lo == Address(init, i);
      assert hi <= |prefix|;
      SliceOfFirst(prefix, last, lo, hi);
    }
  }

  lemma SliceOfFirst(a: seq<Byte>, b: seq<Byte>, lo: nat, hi: nat)
    requires lo <= hi <= |a|
    ensures (a + b)[lo..hi] == a[lo..hi]
  {
  }

  lemma SliceOfSecond(a: seq<Byte>, b: seq<Byte>)
    ensures (a + b)[|a|..|a| + |b|] == b
  {
  }

  // ---------------------------------------------------------------------------------------
  // Decoding

  /** The instruction whose encoding starts at `at`, and the address after it. This is the
      reading the byte-level machines do, expressed as an instruction; see `ByteVm`. */
  function Decode(buffer: seq<Byte>, at: nat): Option<(Instruction, nat)> {
    if at >= |buffer| then None
    else
      var code := buffer[at];
      if code == 0x00 then Some((Exit, at + 1))
      else if code == 0x01 then Some((Jump, at + 1))
      else if code == 0x02 then Some((JumpWhenZero, at + 1))
      else if code in {0x10, 0x11, 0x20, 0x21} then
        if at + 5 > |buffer| then None
        else
          var v := Int32Of(buffer[at + 1], buffer[at + 2], buffer[at + 3], buffer[at + 4]);
          Some((if code == 0x10 then LoadConstant(v) else if code == 0x11 then LoadRelative(v)
                else if code == 0x20 then Store(v) else Pop(v), at + 5))
      else
        match OpOfCode(code)
        case Some(op) => Some((Operation(op), at + 1))
        case None => None
  }

  function OpOfCode(code: Byte): Option<Op> {
    if code == 0x30 then Some(Add) else if code == 0x31 then Some(Sub)
    else if code == 0x32 then Some(Mul) else if code == 0x33 then Some(Div)
    else if code == 0x34 then Some(Mod) else if code == 0x40 then Some(Equal)
    else if code == 0x41 then Some(GreaterThan) else if code == 0x42 then Some(LessThan)
    else if code == 0x43 then Some(GreaterThanOrEqual) else if code == 0x44 then Some(LessThanOrEqual)
    else None
  }

  /** Decoding inverts the encoding of one instruction, wherever it sits in a buffer. */
  lemma DecodeEncodeOne(buffer: seq<Byte>, at: nat, ins: Instruction)
    requires !ins.LoadLabel?
    requires at + SizeOf(ByteEncoder, ins) <= |buffer|
    requires buffer[at..at + SizeOf(ByteEncoder, ins)] == EncodeOne(ins).value
    ensures Decode(buffer, at) == Some((ins, at + SizeOf(ByteEncoder, ins)))
  {
    var e := EncodeOne(ins).value;
    assert buffer[at] == e[0];
    if HasOperand(ins) {
      var b := Int32Bytes(Operand(ins));
      assert e == [e[0]] + b;
      assert buffer[at + 1] == b[0] && buffer[at + 2] == b[1];
      assert buffer[at + 3] == b[2] && buffer[at + 4] == b[3];
      Int32RoundTrip(Operand(ins));
    }
  }

  /** Decoding a label-free program's encoding at the start address of instruction `i` gives
      back that instruction and the start address of the next one. */
  lemma DecodeAtAddress(p: seq<Instruction>, i: nat)
    requires LabelFree(p) && i < |p|
    ensures Decode(EncodeAll(p).value, Address(p, i)) == Some((p[i], Address(p, i + 1)))
  {
    EncodingAt(p, i);
    SumSizesPrefix(ByteEncoder, p, i);
    DecodeEncodeOne(EncodeAll(p).value, Address(p, i), p[i]);
  }

  // ---------------------------------------------------------------------------------------
  // The encoder as the source runs it

  /** `java.nio.ByteBuffer` as the encoder uses it: a fixed-size array written from the
      current position onwards. */
  class ByteBuffer {
    const data: array<Byte>
    var position: nat

    /** `ByteBuffer.allocate(size)`: zero-filled. */
    constructor Allocate(size: nat)
      ensures data.Length == size && position == 0 && fresh(data)
    {
      data := new Byte[size](_ => 0);
      position := 0;
    }

    /** `put(byte)`; writing past the capacity throws `BufferOverflowException`. */
    method Put(b: Byte) returns (r: Outcome)
      modifies this, data
      ensures r.Pass? <==> old(position) < data.Length
      ensures r.Pass? ==> position == old(position) + 1 && data[..] == old(data[..])[old(position) := b]
      ensures r.Fail? ==> unchanged(this, data)
    {
      if position >= data.Length {
        return Fail("BufferOverflowException");
      }
      data[position] := b;
      position := position + 1;
      return Pass;
    }

    /** `putInt(v)`: four bytes, most significant first. */
    method PutInt(v: Int32) returns (r: Outcome)
      modifies this, data
      ensures r.Pass? <==> old(position) + 4 <= data.Length
      ensures r.Pass? ==> position == old(position) + 4
      ensures r.Pass? ==> data[..] == old(data[..])[..old(position)] + Int32Bytes(v) + old(data[..])[old(position) + 4..]
    {
      if position + 4 > data.Length {
        return Fail("BufferOverflowException");
      }
      var b := Int32Bytes(v);
      var i := 0;
      while i < 4
        invariant 0 <= i <= 4 && position == old(position) + i
        invariant data[..] == old(data[..])[..old(position)] + b[..i] + old(data[..])[old(position) + i..]
      {
        r := Put(b[i]);
        WriteNext(old(data[..]), old(position), b, i);
        i := i + 1;
      }
      return Pass;
    }
  }

  /** Writing byte `i` of `b` after the first `i` extends the written part by one. */
  lemma WriteNext(o: seq<Byte>, at: nat, b: seq<Byte>, i: nat)
    requires i < |b| && at + |b| <= |o|
    ensures (o[..at] + b[..i] + o[at + i..])[at + i := b[i]] == o[..at] + b[..i + 1] + o[at + i + 1..]
  {
    var lhs := (o[..at] + b[..i] + o[at + i..])[at + i := b[i]];
    var rhs := o[..at] + b[..i + 1] + o[at + i + 1..];
    assert |lhs| == |rhs|;
    forall k | 0 <= k < |lhs|
      ensures lhs[k] == rhs[k]
    {
      if k < at {
      } else if k < at + i {
      } else if k == at + i {
      } else {
      }
    }
  }

  /** `ByteEncoder.encode(instructions)`: allocate the summed size, then write each
      instruction in turn. */
  method Encode(p: seq<Instruction>) returns (r: Result<seq<Byte>>)
    ensures r == EncodeAll(p)
  {
    var buffer := new ByteBuffer.Allocate(SumSizes(ByteEncoder, p));
    for i := 0 to |p|
      invariant buffer.data.Length == SumSizes(ByteEncoder, p)
      invariant buffer.position <= buffer.data.Length
      invariant EncodeAll(p[..i]).Ok?
      invariant buffer.position == |EncodeAll(p[..i]).value|
      invariant buffer.data[..buffer.position] == EncodeAll(p[..i]).value
    {
      assert p[..i + 1][..i] == p[..i];
      if p[i].LoadLabel? {
        assert !LabelFree(p[..i + 1]);
        assert !LabelFree(p) by {
          assert p[i].LoadLabel?;
        }
        return Err("An operation is not implemented.");
      }
      SumSizesPrefix(ByteEncoder, p, i + 1);
      SumSizesPrefix(ByteEncoder, p, i);
      ghost var before := buffer.data[..buffer.position];
      EncodeInstruction(p[i], buffer);
      assert buffer.data[..buffer.position] == before + EncodeOne(p[i]).value;
    }
    assert p[..|p|] == p;
    assert buffer.data[..] == buffer.data[..buffer.position];
    return Ok(buffer.data[..]);
  }

  /** `encode(instruction, buffer)` for an instruction with an opcode, when it fits. */
  method EncodeInstruction(ins: Instruction, buffer: ByteBuffer)
    requires !ins.LoadLabel?
    requires buffer.position + SizeOf(ByteEncoder, ins) <= buffer.data.Length
    modifies buffer, buffer.data
    ensures buffer.position == old(buffer.position) + SizeOf(ByteEncoder, ins)
    ensures buffer.data[..buffer.position] == old(buffer.data[..buffer.position]) + EncodeOne(ins).value
  {
    var code := Opcode(ins).value;
    var o := buffer.Put(code);
    if HasOperand(ins) {
      o := buffer.PutInt(Operand(ins));
    }
  }
}
