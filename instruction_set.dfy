/** The instruction set of the prototype virtual machine and `ArrayProgram`, a read-only
    program over a fixed array of instructions. */
module InstructionSet {
  import opened Wrappers
  import opened Int32

  datatype Instr =
    | Push(value: Int32)
    | Pop
    | Swap
    | Add
    | Subtract
    | Halt

  /** `ArrayProgram`: the array is never written after construction, so it is a value. */
  datatype ArrayProgram = ArrayProgram(instructions: seq<Instr>)

  /** `Program(list)`: the instructions in the order given. */
  function ProgramOf(list: seq<Instr>): (p: ArrayProgram)
    ensures Size(p) == |list|
    ensures forall i :: 0 <= i < |list| ==> Get(p, i) == Some(list[i])
  {
    ArrayProgram(list)
  }

  function Size(p: ArrayProgram): nat {
    |p.instructions|
  }

  /** `getOrNull`: the instruction at `index`, and nothing outside `[0, size)`. */
  function Get(p: ArrayProgram, index: int): (r: Option<Instr>)
    ensures r.Some? <==> 0 <= index < Size(p)
    ensures r.Some? ==> r.value == p.instructions[index]
  {
    if 0 <= index < |p.instructions| then Some(p.instructions[index]) else None
  }
}
