/** The instruction set shared by the code generator, the linker, the encoder and the
    instruction-level virtual machine, and the chunks the code generator produces. */
module Asm {
  import opened Int32
  import opened Ast

  /** The ten operators; each consumes two values and pushes one. */
  datatype Op =
    | Add | Sub | Mul | Div | Mod
    | GreaterThan | LessThan | GreaterThanOrEqual | LessThanOrEqual | Equal

  /** `LoadLabel` is the only variant that names a symbol; it exists only before linking. */
  datatype Instruction =
    | LoadConstant(value: Int32)
    | LoadRelative(offset: Int32)
    | LoadLabel(target: string)
    | Store(offset: Int32)
    | Pop(count: Int32)
    | Jump
    | JumpWhenZero
    | Exit
    | Operation(op: Op)
  {
    /** The `ASM.Load` family. */
    predicate IsLoad() {
      LoadConstant? || LoadRelative? || LoadLabel?
    }
  }

  /** An instruction with the labels bound to its position (the diagnostic comment is left out). */
  datatype Annotated = Annotated(instruction: Instruction, labels: seq<string>)

  /** `ASM.Annotated` with its default arguments: no labels. */
  function Plain(i: Instruction): (a: Annotated)
    ensures a.instruction == i && a.labels == []
  {
    Annotated(i, [])
  }

  datatype Chunk =
    | FunctionChunk(decl: Function, instructions: seq<Annotated>)
    | RawChunk(rawName: string, instructions: seq<Annotated>)
  {
    /** A function chunk is named after its function's identifier. */
    function Name(): string {
      match this
      case FunctionChunk(f, _) => f.name
      case RawChunk(n, _) => n
    }
  }

  predicate LabelFree(program: seq<Instruction>) {
    forall i :: 0 <= i < |program| ==> !program[i].LoadLabel?
  }
}
