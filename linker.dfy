/** `MangoLinker`: concatenates the chunks, labels each chunk's first instruction with the
    chunk's name, computes an address for every label with the injected encoder's `sizeOf`,
    and replaces every `Load.Label` by a `Load.Constant` of its address. */
module Linker {
  import opened Wrappers
  import opened Int32
  import opened Asm
  import opened Encoder

  // ---------------------------------------------------------------------------------------
  // Concatenation

  /** A chunk's instructions with its name put in front of the first instruction's labels. */
  function NameFirst(c: Chunk): (xs: seq<Annotated>)
    ensures |xs| == |c.instructions|
    ensures forall i :: 0 <= i < |xs| ==> xs[i].instruction == c.instructions[i].instruction
    ensures |xs| > 0 ==> xs[0].labels == [c.Name()] + c.instructions[0].labels
    ensures forall i :: 0 < i < |xs| ==> xs[i] == c.instructions[i]
  {
    seq(|c.instructions|, i requires 0 <= i < |c.instructions| =>
      if i == 0 then c.instructions[0].(labels := [c.Name()] + c.instructions[0].labels)
      else c.instructions[i])
  }

  /** `chunks.flatMap { ... }`. */
  function Flatten(chunks: seq<Chunk>): seq<Annotated> {
    if chunks == [] then [] else NameFirst(chunks[0]) + Flatten(chunks[1..])
  }

  /** Where chunk `k` starts in the concatenation. */
  function ChunkStart(chunks: seq<Chunk>, k: nat): nat
    requires k <= |chunks|
  {
    if k == 0 then 0 else |chunks[0].instructions| + ChunkStart(chunks[1..], k - 1)
  }

  /** Instruction `j` of chunk `k` sits at `ChunkStart(k) + j`, the first one carrying the
      chunk's name ahead of its own labels; the output is exactly as long as all chunks. */
  lemma {:induction false} FlattenLayout(chunks: seq<Chunk>, k: nat, j: nat)
    requires k < |chunks| && j < |chunks[k].instructions|
    ensures ChunkStart(chunks, k) + j < |Flatten(chunks)|
    ensures Flatten(chunks)[ChunkStart(chunks, k) + j] == NameFirst(chunks[k])[j]
    decreases k
  {
    if k > 0 {
      FlattenLayout(chunks[1..], k - 1, j);
    }
  }

  function Instructions(xs: seq<Annotated>): (p: seq<Instruction>)
    ensures |p| == |xs| && forall i :: 0 <= i < |xs| ==> p[i] == xs[i].instruction
  {
    seq(|xs|, i requires 0 <= i < |xs| => xs[i].instruction)
  }

  // ---------------------------------------------------------------------------------------
  // The address table

  /** `annotated.labels.forEach { labelMap[it] = ip }`. */
  function Bind(table: map<string, Int32>, labels: seq<string>, ip: Int32): (t: map<string, Int32>)
    ensures forall l :: l in t <==> l in table || l in labels
    ensures forall l :: l in labels ==> t[l] == ip
    ensures forall l :: l in table && l !in labels ==> t[l] == table[l]
    decreases |labels|
  {
    if labels == [] then table else Bind(table[labels[0] := ip], labels[1..], ip)
  }

  /** The `labelMap` after the address pass over `xs`: each label is bound to the running
      `ip`, the wrapped sum of the sizes before its instruction; a later binding overwrites
      an earlier one. */
  function Table(enc: Encoder, xs: seq<Annotated>): map<string, Int32>
    decreases |xs|
  {
    if xs == [] then map[]
    else Bind(Table(enc, xs[..|xs| - 1]), xs[|xs| - 1].labels,
              Wrap(SumSizes(enc, Instructions(xs[..|xs| - 1]))))
  }

  /** A label has an address iff some instruction carries it. */
  lemma {:induction false} TableDomain(enc: Encoder, xs: seq<Annotated>, l: string)
    ensures l in Table(enc, xs) <==> exists j :: 0 <= j < |xs| && l in xs[j].labels
    decreases |xs|
  {
    if xs != [] {
      var init := xs[..|xs| - 1];
      TableDomain(enc, init, l);
      if exists j :: 0 <= j < |xs| && l in xs[j].labels {
        var j :| 0 <= j < |xs| && l in xs[j].labels;
        if j < |init| {
          assert init[j] == xs[j];
        }
      }
      if exists j :: 0 <= j < |init| && l in init[j].labels {
        var j :| 0 <= j < |init| && l in init[j].labels;
        assert xs[j] == init[j];
      }
    }
  }

  /** The address of a label is the (wrapped) sum of `sizeOf` over everything before the
      last instruction carrying it. */
  lemma {:induction false} TableValue(enc: Encoder, xs: seq<Annotated>, l: string, j: nat)
    requires j < |xs| && l in xs[j].labels
    requires forall k :: j < k < |xs| ==> l !in xs[k].labels
    ensures l in Table(enc, xs)
    ensures Table(enc, xs)[l] == Wrap(SumSizes(enc, Instructions(xs[..j])))
    decreases |xs|
  {
    var init := xs[..|xs| - 1];
    if j == |xs| - 1 {
      assert xs[..j] == init;
    } else {
      assert l !in xs[|xs| - 1].labels;
      assert init[j] == xs[j] && init[..j] == xs[..j];
      TableValue(enc, init, l, j);
    }
  }

  /** Without wrap-around (a program smaller than 2^31 slots), an address is the plain sum. */
  lemma TableValueUnwrapped(enc: Encoder, xs: seq<Annotated>, l: string, j: nat)
    requires SumSizes(enc, Instructions(xs)) <= MAX
    requires j < |xs| && l in xs[j].labels && forall k :: j < k < |xs| ==> l !in xs[k].labels
    ensures l in Table(enc, xs) && Table(enc, xs)[l] == SumSizes(enc, Instructions(xs[..j]))
  {
    TableValue(enc, xs, l, j);
    assert Instructions(xs[..j]) == Instructions(xs)[..j];
    SumSizesPrefix(enc, Instructions(xs), j);
  }

  // ---------------------------------------------------------------------------------------
  // Rewriting

  /** `instructions.map { ... }`: `Load.Label(l)` becomes `Load.Constant(address of l)`, any
      other instruction is kept; an unbound label throws "Label not found". */
  function Rewrite(xs: seq<Annotated>, table: map<string, Int32>): (r: Result<seq<Instruction>>)
    ensures r.Ok? <==> forall i :: 0 <= i < |xs| && xs[i].instruction.LoadLabel? ==> xs[i].instruction.target in table
    ensures r.Ok? ==> |r.value| == |xs| && LabelFree(r.value)
    ensures r.Ok? ==> forall i :: 0 <= i < |xs| ==>
      r.value[i] == match xs[i].instruction
                    case LoadLabel(l) => LoadConstant(table[l])
                    case ins => ins
    decreases |xs|
  {
    if xs == [] then Ok([])
    else
      var head := match xs[0].instruction
        case LoadLabel(l) =>
          if l in table then Ok(LoadConstant(table[l])) else Err("Label not found: " + l)
        case ins => Ok(ins);
      var h :- head;
      var rest :- Rewrite(xs[1..], table);
      Ok([h] + rest)
  }

  /** `MangoLinker(encoder).link(chunks)`. */
  function Linked(enc: Encoder, chunks: seq<Chunk>): Result<seq<Instruction>> {
    var xs := Flatten(chunks);
    Rewrite(xs, Table(enc, xs))
  }

  /** The linked program has one instruction per annotated instruction, no `Load.Label`, and
      every other instruction in the same place. */
  lemma LinkShape(enc: Encoder, chunks: seq<Chunk>)
    requires Linked(enc, chunks).Ok?
    ensures var p := Linked(enc, chunks).value;
      && |p| == |Flatten(chunks)| && LabelFree(p)
      && forall i :: 0 <= i < |p| && !Flatten(chunks)[i].instruction.LoadLabel? ==>
           p[i] == Flatten(chunks)[i].instruction
  {
  }

  /** Linking fails exactly when some `Load.Label` names a label no instruction carries. */
  lemma LinkFailsOnUnboundLabel(enc: Encoder, chunks: seq<Chunk>)
    ensures var xs := Flatten(chunks);
      Linked(enc, chunks).Err? <==>
        exists i :: 0 <= i < |xs| && xs[i].instruction.LoadLabel?
          && forall j :: 0 <= j < |xs| ==> xs[i].instruction.target !in xs[j].labels
  {
    var xs := Flatten(chunks);
    forall i | 0 <= i < |xs| && xs[i].instruction.LoadLabel?
      ensures xs[i].instruction.target in Table(enc, xs)
          <==> exists j :: 0 <= j < |xs| && xs[i].instruction.target in xs[j].labels
    {
      TableDomain(enc, xs, xs[i].instruction.target);
    }
  }

  /** One more instruction in the address pass: its labels are bound to the running `ip`,
      which then grows by the instruction's size. */
  lemma TableStep(enc: Encoder, xs: seq<Annotated>, i: nat)
    requires i < |xs|
    ensures Table(enc, xs[..i + 1])
         == Bind(Table(enc, xs[..i]), xs[i].labels, Wrap(SumSizes(enc, Instructions(xs[..i]))))
    ensures Wrap(SumSizes(enc, Instructions(xs[..i + 1])))
         == Wrap(Wrap(SumSizes(enc, Instructions(xs[..i]))) + SizeOf(enc, xs[i].instruction))
  {
    var next := xs[..i + 1];
    assert next[..i] == xs[..i] && next[i] == xs[i];
    SizeStep(enc, xs, i);
  }

  lemma SizeStep(enc: Encoder, xs: seq<Annotated>, i: nat)
    requires i < |xs|
    ensures Wrap(SumSizes(enc, Instructions(xs[..i + 1])))
         == Wrap(Wrap(SumSizes(enc, Instructions(xs[..i]))) + SizeOf(enc, xs[i].instruction))
  {
    var p := Instructions(xs[..i + 1]);
    assert p[..i] == Instructions(xs[..i]) && p[i] == xs[i].instruction;
    assert SumSizes(enc, p) == SumSizes(enc, p[..i]) + SizeOf(enc, p[i]);
    WrapAdd(SumSizes(enc, Instructions(xs[..i])), SizeOf(enc, xs[i].instruction));
  }

  // ---------------------------------------------------------------------------------------
  // The linker as the source runs it

  class MangoLinker {
    const encoder: Encoder

    constructor (encoder: Encoder)
      ensures this.encoder == encoder
    {
      this.encoder := encoder;
    }

    /** The address table by a loop over the instructions with a running `ip`. */
    method Addresses(xs: seq<Annotated>) returns (labelMap: map<string, Int32>)
      ensures labelMap == Table(encoder, xs)
    {
      labelMap := map[];
      var ip: Int32 := 0;
      for i := 0 to |xs|
        invariant labelMap == Table(encoder, xs[..i])
        invariant ip == Wrap(SumSizes(encoder, Instructions(xs[..i])))
      {
        TableStep(encoder, xs, i);
        labelMap := BindLabels(labelMap, xs[i].labels, ip);
        ip := Wrap(ip + SizeOf(encoder, xs[i].instruction));
      }
      assert xs[..|xs|] == xs;
    }

    /** `labels.forEach { labelMap[it] = ip }`. */
    method BindLabels(table: map<string, Int32>, labels: seq<string>, ip: Int32)
      returns (labelMap: map<string, Int32>)
      ensures labelMap == Bind(table, labels, ip)
    {
      labelMap := table;
      for k := 0 to |labels|
        invariant Bind(table, labels, ip) == Bind(labelMap, labels[k..], ip)
      {
        assert labels[k..][1..] == labels[k + 1..];
        labelMap := labelMap[labels[k] := ip];
      }
      assert labels[|labels|..] == [];
    }

    /** `link(chunks)`: concatenate, compute the addresses, rewrite. */
    method Link(chunks: seq<Chunk>) returns (r: Result<seq<Instruction>>)
      ensures r == Linked(encoder, chunks)
    {
      var xs := Flatten(chunks);
      var labelMap := Addresses(xs);
      r := Rewrite(xs, labelMap);
    }
  }
}
