/** `StackFrameDescriptor` and `LocalsVisitor`: the static layout of one function's frame on
    the single value stack, as offsets counted from the top of the stack. */
module Frame {
  import opened Wrappers
  import opened Ast
  import opened AstVisitor

  /** One slot of the frame. `RuntimeValue` marks a temporary the generated code has pushed. */
  datatype Data = ReturnAddress | ReturnValue | Local(name: string) | RuntimeValue

  // ---------------------------------------------------------------------------------------
  // LocalsVisitor

  /** The list `LocalsVisitor` holds after its handlers ran for `trace`, starting from `acc`:
      a variable declaration is appended, a function declaration clears the list. */
  function CollectLocals(acc: seq<string>, trace: seq<Event>): seq<string>
    decreases |trace|
  {
    if trace == [] then acc
    else match trace[0]
      case VariableDeclarationVisit(x) => CollectLocals(acc + [x], trace[1..])
      case FunctionDeclarationVisit(_) => CollectLocals([], trace[1..])
      case _ => CollectLocals(acc, trace[1..])
  }

  lemma {:induction false} CollectLocalsAppend(acc: seq<string>, t1: seq<Event>, t2: seq<Event>)
    ensures CollectLocals(acc, t1 + t2) == CollectLocals(CollectLocals(acc, t1), t2)
    decreases |t1|
  {
    if t1 == [] {
      assert t1 + t2 == t2;
    } else {
      assert (t1 + t2)[0] == t1[0];
      assert (t1 + t2)[1..] == t1[1..] + t2;
      match t1[0]
      case VariableDeclarationVisit(x) => CollectLocalsAppend(acc + [x], t1[1..], t2);
      case FunctionDeclarationVisit(_) => CollectLocalsAppend([], t1[1..], t2);
      case _ => CollectLocalsAppend(acc, t1[1..], t2);
    }
  }

  lemma {:induction false} CollectLocalsIgnoresNonDeclarations(acc: seq<string>, t: seq<Event>)
    requires forall i :: 0 <= i < |t| ==> !IsDeclaration(t[i])
    ensures CollectLocals(acc, t) == acc
    decreases |t|
  {
    if t != [] {
      CollectLocalsIgnoresNonDeclarations(acc, t[1..]);
    }
  }

  lemma CollectLocalsOfExpr(acc: seq<string>, e: Expr)
    ensures CollectLocals(acc, TraceExpr(e)) == acc
  {
    ExprTraceHasNoDeclarations(e);
    CollectLocalsIgnoresNonDeclarations(acc, TraceExpr(e));
  }

  lemma CollectLocalsCons(acc: seq<string>, ev: Event, t: seq<Event>)
    requires !IsDeclaration(ev)
    ensures CollectLocals(acc, [ev] + t) == CollectLocals(acc, t)
  {
    assert ([ev] + t)[1..] == t;
  }

  /** A `when` or `while`: the condition leaves the list alone, then the body block runs. */
  lemma CollectLocalsOfConditional(acc: seq<string>, ev: Event, c: Expr, b: seq<Stmt>)
    requires ev == WhenVisit || ev == WhileVisit
    ensures CollectLocals(acc, [ev] + TraceExpr(c) + [BlockVisit] + TraceBlock(b))
         == CollectLocals(acc, TraceBlock(b))
  {
    assert [ev] + TraceExpr(c) + [BlockVisit] + TraceBlock(b)
        == [ev] + (TraceExpr(c) + ([BlockVisit] + TraceBlock(b)));
    CollectLocalsCons(acc, ev, TraceExpr(c) + ([BlockVisit] + TraceBlock(b)));
    CollectLocalsAppend(acc, TraceExpr(c), [BlockVisit] + TraceBlock(b));
    CollectLocalsOfExpr(acc, c);
    CollectLocalsCons(acc, BlockVisit, TraceBlock(b));
  }

  /** Reference definition: the variables a body declares, in source order, including those
      inside `when`, `while` and nested blocks. */
  function DeclaredNames(ss: seq<Stmt>): seq<string> {
    if ss == [] then [] else DeclaredIn(ss[0]) + DeclaredNames(ss[1..])
  }

  function DeclaredIn(s: Stmt): seq<string> {
    match s
    case VarDecl(x, _) => [x]
    case When(_, b) => DeclaredNames(b)
    case While(_, b) => DeclaredNames(b)
    case Block(b) => DeclaredNames(b)
    case _ => []
  }

  predicate NoNestedFunctions(ss: seq<Stmt>) {
    forall i :: 0 <= i < |ss| ==> NoNestedFunction(ss[i])
  }

  predicate NoNestedFunction(s: Stmt) {
    match s
    case FunDecl(_) => false
    case When(_, b) => NoNestedFunctions(b)
    case While(_, b) => NoNestedFunctions(b)
    case Block(b) => NoNestedFunctions(b)
    case _ => true
  }

  /** The locals `StackFrameDescriptor` obtains by running a fresh `LocalsVisitor` on `f`. */
  function FunctionLocals(f: Function): seq<string> {
    CollectLocals([], TraceFunction(f))
  }

  lemma NoNestedFunctionsTail(ss: seq<Stmt>)
    requires ss != [] && NoNestedFunctions(ss)
    ensures NoNestedFunction(ss[0]) && NoNestedFunctions(ss[1..])
  {
    assert forall i :: 0 <= i < |ss[1..]| ==> ss[1..][i] == ss[i + 1];
  }

  /** Chains the scan of the first statement with the scan of the rest. */
  lemma CollectLocalsOfSequence(acc: seq<string>, ss: seq<Stmt>)
    requires ss != []
    requires CollectLocals(acc, TraceStmt(ss[0])) == acc + DeclaredIn(ss[0])
    requires CollectLocals(acc + DeclaredIn(ss[0]), TraceBlock(ss[1..]))
          == acc + DeclaredIn(ss[0]) + DeclaredNames(ss[1..])
    ensures CollectLocals(acc, TraceBlock(ss)) == acc + DeclaredNames(ss)
  {
    CollectLocalsAppend(acc, TraceStmt(ss[0]), TraceBlock(ss[1..]));
    assert acc + DeclaredIn(ss[0]) + DeclaredNames(ss[1..]) == acc + DeclaredNames(ss);
  }

  lemma {:induction false} CollectLocalsOfBlock(acc: seq<string>, ss: seq<Stmt>)
    requires NoNestedFunctions(ss)
    ensures CollectLocals(acc, TraceBlock(ss)) == acc + DeclaredNames(ss)
    decreases ss
  {
    if ss != [] {
      NoNestedFunctionsTail(ss);
      CollectLocalsOfStmt(acc, ss[0]);
      CollectLocalsOfBlock(acc + DeclaredIn(ss[0]), ss[1..]);
      CollectLocalsOfSequence(acc, ss);
    }
  }

  lemma {:induction false} CollectLocalsOfStmt(acc: seq<string>, s: Stmt)
    requires NoNestedFunction(s)
    ensures CollectLocals(acc, TraceStmt(s)) == acc + DeclaredIn(s)
    decreases s
  {
    match s
    case VarDecl(x, e) =>
      CollectLocalsOfExpr(acc + [x], e);
    case When(c, b) =>
      CollectLocalsOfConditional(acc, WhenVisit, c, b);
      CollectLocalsOfBlock(acc, b);
    case While(c, b) =>
      CollectLocalsOfConditional(acc, WhileVisit, c, b);
      CollectLocalsOfBlock(acc, b);
    case Return(e) =>
      CollectLocalsOfExpr(acc, e);
    case Block(b) =>
      CollectLocalsOfBlock(acc, b);
    case ExprStmt(e) =>
      CollectLocalsOfExpr(acc, e);
    case Assign(x, e) =>
      CollectLocalsOfExpr(acc, e);
  }

  lemma CollectLocalsOfFunctionHeader(acc: seq<string>, f: Function)
    ensures CollectLocals(acc, TraceFunction(f)) == CollectLocals([], TraceBlock(f.body))
  {
    var header := [IdentifierVisit(f.name)] + TraceIdentifiers(f.parameters) + [BlockVisit];
    assert TraceFunction(f) == [FunctionDeclarationVisit(f)] + (header + TraceBlock(f.body));
    CollectLocalsAppend([], header, TraceBlock(f.body));
    CollectLocalsIgnoresNonDeclarations([], header);
  }

  /** The scan sees every declaration of the body in traversal order, nested blocks included. */
  lemma FunctionLocalsAreDeclarations(f: Function)
    requires NoNestedFunctions(f.body)
    ensures FunctionLocals(f) == DeclaredNames(f.body)
  {
    CollectLocalsOfFunctionHeader([], f);
    CollectLocalsOfBlock([], f.body);
  }

  /** The scan is not scoped by function: a nested declaration clears what was collected so far. */
  lemma NestedFunctionResetsLocals(f: Function, pre: seq<Stmt>, g: Function, post: seq<Stmt>)
    requires f.body == pre + [FunDecl(g)] + post
    requires NoNestedFunctions(pre) && NoNestedFunctions(g.body) && NoNestedFunctions(post)
    ensures FunctionLocals(f) == DeclaredNames(g.body) + DeclaredNames(post)
  {
    CollectLocalsOfFunctionHeader([], f);
    TraceBlockAppend(pre + [FunDecl(g)], post);
    TraceBlockAppend(pre, [FunDecl(g)]);
    assert TraceBlock([FunDecl(g)]) == TraceFunction(g) by {
      assert [FunDecl(g)][1..] == [];
    }
    var afterPre := CollectLocals([], TraceBlock(pre));
    CollectLocalsAppend([], TraceBlock(pre) + TraceFunction(g), TraceBlock(post));
    CollectLocalsAppend([], TraceBlock(pre), TraceFunction(g));
    CollectLocalsOfFunctionHeader(afterPre, g);
    CollectLocalsOfBlock([], g.body);
    assert CollectLocals([], TraceBlock(pre) + TraceFunction(g)) == DeclaredNames(g.body);
    CollectLocalsOfBlock(DeclaredNames(g.body), post);
  }

  /** `LocalsVisitor`: a `BaseVisitor` that records each variable declaration (without
      descending into it) and clears its list at each function declaration. */
  class LocalsVisitor {
    var locals: seq<string>

    constructor ()
      ensures locals == []
    {
      locals := [];
    }

    method VisitFunction(f: Function)
      modifies this
      ensures locals == CollectLocals(old(locals), TraceFunction(f))
      decreases f
    {
      locals := [];
      // the identifier and the parameters are leaves; then the body block
      VisitBlock(f.body);
      CollectLocalsOfFunctionHeader(old(locals), f);
    }

    method VisitBlock(ss: seq<Stmt>)
      modifies this
      ensures locals == CollectLocals(old(locals), TraceBlock(ss))
      decreases ss
    {
      for i := 0 to |ss|
        invariant locals == CollectLocals(old(locals), TraceBlock(ss[..i]))
      {
        assert ss[..i + 1] == ss[..i] + [ss[i]];
        TraceBlockAppend(ss[..i], [ss[i]]);
        assert TraceBlock([ss[i]]) == TraceStmt(ss[i]);
        CollectLocalsAppend(old(locals), TraceBlock(ss[..i]), TraceStmt(ss[i]));
        VisitStmt(ss[i]);
      }
      assert ss[..|ss|] == ss;
    }

    method VisitStmt(s: Stmt)
      modifies this
      ensures locals == CollectLocals(old(locals), TraceStmt(s))
      decreases s
    {
      match s
      case VarDecl(x, e) =>
        locals := locals + [x];
        CollectLocalsOfExpr(locals, e);
      case FunDecl(f) =>
        VisitFunction(f);
      case When(c, b) =>
        VisitExpr(c);
        VisitBlock(b);
        CollectLocalsOfConditional(old(locals), WhenVisit, c, b);
      case While(c, b) =>
        VisitExpr(c);
        VisitBlock(b);
        CollectLocalsOfConditional(old(locals), WhileVisit, c, b);
      case Return(e) =>
        VisitExpr(e);
        CollectLocalsOfExpr(old(locals), e);
      case Block(b) =>
        VisitBlock(b);
      case ExprStmt(e) =>
        VisitExpr(e);
        CollectLocalsOfExpr(old(locals), e);
      case Assign(x, e) =>
        VisitExpr(e);
        CollectLocalsOfExpr(old(locals), e);
    }

    /** No handler of this visitor fires inside an expression. */
    method VisitExpr(e: Expr)
      modifies this
      ensures locals == old(locals)
    {
      match e
      case IntLit(_) =>
      case Ident(_) =>
      case Unary(_, a) => VisitExpr(a);
      case Binary(l, _, r) => VisitExpr(l); VisitExpr(r);
      case Call(_, args) =>
        for i := 0 to |args|
          invariant locals == old(locals)
        {
          VisitExpr(args[i]);
        }
    }
  }

  // ---------------------------------------------------------------------------------------
  // StackFrameDescriptor

  /** `addFirst(Local(name))` for each name in turn. */
  function PushLocals(stack: seq<Data>, names: seq<string>): seq<Data>
    decreases |names|
  {
    if names == [] then stack else PushLocals([Local(names[0])] + stack, names[1..])
  }

  /** The frame as the descriptor's `init` builds it, top of stack first: the declared locals
      (last declared on top), the parameters (last parameter nearest the top), then the return
      address and the return value. */
  function InitialLayout(f: Function): seq<Data> {
    PushLocals(PushLocals([ReturnAddress, ReturnValue], f.parameters), FunctionLocals(f))
  }

  /** `indexOf`: the first match counted from the top. */
  function IndexOf(s: seq<Data>, d: Data): (r: Option<nat>)
    ensures r.None? <==> d !in s
    ensures r.Some? ==> r.value < |s| && s[r.value] == d
    ensures r.Some? ==> forall j :: 0 <= j < r.value ==> s[j] != d
  {
    if s == [] then None
    else if s[0] == d then Some(0)
    else match IndexOf(s[1..], d)
      case None => None
      case Some(k) => Some(k + 1)
  }

  /** `stack.count { it is Data.Local }`. */
  function CountLocals(s: seq<Data>): nat {
    if s == [] then 0 else (if s[0].Local? then 1 else 0) + CountLocals(s[1..])
  }

  class StackFrameDescriptor {
    const decl: Function
    var stack: seq<Data>

    constructor (f: Function)
      ensures decl == f && stack == InitialLayout(f)
    {
      decl := f;
      var s := [ReturnValue];
      s := [ReturnAddress] + s;
      assert f.parameters[0..] == f.parameters;
      assert s == [ReturnAddress, ReturnValue];
      for i := 0 to |f.parameters|
        invariant PushLocals(s, f.parameters[i..]) == PushLocals([ReturnAddress, ReturnValue], f.parameters)
      {
        assert f.parameters[i..][1..] == f.parameters[i + 1..];
        s := [Local(f.parameters[i])] + s;
      }
      var visitor := new LocalsVisitor();
      visitor.VisitFunction(f);
      var locals := visitor.locals;
      assert locals == FunctionLocals(f);
      ghost var base := s;
      assert locals[0..] == locals;
      for i := 0 to |locals|
        invariant PushLocals(s, locals[i..]) == PushLocals(base, locals)
      {
        assert locals[i..][1..] == locals[i + 1..];
        s := [Local(locals[i])] + s;
      }
      stack := s;
    }

    function TotalSize(): nat
      reads this
    {
      |stack|
    }

    function LocalsSize(): nat
      reads this
    {
      CountLocals(stack)
    }

    /** `offset` throws `IllegalArgumentException` for a slot that is not in the frame. */
    function Offset(d: Data): (r: Result<nat>)
      reads this
      ensures r.Ok? <==> d in stack
      ensures r.Ok? ==> r.value < |stack| && stack[r.value] == d
      ensures r.Ok? ==> forall j :: 0 <= j < r.value ==> stack[j] != d
    {
      match IndexOf(stack, d)
      case Some(k) => Ok(k)
      case None => Err("Unknown data")
    }

    method Push()
      modifies this
      ensures stack == [RuntimeValue] + old(stack)
    {
      stack := [RuntimeValue] + stack;
    }

    /** Removes the top slot; throws unless it is a temporary (and on an empty frame). */
    method Pop() returns (r: Outcome)
      modifies this
      ensures r.Pass? <==> old(stack) != [] && old(stack)[0] == RuntimeValue
      ensures stack == if r.Pass? then old(stack)[1..] else old(stack)
    {
      if stack == [] {
        return Fail("ArrayDeque is empty.");
      }
      if stack[0] != RuntimeValue {
        return Fail("Can not pop non-runtime value");
      }
      stack := stack[1..];
      return Pass;
    }
  }

  // ---------------------------------------------------------------------------------------
  // Properties of the layout

  lemma {:induction false} PushLocalsShape(st: seq<Data>, ns: seq<string>)
    ensures |PushLocals(st, ns)| == |ns| + |st|
    ensures forall i :: 0 <= i < |ns| ==> PushLocals(st, ns)[i] == Local(ns[|ns| - 1 - i])
    ensures forall k :: |ns| <= k < |ns| + |st| ==> PushLocals(st, ns)[k] == st[k - |ns|]
    ensures CountLocals(PushLocals(st, ns)) == |ns| + CountLocals(st)
    decreases |ns|
  {
    if ns != [] {
      var st' := [Local(ns[0])] + st;
      PushLocalsShape(st', ns[1..]);
      assert CountLocals(st') == 1 + CountLocals(st) by {
        assert st'[1..] == st;
      }
    }
  }

  /** The sizes of a fresh descriptor: `totalSize` is 2 + #parameters + #declared locals and
      `localsSize` counts the parameters and the declared locals. */
  lemma InitialLayoutSizes(f: Function)
    ensures |InitialLayout(f)| == |FunctionLocals(f)| + |f.parameters| + 2
    ensures CountLocals(InitialLayout(f)) == |FunctionLocals(f)| + |f.parameters|
  {
    var base := [ReturnAddress, ReturnValue];
    PushLocalsShape(base, f.parameters);
    PushLocalsShape(PushLocals(base, f.parameters), FunctionLocals(f));
    assert CountLocals(base) == 0 by {
      assert base[1..][1..] == [];
    }
  }

  /** The slots of a fresh descriptor, top first: declared locals (last declared on top), the
      parameters (last parameter nearest the top), the return address, the return value. */
  lemma {:induction false} InitialLayoutSlots(f: Function)
    ensures var L, n, m := InitialLayout(f), |FunctionLocals(f)|, |f.parameters|;
            && |L| == n + m + 2
            && L[n + m] == ReturnAddress && L[n + m + 1] == ReturnValue
            && (forall i :: 0 <= i < m ==> L[n + m - 1 - i] == Local(f.parameters[i]))
            && (forall j :: 0 <= j < n ==> L[n - 1 - j] == Local(FunctionLocals(f)[j]))
            && (forall k :: 0 <= k < n + m ==> L[k].Local?)
  {
    var base, ps, ls := [ReturnAddress, ReturnValue], f.parameters, FunctionLocals(f);
    LayoutReturnSlots(base, ps, ls);
    LayoutParameterSlots(base, ps, ls);
    forall j | 0 <= j < |ls|
      ensures PushLocals(PushLocals(base, ps), ls)[|ls| - 1 - j] == Local(ls[j])
    {
      PushedName(PushLocals(base, ps), ls, j);
    }
    LayoutNamedSlots(base, ps, ls);
  }

  lemma LayoutReturnSlots(base: seq<Data>, ps: seq<string>, ls: seq<string>)
    requires base == [ReturnAddress, ReturnValue]
    ensures var L, n, m := PushLocals(PushLocals(base, ps), ls), |ls|, |ps|;
            |L| == n + m + 2 && L[n + m] == ReturnAddress && L[n + m + 1] == ReturnValue
  {
    var W := PushLocals(base, ps);
    PushedLength(base, ps);
    PushedLength(W, ls);
    PushedBelow(base, ps, 0);
    PushedBelow(base, ps, 1);
    PushedBelow(W, ls, |ps|);
    PushedBelow(W, ls, |ps| + 1);
  }

  lemma LayoutParameterSlots(base: seq<Data>, ps: seq<string>, ls: seq<string>)
    ensures |PushLocals(PushLocals(base, ps), ls)| == |ls| + |ps| + |base|
    ensures var L, n, m := PushLocals(PushLocals(base, ps), ls), |ls|, |ps|;
            forall i :: 0 <= i < m ==> L[n + m - 1 - i] == Local(ps[i])
  {
    var W := PushLocals(base, ps);
    var L, n, m := PushLocals(W, ls), |ls|, |ps|;
    PushedLength(base, ps);
    PushedLength(W, ls);
    forall i | 0 <= i < m
      ensures L[n + m - 1 - i] == Local(ps[i])
    {
      PushedBelow(W, ls, m - 1 - i);
      PushedName(base, ps, i);
    }
  }

  lemma LayoutNamedSlots(base: seq<Data>, ps: seq<string>, ls: seq<string>)
    ensures |PushLocals(PushLocals(base, ps), ls)| == |ls| + |ps| + |base|
    ensures var L, n, m := PushLocals(PushLocals(base, ps), ls), |ls|, |ps|;
            forall k :: 0 <= k < n + m ==> L[k].Local?
  {
    var W := PushLocals(base, ps);
    var L, n, m := PushLocals(W, ls), |ls|, |ps|;
    PushedLength(base, ps);
    PushedLength(W, ls);
    forall k | 0 <= k < n + m
      ensures L[k].Local?
    {
      if k < n {
        PushedName(W, ls, n - 1 - k);
      } else {
        PushedBelow(W, ls, k - n);
        PushedName(base, ps, m - 1 - (k - n));
      }
    }
  }

  lemma PushedLength(st: seq<Data>, ns: seq<string>)
    ensures |PushLocals(st, ns)| == |ns| + |st|
  {
    PushLocalsShape(st, ns);
  }

  /** The j-th pushed name sits j slots above the old top. */
  lemma PushedName(st: seq<Data>, ns: seq<string>, j: nat)
    requires j < |ns|
    ensures |PushLocals(st, ns)| == |ns| + |st|
    ensures PushLocals(st, ns)[|ns| - 1 - j] == Local(ns[j])
  {
    PushLocalsShape(st, ns);
    assert PushLocals(st, ns)[|ns| - 1 - j] == Local(ns[|ns| - 1 - (|ns| - 1 - j)]);
  }

  /** The old stack is shifted down by the number of names. */
  lemma PushedBelow(st: seq<Data>, ns: seq<string>, k: nat)
    requires k < |st|
    ensures |PushLocals(st, ns)| == |ns| + |st|
    ensures PushLocals(st, ns)[|ns| + k] == st[k]
  {
    PushLocalsShape(st, ns);
    assert PushLocals(st, ns)[|ns| + k] == st[|ns| + k - |ns|];
  }

  lemma IndexOfAt(s: seq<Data>, k: nat, d: Data)
    requires k < |s| && s[k] == d
    requires forall j :: 0 <= j < k ==> s[j] != d
    ensures IndexOf(s, d) == Some(k)
  {
  }

  /** The return value is the bottom slot of the frame and the return address the one above it. */
  lemma ReturnSlotOffsets(f: Function)
    ensures IndexOf(InitialLayout(f), ReturnValue) == Some(|InitialLayout(f)| - 1)
    ensures IndexOf(InitialLayout(f), ReturnAddress) == Some(|InitialLayout(f)| - 2)
  {
    InitialLayoutSlots(f);
    var L := InitialLayout(f);
    IndexOfAt(L, |L| - 1, ReturnValue);
    IndexOfAt(L, |L| - 2, ReturnAddress);
  }

  /** Parameters are pushed in order, so parameter i sits below the later parameters and below
      every declared local; its offset holds when no later slot takes its name. */
  lemma ParameterOffset(f: Function, i: nat)
    requires i < |f.parameters|
    requires f.parameters[i] !in FunctionLocals(f)
    requires forall j :: i < j < |f.parameters| ==> f.parameters[j] != f.parameters[i]
    ensures IndexOf(InitialLayout(f), Local(f.parameters[i]))
         == Some(|FunctionLocals(f)| + |f.parameters| - 1 - i)
  {
    InitialLayoutSlots(f);
    var L := InitialLayout(f);
    var n, m := |FunctionLocals(f)|, |f.parameters|;
    forall k | 0 <= k < n + m - 1 - i
      ensures L[k] != Local(f.parameters[i])
    {
      if k < n {
        assert L[k] == Local(FunctionLocals(f)[n - 1 - k]);
      } else {
        assert L[k] == Local(f.parameters[n + m - 1 - k]);
      }
    }
    IndexOfAt(L, n + m - 1 - i, Local(f.parameters[i]));
  }

  /** Declared locals sit above the parameters, the last declared at offset 0. */
  lemma DeclaredLocalOffset(f: Function, j: nat)
    requires j < |FunctionLocals(f)|
    requires forall k :: j < k < |FunctionLocals(f)| ==> FunctionLocals(f)[k] != FunctionLocals(f)[j]
    ensures IndexOf(InitialLayout(f), Local(FunctionLocals(f)[j])) == Some(|FunctionLocals(f)| - 1 - j)
  {
    InitialLayoutSlots(f);
    var L := InitialLayout(f);
    var n := |FunctionLocals(f)|;
    forall k | 0 <= k < n - 1 - j
      ensures L[k] != Local(FunctionLocals(f)[j])
    {
      assert L[k] == Local(FunctionLocals(f)[n - 1 - k]);
    }
    IndexOfAt(L, n - 1 - j, Local(FunctionLocals(f)[j]));
  }

  /** `push()` raises the offset of every named slot by one and leaves `localsSize` alone. */
  lemma PushShiftsOffsets(s: seq<Data>, d: Data)
    requires d != RuntimeValue
    ensures IndexOf([RuntimeValue] + s, d)
         == match IndexOf(s, d) case Some(k) => Some(k + 1) case None => None
    ensures CountLocals([RuntimeValue] + s) == CountLocals(s)
  {
    assert ([RuntimeValue] + s)[1..] == s;
  }

  lemma EmptyFunctionFrame()
    ensures |InitialLayout(Function("test", [], []))| == 2
  {
    var f := Function("test", [], []);
    FunctionLocalsAreDeclarations(f);
    InitialLayoutSizes(f);
  }

  lemma ParametersOnlyFrame()
    ensures var L := InitialLayout(Function("test", ["a", "b"], []));
            |L| == 4 && IndexOf(L, ReturnValue) == Some(3) && IndexOf(L, ReturnAddress) == Some(2)
            && IndexOf(L, Local("a")) == Some(1) && IndexOf(L, Local("b")) == Some(0)
  {
    var f := Function("test", ["a", "b"], []);
    FunctionLocalsAreDeclarations(f);
    InitialLayoutSlots(f);
    ReturnSlotOffsets(f);
    ParameterOffset(f, 0);
    ParameterOffset(f, 1);
  }

  lemma TwoDeclarations(f: Function)
    requires f.body == [VarDecl("a", IntLit(1)), VarDecl("b", IntLit(2))]
    ensures FunctionLocals(f) == ["a", "b"]
  {
    assert NoNestedFunctions(f.body) by {
      assert NoNestedFunction(f.body[0]) && NoNestedFunction(f.body[1]);
    }
    FunctionLocalsAreDeclarations(f);
    assert DeclaredNames(f.body[1..][1..]) == [] by {
      assert f.body[1..][1..] == [];
    }
    assert DeclaredNames(f.body[1..]) == ["b"];
    assert DeclaredNames(f.body) == ["a", "b"];
  }

  lemma TwoLocalsLayout(f: Function, a: string, b: string)
    requires f.parameters == [] && FunctionLocals(f) == [a, b]
    ensures InitialLayout(f) == [Local(b), Local(a), ReturnAddress, ReturnValue]
  {
    var base := [ReturnAddress, ReturnValue];
    var names := [a, b];
    assert PushLocals(base, f.parameters) == base;
    assert names[1..] == [b] && names[1..][1..] == [];
    assert PushLocals(base, names) == PushLocals([Local(a)] + base, [b]);
    assert PushLocals([Local(a)] + base, [b]) == PushLocals([Local(b), Local(a)] + base, []);
  }

  lemma FourSlotOffsets(a: string, b: string)
    requires a != b
    ensures var L := [Local(b), Local(a), ReturnAddress, ReturnValue];
            IndexOf(L, ReturnValue) == Some(3) && IndexOf(L, ReturnAddress) == Some(2)
            && IndexOf(L, Local(a)) == Some(1) && IndexOf(L, Local(b)) == Some(0)
  {
    var L := [Local(b), Local(a), ReturnAddress, ReturnValue];
    IndexOfAt(L, 3, ReturnValue);
    IndexOfAt(L, 2, ReturnAddress);
    IndexOfAt(L, 1, Local(a));
    IndexOfAt(L, 0, Local(b));
  }

  lemma LocalsOnlyFrame()
    ensures var L := InitialLayout(Function("test", [], [VarDecl("a", IntLit(1)), VarDecl("b", IntLit(2))]));
            |L| == 4 && IndexOf(L, ReturnValue) == Some(3) && IndexOf(L, ReturnAddress) == Some(2)
            && IndexOf(L, Local("a")) == Some(1) && IndexOf(L, Local("b")) == Some(0)
  {
    var f := Function("test", [], [VarDecl("a", IntLit(1)), VarDecl("b", IntLit(2))]);
    TwoDeclarations(f);
    TwoLocalsLayout(f, "a", "b");
    FourSlotOffsets("a", "b");
  }
}
