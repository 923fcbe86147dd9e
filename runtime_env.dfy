/** `RuntimeEnvironment`: the interpreter's function table and its stack of frames, each frame
    a map from variable names to values. The top frame is at index 0 (`addFirst`). */
module RuntimeEnv {
  import opened Wrappers
  import opened Int32
  import opened Ast

  type Frame = map<string, Int32>

  /** The environment as a value: what the class below holds between calls. */
  datatype Env = Env(functions: map<string, Function>, stack: seq<Frame>)

  /** The frame variables are read from and written to; an empty stack reads as an empty
      frame, in which every lookup fails. */
  function Top(stack: seq<Frame>): Frame {
    if stack == [] then map[] else stack[0]
  }

  function Registered(env: Env, f: Function): Env {
    env.(functions := env.functions[f.name := f])
  }

  function LookupFunction(env: Env, name: string): (r: Result<Function>)
    ensures r.Ok? <==> name in env.functions
    ensures r.Ok? ==> r.value == env.functions[name]
  {
    if name in env.functions then Ok(env.functions[name]) else Err("Function " + name + " not found")
  }

  function Pushed(env: Env): Env {
    env.(stack := [map[]] + env.stack)
  }

  /** `stack.first().variables[name] = value`; `first()` throws on an empty stack. */
  function Assigned(env: Env, name: string, value: Int32): (r: Result<Env>)
    ensures r.Ok? <==> env.stack != []
  {
    if env.stack == [] then Err("ArrayDeque is empty.")
    else Ok(env.(stack := [env.stack[0][name := value]] + env.stack[1..]))
  }

  function ReadVariable(env: Env, name: string): (r: Result<Int32>)
    ensures r.Ok? <==> env.stack != [] && name in env.stack[0]
    ensures r.Ok? ==> r.value == env.stack[0][name]
  {
    if env.stack == [] then Err("ArrayDeque is empty.")
    else if name in env.stack[0] then Ok(env.stack[0][name])
    else Err("Variable " + name + " not found")
  }

  function Popped(env: Env): (r: Result<Env>)
    ensures r.Ok? <==> env.stack != []
  {
    if env.stack == [] then Err("ArrayDeque is empty.") else Ok(env.(stack := env.stack[1..]))
  }

  // ---------------------------------------------------------------------------------------
  // Properties

  /** A registered function is found under its name, and registering another function under
      the same name replaces it. */
  lemma RegisterThenLookup(env: Env, f: Function, g: Function)
    ensures LookupFunction(Registered(env, f), f.name) == Ok(f)
    ensures g.name == f.name ==> LookupFunction(Registered(Registered(env, f), g), f.name) == Ok(g)
    ensures forall n :: n != f.name ==> LookupFunction(Registered(env, f), n) == LookupFunction(env, n)
  {
  }

  /** Reading a variable right after setting it gives the value set. */
  lemma SetThenGet(env: Env, name: string, value: Int32, other: string)
    requires env.stack != []
    ensures ReadVariable(Assigned(env, name, value).value, name) == Ok(value)
    ensures other != name ==>
      ReadVariable(Assigned(env, name, value).value, other) == ReadVariable(env, other)
  {
  }

  /** Setting a variable changes the top frame only, and never the function table. */
  lemma SetTouchesTopOnly(env: Env, name: string, value: Int32)
    requires env.stack != []
    ensures var e := Assigned(env, name, value).value;
      |e.stack| == |env.stack| && e.stack[1..] == env.stack[1..] && e.functions == env.functions
  {
  }

  /** Only the top frame is visible: a variable of an outer frame is not found once a frame
      has been pushed. */
  lemma OuterFramesInvisible(env: Env, name: string)
    ensures ReadVariable(Pushed(env), name).Err?
  {
  }

  /** Popping a pushed frame restores the environment exactly, whatever was done in the pushed
      frame meanwhile. */
  lemma PushThenPop(env: Env, writes: seq<(string, Int32)>)
    ensures Popped(SetAll(Pushed(env), writes)) == Ok(env)
  {
    SetAllKeepsOuter(Pushed(env), writes);
    assert Pushed(env).stack[1..] == env.stack;
  }

  /** A sequence of `setVariable` calls on a non-empty stack. */
  function SetAll(env: Env, writes: seq<(string, Int32)>): Env
    requires env.stack != []
    decreases |writes|
  {
    if writes == [] then env
    else SetAll(Assigned(env, writes[0].0, writes[0].1).value, writes[1..])
  }

  lemma {:induction false} SetAllKeepsOuter(env: Env, writes: seq<(string, Int32)>)
    requires env.stack != []
    ensures var e := SetAll(env, writes);
      e.stack != [] && e.stack[1..] == env.stack[1..] && e.functions == env.functions
    decreases |writes|
  {
    if writes != [] {
      SetAllKeepsOuter(Assigned(env, writes[0].0, writes[0].1).value, writes[1..]);
    }
  }

  // ---------------------------------------------------------------------------------------
  // The environment as the source runs it

  class RuntimeEnvironment {
    var functions: map<string, Function>
    var stack: seq<Frame>

    function State(): Env
      reads this
    {
      Env(functions, stack)
    }

    constructor ()
      ensures State() == Env(map[], [])
    {
      functions := map[];
      stack := [];
    }

    method RegisterFunction(f: Function)
      modifies this
      ensures State() == Registered(old(State()), f)
    {
      functions := functions[f.name := f];
    }

    method GetFunction(name: string) returns (r: Result<Function>)
      ensures r == LookupFunction(State(), name)
    {
      if name !in functions {
        return Err("Function " + name + " not found");
      }
      return Ok(functions[name]);
    }

    method PushFrame()
      modifies this
      ensures State() == Pushed(old(State()))
    {
      stack := [map[]] + stack;
    }

    method SetVariable(name: string, value: Int32) returns (r: Outcome)
      modifies this
      ensures r.Pass? <==> Assigned(old(State()), name, value).Ok?
      ensures r.Pass? ==> State() == Assigned(old(State()), name, value).value
      ensures r.Fail? ==> State() == old(State())
    {
      if stack == [] {
        return Fail("ArrayDeque is empty.");
      }
      stack := [stack[0][name := value]] + stack[1..];
      return Pass;
    }

    method GetVariable(name: string) returns (r: Result<Int32>)
      ensures r == ReadVariable(State(), name)
    {
      if stack == [] {
        return Err("ArrayDeque is empty.");
      }
      if name !in stack[0] {
        return Err("Variable " + name + " not found");
      }
      return Ok(stack[0][name]);
    }

    method PopFrame() returns (r: Outcome)
      modifies this
      ensures r.Pass? <==> Popped(old(State())).Ok?
      ensures r.Pass? ==> State() == Popped(old(State())).value
      ensures r.Fail? ==> State() == old(State())
    {
      if stack == [] {
        return Fail("ArrayDeque is empty.");
      }
      stack := stack[1..];
      return Pass;
    }
  }
}
