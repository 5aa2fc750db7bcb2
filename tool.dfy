/**
 * The tool registry of tool/tool.go: a `ToolBelt` maps each function ID
 * to the tool that declared it, and `Call` dispatches by that ID.
 */
module ToolRegistry {
  import opened Wrappers
  import opened JsonSchema

  /** `tool.Function`: a function descriptor a tool exposes. */
  datatype Function = Function(id: string, displayName: string, description: string, parameters: Schema)

  /**
   * A tool: an opaque handle standing for the Go value (two tools with
   * the same functions are still different tools) and what its
   * `Functions()` returns.
   */
  datatype Tool = Tool(handle: nat, functions: seq<Function>)

  /** `tool.ToolBelt`. A nil belt behaves as the empty map. */
  type ToolBelt = map<string, Tool>

  /** What a tool's `Call(function, args)` returns: the tools themselves are outside the model. */
  type Invoker = (Tool, string, Payload) -> Result<Payload, string>

  /** One call into a tool's own `Call`. */
  datatype Invocation = Invocation(tool: Tool, functionName: string, args: Payload)

  /** The outcome of `ToolBelt.Call`, with the tool invocations it made. */
  datatype Dispatch = Dispatch(result: Result<Payload, string>, invoked: seq<Invocation>)

  /** The IDs a list of functions declares. */
  function IDs(fs: seq<Function>): set<string>
  {
    set f | f in fs :: f.id
  }

  /** Every ID declared by some tool of `tools`. */
  function AllIDs(tools: seq<Tool>): set<string>
  {
    if tools == [] then {} else AllIDs(tools[..|tools| - 1]) + IDs(tools[|tools| - 1].functions)
  }

  /** `tools[i]` declares `id` and no later tool does. */
  ghost predicate LastDeclarer(tools: seq<Tool>, id: string, i: int)
  {
    && 0 <= i < |tools|
    && id in IDs(tools[i].functions)
    && forall j :: i < j < |tools| ==> id !in IDs(tools[j].functions)
  }

  /** The inner loop of `NewToolBelt`: map every ID of `fs` to `t`, in order. */
  function Register(belt: ToolBelt, t: Tool, fs: seq<Function>): ToolBelt
  {
    if fs == [] then belt else Register(belt, t, fs[..|fs| - 1])[fs[|fs| - 1].id := t]
  }

  /** The belt `NewToolBelt(tools...)` builds. */
  function Build(tools: seq<Tool>): ToolBelt
  {
    if tools == [] then map[] else
      var t := tools[|tools| - 1];
      Register(Build(tools[..|tools| - 1]), t, t.functions)
  }

  lemma IDsSnoc(fs: seq<Function>)
    requires fs != []
    ensures IDs(fs) == IDs(fs[..|fs| - 1]) + {fs[|fs| - 1].id}
  {
    assert fs == fs[..|fs| - 1] + [fs[|fs| - 1]];
  }

  lemma {:induction false} RegisterEffect(belt: ToolBelt, t: Tool, fs: seq<Function>)
    ensures Register(belt, t, fs).Keys == belt.Keys + IDs(fs)
    ensures forall id :: id in IDs(fs) ==> Register(belt, t, fs)[id] == t
    ensures forall id :: id in belt && id !in IDs(fs) ==> Register(belt, t, fs)[id] == belt[id]
  {
    if fs != [] {
      RegisterEffect(belt, t, fs[..|fs| - 1]);
      IDsSnoc(fs);
    }
  }

  /** The belt's keys are exactly the declared IDs. */
  lemma {:induction false} BuildKeys(tools: seq<Tool>)
    ensures Build(tools).Keys == AllIDs(tools)
  {
    if tools != [] {
      var t := tools[|tools| - 1];
      BuildKeys(tools[..|tools| - 1]);
      RegisterEffect(Build(tools[..|tools| - 1]), t, t.functions);
    }
  }

  /** An ID several tools declare belongs to the last of them. */
  lemma {:induction false} BuildLastWins(tools: seq<Tool>, id: string, i: int)
    requires LastDeclarer(tools, id, i)
    ensures id in Build(tools) && Build(tools)[id] == tools[i]
  {
    var n := |tools| - 1;
    var t := tools[n];
    var init := tools[..n];
    RegisterEffect(Build(init), t, t.functions);
    if i < n {
      assert LastDeclarer(init, id, i) by {
        forall j | i < j < |init| ensures id !in IDs(init[j].functions) {
          assert init[j] == tools[j];
        }
      }
      BuildLastWins(init, id, i);
      assert id !in IDs(t.functions);
    }
  }

  /** An ID is declared iff it has a last declarer. */
  lemma {:induction false} DeclaredHasLastDeclarer(tools: seq<Tool>, id: string)
    ensures id in AllIDs(tools) <==> exists i :: LastDeclarer(tools, id, i)
  {
    if tools != [] {
      var n := |tools| - 1;
      var init := tools[..n];
      DeclaredHasLastDeclarer(init, id);
      if id in IDs(tools[n].functions) {
        assert LastDeclarer(tools, id, n);
      } else if id in AllIDs(init) {
        var i :| LastDeclarer(init, id, i);
        assert LastDeclarer(tools, id, i) by {
          forall j | i < j < |tools| ensures id !in IDs(tools[j].functions) {
            if j < n { assert tools[j] == init[j]; }
          }
        }
      } else {
        forall i | LastDeclarer(tools, id, i) ensures false {
          if i < n {
            assert LastDeclarer(init, id, i) by {
              forall j | i < j < |init| ensures id !in IDs(init[j].functions) {
                assert init[j] == tools[j];
              }
            }
          }
        }
      }
    }
  }

  /** `NewToolBelt`: registers every function of every tool, later tools overwriting earlier ones. */
  method NewToolBelt(tools: seq<Tool>) returns (belt: ToolBelt)
    ensures belt == Build(tools)
    ensures belt.Keys == AllIDs(tools)
    ensures forall id, i :: LastDeclarer(tools, id, i) ==> id in belt && belt[id] == tools[i]
    ensures tools == [] ==> belt == map[]
  {
    belt := map[];
    var i := 0;
    while i < |tools|
      invariant 0 <= i <= |tools|
      invariant belt == Build(tools[..i])
    {
      var t := tools[i];
      var fs := t.functions;
      var j := 0;
      while j < |fs|
        invariant 0 <= j <= |fs|
        invariant belt == Register(Build(tools[..i]), t, fs[..j])
      {
        assert fs[..j + 1][..j] == fs[..j];
        belt := belt[fs[j].id := t];
        j := j + 1;
      }
      assert fs[..|fs|] == fs;
      assert tools[..i + 1][..i] == tools[..i];
      i := i + 1;
    }
    assert tools[..|tools|] == tools;
    BuildKeys(tools);
    forall id, k | LastDeclarer(tools, id, k) ensures id in belt && belt[id] == tools[k] {
      BuildLastWins(tools, id, k);
    }
  }

  /** The error text of a call to an unregistered function. */
  function NotFound(name: string): string
  {
    "tool " + name + " not found"
  }

  /**
   * `ToolBelt.Call`: delegates once to the tool registered under `name`,
   * with the same name and arguments, and passes its answer through; an
   * unknown name fails without invoking anything. The belt is a value and
   * is left as it was.
   */
  function Call(belt: ToolBelt, invoke: Invoker, name: string, args: Payload): (d: Dispatch)
    ensures name !in belt ==> d.result == Failure(NotFound(name)) && d.invoked == []
    ensures name in belt ==> d.invoked == [Invocation(belt[name], name, args)]
    ensures name in belt ==> d.result == invoke(belt[name], name, args)
  {
    if name !in belt then Dispatch(Failure(NotFound(name)), [])
    else Dispatch(invoke(belt[name], name, args), [Invocation(belt[name], name, args)])
  }

  /**
   * Dispatch through a belt built from `tools`: a declared name reaches
   * the last tool that declares it, any other name is not found.
   */
  lemma CallBuilt(tools: seq<Tool>, invoke: Invoker, name: string, args: Payload)
    ensures name !in AllIDs(tools) ==>
      Call(Build(tools), invoke, name, args) == Dispatch(Failure(NotFound(name)), [])
    ensures forall i :: LastDeclarer(tools, name, i) ==>
      Call(Build(tools), invoke, name, args) ==
        Dispatch(invoke(tools[i], name, args), [Invocation(tools[i], name, args)])
  {
    BuildKeys(tools);
    forall i | LastDeclarer(tools, name, i)
      ensures Call(Build(tools), invoke, name, args) ==
        Dispatch(invoke(tools[i], name, args), [Invocation(tools[i], name, args)])
    {
      BuildLastWins(tools, name, i);
    }
  }
}
