/**
 * The translators of llm/gemini.go between the agent's own types and the
 * Gemini backend's request and response types. The backend types are
 * local datatypes with the fields the translators read or write.
 *
 * Go's `range` over a map visits the keys in an order the runtime picks.
 * The methods below pick the next key with `:|`, so they are proved for
 * every such order, and their specifications take the visiting order as
 * an argument.
 */
module Gemini {
  import opened Wrappers
  import opened JsonSchema
  import opened AgentChat
  import opened ToolRegistry

  /** `order` lists every element of `keys` once. */
  ghost predicate Enumerates(order: seq<string>, keys: set<string>)
  {
    && (forall i, j :: 0 <= i < j < |order| ==> order[i] != order[j])
    && (forall k :: k in order <==> k in keys)
  }

  /** Without its last element, an enumeration enumerates the other keys. */
  lemma DropLast(order: seq<string>, keys: set<string>)
    requires Enumerates(order, keys) && order != []
    ensures Enumerates(order[..|order| - 1], keys - {order[|order| - 1]})
  {
    var n := |order| - 1;
    forall k | k in order[..n] ensures k in keys - {order[n]} {
      var i :| 0 <= i < n && order[..n][i] == k;
      assert order[i] != order[n];
    }
    forall k | k in keys - {order[n]} ensures k in order[..n] {
      var i :| 0 <= i < |order| && order[i] == k;
      assert order[..n][i] == k;
    }
  }

  lemma {:induction false} EnumerationLength(order: seq<string>, keys: set<string>)
    requires Enumerates(order, keys)
    ensures |order| == |keys|
  {
    if order != [] {
      DropLast(order, keys);
      EnumerationLength(order[..|order| - 1], keys - {order[|order| - 1]});
    }
  }

  // ----- Schemas -----

  /** `genai.TypeObject`. */
  const TypeObject: string := "OBJECT"

  /** `genai.Schema`, with the fields `fromJSONSchema` sets. */
  datatype GSchema = GSchema(
    typ: string,
    properties: map<string, GSchema>,
    required: seq<string>,
    propertyOrdering: seq<string>)

  /** The properties of a schema; nil reads as the empty map. */
  function Entries(sch: Schema): map<string, Schema>
  {
    if sch.properties.Properties? then sch.properties.entries else map[]
  }

  /** What `fromJSONSchema(sch)` returns. */
  function SchemaOf(sch: Schema): (g: GSchema)
    // every translated schema claims to be an object, whatever the source type
    ensures g.typ == TypeObject
    ensures g.required == sch.required && g.propertyOrdering == sch.propertyOrdering
    // the property map is always allocated, with the source's keys
    ensures g.properties.Keys == Entries(sch).Keys
    ensures forall k :: k in Entries(sch) ==> g.properties[k] == SchemaOf(Entries(sch)[k])
  {
    var props := Entries(sch);
    GSchema(TypeObject, map k | k in props :: SchemaOf(props[k]), sch.required, sch.propertyOrdering)
  }

  /** `fromJSONSchema`: fills a fresh property map by visiting the source's properties. */
  method FromJSONSchema(sch: Schema) returns (g: GSchema)
    ensures g == SchemaOf(sch)
    decreases sch
  {
    var source := Entries(sch);
    var props: map<string, GSchema> := map[];
    var todo := source.Keys;
    while todo != {}
      invariant todo <= source.Keys
      invariant props.Keys == source.Keys - todo
      invariant forall k :: k in props ==> props[k] == SchemaOf(source[k])
      decreases todo
    {
      var k :| k in todo;
      var prop := FromJSONSchema(source[k]);
      props := props[k := prop];
      todo := todo - {k};
    }
    g := GSchema(TypeObject, props, sch.required, sch.propertyOrdering);
  }

  /** The source schema reached by following property names. */
  function Lookup(sch: Schema, path: seq<string>): Option<Schema>
    decreases |path|
  {
    if path == [] then Some(sch)
    else if path[0] in Entries(sch) then Lookup(Entries(sch)[path[0]], path[1..])
    else None
  }

  /** The backend schema reached by following property names. */
  function GLookup(g: GSchema, path: seq<string>): Option<GSchema>
    decreases |path|
  {
    if path == [] then Some(g)
    else if path[0] in g.properties then GLookup(g.properties[path[0]], path[1..])
    else None
  }

  /**
   * The translation keeps the shape of the property tree: a path reaches
   * a node after translation iff it did before, and that node is the
   * translation of the original one, typed object, with the same
   * required list.
   */
  lemma {:induction false} SchemaOfLookup(sch: Schema, path: seq<string>)
    ensures Lookup(sch, path).Some? <==> GLookup(SchemaOf(sch), path).Some?
    ensures Lookup(sch, path).Some? ==>
      && GLookup(SchemaOf(sch), path).value == SchemaOf(Lookup(sch, path).value)
      && GLookup(SchemaOf(sch), path).value.typ == TypeObject
      && GLookup(SchemaOf(sch), path).value.required == Lookup(sch, path).value.required
    decreases |path|
  {
    if path != [] && path[0] in Entries(sch) {
      SchemaOfLookup(Entries(sch)[path[0]], path[1..]);
    }
  }

  // ----- Tools -----

  /** `genai.FunctionDeclaration`. */
  datatype FunctionDeclaration = FunctionDeclaration(name: string, description: string, parameters: GSchema)

  /** `genai.Tool`, with its declarations. */
  datatype GTool = GTool(functionDeclarations: seq<FunctionDeclaration>)

  /** The declaration `fromToolBelt` writes for one function. */
  function Declare(f: Function): (d: FunctionDeclaration)
    ensures d.name == f.id && d.description == f.description
    ensures d.parameters == SchemaOf(f.parameters)
  {
    FunctionDeclaration(f.id, f.description, SchemaOf(f.parameters))
  }

  /** One single-declaration tool per function of `t`, in `Functions()` order. */
  function ToolsOf(t: Tool): seq<GTool>
  {
    seq(|t.functions|, i requires 0 <= i < |t.functions| => GTool([Declare(t.functions[i])]))
  }

  /** What `fromToolBelt` returns when the belt is visited in `order`. */
  function Declarations(belt: ToolBelt, order: seq<string>): seq<GTool>
    requires forall id :: id in order ==> id in belt
  {
    if order == [] then [] else
      Declarations(belt, order[..|order| - 1]) + ToolsOf(belt[order[|order| - 1]])
  }

  /**
   * `fromToolBelt`: one tool per (belt entry, function of that entry's
   * tool) pair. Its error result is always nil.
   */
  method FromToolBelt(belt: ToolBelt) returns (tools: seq<GTool>, err: Option<string>)
    ensures err == None
    ensures exists order :: Enumerates(order, belt.Keys) && tools == Declarations(belt, order)
  {
    tools := [];
    ghost var order: seq<string> := [];
    var todo := belt.Keys;
    while todo != {}
      invariant todo <= belt.Keys
      invariant Enumerates(order, belt.Keys - todo)
      invariant tools == Declarations(belt, order)
      decreases todo
    {
      var id :| id in todo;
      var t := belt[id];
      var fs := t.functions;
      for j := 0 to |fs|
        invariant tools == Declarations(belt, order) + ToolsOf(t)[..j]
      {
        assert ToolsOf(t)[..j + 1] == ToolsOf(t)[..j] + [GTool([Declare(fs[j])])];
        tools := tools + [GTool([Declare(fs[j])])];
      }
      assert ToolsOf(t)[..|fs|] == ToolsOf(t);
      assert (order + [id])[..|order|] == order;
      order := order + [id];
      todo := todo - {id};
    }
    return tools, None;
  }

  lemma {:induction false} DeclarationsAppend(belt: ToolBelt, a: seq<string>, b: seq<string>)
    requires forall id :: id in a + b ==> id in belt
    ensures Declarations(belt, a + b) == Declarations(belt, a) + Declarations(belt, b)
    decreases |b|
  {
    if b == [] {
      assert a + b == a;
    } else {
      var n := |b| - 1;
      assert (a + b)[..|a + b| - 1] == a + b[..n];
      DeclarationsAppend(belt, a, b[..n]);
    }
  }

  /**
   * Which tools come out does not depend on the order the belt is
   * visited in: two visiting orders give the same tools, each as often.
   */
  lemma {:induction false} DeclarationsOrderFree(belt: ToolBelt, o1: seq<string>, o2: seq<string>)
    requires Enumerates(o1, belt.Keys) && Enumerates(o2, belt.Keys)
    ensures multiset(Declarations(belt, o1)) == multiset(Declarations(belt, o2))
  {
    OrderFree(belt, belt.Keys, o1, o2);
  }

  /** Removing one entry from an enumeration leaves an enumeration of the other keys. */
  lemma RemoveAt(o: seq<string>, keys: set<string>, i: int, rest: seq<string>)
    requires Enumerates(o, keys) && 0 <= i < |o| && rest == o[..i] + o[i + 1..]
    ensures Enumerates(rest, keys - {o[i]})
  {
    forall p, q | 0 <= p < q < |rest| ensures rest[p] != rest[q] {
      var p' := if p < i then p else p + 1;
      var q' := if q < i then q else q + 1;
      assert rest[p] == o[p'] && rest[q] == o[q'];
    }
    forall x | x in rest ensures x in keys - {o[i]} {
      var q :| 0 <= q < |rest| && rest[q] == x;
      var q' := if q < i then q else q + 1;
      assert o[q'] == x && q' != i;
    }
    forall x | x in keys - {o[i]} ensures x in rest {
      var q :| 0 <= q < |o| && o[q] == x;
      assert q != i;
      if q < i { assert rest[q] == x; } else { assert rest[q - 1] == x; }
    }
  }

  /** The tools of one entry, taken out of the middle of the visiting order. */
  lemma SplitAt(belt: ToolBelt, o: seq<string>, i: int)
    requires 0 <= i < |o| && forall id :: id in o ==> id in belt
    ensures multiset(Declarations(belt, o)) ==
      multiset(Declarations(belt, o[..i] + o[i + 1..])) + multiset(ToolsOf(belt[o[i]]))
  {
    assert o == o[..i] + [o[i]] + o[i + 1..];
    DeclarationsAppend(belt, o[..i] + [o[i]], o[i + 1..]);
    DeclarationsAppend(belt, o[..i], [o[i]]);
    DeclarationsAppend(belt, o[..i], o[i + 1..]);
    assert Declarations(belt, [o[i]]) == ToolsOf(belt[o[i]]) by {
      assert [o[i]][..0] == [];
    }
  }

  /** Two enumerations of the same entries of the belt give the same tools, each as often. */
  lemma {:induction false} OrderFree(belt: ToolBelt, keys: set<string>, o1: seq<string>, o2: seq<string>)
    requires keys <= belt.Keys
    requires Enumerates(o1, keys) && Enumerates(o2, keys)
    ensures multiset(Declarations(belt, o1)) == multiset(Declarations(belt, o2))
    decreases |o1|
  {
    EnumerationLength(o1, keys);
    EnumerationLength(o2, keys);
    if o1 != [] {
      var n := |o1| - 1;
      var id := o1[n];
      assert id in keys;
      var i :| 0 <= i < |o2| && o2[i] == id;
      var rest := o2[..i] + o2[i + 1..];
      DropLast(o1, keys);
      RemoveAt(o2, keys, i, rest);
      OrderFree(belt, keys - {id}, o1[..n], rest);
      SplitAt(belt, o2, i);
    }
  }

  /** Some function of `t` is declared as `d`. */
  ghost predicate DeclaredBy(t: Tool, d: FunctionDeclaration)
  {
    exists f :: f in t.functions && d == Declare(f)
  }

  lemma ToolsOfCover(t: Tool)
    ensures forall g :: g in ToolsOf(t) ==> |g.functionDeclarations| == 1
    ensures forall d :: GTool([d]) in ToolsOf(t) <==> DeclaredBy(t, d)
  {
    forall d ensures GTool([d]) in ToolsOf(t) <==> DeclaredBy(t, d) {
      if DeclaredBy(t, d) {
        var f :| f in t.functions && d == Declare(f);
        var i :| 0 <= i < |t.functions| && t.functions[i] == f;
        assert ToolsOf(t)[i] == GTool([d]);
      }
    }
  }

  /**
   * For any visiting order, a declaration comes out iff the tool of some
   * visited entry has a function it declares, and every tool out holds
   * one declaration.
   */
  lemma {:induction false} DeclarationsCover(belt: ToolBelt, order: seq<string>)
    requires forall id :: id in order ==> id in belt
    ensures forall g :: g in Declarations(belt, order) ==> |g.functionDeclarations| == 1
    ensures forall d :: GTool([d]) in Declarations(belt, order) <==>
      exists id :: id in order && DeclaredBy(belt[id], d)
  {
    if order != [] {
      var n := |order| - 1;
      var last := order[n];
      DeclarationsCover(belt, order[..n]);
      ToolsOfCover(belt[last]);
      forall d ensures GTool([d]) in Declarations(belt, order) <==>
        exists id :: id in order && DeclaredBy(belt[id], d)
      {
        if exists id :: id in order && DeclaredBy(belt[id], d) {
          var id :| id in order && DeclaredBy(belt[id], d);
          if id != last {
            var p :| 0 <= p < |order| && order[p] == id;
            assert order[..n][p] == id;
          }
        }
      }
    }
  }

  /** With every entry visited: exactly the declarations of the belt's tools come out. */
  lemma DeclarationsOfBelt(belt: ToolBelt, order: seq<string>)
    requires Enumerates(order, belt.Keys)
    ensures forall d :: GTool([d]) in Declarations(belt, order) <==>
      exists id :: id in belt && DeclaredBy(belt[id], d)
  {
    DeclarationsCover(belt, order);
  }

  // ----- Conversation -----

  /** `genai.FunctionCall`. */
  datatype GFunctionCall = GFunctionCall(name: string, args: Payload)

  /** `genai.FunctionResponse`. */
  datatype GFunctionResponse = GFunctionResponse(name: string, response: Payload)

  /** `genai.Part`, with the fields the translators set. */
  datatype Part = Part(text: string, functionCall: Option<GFunctionCall>, functionResponse: Option<GFunctionResponse>)

  /** `genai.Content`. A content without a role has role "". */
  datatype Content = Content(parts: seq<Part>, role: string)

  /** The content written for one requested call. */
  function CallContent(text: string, call: FunctionCall): Content
  {
    Content([Part(text, Some(GFunctionCall(call.name, call.args)), None)], "")
  }

  /** The content written for one tool result. */
  function ResponseContent(text: string, name: string, response: Payload): Content
  {
    Content([Part(text, None, Some(GFunctionResponse(name, response)))], "")
  }

  /** How many contents one message becomes. */
  function Width(m: Message): nat
  {
    if Calls(m) != [] then |Calls(m)|
    else if |m.functionResponses| != 0 then |m.functionResponses|
    else 1
  }

  /** The sum of the widths of the messages. */
  function TotalWidth(conversation: seq<Message>): nat
  {
    if conversation == [] then 0
    else TotalWidth(conversation[..|conversation| - 1]) + Width(conversation[|conversation| - 1])
  }

  /**
   * `order` is how `fromConversation` visits the tool results of `m`:
   * every result once when the message is a result message, nothing
   * otherwise.
   */
  ghost predicate Visits(m: Message, order: seq<string>)
  {
    if Calls(m) == [] && |m.functionResponses| != 0 then Enumerates(order, m.functionResponses.Keys)
    else order == []
  }

  /** The contents one message becomes, its results visited in `order`. */
  function MessageContents(m: Message, order: seq<string>): (r: seq<Content>)
    requires forall k :: k in order ==> k in m.functionResponses
    // calls take precedence over results: one content per call, in order
    ensures Calls(m) != [] ==>
      |r| == |Calls(m)| && forall i :: 0 <= i < |r| ==> r[i] == CallContent(m.text, Calls(m)[i])
    ensures Calls(m) == [] && |m.functionResponses| != 0 ==>
      |r| == |order| && forall i :: 0 <= i < |r| ==>
        r[i] == ResponseContent(m.text, order[i], m.functionResponses[order[i]])
    // a plain message keeps its author as the role
    ensures Calls(m) == [] && |m.functionResponses| == 0 ==>
      r == [Content([Part(m.text, None, None)], m.author.Role())]
  {
    if Calls(m) != [] then
      seq(|Calls(m)|, i requires 0 <= i < |Calls(m)| => CallContent(m.text, Calls(m)[i]))
    else if |m.functionResponses| != 0 then
      seq(|order|, i requires 0 <= i < |order| => ResponseContent(m.text, order[i], m.functionResponses[order[i]]))
    else
      [Content([Part(m.text, None, None)], m.author.Role())]
  }

  /** Every visiting order of a message's results fits `MessageContents`. */
  ghost predicate AllVisit(conversation: seq<Message>, orders: seq<seq<string>>)
  {
    && |orders| == |conversation|
    && forall i :: 0 <= i < |conversation| ==> Visits(conversation[i], orders[i])
  }

  lemma VisitsInRange(m: Message, order: seq<string>)
    requires Visits(m, order)
    ensures forall k :: k in order ==> k in m.functionResponses
  {
  }

  /** What `fromConversation` returns when the results are visited in `orders`. */
  function Contents(conversation: seq<Message>, orders: seq<seq<string>>): seq<Content>
    requires AllVisit(conversation, orders)
  {
    if conversation == [] then [] else
      var n := |conversation| - 1;
      VisitsInRange(conversation[n], orders[n]);
      Contents(conversation[..n], orders[..n]) + MessageContents(conversation[n], orders[n])
  }

  /** The body of `fromConversation`'s loop: the contents of one message. */
  method MessageParts(msg: Message) returns (parts: seq<Content>, ghost order: seq<string>)
    ensures Visits(msg, order)
    ensures (VisitsInRange(msg, order); parts == MessageContents(msg, order))
  {
    parts := [];
    order := [];
    if |Calls(msg)| != 0 {
      var calls := Calls(msg);
      for j := 0 to |calls|
        invariant parts == MessageContents(msg, [])[..j]
      {
        assert MessageContents(msg, [])[..j + 1] == MessageContents(msg, [])[..j] + [CallContent(msg.text, calls[j])];
        parts := parts + [CallContent(msg.text, calls[j])];
      }
      assert MessageContents(msg, [])[..|calls|] == MessageContents(msg, []);
    } else if |msg.functionResponses| != 0 {
      var todo := msg.functionResponses.Keys;
      while todo != {}
        invariant todo <= msg.functionResponses.Keys
        invariant Enumerates(order, msg.functionResponses.Keys - todo)
        invariant parts == MessageContents(msg, order)
        decreases todo
      {
        var name :| name in todo;
        var content := ResponseContent(msg.text, name, msg.functionResponses[name]);
        assert MessageContents(msg, order + [name]) == MessageContents(msg, order) + [content];
        parts := parts + [content];
        order := order + [name];
        todo := todo - {name};
      }
    } else {
      parts := [Content([Part(msg.text, None, None)], msg.author.Role())];
    }
  }

  lemma ContentsSnoc(conversation: seq<Message>, orders: seq<seq<string>>, m: Message, order: seq<string>)
    requires AllVisit(conversation, orders) && Visits(m, order)
    ensures AllVisit(conversation + [m], orders + [order])
    ensures (VisitsInRange(m, order);
      Contents(conversation + [m], orders + [order]) == Contents(conversation, orders) + MessageContents(m, order))
  {
    AllVisitAppend(conversation, orders, [m], [order]);
    assert (conversation + [m])[..|conversation|] == conversation;
    assert (orders + [order])[..|orders|] == orders;
  }

  /** `fromConversation`. */
  method FromConversation(conversation: seq<Message>) returns (parts: seq<Content>)
    ensures exists orders :: AllVisit(conversation, orders) && parts == Contents(conversation, orders)
  {
    parts := [];
    ghost var done: seq<Message> := [];
    ghost var orders: seq<seq<string>> := [];
    for i := 0 to |conversation|
      invariant done == conversation[..i]
      invariant AllVisit(done, orders)
      invariant parts == Contents(done, orders)
    {
      assert conversation[..i + 1] == done + [conversation[i]];
      var more, order := MessageParts(conversation[i]);
      ContentsSnoc(done, orders, conversation[i], order);
      parts := parts + more;
      done := done + [conversation[i]];
      orders := orders + [order];
    }
    assert done == conversation;
  }

  /** A message becomes `Width` contents, whatever order its results are visited in. */
  lemma MessageContentsWidth(m: Message, order: seq<string>)
    requires Visits(m, order)
    ensures |MessageContents(m, order)| == Width(m)
  {
    if Calls(m) == [] && |m.functionResponses| != 0 {
      EnumerationLength(order, m.functionResponses.Keys);
    }
  }

  /** The conversation becomes the sum of its messages' widths. */
  lemma {:induction false} ContentsLength(conversation: seq<Message>, orders: seq<seq<string>>)
    requires AllVisit(conversation, orders)
    ensures |Contents(conversation, orders)| == TotalWidth(conversation)
  {
    if conversation != [] {
      var n := |conversation| - 1;
      ContentsLength(conversation[..n], orders[..n]);
      MessageContentsWidth(conversation[n], orders[n]);
    }
  }

  lemma AllVisitAppend(a: seq<Message>, oa: seq<seq<string>>, b: seq<Message>, ob: seq<seq<string>>)
    requires AllVisit(a, oa) && AllVisit(b, ob)
    ensures AllVisit(a + b, oa + ob)
  {
    forall i | 0 <= i < |a + b| ensures Visits((a + b)[i], (oa + ob)[i]) {
      if i < |a| {
        assert (a + b)[i] == a[i] && (oa + ob)[i] == oa[i];
      } else {
        assert (a + b)[i] == b[i - |a|] && (oa + ob)[i] == ob[i - |a|];
      }
    }
  }

  /** A visiting order for every message of a prefix. */
  lemma AllVisitPrefix(conversation: seq<Message>, orders: seq<seq<string>>, n: int)
    requires AllVisit(conversation, orders) && 0 <= n <= |conversation|
    ensures AllVisit(conversation[..n], orders[..n])
  {
    forall i | 0 <= i < n ensures Visits(conversation[..n][i], orders[..n][i]) {
      assert conversation[..n][i] == conversation[i] && orders[..n][i] == orders[i];
    }
  }

  /** The step of `ContentsAppend`: one more message at the end of the second half. */
  lemma ContentsAppendSnoc(a: seq<Message>, oa: seq<seq<string>>, b: seq<Message>, ob: seq<seq<string>>,
                           m: Message, o: seq<string>)
    requires AllVisit(a, oa) && AllVisit(b, ob) && Visits(m, o)
    requires AllVisit(a + b, oa + ob)
    requires Contents(a + b, oa + ob) == Contents(a, oa) + Contents(b, ob)
    ensures AllVisit(a + (b + [m]), oa + (ob + [o]))
    ensures Contents(a + (b + [m]), oa + (ob + [o])) == Contents(a, oa) + Contents(b + [m], ob + [o])
  {
    ConcatAssoc(a, b, [m]);
    ConcatAssoc(oa, ob, [o]);
    ContentsSnoc(a + b, oa + ob, m, o);
    ContentsSnoc(b, ob, m, o);
    VisitsInRange(m, o);
    var x, y, z := Contents(a, oa), Contents(b, ob), MessageContents(m, o);
    assert Contents(a + (b + [m]), oa + (ob + [o])) == (x + y) + z;
    assert Contents(b + [m], ob + [o]) == y + z;
    ConcatAssoc(x, y, z);
  }

  lemma ConcatAssoc<T>(x: seq<T>, y: seq<T>, z: seq<T>)
    ensures (x + y) + z == x + (y + z)
  {
  }

  lemma LastSplit<T>(s: seq<T>)
    requires s != []
    ensures s == s[..|s| - 1] + [s[|s| - 1]]
  {
  }

  /** Translation preserves message order: a conversation's halves translate to the halves of its translation. */
  lemma {:induction false} ContentsAppend(a: seq<Message>, oa: seq<seq<string>>, b: seq<Message>, ob: seq<seq<string>>)
    requires AllVisit(a, oa) && AllVisit(b, ob)
    ensures AllVisit(a + b, oa + ob)
    ensures Contents(a + b, oa + ob) == Contents(a, oa) + Contents(b, ob)
    decreases |b|
  {
    if b == [] {
      assert a + b == a && oa + ob == oa;
    } else {
      var n := |b| - 1;
      AllVisitPrefix(b, ob, n);
      ContentsAppend(a, oa, b[..n], ob[..n]);
      LastSplit(b);
      LastSplit(ob);
      ContentsAppendSnoc(a, oa, b[..n], ob[..n], b[n], ob[n]);
    }
  }

  /**
   * The results of a result message come out named by their function and
   * carrying their payload, and nothing else comes out.
   */
  lemma ResponsesCovered(m: Message, order: seq<string>)
    requires Calls(m) == [] && |m.functionResponses| != 0 && Visits(m, order)
    ensures forall name, response ::
      ResponseContent(m.text, name, response) in MessageContents(m, order) <==>
        name in m.functionResponses && m.functionResponses[name] == response
  {
    forall name, response
      ensures ResponseContent(m.text, name, response) in MessageContents(m, order) <==>
        name in m.functionResponses && m.functionResponses[name] == response
    {
      if name in m.functionResponses && m.functionResponses[name] == response {
        var i :| 0 <= i < |order| && order[i] == name;
        assert MessageContents(m, order)[i] == ResponseContent(m.text, name, response);
      }
    }
  }

  // ----- Reply -----

  /** What the backend's response offers through `Text()` and `FunctionCalls()`. */
  datatype GenerateResponse = GenerateResponse(text: string, functionCalls: seq<GFunctionCall>)

  /** The message built from a backend response. */
  function Reply(resp: GenerateResponse): (m: Message)
    ensures m.author == Model && m.text == resp.text && m.functionResponses == map[]
    // the slice stays nil when the backend asked for no call, which ends the tool loop
    ensures m.functionCalls.None? <==> resp.functionCalls == []
    ensures |Calls(m)| == |resp.functionCalls|
    ensures forall i :: 0 <= i < |Calls(m)| ==>
      Calls(m)[i] == FunctionCall(resp.functionCalls[i].name, resp.functionCalls[i].args)
  {
    var calls := resp.functionCalls;
    Message(Model, resp.text,
      if calls == [] then None
      else Some(seq(|calls|, i requires 0 <= i < |calls| => FunctionCall(calls[i].name, calls[i].args))),
      map[])
  }

  /** Lines 118-128 of `Gemini.SendMessage`: appends the calls one by one to a nil slice. */
  method ReplyMessage(resp: GenerateResponse) returns (m: Message)
    ensures m == Reply(resp)
  {
    m := Message(Model, resp.text, None, map[]);
    var calls := resp.functionCalls;
    for i := 0 to |calls|
      invariant m.author == Model && m.text == resp.text && m.functionResponses == map[]
      invariant m.functionCalls.None? <==> i == 0
      invariant |Calls(m)| == i
      invariant forall j :: 0 <= j < i ==> Calls(m)[j] == FunctionCall(calls[j].name, calls[j].args)
    {
      m := m.(functionCalls := Some(Calls(m) + [FunctionCall(calls[i].name, calls[i].args)]));
    }
    assert Calls(m) == Calls(Reply(resp));
  }

  /**
   * A reply put back into the history is sent to the backend with the
   * calls it came with, in the same order; a reply without calls goes back
   * as one content in the model's role.
   */
  lemma ReplyRoundTrip(resp: GenerateResponse)
    ensures resp.functionCalls != [] ==>
      && |MessageContents(Reply(resp), [])| == |resp.functionCalls|
      && forall i :: 0 <= i < |resp.functionCalls| ==>
           MessageContents(Reply(resp), [])[i].parts == [Part(resp.text, Some(resp.functionCalls[i]), None)]
    ensures resp.functionCalls == [] ==>
      MessageContents(Reply(resp), []) == [Content([Part(resp.text, None, None)], "model")]
  {
  }
}
