/**
 * The MCP client of mcp/client.go: the schema conversion from the MCP
 * SDK's schema type to the project's own, the transport choice and
 * session list of `Client.Connect`, and the session listing of
 * `Client.Tools`. The SDK's connect call is a function given to `Connect`.
 */
module McpClient {
  import opened Wrappers
  import opened JsonSchema

  /** The `Properties` of an MCP schema: nil, or a map whose values are pointers that may be nil. */
  datatype McpProperties = NilMcpProperties | McpProperties(entries: map<string, Option<McpSchema>>)

  /** `mcpjson.Schema`, with the fields `toJSONSchema` reads. */
  datatype McpSchema = McpSchema(
    typ: string,
    description: string,
    required: seq<string>,
    examples: seq<Json>,
    properties: McpProperties,
    items: Option<McpSchema>)

  /** What `toJSONSchema(sch)` returns; `None` is a nil pointer. */
  function Converted(sch: Option<McpSchema>): (r: Schema)
    // a nil schema becomes the zero schema
    ensures sch.None? ==> r == ZeroSchema()
    // the scalar fields are copied; the ordering is never set
    ensures sch.Some? ==>
      && r.typ == sch.value.typ && r.description == sch.value.description
      && r.required == sch.value.required && r.examples == sch.value.examples
      && r.propertyOrdering == []
    // properties are present iff they were, with the same keys, each converted
    ensures sch.Some? ==> (r.properties.Properties? <==> sch.value.properties.McpProperties?)
    ensures sch.Some? && sch.value.properties.McpProperties? ==>
      && r.properties.entries.Keys == sch.value.properties.entries.Keys
      && forall k :: k in r.properties.entries ==>
           r.properties.entries[k] == Converted(sch.value.properties.entries[k])
    // items are present iff they were, converted
    ensures sch.Some? ==> (r.items.Some? <==> sch.value.items.Some?)
    ensures sch.Some? && sch.value.items.Some? ==> r.items.value == Converted(sch.value.items)
  {
    match sch
    case None => ZeroSchema()
    case Some(s) =>
      var props := match s.properties
        case NilMcpProperties => NilProperties
        case McpProperties(entries) => Properties(map k | k in entries :: Converted(entries[k]));
      var items := if s.items.Some? then Some(Converted(s.items)) else None;
      Schema(s.typ, s.description, props, s.required, [], items, s.examples)
  }

  /** `toJSONSchema`. */
  method ToJSONSchema(sch: Option<McpSchema>) returns (r: Schema)
    ensures r == Converted(sch)
    decreases sch, 1
  {
    if sch.None? {
      return ZeroSchema();
    }
    var s := sch.value;
    var props := NilProperties;
    if s.properties.McpProperties? {
      var converted := ConvertProperties(sch, s.properties.entries);
      props := Properties(converted);
    }
    assert props == Converted(sch).properties;
    var items := None;
    if s.items.Some? {
      var converted := ToJSONSchema(s.items);
      items := Some(converted);
    }
    assert items == Converted(sch).items;
    r := Schema(s.typ, s.description, props, s.required, [], items, s.examples);
  }

  /** The loop of `toJSONSchema` that fills a fresh property map by visiting the source's properties. */
  method ConvertProperties(ghost sch: Option<McpSchema>, source: map<string, Option<McpSchema>>)
    returns (props: map<string, Schema>)
    requires sch.Some? && sch.value.properties == McpProperties(source)
    ensures props == map k | k in source :: Converted(source[k])
    decreases sch, 0
  {
    props := map[];
    var todo := source.Keys;
    while todo != {}
      invariant todo <= source.Keys
      invariant props.Keys == source.Keys - todo
      invariant forall k :: k in props ==> props[k] == Converted(source[k])
      decreases todo
    {
      var name :| name in todo;
      var prop := ToJSONSchema(source[name]);
      props := props[name := prop];
      todo := todo - {name};
    }
  }

  /** One step down a schema: into a named property or into the items. */
  datatype Step = Property(name: string) | Items

  /** The MCP schema pointer reached by `path`, if the path exists. */
  function McpAt(sch: Option<McpSchema>, path: seq<Step>): Option<Option<McpSchema>>
    decreases |path|
  {
    if path == [] then Some(sch)
    else if sch.None? then None
    else match path[0]
      case Property(name) =>
        if sch.value.properties.McpProperties? && name in sch.value.properties.entries
        then McpAt(sch.value.properties.entries[name], path[1..])
        else None
      case Items =>
        if sch.value.items.Some? then McpAt(sch.value.items, path[1..]) else None
  }

  /** The converted schema reached by `path`, if the path exists. */
  function At(sch: Schema, path: seq<Step>): Option<Schema>
    decreases |path|
  {
    if path == [] then Some(sch)
    else match path[0]
      case Property(name) =>
        if sch.properties.Properties? && name in sch.properties.entries
        then At(sch.properties.entries[name], path[1..])
        else None
      case Items =>
        if sch.items.Some? then At(sch.items.value, path[1..]) else None
  }

  /**
   * The conversion keeps the shape of the schema tree: a path through
   * properties and items exists after conversion iff it did before, and
   * leads to the conversion of the node it led to. A nil node becomes a
   * zero schema, which has nothing below it either.
   */
  lemma {:induction false} ConvertedAt(sch: Option<McpSchema>, path: seq<Step>)
    ensures McpAt(sch, path).Some? <==> At(Converted(sch), path).Some?
    ensures McpAt(sch, path).Some? ==> At(Converted(sch), path).value == Converted(McpAt(sch, path).value)
    decreases |path|
  {
    if path != [] && sch.Some? {
      match path[0]
      case Property(name) =>
        if sch.value.properties.McpProperties? && name in sch.value.properties.entries {
          ConvertedAt(sch.value.properties.entries[name], path[1..]);
        }
      case Items =>
        if sch.value.items.Some? {
          ConvertedAt(sch.value.items, path[1..]);
        }
    }
  }

  /**
   * `mcp.Config`. `url` is unexported in the source, so a configuration
   * read from JSON always has it empty; it is a field here so that both
   * transports can be described.
   */
  datatype Config = Config(name: string, command: string, args: seq<string>, url: string)

  /** The two transports `Connect` can build. */
  datatype Transport = CommandTransport(command: string, args: seq<string>) | SseTransport(url: string)

  /** An open MCP session; `conn` stands for the SDK's session handle. */
  datatype Session = Session(conn: nat)

  /** The error of a configuration with neither a command nor a url. */
  function InvalidCommand(name: string): string
  {
    "invalid command for MCP server " + name
  }

  /** The transport `Connect` picks for `cfg`. */
  function SelectTransport(cfg: Config): (r: Result<Transport, string>)
    // a command wins over a url
    ensures cfg.command != "" ==> r == Success(CommandTransport(cfg.command, cfg.args))
    ensures cfg.command == "" && cfg.url != "" ==> r == Success(SseTransport(cfg.url))
    // there is no transport iff neither is set
    ensures r.Failure? <==> cfg.command == "" && cfg.url == ""
    ensures r.Failure? ==> r.error == InvalidCommand(cfg.name)
  {
    if cfg.command != "" then Success(CommandTransport(cfg.command, cfg.args))
    else if cfg.url != "" then Success(SseTransport(cfg.url))
    else Failure(InvalidCommand(cfg.name))
  }

  /**
   * `mcp.Client`. `dialled` records every transport handed to the SDK's
   * connect call, in order.
   */
  class Client {
    var sessions: seq<Session>
    ghost var dialled: seq<Transport>

    /** `NewClient`. */
    constructor ()
      ensures sessions == [] && dialled == []
    {
      sessions := [];
      dialled := [];
    }

    /**
     * `Connect`: builds the transport, dials it with `connect`, and
     * appends one session when that succeeds.
     */
    method Connect(cfg: Config, connect: Transport -> Result<Session, string>) returns (err: Option<string>)
      modifies this`sessions, this`dialled
      // no transport: the error, nothing dialled, no session
      ensures SelectTransport(cfg).Failure? ==>
        err == Some(SelectTransport(cfg).error) && sessions == old(sessions) && dialled == old(dialled)
      ensures SelectTransport(cfg).Success? ==>
        && dialled == old(dialled) + [SelectTransport(cfg).value]
        && (connect(SelectTransport(cfg).value).Failure? ==>
              err == Some(connect(SelectTransport(cfg).value).error) && sessions == old(sessions))
        && (connect(SelectTransport(cfg).value).Success? ==>
              err == None && sessions == old(sessions) + [connect(SelectTransport(cfg).value).value])
    {
      var t: Transport;
      if cfg.command != "" {
        t := CommandTransport(cfg.command, cfg.args);
      } else if cfg.url != "" {
        t := SseTransport(cfg.url);
      } else {
        return Some(InvalidCommand(cfg.name));
      }
      dialled := dialled + [t];
      var s := connect(t);
      if s.Failure? {
        return Some(s.error);
      }
      sessions := sessions + [s.value];
      err := None;
    }
  }

  /**
   * `Client.Tools`: nil for a nil client; otherwise a fresh (non-nil)
   * list with one entry per session, in session order.
   */
  method Tools(c: Client?) returns (out: Option<seq<Session>>)
    ensures c == null ==> out == None
    ensures c != null ==> out.Some? && |out.value| == |c.sessions|
    ensures c != null ==> forall i :: 0 <= i < |c.sessions| ==> out.value[i] == c.sessions[i]
  {
    if c == null {
      return None;
    }
    var list: seq<Session> := [];
    for i := 0 to |c.sessions|
      invariant list == c.sessions[..i]
    {
      list := list + [c.sessions[i]];
    }
    return Some(list);
  }
}
