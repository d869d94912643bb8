/**
 * The bridge that hands the agent's tools to the language-model SDK
 * (pkg/tools/fantasy_adapter.go): the tool context carried in a request
 * context, the tool description the SDK sees, one tool run with its input
 * parsing, side channel and response, and the adaptation of a whole registry.
 */
module ToolAdapter {
  import opened Wrappers

  // ---- Tool context in a request context ----

  /** The channel and chat a tool call belongs to. */
  datatype ToolContext = ToolContext(channel: string, chatId: string)

  /** A value stored in a request context: a tool context, or a value under some other key. */
  datatype ContextValue = ToolContextValue(tc: ToolContext) | OtherValue(key: string)

  /** A request context: the values added to it, oldest first. */
  datatype Context = Context(values: seq<ContextValue>)

  /** WithToolContext: a derived context carrying `tc`. */
  function WithToolContext(ctx: Context, tc: ToolContext): (r: Context)
    ensures |r.values| == |ctx.values| + 1 && r.values[..|ctx.values|] == ctx.values
  {
    Context(ctx.values + [ToolContextValue(tc)])
  }

  /** GetToolContext: the most recently added tool context, if any. */
  function GetToolContext(ctx: Context): (r: Option<ToolContext>)
    ensures r.None? <==> forall k :: 0 <= k < |ctx.values| ==> !ctx.values[k].ToolContextValue?
    ensures r.Some? ==> ToolContextValue(r.value) in ctx.values
    decreases |ctx.values|
  {
    if ctx.values == [] then None
    else
      var last := ctx.values[|ctx.values| - 1];
      if last.ToolContextValue? then Some(last.tc)
      else GetToolContext(Context(ctx.values[..|ctx.values| - 1]))
  }

  /** A tool context stored in a context is found again. */
  lemma ToolContextRoundTrip(ctx: Context, tc: ToolContext)
    ensures GetToolContext(WithToolContext(ctx, tc)) == Some(tc)
  {
  }

  /** Values added later under other keys do not change which tool context is found. */
  lemma {:induction false} OtherValuesKeepToolContext(ctx: Context, later: seq<ContextValue>)
    requires forall k :: 0 <= k < |later| ==> later[k].OtherValue?
    ensures GetToolContext(Context(ctx.values + later)) == GetToolContext(ctx)
    decreases |later|
  {
    if later == [] {
      assert ctx.values + later == ctx.values;
    } else {
      var init := later[..|later| - 1];
      var vs := ctx.values + later;
      assert vs[..|vs| - 1] == ctx.values + init;
      OtherValuesKeepToolContext(ctx, init);
    }
  }

  // ---- Tool description ----

  /** The dynamically typed values a tool's parameter schema holds. */
  datatype Value =
    | Str(s: string)
    | StrList(strs: seq<string>)
    | AnyList(items: seq<Value>)
    | Obj(fields: map<string, Value>)
    | OtherKind

  /** A registered tool: its name, description, schema and the optional interfaces it implements. */
  datatype Tool = Tool(name: string, description: string, schema: Option<map<string, Value>>, contextual: bool, async: bool)

  /** What the SDK is told about a tool. `required` is None for Go's nil slice. */
  datatype ToolInfo = ToolInfo(
    name: string, description: string, parameters: map<string, Value>,
    required: Option<seq<string>>, parallel: bool)

  /** The tools the SDK may run in parallel. */
  const ParallelSafeTools: set<string> :=
    {"read_file", "write_file", "list_dir", "edit_file", "append_file", "web_search", "web_fetch", "find_skills"}

  /** The "properties" map of a schema; an absent schema, key or non-map value gives the empty map. */
  function Properties(schema: Option<map<string, Value>>): (props: map<string, Value>)
    ensures schema.Some? && "properties" in schema.value && schema.value["properties"].Obj? ==>
      props == schema.value["properties"].fields
    ensures !(schema.Some? && "properties" in schema.value && schema.value["properties"].Obj?) ==> props == map[]
  {
    if schema.Some? && "properties" in schema.value && schema.value["properties"].Obj? then
      schema.value["properties"].fields
    else map[]
  }

  /** The string elements of a list, in order. */
  function StringsOf(items: seq<Value>): (strs: seq<string>)
    ensures |strs| <= |items|
  {
    if items == [] then []
    else StringsOf(items[..|items| - 1]) + (if items[|items| - 1].Str? then [items[|items| - 1].s] else [])
  }

  /** StringsOf keeps exactly the string elements: each one kept is some element, and each string element is kept. */
  lemma {:induction false} StringsOfExactly(items: seq<Value>)
    ensures forall s :: s in StringsOf(items) <==> Str(s) in items
    decreases |items|
  {
    if items != [] {
      var init := items[..|items| - 1];
      StringsOfExactly(init);
      assert items == init + [items[|items| - 1]];
    }
  }

  /** A list of strings alone is kept whole and in order. */
  lemma {:induction false} StringsOfStrings(strs: seq<string>)
    ensures StringsOf(seq(|strs|, i requires 0 <= i < |strs| => Str(strs[i]))) == strs
    decreases |strs|
  {
    if strs != [] {
      var init := strs[..|strs| - 1];
      var items := seq(|strs|, i requires 0 <= i < |strs| => Str(strs[i]));
      assert items[..|items| - 1] == seq(|init|, i requires 0 <= i < |init| => Str(init[i]));
      StringsOfStrings(init);
    }
  }

  /** The required names the source collects from a `[]any`: its strings, or nil when there are none. */
  function NilIfEmpty(strs: seq<string>): Option<seq<string>> {
    if strs == [] then None else Some(strs)
  }

  /** The loop that keeps the string elements of a `[]any`. */
  method CollectStrings(items: seq<Value>) returns (required: Option<seq<string>>)
    ensures required == NilIfEmpty(StringsOf(items))
  {
    required := None;
    var k := 0;
    while k < |items|
      invariant 0 <= k <= |items|
      invariant required == NilIfEmpty(StringsOf(items[..k]))
    {
      assert items[..k + 1][..k] == items[..k];
      assert StringsOf(items[..k + 1]) == StringsOf(items[..k]) + (if items[k].Str? then [items[k].s] else []);
      if items[k].Str? {
        var sofar := if required.Some? then required.value else [];
        assert sofar == StringsOf(items[..k]);
        required := Some(sofar + [items[k].s]);
        assert StringsOf(items[..k + 1]) == sofar + [items[k].s];
        assert required == NilIfEmpty(StringsOf(items[..k + 1]));
      } else {
        assert StringsOf(items[..k + 1]) == StringsOf(items[..k]);
        assert required == NilIfEmpty(StringsOf(items[..k + 1]));
      }
      k := k + 1;
    }
    assert items[..k] == items;
  }

  /** The "required" entry of a schema: a `[]string` as is, the strings of a `[]any`, otherwise nil. */
  function Required(schema: Option<map<string, Value>>): Option<seq<string>> {
    if schema.Some? && "required" in schema.value then
      match schema.value["required"]
      case StrList(strs) => Some(strs)
      case AnyList(items) => NilIfEmpty(StringsOf(items))
      case _ => None
    else None
  }

  /** FantasyToolAdapter.Info. */
  method Info(tool: Tool, parallel: bool) returns (info: ToolInfo)
    ensures info == ToolInfo(tool.name, tool.description, Properties(tool.schema), Required(tool.schema), parallel)
  {
    var schema := if tool.schema.Some? then tool.schema.value else map[];
    var properties: map<string, Value> := map[];
    if "properties" in schema && schema["properties"].Obj? {
      properties := schema["properties"].fields;
    }
    var required: Option<seq<string>> := None;
    if "required" in schema {
      match schema["required"]
      case StrList(strs) => required := Some(strs);
      case AnyList(items) => required := CollectStrings(items);
      case _ =>
    }
    info := ToolInfo(tool.name, tool.description, properties, required, parallel);
  }

  /** A schema without "required" gives nil, and a nil schema is read as an empty one. */
  lemma RequiredAbsent(schema: Option<map<string, Value>>)
    requires schema.None? || "required" !in schema.value
    ensures Required(schema).None? && Required(Some(map[])).None?
    ensures Properties(schema) == map[] || (schema.Some? && "properties" in schema.value)
  {
  }

  // ---- Running a tool ----

  /** What a tool's Execute returns. `err` is the message of a non-nil Err. */
  datatype ToolResult = ToolResult(forLlm: string, forUser: string, silent: bool, isError: bool, err: Option<string>)

  /** What the SDK gets back from a tool run. */
  datatype ToolResponse = TextResponse(content: string) | TextErrorResponse(errorContent: string)

  /** The decoded arguments of a call; JSON `null` decodes to a nil map. */
  type Args = map<string, Value>

  /** Whether a result's text for the user goes to the sink. */
  predicate SendsToUser(r: ToolResult, hasSink: bool) {
    !r.silent && r.forUser != "" && hasSink
  }

  /** The response content: the text for the model, or the error's message when that text is empty. */
  function ResponseContent(r: ToolResult): (content: string)
    ensures r.forLlm != "" ==> content == r.forLlm
    ensures r.forLlm == "" && r.err.Some? ==> content == r.err.value
    ensures r.forLlm == "" && r.err.None? ==> content == ""
  {
    if r.forLlm == "" && r.err.Some? then r.err.value else r.forLlm
  }

  /** The response for a result: an error response exactly when the result is an error. */
  function ResponseFor(r: ToolResult): (resp: ToolResponse)
    ensures resp.TextErrorResponse? <==> r.isError
    ensures resp == TextResponse(ResponseContent(r)) || resp == TextErrorResponse(ResponseContent(r))
  {
    if r.isError then TextErrorResponse(ResponseContent(r)) else TextResponse(ResponseContent(r))
  }

  /** A tool wrapped for the SDK, together with the state its runs change. */
  class FantasyToolAdapter {
    const tool: Tool
    const hasSink: bool
    const parallel: bool
    var providerOptions: map<string, string>
    /** The channel and chat the last SetContext gave a contextual tool. */
    var toolContext: Option<ToolContext>
    /** Whether SetCallback has given an async tool its completion callback. */
    var callbackSet: bool
    /** The arguments of every Execute call, in order. */
    var executions: seq<Args>
    /** The texts passed to the user sink, in order. */
    var sentToUser: seq<string>

    /** No options, context or callback set, and no calls yet. */
    predicate Initial()
      reads this
    {
      providerOptions == map[] && toolContext.None? && !callbackSet && executions == [] && sentToUser == []
    }

    constructor (tool: Tool, hasSink: bool, parallel: bool)
      ensures this.tool == tool && this.hasSink == hasSink && this.parallel == parallel
      ensures providerOptions == map[] && toolContext.None? && !callbackSet
      ensures executions == [] && sentToUser == []
    {
      this.tool := tool;
      this.hasSink := hasSink;
      this.parallel := parallel;
      providerOptions := map[];
      toolContext := None;
      callbackSet := false;
      executions := [];
      sentToUser := [];
    }

    /** SetProviderOptions. */
    method SetProviderOptions(opts: map<string, string>)
      modifies this`providerOptions
      ensures providerOptions == opts
    {
      providerOptions := opts;
    }

    /**
     * Run. `parse` stands for json.Unmarshal into a map (Err carries its
     * message, Ok(None) is JSON null) and `execute` for the tool's Execute.
     */
    method Run(ctx: Context, input: string, parse: string -> Result<Option<Args>, string>, execute: Args -> ToolResult)
      returns (resp: ToolResponse)
      modifies this`toolContext, this`callbackSet, this`executions, this`sentToUser
      ensures input != "" && parse(input).Err? ==>
        resp == TextErrorResponse("invalid parameters: " + parse(input).error) &&
        executions == old(executions) && sentToUser == old(sentToUser) &&
        toolContext == old(toolContext) && callbackSet == old(callbackSet)
      ensures !(input != "" && parse(input).Err?) ==>
        var args := if input != "" && parse(input).value.Some? then parse(input).value.value else map[];
        executions == old(executions) + [args] &&
        resp == ResponseFor(execute(args)) &&
        sentToUser == old(sentToUser) + (if SendsToUser(execute(args), hasSink) then [execute(args).forUser] else []) &&
        toolContext == (if tool.contextual && GetToolContext(ctx).Some? then GetToolContext(ctx) else old(toolContext)) &&
        callbackSet == (old(callbackSet) || tool.async)
    {
      var args: Args := map[];
      if input != "" {
        var parsed := parse(input);
        if parsed.Err? {
          return TextErrorResponse("invalid parameters: " + parsed.error);
        }
        if parsed.value.Some? {
          args := parsed.value.value;
        }
      }
      if tool.contextual {
        var tc := GetToolContext(ctx);
        if tc.Some? {
          toolContext := tc;
        }
      }
      if tool.async {
        callbackSet := true;
      }
      var result := execute(args);
      executions := executions + [args];
      if !result.silent && result.forUser != "" && hasSink {
        sentToUser := sentToUser + [result.forUser];
      }
      var content := result.forLlm;
      if content == "" && result.err.Some? {
        content := result.err.value;
      }
      if result.isError {
        return TextErrorResponse(content);
      }
      return TextResponse(content);
    }

    /** The completion callback an async tool was given, called with its final result. */
    method CompleteAsync(result: ToolResult)
      requires callbackSet
      modifies this`sentToUser
      ensures sentToUser == old(sentToUser) + (if SendsToUser(result, hasSink) then [result.forUser] else [])
    {
      if !result.silent && result.forUser != "" && hasSink {
        sentToUser := sentToUser + [result.forUser];
      }
    }
  }

  // ---- Adapting a registry ----

  /** Lexicographic order on byte strings, as Go's `<` on strings. */
  predicate StrLess(a: string, b: string) {
    (|a| < |b| && a == b[..|a|]) ||
    exists k :: 0 <= k < |a| && k < |b| && a[..k] == b[..k] && a[k] < b[k]
  }

  /** `names` lists the registry's tool names, each once, in ascending order. */
  predicate SortedNamesOf(names: seq<string>, registry: map<string, Tool>) {
    (forall i :: 0 <= i < |names| ==> names[i] in registry) &&
    (forall n :: n in registry ==> n in names) &&
    (forall i, j :: 0 <= i < j < |names| ==> StrLess(names[i], names[j]))
  }

  /** A sorted name list holds no name twice. */
  lemma SortedNamesDistinct(names: seq<string>, registry: map<string, Tool>)
    requires SortedNamesOf(names, registry)
    ensures forall i, j :: 0 <= i < j < |names| ==> names[i] != names[j]
    ensures |names| == |registry|
  {
    forall i, j | 0 <= i < j < |names| ensures names[i] != names[j] {
      StrLessIrreflexive(names[i], names[j]);
    }
    DistinctCover(names, registry);
  }

  lemma StrLessIrreflexive(a: string, b: string)
    requires StrLess(a, b)
    ensures a != b
  {
  }

  lemma {:induction false} DistinctCover(names: seq<string>, registry: map<string, Tool>)
    requires forall i :: 0 <= i < |names| ==> names[i] in registry
    requires forall n :: n in registry ==> n in names
    requires forall i, j :: 0 <= i < j < |names| ==> names[i] != names[j]
    ensures |names| == |registry|
  {
    var keys := set i | 0 <= i < |names| :: names[i];
    assert keys == registry.Keys;
    DistinctSetSize(names);
  }

  lemma {:induction false} DistinctSetSize(names: seq<string>)
    requires forall i, j :: 0 <= i < j < |names| ==> names[i] != names[j]
    ensures |set i | 0 <= i < |names| :: names[i]| == |names|
    decreases |names|
  {
    if names != [] {
      var init := names[..|names| - 1];
      DistinctSetSize(init);
      var s := set i | 0 <= i < |names| :: names[i];
      var s0 := set i | 0 <= i < |init| :: init[i];
      assert s == s0 + {names[|names| - 1]};
      assert names[|names| - 1] !in s0;
    }
  }

  /**
   * AdaptToolsForFantasy: one adapter per registered tool, in sorted name
   * order, parallel exactly for the parallel-safe names. `sorted` stands for
   * the registry's sortedToolNames, whose code is not part of this model.
   */
  method AdaptTools(registry: map<string, Tool>, sorted: seq<string>, hasSink: bool)
    returns (adapted: seq<FantasyToolAdapter>)
    requires SortedNamesOf(sorted, registry)
    ensures |adapted| == |sorted| == |registry|
    ensures forall i :: 0 <= i < |adapted| ==>
      adapted[i].tool == registry[sorted[i]] && adapted[i].hasSink == hasSink &&
      adapted[i].parallel == (sorted[i] in ParallelSafeTools)
    ensures forall i :: 0 <= i < |adapted| ==> fresh(adapted[i]) && adapted[i].Initial()
    ensures forall i, j :: 0 <= i < j < |adapted| ==> adapted[i] != adapted[j]
  {
    SortedNamesDistinct(sorted, registry);
    adapted := [];
    var k := 0;
    while k < |sorted|
      invariant 0 <= k <= |sorted| && |adapted| == k
      invariant forall i :: 0 <= i < k ==>
        adapted[i].tool == registry[sorted[i]] && adapted[i].hasSink == hasSink &&
        adapted[i].parallel == (sorted[i] in ParallelSafeTools)
      invariant forall i :: 0 <= i < k ==> fresh(adapted[i]) && adapted[i].Initial()
      invariant forall i, j :: 0 <= i < j < k ==> adapted[i] != adapted[j]
    {
      var name := sorted[k];
      var adapter := new FantasyToolAdapter(registry[name], hasSink, name in ParallelSafeTools);
      adapted := adapted + [adapter];
      k := k + 1;
    }
  }
}
