/** The script that boots the client (FreshRuntimeScript and ShowErrorOverlay in
    src/runtime/server/preact_hooks.tsx): a module script importing every rendered island,
    or, for a partial request, a JSON state script. The serialised island props are a
    parameter: the serialiser and the script escaping are not part of this model. */
module Bootstrap {
  import opened JsStrings
  import opened Markers
  import opened PreactHooks

  /** `import <clause> from "...";`: a default export under the island's name, a named
      export of the same name, or a named export renamed to the island's name. */
  function ImportClause(island: Island): string {
    if island.exportName == "default" then island.name
    else if island.exportName == island.name then "{ " + island.exportName + " }"
    else "{ " + island.exportName + " as " + island.name + " }"
  }

  function ImportStatement(island: Island, basePath: string): string {
    "import " + ImportClause(island) + " from \"" + (basePath + island.file) + "\";"
  }

  /** How a module loader reads a clause: which export it binds, to which local name. */
  function ParseImportClause(clause: string): (string, string) {
    if |clause| >= 4 && clause[..2] == "{ " && clause[|clause| - 2..] == " }" then
      var inner := clause[2..|clause| - 2];
      var words := Split(inner, ' ');
      if |words| == 3 && words[1] == "as" then (words[0], words[2]) else (inner, inner)
    else ("default", clause)
  }

  /** A JavaScript identifier: non-empty, without spaces or braces. */
  predicate Identifier(s: string) {
    s != [] && ' ' !in s && '{' !in s && '}' !in s
  }

  /** Each import clause binds exactly the island's export to the island's name. */
  lemma ImportClauseRoundTrip(island: Island)
    requires Identifier(island.name) && Identifier(island.exportName)
    ensures ParseImportClause(ImportClause(island)) == (island.exportName, island.name)
  {
    if island.exportName == "default" {
      DefaultClauseRoundTrip(island.name);
    } else if island.exportName == island.name {
      assert ImportClause(island) == "{ " + island.name + " }";
      NamedClauseRoundTrip(island.name);
    } else {
      assert ImportClause(island) == "{ " + (island.exportName + " as " + island.name) + " }";
      RenamedClauseRoundTrip(island.exportName, island.name);
    }
  }

  /** A bare identifier is read as the default export under that name. */
  lemma DefaultClauseRoundTrip(n: string)
    requires Identifier(n)
    ensures ParseImportClause(n) == ("default", n)
  {
    assert !(|n| >= 4 && n[..2] == "{ ") by {
      if |n| >= 4 { assert n[0] != '{'; }
    }
  }

  /** `{ e }` is read as the export e under its own name. */
  lemma NamedClauseRoundTrip(e: string)
    requires Identifier(e)
    ensures ParseImportClause("{ " + e + " }") == (e, e)
  {
    BracedRoundTrip(e);
    assert Split(e, ' ') == [e] by { assert IndexOf(e, ' ').None?; }
  }

  /** `{ e as n }` is read as the export e under the name n. */
  lemma RenamedClauseRoundTrip(e: string, n: string)
    requires Identifier(e) && Identifier(n)
    ensures ParseImportClause("{ " + (e + " as " + n) + " }") == (e, n)
  {
    var inner := e + " as " + n;
    BracedRoundTrip(inner);
    RenamedWords(e, n);
  }

  lemma BracedRoundTrip(x: string)
    ensures var c := "{ " + x + " }";
      |c| >= 4 && c[..2] == "{ " && c[|c| - 2..] == " }" && c[2..|c| - 2] == x
  {
  }

  lemma RenamedWords(e: string, n: string)
    requires ' ' !in e && ' ' !in n
    ensures Split(e + " as " + n, ' ') == [e, "as", n]
  {
    assert Join([n], " ") == n;
    assert Join(["as", n], " ") == "as" + " " + n;
    assert Join([e, "as", n], " ") == e + " as " + n;
    SplitJoin([e, "as", n], ' ');
  }

  /** The object literal handed to boot: `{name1,name2,...}`. */
  function IslandObject(islands: seq<Island>): string {
    "{" + Join(seq(|islands|, i requires 0 <= i < |islands| => islands[i].name), ",") + "}"
  }

  /** The island object's keys are the rendered islands' names, in rendering order. */
  lemma IslandObjectKeys(islands: seq<Island>)
    requires |islands| > 0
    requires forall i :: 0 <= i < |islands| ==> ',' !in islands[i].name
    ensures var o := IslandObject(islands);
      |o| >= 2 && o[0] == '{' && o[|o| - 1] == '}' &&
      Split(o[1..|o| - 1], ',') == seq(|islands|, i requires 0 <= i < |islands| => islands[i].name)
  {
    var names := seq(|islands|, i requires 0 <= i < |islands| => islands[i].name);
    var o := IslandObject(islands);
    assert o[1..|o| - 1] == Join(names, ",");
    SplitJoin(names, ',');
  }

  function ImportStatements(islands: seq<Island>, basePath: string): string {
    if islands == [] then "" else ImportStatement(islands[0], basePath) + ImportStatements(islands[1..], basePath)
  }

  function RuntimeUrl(basePath: string, buildId: string): string {
    basePath + "/_fresh/js/" + buildId + "/fresh-runtime.js"
  }

  /** The module script: import the runtime, import every island, then boot. */
  function ScriptContent(islands: seq<Island>, basePath: string, buildId: string, serializedProps: string): string {
    RuntimeImport(basePath, buildId) + ImportStatements(islands, basePath) + BootCall(islands, serializedProps)
  }

  function RuntimeImport(basePath: string, buildId: string): string {
    "import { boot } from \"" + RuntimeUrl(basePath, buildId) + "\";"
  }

  function BootCall(islands: seq<Island>, serializedProps: string): string {
    "boot(" + IslandObject(islands) + "," + serializedProps + ");"
  }

  lemma ContainsSelf(x: string)
    ensures Contains(x, x)
  {
    assert x[..|x|] == x;
  }

  lemma {:induction false} ContainsAfter(s: string, t: string, x: string)
    requires Contains(t, x)
    ensures Contains(s + t, x)
    decreases |s|
  {
    if s == [] {
      assert s + t == t;
    } else {
      ContainsAfter(s[1..], t, x);
      assert (s + t)[1..] == s[1..] + t;
    }
  }

  lemma {:induction false} ContainsBefore(s: string, t: string, x: string)
    requires Contains(s, x)
    ensures Contains(s + t, x)
    decreases |s|
  {
    if StartsWith(s, x) {
      assert (s + t)[..|x|] == s[..|x|];
    } else {
      ContainsBefore(s[1..], t, x);
      assert (s + t)[1..] == s[1..] + t;
    }
  }

  lemma ImportStatementsContain(islands: seq<Island>, basePath: string, k: nat)
    requires k < |islands|
    ensures Contains(ImportStatements(islands, basePath), ImportStatement(islands[k], basePath))
  {
    var xs := seq(|islands|, i requires 0 <= i < |islands| => ImportStatement(islands[i], basePath));
    ImportStatementsConcat(islands, basePath);
    ConcatContains(xs, k);
  }

  /** The strings of xs, one after another. */
  function Concat(xs: seq<string>): string {
    if xs == [] then "" else xs[0] + Concat(xs[1..])
  }

  /** Each of the strings is contained in their concatenation. */
  lemma {:induction false} ConcatContains(xs: seq<string>, k: nat)
    requires k < |xs|
    ensures Contains(Concat(xs), xs[k])
    decreases k
  {
    if k == 0 {
      ContainsSelf(xs[0]);
      ContainsBefore(xs[0], Concat(xs[1..]), xs[0]);
    } else {
      ConcatContains(xs[1..], k - 1);
      assert xs[1..][k - 1] == xs[k];
      ContainsAfter(xs[0], Concat(xs[1..]), xs[k]);
    }
  }

  /** The import statements are the concatenation of one statement per island. */
  lemma {:induction false} ImportStatementsConcat(islands: seq<Island>, basePath: string)
    ensures ImportStatements(islands, basePath) ==
      Concat(seq(|islands|, i requires 0 <= i < |islands| => ImportStatement(islands[i], basePath)))
    decreases |islands|
  {
    var xs := seq(|islands|, i requires 0 <= i < |islands| => ImportStatement(islands[i], basePath));
    if islands != [] {
      ImportStatementsConcat(islands[1..], basePath);
      assert xs[1..] == seq(|islands[1..]|, i requires 0 <= i < |islands[1..]| => ImportStatement(islands[1..][i], basePath));
    }
  }

  /** Every rendered island is imported by the boot script, from the base path plus its
      chunk file. */
  lemma ScriptImportsEveryIsland(islands: seq<Island>, basePath: string, buildId: string, serializedProps: string, k: nat)
    requires k < |islands|
    ensures Contains(ScriptContent(islands, basePath, buildId, serializedProps), ImportStatement(islands[k], basePath))
    ensures Contains(ImportStatement(islands[k], basePath), basePath + islands[k].file)
  {
    var x := ImportStatement(islands[k], basePath);
    ImportStatementsContain(islands, basePath, k);
    ContainsAfter(RuntimeImport(basePath, buildId), ImportStatements(islands, basePath), x);
    ContainsBefore(RuntimeImport(basePath, buildId) + ImportStatements(islands, basePath), BootCall(islands, serializedProps), x);
    var specifier := basePath + islands[k].file;
    var lead := "import " + ImportClause(islands[k]) + " from \"";
    ContainsSelf(specifier);
    ContainsAfter(lead, specifier, specifier);
    ContainsBefore(lead + specifier, "\";", specifier);
  }

  /** One island of the partial state: `{ exportName, chunk, name }`. */
  datatype PartialIsland = PartialIsland(exportName: string, chunk: string, name: string)

  datatype PartialStateJson = PartialStateJson(islands: seq<PartialIsland>, props: string)

  /** The element FreshRuntimeScript renders. */
  datatype RuntimeScript =
    | StateScript(id: string, json: PartialStateJson)
    | ModuleScript(nonce: string, content: string, errorOverlay: bool)

  function PartialState(islands: seq<Island>, serializedProps: string): (r: PartialStateJson)
    ensures |r.islands| == |islands| && r.props == serializedProps
    ensures forall i :: 0 <= i < |islands| ==>
      r.islands[i] == PartialIsland(islands[i].exportName, islands[i].file, islands[i].name)
  {
    PartialStateJson(seq(|islands|, i requires 0 <= i < |islands| =>
      PartialIsland(islands[i].exportName, islands[i].file, islands[i].name)), serializedProps)
  }

  /** A partial request gets the island list and the props as JSON in a script whose id
      names the partial; a full page gets the module script, nonced, followed by the error
      overlay in development mode. */
  function FreshRuntimeScript(islands: seq<Island>, basePath: string, buildId: string, isPartialRequest: bool,
                              partialId: string, nonce: string, serializedProps: string, devMode: bool): (r: RuntimeScript)
    ensures isPartialRequest <==> r.StateScript?
    ensures r.StateScript? ==> r.id == "__FRSH_STATE_" + partialId && r.json == PartialState(islands, serializedProps)
    ensures r.ModuleScript? ==>
      r.nonce == nonce && r.errorOverlay == devMode &&
      r.content == ScriptContent(islands, basePath, buildId, serializedProps)
  {
    if isPartialRequest then StateScript("__FRSH_STATE_" + partialId, PartialState(islands, serializedProps))
    else ModuleScript(nonce, ScriptContent(islands, basePath, buildId, serializedProps), devMode)
  }

  /** The runtime script FreshScripts renders last, read off the render state: the islands
      in first-rendered order, the state's nonce and its partial id. */
  function StateRuntimeScript(st: RenderState, basePath: string, buildId: string, isPartialRequest: bool,
                              serializedProps: string, devMode: bool): (r: RuntimeScript)
    reads st
    ensures r.StateScript? ==> r.id == "__FRSH_STATE_" + st.partialId
    ensures r.StateScript? ==> |r.json.islands| == |st.islands|
    ensures r.StateScript? ==> forall i :: 0 <= i < |st.islands| ==> r.json.islands[i].name == st.islands[i].name
    ensures r.ModuleScript? ==> r.nonce == st.nonce
  {
    FreshRuntimeScript(st.islands, basePath, buildId, isPartialRequest, st.partialId, st.nonce, serializedProps, devMode)
  }

  /** On a full page, the runtime script of a render imports every island the render
      recorded. */
  lemma StateScriptImportsIslands(st: RenderState, basePath: string, buildId: string,
                                  serializedProps: string, devMode: bool)
    ensures var r := StateRuntimeScript(st, basePath, buildId, false, serializedProps, devMode);
      r.ModuleScript? && forall k :: 0 <= k < |st.islands| ==> Contains(r.content, ImportStatement(st.islands[k], basePath))
  {
    forall k | 0 <= k < |st.islands|
      ensures Contains(ScriptContent(st.islands, basePath, buildId, serializedProps), ImportStatement(st.islands[k], basePath))
    {
      ScriptImportsEveryIsland(st.islands, basePath, buildId, serializedProps, k);
    }
  }

  /** The error of the current context, as ShowErrorOverlay sees it. */
  datatype ErrorValue =
      /** an object: its `message` and `stack` if present, its status if it is an HttpError */
    | ErrorObject(message: Option<JsVal>, stack: Option<JsVal>, httpStatus: Option<int>)
      /** any other thrown value; null and undefined stand for no error */
    | ThrownPrimitive(p: Prim)

  predicate NoError(error: ErrorValue) {
    error == ThrownPrimitive(Null) || error == ThrownPrimitive(Undefined)
  }

  /** The error's stack when it is a string. */
  function StackText(error: ErrorValue): (r: Option<string>)
    ensures r.Some? <==> error.ErrorObject? && error.stack.Some? && error.stack.value.PrimVal? && error.stack.value.p.Str?
  {
    if error.ErrorObject? && error.stack.Some? && error.stack.value.PrimVal? && error.stack.value.p.Str?
    then Some(error.stack.value.p.s) else None
  }

  /** The overlay's query parameters, or None when no overlay is shown (no error, or an
      HTTP error below 500). The code frame comes from the stack through `codeFrame`. */
  function OverlayParams(error: ErrorValue, codeFrame: string -> Option<string>): (r: Option<seq<(string, string)>>)
    ensures r.None? <==> NoError(error) || (error.ErrorObject? && error.httpStatus.Some? && error.httpStatus.value < 500)
    ensures r.Some? && error.ThrownPrimitive? ==> r.value == [("message", PrimToString(error.p))]
    ensures r.Some? && error.ErrorObject? && error.message.Some? ==>
      |r.value| > 0 && r.value[0] == ("message", JsToString(error.message.value))
    ensures r.Some? && error.ErrorObject? && error.message.None? ==>
      forall i :: 0 <= i < |r.value| ==> r.value[i].0 != "message"
    ensures r.Some? && StackText(error).Some? && codeFrame(StackText(error).value).Some? ==>
      var s := StackText(error).value;
      |r.value| >= 2 && r.value[|r.value| - 2..] == [("stack", s), ("code-frame", codeFrame(s).value)]
    ensures r.Some? && StackText(error).Some? && codeFrame(StackText(error).value).None? ==>
      |r.value| >= 1 && r.value[|r.value| - 1] == ("stack", StackText(error).value) &&
      forall i :: 0 <= i < |r.value| ==> r.value[i].0 != "code-frame"
    ensures r.Some? && error.ErrorObject? && StackText(error).None? ==>
      forall i :: 0 <= i < |r.value| ==> r.value[i].0 == "message"
  {
    match error
    case ThrownPrimitive(p) => if p == Null || p == Undefined then None else Some([("message", PrimToString(p))])
    case ErrorObject(message, stack, status) =>
      if status.Some? && status.value < 500 then None
      else Some(ObjectParams(message, StackText(error), codeFrame))
  }

  /** An error object's parameters: its message if it has one, then its string stack, if
      any, followed by the code frame when there is one. */
  function ObjectParams(message: Option<JsVal>, stack: Option<string>, codeFrame: string -> Option<string>)
    : (r: seq<(string, string)>)
    ensures message.Some? ==> |r| > 0 && r[0] == ("message", JsToString(message.value))
    ensures message.None? ==> forall i :: 0 <= i < |r| ==> r[i].0 != "message"
    ensures stack.Some? && codeFrame(stack.value).Some? ==>
      |r| >= 2 && r[|r| - 2..] == [("stack", stack.value), ("code-frame", codeFrame(stack.value).value)]
    ensures stack.Some? && codeFrame(stack.value).None? ==>
      |r| >= 1 && r[|r| - 1] == ("stack", stack.value) && forall i :: 0 <= i < |r| ==> r[i].0 != "code-frame"
    ensures stack.None? ==> forall i :: 0 <= i < |r| ==> r[i].0 == "message"
  {
    match stack
    case None => if message.Some? then [("message", JsToString(message.value))] else []
    case Some(text) =>
      match codeFrame(text)
      case None =>
        if message.Some? then [("message", JsToString(message.value)), ("stack", text)] else [("stack", text)]
      case Some(f) =>
        if message.Some? then [("message", JsToString(message.value)), ("stack", text), ("code-frame", f)]
        else [("stack", text), ("code-frame", f)]
  }
}
