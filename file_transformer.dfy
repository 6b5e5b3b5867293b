/** The development build's file transformer (src/dev/file_transformer.ts): plugins
    register a filter and a callback; processing a file runs every accepting plugin over a
    LIFO worklist of requests, where a plugin may rewrite the current file, rewrite a queued
    one, or add new files. */
module FileTransforming {
  import opened JsStrings

  datatype TransformMode = Development | Production

  datatype Target = OneTarget(name: string) | Targets(names: seq<string>)

  /** A byte array. Two of them are the same array when they are equal values. An array
      the transformer did not make (the file as read, or one a plugin allocated) is
      `Stored` under its own handle; every string the transformer encodes becomes an
      `Encoded` array with a fresh serial. */
  datatype Blob = Stored(handle: nat, text: string) | Encoded(serial: nat, text: string)

  /** What a plugin may return as content or as a source map: a string, the very array it
      was given as content, or an array of its own. */
  datatype Content = TextContent(s: string) | GivenContent | OwnBytes(handle: nat, text: string)

  /** One returned file; only a single result may leave out the path. */
  datatype Item = Item(path: Option<string>, content: Content, sourceMap: Option<Content>)

  datatype TransformResult = NoResult | Single(item: Item) | Many(items: seq<Item>)

  datatype TransformArgs = TransformArgs(path: string, mode: TransformMode, target: Target, content: Blob, root: string)

  /** A plugin filter: the CSS plugin's `/\.css$/`, or any other regular expression, which
      the transformer tests through `regexTest`. */
  datatype Filter = Suffix(suffix: string) | Regex(id: nat)

  datatype Exclude = ExcludeRegex(regex: Filter) | ExcludePattern(pattern: string)

  /** A plugin callback: the CSS asset-hash callback, or any other plugin, which the
      transformer runs through `plugins`. */
  datatype Callback = CssCallback | Plugin(id: nat)

  datatype TransformOptions = TransformOptions(pluginName: string, filter: Filter, exclude: Option<seq<Exclude>>)

  datatype Transformer = Transformer(options: TransformOptions, callback: Callback)

  datatype Request = Request(newFile: bool, filePath: string, content: Blob, sourceMap: Option<Blob>, inputFiles: seq<string>)

  datatype ProcessedFile = ProcessedFile(path: string, content: Blob, sourceMap: Option<Blob>, inputFiles: seq<string>)

  /** The outcome of reading the file: the array the file system hands out, not found, or
      another error. */
  datatype ReadResult = ReadOk(handle: nat, text: string) | ReadNotFound | ReadFailed(message: string)

  datatype ProcessError = ReadError(message: string) | MissingPath(pluginName: string) | OutOfFuel

  /** null, the processed files, or a thrown error. */
  datatype ProcessOutcome = NoFiles | Files(files: seq<ProcessedFile>) | Failed(error: ProcessError)

  // ---------------------------------------------------------------------------------------
  // Array identity

  /** An array the transformer encoded has a serial below the next one, n. */
  predicate Below(b: Blob, n: nat) {
    b.Encoded? ==> b.serial < n
  }

  predicate MapBelow(m: Option<Blob>, n: nat) {
    m.Some? ==> Below(m.value, n)
  }

  predicate RequestBelow(r: Request, n: nat) {
    Below(r.content, n) && MapBelow(r.sourceMap, n)
  }

  predicate QueueBelow(q: seq<Request>, n: nat) {
    forall k :: 0 <= k < |q| ==> RequestBelow(q[k], n)
  }

  lemma QueueBelowMono(q: seq<Request>, n: nat, n': nat)
    requires QueueBelow(q, n) && n <= n'
    ensures QueueBelow(q, n')
  {
    forall k | 0 <= k < |q|
      ensures RequestBelow(q[k], n')
    {
      assert RequestBelow(q[k], n);
    }
  }

  /** TextEncoder.encode for a string, the array itself otherwise; `given` is the content
      the plugin was called with. A string becomes an array that differs from every array
      encoded before. */
  function Encode(c: Content, given: Blob, serial: nat): (r: (Blob, nat))
    ensures c.TextContent? ==> r.1 == serial + 1 && r.0.text == c.s && !Below(r.0, serial)
    ensures !c.TextContent? ==> r.1 == serial
    ensures c == GivenContent ==> r.0 == given
    ensures Below(given, serial) ==> Below(r.0, r.1)
  {
    match c
    case TextContent(s) => (Encoded(serial, s), serial + 1)
    case GivenContent => (given, serial)
    case OwnBytes(h, text) => (Stored(h, text), serial)
  }

  /** The source map: absent is null, otherwise encoded like the content. */
  function EncodeMap(m: Option<Content>, given: Blob, serial: nat): (r: (Option<Blob>, nat))
    ensures r.1 >= serial
    ensures m.None? ==> r == (None, serial)
    ensures m.Some? && m.value.TextContent? ==> r.0.Some? && !Below(r.0.value, serial)
    ensures Below(given, serial) ==> MapBelow(r.0, r.1)
  {
    match m
    case None => (None, serial)
    case Some(c) => var e := Encode(c, given, serial); (Some(e.0), e.1)
  }

  /** A string result becomes an array different from every array of the request and of
      the queue. */
  lemma EncodeFresh(c: Content, given: Blob, serial: nat, req: Request, queue: seq<Request>)
    requires c.TextContent? && RequestBelow(req, serial) && QueueBelow(queue, serial)
    ensures var b := Encode(c, given, serial).0;
      && b != req.content && req.sourceMap != Some(b)
      && forall k :: 0 <= k < |queue| ==> b != queue[k].content && queue[k].sourceMap != Some(b)
  {
    var b := Encode(c, given, serial).0;
    forall k | 0 <= k < |queue|
      ensures b != queue[k].content && queue[k].sourceMap != Some(b)
    {
      assert RequestBelow(queue[k], serial);
    }
  }

  // ---------------------------------------------------------------------------------------
  // Multi-file results

  /** The old queued requests keep their paths, their kind and their inputs; the requests
      added behind them are new files with the given inputs. */
  predicate Extends(queue: seq<Request>, queue': seq<Request>, inputs: seq<string>) {
    && |queue'| >= |queue|
    && (forall k :: 0 <= k < |queue| ==>
          queue'[k].filePath == queue[k].filePath && queue'[k].newFile == queue[k].newFile &&
          queue'[k].inputFiles == queue[k].inputFiles)
    && (forall k :: |queue| <= k < |queue'| ==> queue'[k].newFile && queue'[k].inputFiles == inputs)
  }

  lemma ExtendsTrans(a: seq<Request>, b: seq<Request>, c: seq<Request>, inputs: seq<string>)
    requires Extends(a, b, inputs) && Extends(b, c, inputs)
    ensures Extends(a, c, inputs)
  {
  }

  /** The requests added behind the old queue name paths other than the current file's and
      other than every path queued before them. */
  predicate AddedPathsFresh(queue: seq<Request>, queue': seq<Request>, current: string) {
    forall k :: |queue| <= k < |queue'| ==>
      queue'[k].filePath != current && forall k' :: 0 <= k' < k ==> queue'[k'].filePath != queue'[k].filePath
  }

  /** The paths the items name. */
  function NamedPaths(items: seq<Item>): (r: set<string>)
    ensures forall p :: p in r <==> exists j :: 0 <= j < |items| && items[j].path == Some(p)
    decreases |items|
  {
    if items == [] then {}
    else
      var init := items[..|items| - 1];
      var last := items[|items| - 1];
      assert forall j :: 0 <= j < |init| ==> init[j] == items[j];
      NamedPaths(init) + (if last.path.Some? then {last.path.value} else {})
  }

  predicate Queued(queue: seq<Request>, path: string) {
    exists k :: 0 <= k < |queue| && queue[k].filePath == path
  }

  /** Every queued request for `path`, with the new content and map. */
  function Retarget(queue: seq<Request>, path: string, content: Blob, sourceMap: Option<Blob>): (q: seq<Request>)
    ensures |q| == |queue|
  {
    seq(|queue|, k requires 0 <= k < |queue| =>
      if queue[k].filePath == path then queue[k].(content := content, sourceMap := sourceMap) else queue[k])
  }

  /** The queue's loop for an item naming another file: every queued request for that path
      takes the new content and map. */
  method RetargetQueue(queue: seq<Request>, path: string, content: Blob, sourceMap: Option<Blob>)
    returns (queue': seq<Request>, found: bool)
    ensures found <==> Queued(queue, path)
    ensures queue' == Retarget(queue, path, content, sourceMap)
  {
    queue' := queue;
    found := false;
    var k := 0;
    while k < |queue|
      invariant 0 <= k <= |queue| == |queue'|
      invariant found <==> exists j :: 0 <= j < k && queue[j].filePath == path
      invariant forall j :: 0 <= j < k ==>
        queue'[j] == if queue[j].filePath == path then queue[j].(content := content, sourceMap := sourceMap) else queue[j]
      invariant forall j :: k <= j < |queue| ==> queue'[j] == queue[j]
    {
      if queue'[k].filePath == path {
        found := true;
        queue' := queue'[k := queue'[k].(content := content, sourceMap := sourceMap)];
      }
      k := k + 1;
    }
    assert queue' == Retarget(queue, path, content, sourceMap);
  }

  /** One item of a multi-file result, already encoded: the request, the queue, and whether
      the item counts as a change. An item for the current file replaces its content and
      map, a change only when either differs; an item for a queued file rewrites every
      queued request for it, which counts as a change; any other item is queued as a new
      file derived from the same inputs. */
  function ItemEffect(req: Request, queue: seq<Request>, path: string, content: Blob, sourceMap: Option<Blob>)
    : (r: (Request, seq<Request>, bool))
    ensures path == req.filePath ==>
      r.1 == queue && r.0 == req.(content := content, sourceMap := sourceMap) && (r.2 <==> r.0 != req)
    ensures path != req.filePath ==> r.0 == req && (r.2 <==> Queued(queue, path))
    ensures path != req.filePath && r.2 ==> r.1 == Retarget(queue, path, content, sourceMap)
    ensures path != req.filePath && !r.2 ==> r.1 == queue + [Request(true, path, content, sourceMap, req.inputFiles)]
  {
    if path == req.filePath then
      if req.content == content && req.sourceMap == sourceMap then (req, queue, false)
      else (req.(content := content, sourceMap := sourceMap), queue, true)
    else if Queued(queue, path) then (req, Retarget(queue, path, content, sourceMap), true)
    else (req, queue + [Request(true, path, content, sourceMap, req.inputFiles)], false)
  }

  /** The loop body for one item of a multi-file result. */
  method ApplyItem(req: Request, queue: seq<Request>, path: string, content: Blob, sourceMap: Option<Blob>)
    returns (req': Request, queue': seq<Request>, changed: bool)
    ensures (req', queue', changed) == ItemEffect(req, queue, path, content, sourceMap)
  {
    req' := req;
    queue' := queue;
    changed := false;
    if req.filePath == path {
      if req.content == content && req.sourceMap == sourceMap {
        return;
      }
      changed := true;
      req' := req.(content := content, sourceMap := sourceMap);
    } else {
      var found;
      queue', found := RetargetQueue(queue, path, content, sourceMap);
      if found {
        changed := true;
      } else {
        queue' := queue + [Request(true, path, content, sourceMap, req.inputFiles)];
      }
    }
  }

  /** The state a plugin's result acts on: the request, the queue behind it, whether some
      plugin changed something, the next serial, and the error thrown, if any. */
  datatype Step = Step(req: Request, queue: seq<Request>, transformed: bool, serial: nat, err: Option<string>)

  /** One item applied to the state reached so far; `given` is the content the plugin was
      called with. */
  function ItemStep(s: Step, item: Item, given: Blob, pluginName: string): (r: Step)
    ensures r.serial >= s.serial
  {
    if item.path.None? then s.(err := Some(pluginName))
    else
      var c := Encode(item.content, given, s.serial);
      var m := EncodeMap(item.sourceMap, given, c.1);
      var e := ItemEffect(s.req, s.queue, item.path.value, c.0, m.0);
      Step(e.0, e.1, s.transformed || e.2, m.1, None)
  }

  /** A multi-file result, item by item. */
  function ItemsFold(req: Request, queue: seq<Request>, items: seq<Item>, given: Blob, serial: nat,
                     pluginName: string): (r: Step)
    ensures r.serial >= serial
    decreases |items|, 1
  {
    if items == [] then Step(req, queue, false, serial, None) else LastItemStep(req, queue, items, given, serial, pluginName)
  }

  /** The state after the last item: it applies to the state the others left, unless one of
      them failed; an item without a path stops with an error naming the plugin. */
  function LastItemStep(req: Request, queue: seq<Request>, items: seq<Item>, given: Blob, serial: nat,
                        pluginName: string): (r: Step)
    requires items != []
    ensures r.serial >= serial
    decreases |items|, 0
  {
    var s := ItemsFold(req, queue, items[..|items| - 1], given, serial, pluginName);
    if s.err.Some? then s else ItemStep(s, items[|items| - 1], given, pluginName)
  }

  /** Once an item has failed, the later items change nothing. */
  lemma {:induction false} ItemsFoldStops(req: Request, queue: seq<Request>, items: seq<Item>, given: Blob,
                                          serial: nat, pluginName: string, i: nat)
    requires i <= |items| && ItemsFold(req, queue, items[..i], given, serial, pluginName).err.Some?
    ensures ItemsFold(req, queue, items, given, serial, pluginName) == ItemsFold(req, queue, items[..i], given, serial, pluginName)
    decreases |items| - i
  {
    if i < |items| {
      assert items[..i + 1][..i] == items[..i];
      ItemsFoldStops(req, queue, items, given, serial, pluginName, i + 1);
    } else {
      assert items[..i] == items;
    }
  }

  /** The loop body for an item that names a path: encode its content and map, then apply
      it. */
  method ApplyNamed(s: Step, item: Item, given: Blob, pluginName: string) returns (s': Step)
    requires item.path.Some?
    ensures s' == ItemStep(s, item, given, pluginName)
  {
    var c := Encode(item.content, given, s.serial);
    var m := EncodeMap(item.sourceMap, given, c.1);
    var req', queue', changed := ApplyItem(s.req, s.queue, item.path.value, c.0, m.0);
    s' := Step(req', queue', s.transformed || changed, m.1, None);
  }

  /** The loop over a multi-file result. */
  method ApplyItems(req: Request, queue: seq<Request>, items: seq<Item>, given: Blob, serial: nat, pluginName: string)
    returns (req': Request, queue': seq<Request>, changed: bool, serial': nat, err: Option<string>)
    ensures Step(req', queue', changed, serial', err) == ItemsFold(req, queue, items, given, serial, pluginName)
  {
    var st := Step(req, queue, false, serial, None);
    var i := 0;
    while i < |items|
      invariant 0 <= i <= |items|
      invariant st == ItemsFold(req, queue, items[..i], given, serial, pluginName) && st.err.None?
    {
      assert items[..i + 1][..i] == items[..i];
      if items[i].path.None? {
        ItemsFoldStops(req, queue, items, given, serial, pluginName, i + 1);
        return st.req, st.queue, st.transformed, st.serial, Some(pluginName);
      }
      st := ApplyNamed(st, items[i], given, pluginName);
      i := i + 1;
    }
    assert items[..i] == items;
    return st.req, st.queue, st.transformed, st.serial, None;
  }

  /** A multi-file result fails, naming the plugin, exactly when some item has no path. */
  lemma {:induction false} ItemsFoldError(req: Request, queue: seq<Request>, items: seq<Item>, given: Blob,
                                          serial: nat, pluginName: string)
    ensures var r := ItemsFold(req, queue, items, given, serial, pluginName);
      && (r.err.Some? <==> exists i :: 0 <= i < |items| && items[i].path.None?)
      && (r.err.Some? ==> r.err.value == pluginName)
    decreases |items|
  {
    if items != [] {
      var init := items[..|items| - 1];
      ItemsFoldError(req, queue, init, given, serial, pluginName);
      assert forall i :: 0 <= i < |init| ==> init[i] == items[i];
    }
  }

  /** Without an error, the request keeps its path, kind and inputs, and the queue is only
      extended, by new files derived from the request's inputs. */
  lemma {:induction false} ItemsFoldKeeps(req: Request, queue: seq<Request>, items: seq<Item>, given: Blob,
                                          serial: nat, pluginName: string)
    ensures var r := ItemsFold(req, queue, items, given, serial, pluginName);
      r.err.None? ==>
        && r.req.filePath == req.filePath && r.req.newFile == req.newFile && r.req.inputFiles == req.inputFiles
        && Extends(queue, r.queue, req.inputFiles)
    decreases |items|
  {
    if items != [] {
      var init := items[..|items| - 1];
      ItemsFoldKeeps(req, queue, init, given, serial, pluginName);
      var s := ItemsFold(req, queue, init, given, serial, pluginName);
      if s.err.None? && items[|items| - 1].path.Some? {
        var r := ItemsFold(req, queue, items, given, serial, pluginName);
        assert r == LastItemStep(req, queue, items, given, serial, pluginName);
        assert r == ItemStep(s, items[|items| - 1], given, pluginName);
        assert Extends(s.queue, r.queue, req.inputFiles);
        ExtendsTrans(queue, s.queue, r.queue, req.inputFiles);
      }
    }
  }

  /** Without an error, each added request has a path an item names, other than the current
      file's and every path queued before it. */
  lemma {:induction false} ItemsFoldAdded(req: Request, queue: seq<Request>, items: seq<Item>, given: Blob,
                                          serial: nat, pluginName: string)
    ensures var r := ItemsFold(req, queue, items, given, serial, pluginName);
      r.err.None? ==>
        && |r.queue| >= |queue|
        && AddedPathsFresh(queue, r.queue, req.filePath)
        && (forall k :: |queue| <= k < |r.queue| ==> r.queue[k].filePath in NamedPaths(items))
    decreases |items|
  {
    ItemsFoldKeeps(req, queue, items, given, serial, pluginName);
    if items != [] {
      var init := items[..|items| - 1];
      ItemsFoldAdded(req, queue, init, given, serial, pluginName);
      ItemsFoldKeeps(req, queue, init, given, serial, pluginName);
      var s := ItemsFold(req, queue, init, given, serial, pluginName);
      var item := items[|items| - 1];
      if s.err.None? && item.path.Some? {
        var path := item.path.value;
        var r := ItemsFold(req, queue, items, given, serial, pluginName);
        assert r == LastItemStep(req, queue, items, given, serial, pluginName);
        assert r == ItemStep(s, item, given, pluginName);
        assert NamedPaths(items) == NamedPaths(init) + {path};
        if path != req.filePath && !Queued(s.queue, path) {
          assert r.queue == s.queue + [r.queue[|s.queue|]];
          assert forall k :: 0 <= k < |s.queue| ==> s.queue[k].filePath != path;
        }
      }
    }
  }

  /** Without an error, a queued request whose path no item names, and the request itself
      when no item names it, are left as they were. */
  lemma {:induction false} ItemsFoldUntouched(req: Request, queue: seq<Request>, items: seq<Item>, given: Blob,
                                              serial: nat, pluginName: string)
    ensures var r := ItemsFold(req, queue, items, given, serial, pluginName);
      r.err.None? ==>
        && |r.queue| >= |queue|
        && (forall k :: 0 <= k < |queue| && queue[k].filePath !in NamedPaths(items) ==> r.queue[k] == queue[k])
        && (req.filePath !in NamedPaths(items) ==> r.req == req)
    decreases |items|
  {
    ItemsFoldKeeps(req, queue, items, given, serial, pluginName);
    ItemsFoldAdded(req, queue, items, given, serial, pluginName);
    if items != [] {
      var init := items[..|items| - 1];
      ItemsFoldUntouched(req, queue, init, given, serial, pluginName);
      ItemsFoldKeeps(req, queue, init, given, serial, pluginName);
      var s := ItemsFold(req, queue, init, given, serial, pluginName);
      var item := items[|items| - 1];
      if s.err.None? && item.path.Some? {
        var r := ItemsFold(req, queue, items, given, serial, pluginName);
        assert r == LastItemStep(req, queue, items, given, serial, pluginName);
        assert r == ItemStep(s, item, given, pluginName);
        assert NamedPaths(items) == NamedPaths(init) + {item.path.value};
      }
    }
  }

  lemma ItemStepBelow(s: Step, item: Item, given: Blob, pluginName: string)
    requires RequestBelow(s.req, s.serial) && QueueBelow(s.queue, s.serial) && Below(given, s.serial)
    ensures var r := ItemStep(s, item, given, pluginName);
      RequestBelow(r.req, r.serial) && QueueBelow(r.queue, r.serial)
  {
    if item.path.Some? {
      var c := Encode(item.content, given, s.serial);
      var m := EncodeMap(item.sourceMap, given, c.1);
      var e := ItemEffect(s.req, s.queue, item.path.value, c.0, m.0);
      QueueBelowMono(s.queue, s.serial, m.1);
      assert Below(c.0, m.1);
      var added := Request(true, item.path.value, c.0, m.0, s.req.inputFiles);
      assert RequestBelow(added, m.1);
      forall k | 0 <= k < |e.1|
        ensures RequestBelow(e.1[k], m.1)
      {
        if k < |s.queue| {
          assert RequestBelow(s.queue[k], m.1);
        }
      }
    }
  }

  /** An array-identity invariant: when the request, the queue and the given content are
      below the serial, so is everything a multi-file result leaves. */
  lemma {:induction false} ItemsFoldBelow(req: Request, queue: seq<Request>, items: seq<Item>, given: Blob,
                                          serial: nat, pluginName: string)
    requires RequestBelow(req, serial) && QueueBelow(queue, serial) && Below(given, serial)
    ensures var r := ItemsFold(req, queue, items, given, serial, pluginName);
      RequestBelow(r.req, r.serial) && QueueBelow(r.queue, r.serial)
    decreases |items|
  {
    if items != [] {
      var init := items[..|items| - 1];
      ItemsFoldBelow(req, queue, init, given, serial, pluginName);
      var s := ItemsFold(req, queue, init, given, serial, pluginName);
      if s.err.None? {
        ItemStepBelow(s, items[|items| - 1], given, pluginName);
      }
    }
  }

  /** Whether an exclude entry matches the processed file: a regular expression by test, a
      glob through the standard glob matcher, any other string by substring. */
  predicate ExcludeMatches(e: Exclude, filePath: string, regexTest: (nat, string) -> bool,
                           isGlob: string -> bool, globTest: (string, string) -> bool) {
    match e
    case ExcludeRegex(f) => FilterTest(f, filePath, regexTest)
    case ExcludePattern(p) => if isGlob(p) then globTest(p, filePath) else Contains(filePath, p)
  }

  predicate FilterTest(f: Filter, path: string, regexTest: (nat, string) -> bool) {
    match f
    case Suffix(s) => EndsWith(path, s)
    case Regex(id) => regexTest(id, path)
  }

  /** A plugin runs on a request for `path` while processing `filePath`: its filter accepts
      the path and none of its excludes matches the file. */
  predicate Accepts(t: Transformer, path: string, filePath: string, regexTest: (nat, string) -> bool,
                    isGlob: string -> bool, globTest: (string, string) -> bool) {
    FilterTest(t.options.filter, path, regexTest) &&
    !(t.options.exclude.Some? &&
      exists e :: e in t.options.exclude.value && ExcludeMatches(e, filePath, regexTest, isGlob, globTest))
  }

  // ---------------------------------------------------------------------------------------
  // The queue of requests

  /** A request the plugins ran on: the request as popped, the queue behind it and the next
      serial at that moment, and what the plugins made of them. */
  datatype Handled = Handled(request: Request, queue: seq<Request>, serial: nat, outcome: Step)

  /** A handled request is emitted when some plugin changed it or it is a new file. */
  predicate Emits(h: Handled) {
    h.outcome.transformed || h.outcome.req.newFile
  }

  function ToFile(r: Request): (f: ProcessedFile)
    ensures f.path == r.filePath && f.content == r.content && f.sourceMap == r.sourceMap && f.inputFiles == r.inputFiles
  {
    ProcessedFile(r.filePath, r.content, r.sourceMap, r.inputFiles)
  }

  /** The emitted files, in the order their requests were handled. */
  function Emitted(hs: seq<Handled>): (r: seq<ProcessedFile>)
    ensures |r| <= |hs|
    decreases |hs|
  {
    if hs == [] then []
    else Emitted(hs[..|hs| - 1]) + (if Emits(hs[|hs| - 1]) then [ToFile(hs[|hs| - 1].outcome.req)] else [])
  }

  /** What process returns once the queue is empty: null when nothing was emitted. */
  function Emission(hs: seq<Handled>): (r: ProcessOutcome)
    ensures r.Files? ==> r.files != []
    ensures !r.Failed?
  {
    if Emitted(hs) == [] then NoFiles else Files(Emitted(hs))
  }

  /** Every emitted request gives its file. */
  lemma {:induction false} EmittedComplete(hs: seq<Handled>, k: nat)
    requires k < |hs| && Emits(hs[k])
    ensures ToFile(hs[k].outcome.req) in Emitted(hs)
    decreases |hs|
  {
    if k < |hs| - 1 {
      var init := hs[..|hs| - 1];
      assert init[k] == hs[k];
      EmittedComplete(init, k);
    }
  }

  /** Every emitted file comes from an emitted request. */
  lemma {:induction false} EmittedSound(hs: seq<Handled>)
    ensures forall f :: f in Emitted(hs) ==> exists k :: 0 <= k < |hs| && Emits(hs[k]) && f == ToFile(hs[k].outcome.req)
    decreases |hs|
  {
    if hs != [] {
      var init := hs[..|hs| - 1];
      EmittedSound(init);
      forall f | f in Emitted(hs)
        ensures exists k :: 0 <= k < |hs| && Emits(hs[k]) && f == ToFile(hs[k].outcome.req)
      {
        if f in Emitted(init) {
          var k :| 0 <= k < |init| && Emits(init[k]) && f == ToFile(init[k].outcome.req);
          assert hs[k] == init[k];
        } else {
          assert Emits(hs[|hs| - 1]) && f == ToFile(hs[|hs| - 1].outcome.req);
        }
      }
    }
  }

  /** Nothing is emitted exactly when no handled request emits. */
  lemma {:induction false} EmittedNone(hs: seq<Handled>)
    ensures Emitted(hs) == [] <==> forall k :: 0 <= k < |hs| ==> !Emits(hs[k])
    decreases |hs|
  {
    if hs != [] {
      var init := hs[..|hs| - 1];
      EmittedNone(init);
      assert forall k :: 0 <= k < |init| ==> init[k] == hs[k];
    }
  }

  /** When the first handled request emits, its file comes first. */
  lemma {:induction false} EmittedFirst(hs: seq<Handled>)
    requires hs != [] && Emits(hs[0])
    ensures Emitted(hs) != [] && Emitted(hs)[0] == ToFile(hs[0].outcome.req)
    decreases |hs|
  {
    if |hs| > 1 {
      var init := hs[..|hs| - 1];
      assert init[0] == hs[0];
      EmittedFirst(init);
    }
  }

  /** Every emitted file lists what its request lists as inputs. */
  lemma EmittedFiles(hs: seq<Handled>, filePath: string)
    requires Derived(hs, filePath)
    ensures forall k :: 0 <= k < |Emitted(hs)| ==> Emitted(hs)[k].inputFiles == [filePath]
  {
    EmittedSound(hs);
    forall k | 0 <= k < |Emitted(hs)|
      ensures Emitted(hs)[k].inputFiles == [filePath]
    {
      assert Emitted(hs)[k] in Emitted(hs);
      var j :| 0 <= j < |hs| && Emits(hs[j]) && Emitted(hs)[k] == ToFile(hs[j].outcome.req);
    }
  }

  /** The paths of the handled requests. */
  function Paths(hs: seq<Handled>): set<string>
    decreases |hs|
  {
    if hs == [] then {} else Paths(hs[..|hs| - 1]) + {hs[|hs| - 1].request.filePath}
  }

  /** A path is among those handled exactly when some handled request has it. */
  lemma {:induction false} PathsMembers(hs: seq<Handled>)
    ensures forall k :: 0 <= k < |hs| ==> hs[k].request.filePath in Paths(hs)
    ensures forall p :: p in Paths(hs) ==> exists k :: 0 <= k < |hs| && hs[k].request.filePath == p
    decreases |hs|
  {
    if hs != [] {
      var init := hs[..|hs| - 1];
      PathsMembers(init);
      assert forall k :: 0 <= k < |init| ==> init[k] == hs[k];
    }
  }

  /** The next handled request was popped from the end of the queue the previous one left,
      from behind requests whose paths were already handled, with the serial it left. */
  predicate Follows(prev: Handled, next: Handled, seen: set<string>) {
    var q := prev.outcome.queue;
    && next.serial == prev.outcome.serial
    && |next.queue| < |q| && next.queue == q[..|next.queue|] && next.request == q[|next.queue|]
    && forall j :: |next.queue| < j < |q| ==> q[j].filePath in seen
  }

  /** Each handled request follows the one before it and has a path none of those before
      it has. */
  predicate Chained(hs: seq<Handled>) {
    && (forall k :: 0 <= k < |hs| - 1 ==> Follows(hs[k], hs[k + 1], Paths(hs[..k + 1])))
    && (forall k :: 0 <= k < |hs| ==> hs[k].request.filePath !in Paths(hs[..k]))
  }

  /** The facts every request of the processing of `filePath` keeps: it lists that file as
      its only input, and its arrays and the queue behind it are below its serial. */
  predicate Derived(hs: seq<Handled>, filePath: string) {
    forall k :: 0 <= k < |hs| ==>
      && hs[k].request.inputFiles == [filePath] && hs[k].outcome.req.inputFiles == [filePath]
      && RequestBelow(hs[k].request, hs[k].serial) && QueueBelow(hs[k].queue, hs[k].serial)
  }

  /** The queue still to pop is a prefix of the one the last handled request left, behind
      which only requests for handled paths were popped; the serial is the one it left. */
  predicate UnhandledRequests(last: Handled, queue: seq<Request>, serial: nat, seen: set<string>) {
    var q := last.outcome.queue;
    && serial == last.outcome.serial
    && |queue| <= |q| && queue == q[..|queue|]
    && forall j :: |queue| <= j < |q| ==> q[j].filePath in seen
  }

  /** The request for the file as read. */
  function FirstRequest(filePath: string, handle: nat, text: string): (r: Request)
    ensures !r.newFile && r.filePath == filePath && r.content == Stored(handle, text)
    ensures r.sourceMap.None? && r.inputFiles == [filePath]
  {
    Request(false, filePath, Stored(handle, text), None, [filePath])
  }

  lemma QueueBelowPrefix(q: seq<Request>, n: nat, m: nat)
    requires QueueBelow(q, n) && m <= |q|
    ensures QueueBelow(q[..m], n)
  {
    forall k | 0 <= k < m
      ensures RequestBelow(q[..m][k], n)
    {
      assert q[..m][k] == q[k];
    }
  }

  lemma PathsSnoc(hs: seq<Handled>, e: Handled)
    ensures Paths(hs + [e]) == Paths(hs) + {e.request.filePath}
  {
    assert (hs + [e])[..|hs|] == hs;
  }

  lemma DerivedSnoc(hs: seq<Handled>, e: Handled, filePath: string)
    requires Derived(hs, filePath)
    requires e.request.inputFiles == [filePath] && e.outcome.req.inputFiles == [filePath]
    requires RequestBelow(e.request, e.serial) && QueueBelow(e.queue, e.serial)
    ensures Derived(hs + [e], filePath)
  {
    var hs' := hs + [e];
    forall k | 0 <= k < |hs'|
      ensures hs'[k].request.inputFiles == [filePath] && hs'[k].outcome.req.inputFiles == [filePath]
      ensures RequestBelow(hs'[k].request, hs'[k].serial) && QueueBelow(hs'[k].queue, hs'[k].serial)
    {
      if k < |hs| {
        assert hs'[k] == hs[k];
      }
    }
  }

  lemma ChainedSnoc(hs: seq<Handled>, e: Handled)
    requires Chained(hs) && e.request.filePath !in Paths(hs)
    requires hs != [] ==> Follows(hs[|hs| - 1], e, Paths(hs))
    ensures Chained(hs + [e])
  {
    FollowsSnoc(hs, e);
    FreshSnoc(hs, e);
  }

  /** Appending e keeps each handled request following the one before it. */
  lemma FollowsSnoc(hs: seq<Handled>, e: Handled)
    requires forall k :: 0 <= k < |hs| - 1 ==> Follows(hs[k], hs[k + 1], Paths(hs[..k + 1]))
    requires hs != [] ==> Follows(hs[|hs| - 1], e, Paths(hs))
    ensures forall k :: 0 <= k < |hs + [e]| - 1 ==> Follows((hs + [e])[k], (hs + [e])[k + 1], Paths((hs + [e])[..k + 1]))
  {
    var hs' := hs + [e];
    forall k | 0 <= k < |hs'| - 1
      ensures Follows(hs'[k], hs'[k + 1], Paths(hs'[..k + 1]))
    {
      if k < |hs| - 1 {
        assert hs'[k] == hs[k] && hs'[k + 1] == hs[k + 1];
        assert hs'[..k + 1] == hs[..k + 1];
      } else {
        assert hs'[k] == hs[|hs| - 1] && hs'[k + 1] == e;
        assert hs'[..k + 1] == hs;
      }
    }
  }

  /** Appending e, whose path none of hs has, keeps every handled path new when handled. */
  lemma FreshSnoc(hs: seq<Handled>, e: Handled)
    requires forall k :: 0 <= k < |hs| ==> hs[k].request.filePath !in Paths(hs[..k])
    requires e.request.filePath !in Paths(hs)
    ensures forall k :: 0 <= k < |hs + [e]| ==> (hs + [e])[k].request.filePath !in Paths((hs + [e])[..k])
  {
    var hs' := hs + [e];
    forall k | 0 <= k < |hs'|
      ensures hs'[k].request.filePath !in Paths(hs'[..k])
    {
      assert hs'[..k] == hs[..k];
      if k < |hs| {
        assert hs'[k] == hs[k];
      }
    }
  }

  /** The state of process()'s loop: the handled requests so far, the queue still to pop,
      the next serial, the handled paths and the files emitted so far. */
  ghost predicate Progress(handled: seq<Handled>, queue: seq<Request>, serial: nat, seen: set<string>,
                           outFiles: seq<ProcessedFile>, first: Request, filePath: string)
  {
    && (handled == [] ==> queue == [first] && serial == 0)
    && (handled != [] ==> handled[0].request == first && handled[0].queue == [] && handled[0].serial == 0)
    && (handled != [] ==> UnhandledRequests(handled[|handled| - 1], queue, serial, seen))
    && seen == Paths(handled)
    && Chained(handled) && Derived(handled, filePath)
    && (forall k :: 0 <= k < |handled| ==> handled[k].outcome.err.None?)
    && (forall k :: 0 <= k < |queue| ==> queue[k].inputFiles == [filePath])
    && QueueBelow(queue, serial)
    && outFiles == Emitted(handled)
  }

  /** Popping a request whose path was handled keeps the loop's state. */
  lemma SkipKeeps(handled: seq<Handled>, queue: seq<Request>, serial: nat, seen: set<string>,
                  outFiles: seq<ProcessedFile>, first: Request, filePath: string)
    requires Progress(handled, queue, serial, seen, outFiles, first, filePath)
    requires queue != [] && queue[|queue| - 1].filePath in seen
    ensures Progress(handled, queue[..|queue| - 1], serial, seen, outFiles, first, filePath)
  {
    var queue' := queue[..|queue| - 1];
    assert handled != [];
    var q := handled[|handled| - 1].outcome.queue;
    assert queue' == q[..|queue'|];
    forall k | 0 <= k < |queue'|
      ensures RequestBelow(queue'[k], serial)
    {
      assert queue'[k] == queue[k];
    }
  }

  /** Handling a popped request with a new path extends the handled requests by one;
      without an error, the loop's state is kept with the queue and serial it leaves. What
      the plugins made of the request is only known to keep its inputs, extend the queue
      and keep arrays below the serial (RunAllKeeps). */
  lemma HandleKeeps(handled: seq<Handled>, queue: seq<Request>, serial: nat, seen: set<string>,
                    outFiles: seq<ProcessedFile>, first: Request, filePath: string, e: Handled)
    requires Progress(handled, queue, serial, seen, outFiles, first, filePath)
    requires queue != [] && e.request == queue[|queue| - 1] && e.request.filePath !in seen
    requires e.queue == queue[..|queue| - 1] && e.serial == serial
    requires e.outcome.req.inputFiles == e.request.inputFiles
    requires Extends(e.queue, e.outcome.queue, e.request.inputFiles)
    requires RequestBelow(e.request, e.serial) && QueueBelow(e.queue, e.serial) ==>
      RequestBelow(e.outcome.req, e.outcome.serial) && QueueBelow(e.outcome.queue, e.outcome.serial)
    ensures var hs := handled + [e];
      && hs[0].request == first && hs[0].queue == [] && hs[0].serial == 0
      && Chained(hs) && Derived(hs, filePath)
      && (forall k :: 0 <= k < |hs| - 1 ==> hs[k].outcome.err.None?)
    ensures e.outcome.err.None? ==>
      Progress(handled + [e], e.outcome.queue, e.outcome.serial, seen + {e.request.filePath},
               outFiles + (if Emits(e) then [ToFile(e.outcome.req)] else []), first, filePath)
  {
    var hs := handled + [e];
    assert RequestBelow(e.request, serial);
    QueueBelowPrefix(queue, serial, |queue| - 1);
    ChainedSnoc(handled, e);
    assert hs[..|handled|] == handled;
    assert Emitted(hs) == outFiles + (if Emits(e) then [ToFile(e.outcome.req)] else []);
    PathsSnoc(handled, e);
    DerivedSnoc(handled, e, filePath);
    if e.outcome.err.None? {
      var q := e.outcome.queue;
      forall k | 0 <= k < |q|
        ensures q[k].inputFiles == [filePath]
      {
        if k < |e.queue| {
          assert e.queue[k] == queue[k];
        }
      }
      assert q[..|q|] == q;
    }
  }

  class FileTransformer {
    var transformers: seq<Transformer>
    const root: string
    /** `test` of each registered regular expression, by id. */
    const regexTest: (nat, string) -> bool
    /** isGlob and globToRegExp(pattern).test(path) of the standard path library. */
    const isGlob: string -> bool
    const globTest: (string, string) -> bool
    /** The callbacks of the other plugins, by id. */
    const plugins: (nat, TransformArgs) -> TransformResult
    /** JSON.stringify(assetInternal(url, BUILD_ID)). */
    const assetUrl: string -> string

    constructor (root: string, regexTest: (nat, string) -> bool, isGlob: string -> bool,
                 globTest: (string, string) -> bool, plugins: (nat, TransformArgs) -> TransformResult,
                 assetUrl: string -> string)
      ensures transformers == [] && this.root == root
      ensures this.regexTest == regexTest && this.isGlob == isGlob && this.globTest == globTest
      ensures this.plugins == plugins && this.assetUrl == assetUrl
    {
      transformers := [];
      this.root := root;
      this.regexTest := regexTest;
      this.isGlob := isGlob;
      this.globTest := globTest;
      this.plugins := plugins;
      this.assetUrl := assetUrl;
    }

    /** Registers a plugin after all those registered before. */
    method OnTransform(options: TransformOptions, callback: Callback)
      modifies this
      ensures transformers == old(transformers) + [Transformer(options, callback)]
    {
      transformers := transformers + [Transformer(options, callback)];
    }

    function Invoke(callback: Callback, args: TransformArgs): TransformResult {
      match callback
      case CssCallback => Single(Item(None, TextContent(CssRewrite(args.content.text, assetUrl)), None))
      case Plugin(id) => plugins(id, args)
    }

    /** The CSS plugin returns CSS without `url(` as it was, as a string with no path and
        no map; so, being a string, it still counts as a change (TextResultChanges). */
    lemma CssPluginNoUrl(args: TransformArgs)
      requires !Contains(args.content.text, "url(")
      ensures Invoke(CssCallback, args) == Single(Item(None, TextContent(args.content.text), None))
    {
      CssRewriteNoUrl(args.content.text, assetUrl);
    }

    /** The pre-check: some registered filter accepts the path. */
    method HasTransformerFor(path: string) returns (b: bool)
      ensures b <==> exists i :: 0 <= i < |transformers| && FilterTest(transformers[i].options.filter, path, regexTest)
    {
      b := false;
      var i := 0;
      while i < |transformers|
        invariant 0 <= i <= |transformers|
        invariant forall j :: 0 <= j < i ==> !FilterTest(transformers[j].options.filter, path, regexTest)
      {
        if FilterTest(transformers[i].options.filter, path, regexTest) {
          b := true;
          break;
        }
        i := i + 1;
      }
    }

    /** The exclude check, which tests the processed file's original path. */
    method IsExcluded(excludes: Option<seq<Exclude>>, filePath: string) returns (b: bool)
      ensures b <==> excludes.Some? && exists e :: e in excludes.value && ExcludeMatches(e, filePath, regexTest, isGlob, globTest)
    {
      if excludes.None? {
        return false;
      }
      var es := excludes.value;
      var j := 0;
      while j < |es|
        invariant 0 <= j <= |es|
        invariant forall k :: 0 <= k < j ==> !ExcludeMatches(es[k], filePath, regexTest, isGlob, globTest)
      {
        if ExcludeMatches(es[j], filePath, regexTest, isGlob, globTest) {
          return true;
        }
        j := j + 1;
      }
      return false;
    }

    /** A plugin over the state reached so far. It is skipped unless its filter accepts
        the request's current path and none of its excludes matches the processed file. A
        single result replaces the content and the map, and the path when it gives one,
        unless both are the arrays the request already has; a multi-file result goes item by
        item or fails as a whole. */
    function PluginStep(t: Transformer, s: Step, filePath: string, mode: TransformMode, target: Target): (r: Step)
      ensures r.serial >= s.serial
      ensures !Accepts(t, s.req.filePath, filePath, regexTest, isGlob, globTest) ==> r == s
    {
      if !Accepts(t, s.req.filePath, filePath, regexTest, isGlob, globTest) then s
      else
        match Invoke(t.callback, TransformArgs(s.req.filePath, mode, target, s.req.content, root))
        case NoResult => s
        case Many(items) =>
          var o := ItemsFold(s.req, s.queue, items, s.req.content, s.serial, t.options.pluginName);
          if o.err.Some? then s.(err := o.err) else o.(transformed := s.transformed || o.transformed)
        case Single(item) =>
          var c := Encode(item.content, s.req.content, s.serial);
          var m := EncodeMap(item.sourceMap, s.req.content, c.1);
          if s.req.content == c.0 && s.req.sourceMap == m.0 then s.(serial := m.1)
          else
            var path := if item.path.Some? then item.path.value else s.req.filePath;
            Step(s.req.(content := c.0, sourceMap := m.0, filePath := path), s.queue, true, m.1, None)
    }

    /** Whether the plugin, run on the state, changes something of its own. */
    predicate PluginChanges(t: Transformer, s: Step, filePath: string, mode: TransformMode, target: Target) {
      && Accepts(t, s.req.filePath, filePath, regexTest, isGlob, globTest)
      && match Invoke(t.callback, TransformArgs(s.req.filePath, mode, target, s.req.content, root))
         case NoResult => false
         case Many(items) => ItemsFold(s.req, s.queue, items, s.req.content, s.serial, t.options.pluginName).transformed
         case Single(item) =>
           var c := Encode(item.content, s.req.content, s.serial);
           var m := EncodeMap(item.sourceMap, s.req.content, c.1);
           !(s.req.content == c.0 && s.req.sourceMap == m.0)
    }

    /** The first n plugins, in registration order, over one request. */
    function RunPrefix(n: nat, req: Request, queue: seq<Request>, filePath: string, mode: TransformMode,
                       target: Target, serial: nat): (r: Step)
      requires n <= |transformers|
      reads this
      ensures r.serial >= serial
      decreases n, 0
    {
      if n == 0 then Step(req, queue, false, serial, None) else StepAt(n - 1, req, queue, filePath, mode, target, serial)
    }

    /** The state after the (j+1)-th plugin: it runs on the state the first j left, unless
        one of them failed, which stops the run. */
    function StepAt(j: nat, req: Request, queue: seq<Request>, filePath: string, mode: TransformMode,
                    target: Target, serial: nat): (r: Step)
      requires j < |transformers|
      reads this
      ensures r.serial >= serial
      decreases j, 1
    {
      var s := RunPrefix(j, req, queue, filePath, mode, target, serial);
      if s.err.Some? then s else PluginStep(transformers[j], s, filePath, mode, target)
    }

    /** Every registered plugin over one request. */
    function RunAll(req: Request, queue: seq<Request>, filePath: string, mode: TransformMode, target: Target,
                    serial: nat): (r: Step)
      reads this
      ensures r.serial >= serial
    {
      RunPrefix(|transformers|, req, queue, filePath, mode, target, serial)
    }

    /** Once a plugin has failed, the later ones do not run. */
    lemma {:induction false} RunPrefixStops(n: nat, req: Request, queue: seq<Request>, filePath: string,
                                            mode: TransformMode, target: Target, serial: nat)
      requires n <= |transformers| && RunPrefix(n, req, queue, filePath, mode, target, serial).err.Some?
      ensures RunAll(req, queue, filePath, mode, target, serial) == RunPrefix(n, req, queue, filePath, mode, target, serial)
      decreases |transformers| - n
    {
      if n < |transformers| {
        RunPrefixStops(n + 1, req, queue, filePath, mode, target, serial);
      }
    }

    /** A plugin keeps the request's kind and inputs and only extends the queue. */
    lemma PluginStepKeeps(t: Transformer, s: Step, filePath: string, mode: TransformMode, target: Target)
      ensures var r := PluginStep(t, s, filePath, mode, target);
        && r.req.newFile == s.req.newFile && r.req.inputFiles == s.req.inputFiles
        && Extends(s.queue, r.queue, s.req.inputFiles)
    {
      if Accepts(t, s.req.filePath, filePath, regexTest, isGlob, globTest) {
        match Invoke(t.callback, TransformArgs(s.req.filePath, mode, target, s.req.content, root))
        case NoResult =>
        case Single(_) =>
        case Many(items) =>
          ItemsFoldKeeps(s.req, s.queue, items, s.req.content, s.serial, t.options.pluginName);
      }
    }

    /** Running plugins keeps the request's kind and inputs, and only extends the queue, by
        new files derived from the request's inputs. */
    lemma {:induction false} RunPrefixKeeps(n: nat, req: Request, queue: seq<Request>, filePath: string,
                                            mode: TransformMode, target: Target, serial: nat)
      requires n <= |transformers|
      ensures var r := RunPrefix(n, req, queue, filePath, mode, target, serial);
        && r.req.newFile == req.newFile && r.req.inputFiles == req.inputFiles
        && Extends(queue, r.queue, req.inputFiles)
      decreases n
    {
      if n > 0 {
        RunPrefixKeeps(n - 1, req, queue, filePath, mode, target, serial);
        var s := RunPrefix(n - 1, req, queue, filePath, mode, target, serial);
        var r := RunPrefix(n, req, queue, filePath, mode, target, serial);
        assert r == StepAt(n - 1, req, queue, filePath, mode, target, serial);
        if s.err.None? {
          assert r == PluginStep(transformers[n - 1], s, filePath, mode, target);
          PluginStepKeeps(transformers[n - 1], s, filePath, mode, target);
          ExtendsTrans(queue, s.queue, r.queue, req.inputFiles);
        }
      }
    }

    /** An error names a registered plugin. */
    lemma {:induction false} RunPrefixErrorName(n: nat, req: Request, queue: seq<Request>, filePath: string,
                                                mode: TransformMode, target: Target, serial: nat)
      requires n <= |transformers|
      ensures var r := RunPrefix(n, req, queue, filePath, mode, target, serial);
        r.err.Some? ==> exists j :: 0 <= j < n && r.err.value == transformers[j].options.pluginName
      decreases n
    {
      if n > 0 {
        RunPrefixErrorName(n - 1, req, queue, filePath, mode, target, serial);
        var s := RunPrefix(n - 1, req, queue, filePath, mode, target, serial);
        var t := transformers[n - 1];
        if s.err.None? && Accepts(t, s.req.filePath, filePath, regexTest, isGlob, globTest) {
          match Invoke(t.callback, TransformArgs(s.req.filePath, mode, target, s.req.content, root))
          case NoResult =>
          case Single(_) =>
          case Many(items) =>
            ItemsFoldError(s.req, s.queue, items, s.req.content, s.serial, t.options.pluginName);
        }
      }
    }

    /** A plugin keeps every array it leaves below the next serial. */
    lemma PluginStepBelow(t: Transformer, s: Step, filePath: string, mode: TransformMode, target: Target)
      requires RequestBelow(s.req, s.serial) && QueueBelow(s.queue, s.serial)
      ensures var r := PluginStep(t, s, filePath, mode, target);
        RequestBelow(r.req, r.serial) && QueueBelow(r.queue, r.serial)
    {
      if Accepts(t, s.req.filePath, filePath, regexTest, isGlob, globTest) {
        match Invoke(t.callback, TransformArgs(s.req.filePath, mode, target, s.req.content, root))
        case NoResult =>
        case Single(item) =>
          var c := Encode(item.content, s.req.content, s.serial);
          var m := EncodeMap(item.sourceMap, s.req.content, c.1);
          QueueBelowMono(s.queue, s.serial, m.1);
        case Many(items) =>
          ItemsFoldBelow(s.req, s.queue, items, s.req.content, s.serial, t.options.pluginName);
      }
    }

    /** An array-identity invariant: when the request and the queue are below the serial,
        so is everything the plugins leave, so each string a plugin returns becomes an array
        no request shares (EncodeFresh). */
    lemma {:induction false} RunPrefixBelow(n: nat, req: Request, queue: seq<Request>, filePath: string,
                                            mode: TransformMode, target: Target, serial: nat)
      requires n <= |transformers| && RequestBelow(req, serial) && QueueBelow(queue, serial)
      ensures var r := RunPrefix(n, req, queue, filePath, mode, target, serial);
        RequestBelow(r.req, r.serial) && QueueBelow(r.queue, r.serial)
      decreases n
    {
      if n > 0 {
        RunPrefixBelow(n - 1, req, queue, filePath, mode, target, serial);
        var s := RunPrefix(n - 1, req, queue, filePath, mode, target, serial);
        if s.err.None? {
          PluginStepBelow(transformers[n - 1], s, filePath, mode, target);
        }
      }
    }

    /** When no plugin accepts the request, nothing changes. */
    lemma {:induction false} RunPrefixNoAccept(n: nat, req: Request, queue: seq<Request>, filePath: string,
                                               mode: TransformMode, target: Target, serial: nat)
      requires n <= |transformers|
      requires forall j :: 0 <= j < n ==> !Accepts(transformers[j], req.filePath, filePath, regexTest, isGlob, globTest)
      ensures RunPrefix(n, req, queue, filePath, mode, target, serial) == Step(req, queue, false, serial, None)
      decreases n
    {
      if n > 0 {
        RunPrefixNoAccept(n - 1, req, queue, filePath, mode, target, serial);
        var s := RunPrefix(n - 1, req, queue, filePath, mode, target, serial);
        assert !Accepts(transformers[n - 1], s.req.filePath, filePath, regexTest, isGlob, globTest);
      }
    }

    /** Without an error, a plugin's step counts as a change exactly when the plugin changes
        something of its own or an earlier one did. */
    lemma PluginStepTransformed(t: Transformer, s: Step, filePath: string, mode: TransformMode, target: Target)
      requires s.err.None? && PluginStep(t, s, filePath, mode, target).err.None?
      ensures PluginStep(t, s, filePath, mode, target).transformed <==>
        s.transformed || PluginChanges(t, s, filePath, mode, target)
    {
    }

    /** Whether the (j+1)-th plugin changes something of its own. */
    predicate ChangesAt(j: nat, req: Request, queue: seq<Request>, filePath: string, mode: TransformMode,
                        target: Target, serial: nat)
      requires j < |transformers|
      reads this
    {
      PluginChanges(transformers[j], RunPrefix(j, req, queue, filePath, mode, target, serial), filePath, mode, target)
    }

    /** The (j+1)-th plugin's step, without an error, counts as a change exactly when an
        earlier plugin changed something or this one does. */
    lemma TransformedAt(j: nat, req: Request, queue: seq<Request>, filePath: string, mode: TransformMode,
                        target: Target, serial: nat)
      requires j < |transformers| && RunPrefix(j + 1, req, queue, filePath, mode, target, serial).err.None?
      ensures RunPrefix(j, req, queue, filePath, mode, target, serial).err.None?
      ensures RunPrefix(j + 1, req, queue, filePath, mode, target, serial).transformed <==>
        RunPrefix(j, req, queue, filePath, mode, target, serial).transformed ||
        ChangesAt(j, req, queue, filePath, mode, target, serial)
    {
      var s := RunPrefix(j, req, queue, filePath, mode, target, serial);
      PluginStepTransformed(transformers[j], s, filePath, mode, target);
    }

    /** Without an error, a change by any plugin makes the request count as transformed. */
    lemma {:induction false} RunPrefixChangeCounts(n: nat, j: nat, req: Request, queue: seq<Request>,
                                                   filePath: string, mode: TransformMode, target: Target, serial: nat)
      requires j < n <= |transformers|
      requires RunPrefix(n, req, queue, filePath, mode, target, serial).err.None?
      requires ChangesAt(j, req, queue, filePath, mode, target, serial)
      ensures RunPrefix(n, req, queue, filePath, mode, target, serial).transformed
      decreases n
    {
      TransformedAt(n - 1, req, queue, filePath, mode, target, serial);
      if j < n - 1 {
        RunPrefixChangeCounts(n - 1, j, req, queue, filePath, mode, target, serial);
      }
    }

    /** Without an error, a request counts as transformed only when some plugin changed
        something. */
    lemma {:induction false} RunPrefixChangeNeeded(n: nat, req: Request, queue: seq<Request>, filePath: string,
                                                   mode: TransformMode, target: Target, serial: nat)
      requires n <= |transformers|
      requires RunPrefix(n, req, queue, filePath, mode, target, serial).err.None?
      requires RunPrefix(n, req, queue, filePath, mode, target, serial).transformed
      ensures exists j :: 0 <= j < n && ChangesAt(j, req, queue, filePath, mode, target, serial)
      decreases n
    {
      TransformedAt(n - 1, req, queue, filePath, mode, target, serial);
      if !ChangesAt(n - 1, req, queue, filePath, mode, target, serial) {
        RunPrefixChangeNeeded(n - 1, req, queue, filePath, mode, target, serial);
        var j :| 0 <= j < n - 1 && ChangesAt(j, req, queue, filePath, mode, target, serial);
      }
    }

    /** Without an error, the request counts as transformed exactly when some plugin
        changed something. */
    lemma RunPrefixTransformed(n: nat, req: Request, queue: seq<Request>, filePath: string,
                               mode: TransformMode, target: Target, serial: nat)
      requires n <= |transformers|
      ensures RunPrefix(n, req, queue, filePath, mode, target, serial).err.None? ==>
        (RunPrefix(n, req, queue, filePath, mode, target, serial).transformed <==>
         exists j :: 0 <= j < n && ChangesAt(j, req, queue, filePath, mode, target, serial))
    {
      if RunPrefix(n, req, queue, filePath, mode, target, serial).err.None? {
        if RunPrefix(n, req, queue, filePath, mode, target, serial).transformed {
          RunPrefixChangeNeeded(n, req, queue, filePath, mode, target, serial);
        } else if exists j :: 0 <= j < n && ChangesAt(j, req, queue, filePath, mode, target, serial) {
          var j :| 0 <= j < n && ChangesAt(j, req, queue, filePath, mode, target, serial);
          RunPrefixChangeCounts(n, j, req, queue, filePath, mode, target, serial);
        }
      }
    }

    /** A plugin that gives back the very array it was given, with no map for a request
        that has none, changes nothing and does not count as a change. */
    lemma SameResultUnchanged(t: Transformer, s: Step, filePath: string, mode: TransformMode, target: Target,
                              path: Option<string>)
      requires Accepts(t, s.req.filePath, filePath, regexTest, isGlob, globTest)
      requires Invoke(t.callback, TransformArgs(s.req.filePath, mode, target, s.req.content, root)) ==
        Single(Item(path, GivenContent, None))
      requires s.req.sourceMap.None?
      ensures PluginStep(t, s, filePath, mode, target) == s
      ensures !PluginChanges(t, s, filePath, mode, target)
    {
    }

    /** A plugin that returns a string always changes the request: the string becomes an
        array no request of the queue shares. */
    lemma TextResultChanges(t: Transformer, s: Step, filePath: string, mode: TransformMode, target: Target,
                            item: Item)
      requires Accepts(t, s.req.filePath, filePath, regexTest, isGlob, globTest)
      requires Invoke(t.callback, TransformArgs(s.req.filePath, mode, target, s.req.content, root)) == Single(item)
      requires item.content.TextContent? && RequestBelow(s.req, s.serial) && QueueBelow(s.queue, s.serial)
      ensures PluginChanges(t, s, filePath, mode, target)
      ensures var r := PluginStep(t, s, filePath, mode, target);
        && r.transformed && r.req.content.text == item.content.s
        && forall k :: 0 <= k < |s.queue| ==> r.req.content != s.queue[k].content
    {
      EncodeFresh(item.content, s.req.content, s.serial, s.req, s.queue);
    }

    /** What a handled request keeps from the plugins' run. */
    lemma RunAllKeeps(h: Handled, filePath: string, mode: TransformMode, target: Target)
      requires h.outcome == RunAll(h.request, h.queue, filePath, mode, target, h.serial)
      ensures h.outcome.req.inputFiles == h.request.inputFiles
      ensures Extends(h.queue, h.outcome.queue, h.request.inputFiles)
      ensures RequestBelow(h.request, h.serial) && QueueBelow(h.queue, h.serial) ==>
        RequestBelow(h.outcome.req, h.outcome.serial) && QueueBelow(h.outcome.queue, h.outcome.serial)
    {
      RunPrefixKeeps(|transformers|, h.request, h.queue, filePath, mode, target, h.serial);
      if RequestBelow(h.request, h.serial) && QueueBelow(h.queue, h.serial) {
        RunPrefixBelow(|transformers|, h.request, h.queue, filePath, mode, target, h.serial);
      }
    }

    /** The loop body for one plugin: the filter and exclude checks, the callback, then
        its result. */
    method RunPlugin(t: Transformer, s: Step, filePath: string, mode: TransformMode, target: Target)
      returns (s': Step)
      ensures s' == PluginStep(t, s, filePath, mode, target)
    {
      if !FilterTest(t.options.filter, s.req.filePath, regexTest) {
        return s;
      }
      var excluded := IsExcluded(t.options.exclude, filePath);
      if excluded {
        return s;
      }
      var result := Invoke(t.callback, TransformArgs(s.req.filePath, mode, target, s.req.content, root));
      match result {
        case NoResult =>
          s' := s;
        case Many(items) =>
          var r, q, changed, sr, e := ApplyItems(s.req, s.queue, items, s.req.content, s.serial, t.options.pluginName);
          if e.Some? {
            return s.(err := e);
          }
          s' := Step(r, q, s.transformed || changed, sr, None);
        case Single(item) =>
          var c := Encode(item.content, s.req.content, s.serial);
          var m := EncodeMap(item.sourceMap, s.req.content, c.1);
          if s.req.content == c.0 && s.req.sourceMap == m.0 {
            s' := s.(serial := m.1);
          } else {
            var path := if item.path.Some? then item.path.value else s.req.filePath;
            s' := Step(s.req.(content := c.0, sourceMap := m.0, filePath := path), s.queue, true, m.1, None);
          }
      }
    }

    /** Every plugin, in registration order, over one request. */
    method RunTransformers(req: Request, queue: seq<Request>, filePath: string, mode: TransformMode,
                           target: Target, serial: nat)
      returns (req': Request, queue': seq<Request>, transformed: bool, serial': nat, err: Option<string>)
      ensures Step(req', queue', transformed, serial', err) == RunAll(req, queue, filePath, mode, target, serial)
    {
      var st := Step(req, queue, false, serial, None);
      var i := 0;
      while i < |transformers|
        invariant 0 <= i <= |transformers|
        invariant st == RunPrefix(i, req, queue, filePath, mode, target, serial) && st.err.None?
      {
        st := RunPlugin(transformers[i], st, filePath, mode, target);
        if st.err.Some? {
          RunPrefixStops(i + 1, req, queue, filePath, mode, target, serial);
          return st.req, st.queue, st.transformed, st.serial, st.err;
        }
        i := i + 1;
      }
      return st.req, st.queue, st.transformed, st.serial, None;
    }

    /** The k-th handled request is what the plugins made of it. */
    ghost predicate RanAt(hs: seq<Handled>, k: nat, filePath: string, mode: TransformMode, target: Target)
      requires k < |hs|
      reads this
    {
      hs[k].outcome == RunAll(hs[k].request, hs[k].queue, filePath, mode, target, hs[k].serial)
    }

    /** Each handled request is what the plugins made of it. */
    ghost predicate Ran(hs: seq<Handled>, filePath: string, mode: TransformMode, target: Target)
      reads this
    {
      forall k :: 0 <= k < |hs| ==> RanAt(hs, k, filePath, mode, target)
    }

    lemma RanSnoc(hs: seq<Handled>, e: Handled, filePath: string, mode: TransformMode, target: Target)
      requires Ran(hs, filePath, mode, target) && Ran([e], filePath, mode, target)
      ensures Ran(hs + [e], filePath, mode, target)
    {
      var hs' := hs + [e];
      forall k | 0 <= k < |hs'|
        ensures RanAt(hs', k, filePath, mode, target)
      {
        if k < |hs| {
          assert hs'[k] == hs[k];
          assert RanAt(hs, k, filePath, mode, target);
        } else {
          assert hs'[k] == [e][0];
          assert RanAt([e], 0, filePath, mode, target);
        }
      }
    }

    /** The plugins' run over one popped request, `rest` being the queue behind it: the
        handled entry records what they made of it, which keeps its inputs, only extends
        the queue and keeps arrays below the serial; an error names a registered plugin. */
    method HandleRequest(request: Request, rest: seq<Request>, serial: nat, filePath: string, mode: TransformMode,
                         target: Target)
      returns (entry: Handled)
      ensures entry.request == request && entry.queue == rest && entry.serial == serial
      ensures Ran([entry], filePath, mode, target)
      ensures entry.outcome.req.inputFiles == request.inputFiles
      ensures Extends(rest, entry.outcome.queue, request.inputFiles)
      ensures RequestBelow(request, serial) && QueueBelow(rest, serial) ==>
        RequestBelow(entry.outcome.req, entry.outcome.serial) && QueueBelow(entry.outcome.queue, entry.outcome.serial)
      ensures entry.outcome.err.Some? ==>
        exists j :: 0 <= j < |transformers| && transformers[j].options.pluginName == entry.outcome.err.value
    {
      var req, q, transformed, s, err := RunTransformers(request, rest, filePath, mode, target, serial);
      entry := Handled(request, rest, serial, Step(req, q, transformed, s, err));
      RunAllKeeps(entry, filePath, mode, target);
      RunPrefixErrorName(|transformers|, request, rest, filePath, mode, target, serial);
      assert RanAt([entry], 0, filePath, mode, target);
    }

    /** The loop body for a popped request whose path is new: the plugins run on it, it is
        added to the handled requests and, unless they threw, the queue and serial are the
        ones it leaves and its file is emitted when it counts. */
    method HandleNew(handled: seq<Handled>, queue: seq<Request>, serial: nat, seen: set<string>,
                     outFiles: seq<ProcessedFile>, first: Request, filePath: string, mode: TransformMode,
                     target: Target)
      returns (handled': seq<Handled>, queue': seq<Request>, serial': nat, seen': set<string>,
               outFiles': seq<ProcessedFile>)
      requires Progress(handled, queue, serial, seen, outFiles, first, filePath) && Ran(handled, filePath, mode, target)
      requires queue != [] && queue[|queue| - 1].filePath !in seen
      ensures |handled'| == |handled| + 1 && handled'[0].request == first
      ensures handled'[0].queue == [] && handled'[0].serial == 0
      ensures Ran(handled', filePath, mode, target) && Chained(handled') && Derived(handled', filePath)
      ensures forall k :: 0 <= k < |handled'| - 1 ==> handled'[k].outcome.err.None?
      ensures handled'[|handled|].outcome.err.None? ==>
        Progress(handled', queue', serial', seen', outFiles', first, filePath)
      ensures handled'[|handled|].outcome.err.Some? ==>
        exists j :: 0 <= j < |transformers| && transformers[j].options.pluginName == handled'[|handled|].outcome.err.value
    {
      var request := queue[|queue| - 1];
      var entry := HandleRequest(request, queue[..|queue| - 1], serial, filePath, mode, target);
      HandleKeeps(handled, queue, serial, seen, outFiles, first, filePath, entry);
      RanSnoc(handled, entry, filePath, mode, target);
      handled' := handled + [entry];
      seen' := seen + {request.filePath};
      var out := entry.outcome;
      queue', serial' := out.queue, out.serial;
      outFiles' := outFiles;
      if out.transformed || out.req.newFile {
        outFiles' := outFiles + [ProcessedFile(out.req.filePath, out.req.content, out.req.sourceMap, out.req.inputFiles)];
      }
    }

    /** process()'s loop over the queue, from the request for the file as read: requests
        are popped from the end of the queue and every path is handled once. `handled`
        lists, in order, each request the plugins ran on, the queue behind it, its serial
        and what the plugins made of it. `fuel` bounds the number of paths handled: plugins
        may add files without end, and popping a path already handled costs nothing. The
        result is OutOfFuel only once `fuel` paths have been handled and another new path
        is waiting. Unless an error is thrown, the result is the emitted files, or
        null when none was emitted. */
    method Drain(filePath: string, mode: TransformMode, target: Target, handle: nat, text: string, fuel: nat)
      returns (r: ProcessOutcome, handled: seq<Handled>)
      ensures handled == [] <==> fuel == 0
      ensures handled == [] ==> r == Failed(OutOfFuel)
      ensures r.Failed? && r.error.OutOfFuel? ==> |handled| == fuel
      ensures handled != [] ==> handled[0].request == FirstRequest(filePath, handle, text)
      ensures handled != [] ==> handled[0].queue == [] && handled[0].serial == 0
      ensures Ran(handled, filePath, mode, target) && Chained(handled) && Derived(handled, filePath)
      ensures forall k :: 0 <= k < |handled| - 1 ==> handled[k].outcome.err.None?
      ensures r.Failed? ==> r.error.OutOfFuel? || r.error.MissingPath?
      ensures r.Failed? && r.error.MissingPath? ==> handled != [] && handled[|handled| - 1].outcome.err == Some(r.error.pluginName)
      ensures r.Failed? && r.error.MissingPath? ==>
        exists j :: 0 <= j < |transformers| && transformers[j].options.pluginName == r.error.pluginName
      ensures !r.Failed? ==> r == Emission(handled)
      ensures !r.Failed? && handled != [] ==> var last := handled[|handled| - 1];
        forall j :: 0 <= j < |last.outcome.queue| ==> last.outcome.queue[j].filePath in Paths(handled)
    {
      var first := FirstRequest(filePath, handle, text);
      handled := [];
      var queue := [first];
      var outFiles: seq<ProcessedFile> := [];
      var seen: set<string> := {};
      var serial := 0;
      var fuelLeft := fuel;
      while queue != []
        invariant Progress(handled, queue, serial, seen, outFiles, first, filePath)
        invariant Ran(handled, filePath, mode, target)
        invariant |handled| + fuelLeft == fuel
        decreases fuelLeft, |queue|
      {
        var request := queue[|queue| - 1];
        if request.filePath in seen {
          SkipKeeps(handled, queue, serial, seen, outFiles, first, filePath);
          queue := queue[..|queue| - 1];
          continue;
        }
        if fuelLeft == 0 {
          return Failed(OutOfFuel), handled;
        }
        fuelLeft := fuelLeft - 1;
        handled, queue, serial, seen, outFiles := HandleNew(handled, queue, serial, seen, outFiles, first, filePath, mode, target);
        var err := handled[|handled| - 1].outcome.err;
        if err.Some? {
          return Failed(MissingPath(err.value)), handled;
        }
      }
      r := if outFiles == [] then NoFiles else Files(outFiles);
    }

    /** process(): null when no filter accepts the file or the file does not exist; a read
        error is rethrown. Otherwise the queue is drained (Drain) from the file as read,
        which is handled first. Unless an error is thrown, the result is the emitted files,
        or null when none was emitted; so when some plugin changes the file as read, the
        result lists it first. Every emitted file lists the processed file as its only
        input. */
    method Process(filePath: string, mode: TransformMode, target: Target, read: ReadResult, fuel: nat)
      returns (r: ProcessOutcome, handled: seq<Handled>)
      ensures (forall i :: 0 <= i < |transformers| ==> !FilterTest(transformers[i].options.filter, filePath, regexTest)) ==>
        r == NoFiles && handled == []
      ensures (exists i :: 0 <= i < |transformers| && FilterTest(transformers[i].options.filter, filePath, regexTest)) ==>
        (read == ReadNotFound ==> r == NoFiles) && (read.ReadFailed? ==> r == Failed(ReadError(read.message)))
      ensures r.Failed? && r.error.ReadError? ==> read == ReadFailed(r.error.message)
      ensures r.Failed? && r.error.OutOfFuel? ==> |handled| == fuel
      ensures ((exists i :: 0 <= i < |transformers| && FilterTest(transformers[i].options.filter, filePath, regexTest)) &&
               read.ReadOk? && fuel > 0) ==> handled != []
      ensures handled != [] ==> read.ReadOk? && handled[0].request == FirstRequest(filePath, read.handle, read.text)
      ensures handled != [] ==> handled[0].queue == [] && handled[0].serial == 0
      ensures Ran(handled, filePath, mode, target) && Chained(handled) && Derived(handled, filePath)
      ensures forall k :: 0 <= k < |handled| - 1 ==> handled[k].outcome.err.None?
      ensures r.Failed? && r.error.MissingPath? ==> handled != [] && handled[|handled| - 1].outcome.err == Some(r.error.pluginName)
      ensures r.Failed? && r.error.MissingPath? ==>
        exists j :: 0 <= j < |transformers| && transformers[j].options.pluginName == r.error.pluginName
      ensures !r.Failed? ==> r == Emission(handled)
      ensures !r.Failed? && handled != [] ==> var last := handled[|handled| - 1];
        forall j :: 0 <= j < |last.outcome.queue| ==> last.outcome.queue[j].filePath in Paths(handled)
      ensures r.Files? ==> forall k :: 0 <= k < |r.files| ==> r.files[k].inputFiles == [filePath]
      ensures handled != [] && Emits(handled[0]) && !r.Failed? ==> r.Files? && r.files[0] == ToFile(handled[0].outcome.req)
    {
      handled := [];
      var has := HasTransformerFor(filePath);
      if !has {
        return NoFiles, handled;
      }
      if read == ReadNotFound {
        return NoFiles, handled;
      } else if read.ReadFailed? {
        return Failed(ReadError(read.message)), handled;
      }
      r, handled := Drain(filePath, mode, target, read.handle, read.text, fuel);
      if r.Files? {
        EmittedFiles(handled, filePath);
      }
      if handled != [] && Emits(handled[0]) {
        EmittedFirst(handled);
      }
    }
  }

  /** cssAssetHash: registers the CSS plugin, for files ending in `.css`. */
  method CssAssetHash(transformer: FileTransformer)
    modifies transformer
    ensures transformer.transformers ==
      old(transformer.transformers) + [Transformer(TransformOptions("fresh-css", Suffix(".css"), None), CssCallback)]
  {
    transformer.OnTransform(TransformOptions("fresh-css", Suffix(".css"), None), CssCallback);
  }

  // ---------------------------------------------------------------------------------------
  // The CSS plugin: every `url(...)` is rewritten to point at the hashed asset.

  /** str.slice(1, -1). */
  function SliceInner(s: string): (r: string)
    ensures |s| >= 2 ==> r == s[1..|s| - 1]
    ensures |s| < 2 ==> r == ""
  {
    if |s| >= 2 then s[1..|s| - 1] else ""
  }

  predicate IsQuote(c: char) { c == '\'' || c == '"' }

  /** The URL inside a matched group: surrounding quotes are dropped when the group starts
      with one. */
  function RawUrl(group: string): string {
    if |group| > 0 && IsQuote(group[0]) then SliceInner(group) else group
  }

  /** The replacement callback as the source writes it: an empty URL returns the group,
      which then replaces the whole `url(...)` match. */
  function CssUrlReplacementAsWritten(group: string, assetUrl: string -> string): string {
    if |RawUrl(group)| == 0 then group else "url(" + assetUrl(RawUrl(group)) + ")"
  }

  /** The replacement callback, leaving a match with an empty URL as it was. */
  function CssUrlReplacement(group: string, assetUrl: string -> string): (r: string)
    ensures |RawUrl(group)| == 0 ==> r == "url(" + group + ")"
    ensures |RawUrl(group)| > 0 ==> r == "url(" + assetUrl(RawUrl(group)) + ")"
  {
    if |RawUrl(group)| == 0 then "url(" + group + ")" else "url(" + assetUrl(RawUrl(group)) + ")"
  }

  /** A quoted URL and the same URL unquoted are rewritten alike. */
  lemma QuotingIrrelevant(u: string, assetUrl: string -> string)
    requires |u| > 0 && !IsQuote(u[0])
    ensures CssUrlReplacement("\"" + u + "\"", assetUrl) == CssUrlReplacement(u, assetUrl)
    ensures CssUrlReplacement("'" + u + "'", assetUrl) == CssUrlReplacement(u, assetUrl)
    ensures CssUrlReplacement(u, assetUrl) == "url(" + assetUrl(u) + ")"
  {
    assert RawUrl("\"" + u + "\"") == u;
    assert RawUrl("'" + u + "'") == u;
  }

  /** A match of `url\(("[^"]+"|'[^']+'|[^)]+)\)` at the start of s: the group and the
      length of the whole match. The alternatives are tried in order. */
  function UrlMatchAt(s: string): (m: Option<(string, nat)>)
    ensures m.Some? ==> (5 < m.value.1 <= |s| && StartsWith(s, "url(") &&
      s[..m.value.1] == "url(" + m.value.0 + ")" && |m.value.0| > 0)
  {
    if !StartsWith(s, "url(") then None
    else
      var rest := s[4..];
      assert s == "url(" + rest;
      match QuotedGroup(rest, '"')
      case Some(n) => UrlMatchShape(s, rest, n); Some((rest[..n], 4 + n + 1))
      case None =>
        match QuotedGroup(rest, '\'')
        case Some(n) => UrlMatchShape(s, rest, n); Some((rest[..n], 4 + n + 1))
        case None =>
          match IndexOf(rest, ')')
          case Some(k) => if k > 0 then UrlMatchShape(s, rest, k); Some((rest[..k], 4 + k + 1)) else None
          case None => None
  }

  /** A match that closes at rest[n] spans `url(`, the group rest[..n] and the `)`. */
  lemma UrlMatchShape(s: string, rest: string, n: nat)
    requires s == "url(" + rest && n < |rest| && rest[n] == ')'
    ensures s[..4 + n + 1] == "url(" + rest[..n] + ")"
  {
    assert s[..4 + n + 1] == "url(" + rest[..n + 1];
    assert rest[..n + 1] == rest[..n] + ")";
  }

  /** A group `q[^q]+q` at the start of rest followed by `)`: the group's length. */
  function QuotedGroup(rest: string, q: char): (n: Option<nat>)
    ensures n.Some? ==> 3 <= n.value < |rest| && rest[n.value] == ')' && rest[0] == q && rest[n.value - 1] == q
  {
    if |rest| == 0 || rest[0] != q then None
    else
      match IndexOf(rest[1..], q)
      case None => None
      case Some(k) =>
        // the closing quote is at 1 + k; the group is nonempty when k > 0
        if k > 0 && k + 2 < |rest| && rest[k + 2] == ')' then Some(k + 2) else None
  }

  /** text.replaceAll(CSS_URL_REGEX, callback), with the callback CSS_REPLACE applies. */
  function CssRewriteWith(text: string, assetUrl: string -> string, asWritten: bool): string
    decreases |text|
  {
    if text == [] then []
    else
      match UrlMatchAt(text)
      case Some(m) =>
        (if asWritten then CssUrlReplacementAsWritten(m.0, assetUrl) else CssUrlReplacement(m.0, assetUrl)) +
        CssRewriteWith(text[m.1..], assetUrl, asWritten)
      case None => [text[0]] + CssRewriteWith(text[1..], assetUrl, asWritten)
  }

  /** The CSS rewrite the model uses, with the corrected callback. */
  function CssRewrite(text: string, assetUrl: string -> string): string {
    CssRewriteWith(text, assetUrl, false)
  }

  /** Text without `url(` passes through the CSS plugin unchanged. */
  lemma {:induction false} CssRewriteNoUrl(text: string, assetUrl: string -> string)
    requires !Contains(text, "url(")
    ensures CssRewrite(text, assetUrl) == text
    decreases |text|
  {
    if text != [] {
      assert UrlMatchAt(text).None?;
      CssRewriteNoUrl(text[1..], assetUrl);
    }
  }

  /** As written, `url("")` loses its `url(...)` wrapper and becomes `""`. */
  lemma EmptyUrlAsWritten(assetUrl: string -> string)
    ensures CssRewriteWith("url(\"\")", assetUrl, true) == "\"\""
  {
    var s := "url(\"\")";
    assert StartsWith(s, "url(");
    var rest := s[4..];
    assert rest == "\"\")";
    assert QuotedGroup(rest, '"').None? by {
      assert IndexOf(rest[1..], '"') == Some(0);
    }
    assert QuotedGroup(rest, '\'').None?;
    assert IndexOf(rest, ')') == Some(2) by {
      IndexOfFirst(rest, ')', 2);
    }
    assert rest[..2] == "\"\"";
    assert UrlMatchAt(s) == Some(("\"\"", 7));
    assert RawUrl("\"\"") == "";
    assert s[7..] == [];
  }

  /** As written, every match with an empty URL is replaced by its bare group: the
      `url(` before it and the `)` after it are dropped, and the rewrite goes on after the
      match. */
  lemma EmptyUrlDropped(text: string, assetUrl: string -> string)
    requires UrlMatchAt(text).Some? && |RawUrl(UrlMatchAt(text).value.0)| == 0
    ensures var m := UrlMatchAt(text).value;
      && CssRewriteWith(text, assetUrl, true) == m.0 + CssRewriteWith(text[m.1..], assetUrl, true)
      && m.0 == text[4..m.1 - 1]
  {
    var m := UrlMatchAt(text).value;
    assert text[..m.1][4..m.1 - 1] == m.0;
  }

  /** With the corrected callback, a match with an empty URL is left exactly as it was. */
  lemma EmptyUrlPreserved(text: string, assetUrl: string -> string)
    requires UrlMatchAt(text).Some? && |RawUrl(UrlMatchAt(text).value.0)| == 0
    ensures var n := UrlMatchAt(text).value.1;
      CssRewrite(text, assetUrl) == text[..n] + CssRewrite(text[n..], assetUrl)
  {
  }

  /** No `url(...)` match anywhere in text has an empty URL. */
  predicate EmptyUrlFree(text: string) {
    forall i :: 0 <= i < |text| && UrlMatchAt(text[i..]).Some? ==> |RawUrl(UrlMatchAt(text[i..]).value.0)| > 0
  }

  /** The suffixes of an EmptyUrlFree text are EmptyUrlFree. */
  lemma EmptyUrlFreeSuffix(text: string, n: nat)
    requires EmptyUrlFree(text) && n <= |text|
    ensures EmptyUrlFree(text[n..])
  {
    forall i | 0 <= i < |text[n..]| && UrlMatchAt(text[n..][i..]).Some?
      ensures |RawUrl(UrlMatchAt(text[n..][i..]).value.0)| > 0
    {
      assert text[n..][i..] == text[n + i..];
    }
  }

  /** On text whose every match has a nonempty URL, the callback as written and the corrected
      one rewrite alike. */
  lemma {:induction false} RewritesAgree(text: string, assetUrl: string -> string)
    requires EmptyUrlFree(text)
    ensures CssRewriteWith(text, assetUrl, true) == CssRewrite(text, assetUrl)
    decreases |text|
  {
    if text != [] {
      assert text[0..] == text;
      match UrlMatchAt(text)
      case Some(m) =>
        EmptyUrlFreeSuffix(text, m.1);
        RewritesAgree(text[m.1..], assetUrl);
      case None =>
        EmptyUrlFreeSuffix(text, 1);
        RewritesAgree(text[1..], assetUrl);
    }
  }
}
