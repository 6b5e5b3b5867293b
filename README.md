# Fresh server core, modelled in Dafny

This project models five parts of the Fresh web framework's server and development tooling, and proves what each part promises.

- **Render-state interceptor** (`src/runtime/server/preact_hooks.tsx`).
  - `RenderState` is the per-render record. The Preact option hooks (`vnode`, diff-start, `render`, `diffed`) update it as vnodes pass through.
  - Modelled behaviour:
    - duplicate-partial detection;
    - the rule that a `<Partial>` may not sit below an island (the owner-chain walk);
    - moving island props into slots and indexing `islandProps`;
    - key normalisation and the `frsh:` marker comments;
    - the once-only `FreshScripts` output;
    - the boot script: island imports, the island object and the partial-state JSON.
  - The engine's vnodes live in an arena field `nodes` of the state. A vnode's id is its index, and the hooks' in-place rewrites of `type` and `props` update that entry.
  - The replacement renderers that the diff-start hook installs become the node types `IslandWrapper` and `KeyWrapper`. The methods `RunIslandWrapper` and `RunKeyWrapper` run them.
- **File transformer worklist** (`src/dev/file_transformer.ts`).
  - `FileTransformer` keeps its list of registered plugins. `Process` runs them over a LIFO queue of requests with a set of seen paths.
  - It also models the CSS plugin registered by `cssAssetHash` and its `url(...)` rewrite.
- **CSRF decision** (`src/middlewares/csrf.ts`). Whether a request goes on or is refused with 403, given the method, the `Sec-Fetch-Site` and `Origin` headers and the `origin` option.
- **Trailing-slash redirect** (`src/middlewares/trailing_slashes.ts`). Whether a path is redirected and to where.
- **Development error overlay** (`src/dev/middlewares/error_overlay/middleware.tsx`). Whether to serve the overlay page, pass a response through, rethrow, or render the client scripts with a status.

Modules:
- `JsStrings`: JavaScript string operations used by all the others.
- `Markers`: values, keys, markers and payloads.
- `IslandProps`: element and signal tests, stringifiers, slot allocation.
- `PreactHooks`: `RenderState` and its hooks.
- `Bootstrap`: the runtime script.
- `FileTransforming`.
- `Csrf`.
- `TrailingSlashes`.
- `ErrorOverlay`.

Parameters stand in for what the core gets from elsewhere:
- The configuration constants `CLIENT_NAV_ATTR`, `DATA_FRESH_KEY`, `DEV_ERROR_OVERLAY_URL` and `BUILD_ID`.
- Whether the request is a partial request.
- The random UUID.
- The file read's outcome.
- The plugin callbacks, and the regular-expression and glob tests.
- `getCodeFrame` and `escapeHtml`.
- The serialised island props.
- The user's `origin` function.

## Model

| member | source | states |
|---|---|---|
| Markers.NormalizeKey | src/runtime/server/preact_hooks.tsx:170-174 | null and undefined give `""`; any other key gives its `String()` with every `:` replaced by `_`, character by character; the result never contains `:` |
| Markers.NormalizeKeyIdempotent | src/runtime/server/preact_hooks.tsx:170-174 | normalising a normalised key changes nothing |
| Markers.WrapTokens | src/runtime/server/preact_hooks.tsx:334-352 | a value wrapped in a marker reads back as the opening marker with the given kind and text, the content's own markers, then the closing marker of that kind |
| Markers.WrapKeepsWellNested | src/runtime/server/preact_hooks.tsx:334-352 | wrapping well-nested content keeps every opening marker matched by a closing marker of its kind |
| Markers.PartialModeOf | src/runtime/server/preact_hooks.tsx:127-131 | a missing (falsy) mode or `"replace"` gives Replace, `"append"` gives Append, anything else Prepend |
| Markers.PartialPayloadRoundTrip | src/runtime/server/preact_hooks.tsx:124-136 | a reader splitting the `partial` payload at its last two colons gets back the name text, the mode number and the normalised key |
| Markers.IslandPayloadRoundTrip | src/runtime/server/preact_hooks.tsx:245-250 | the `island` payload splits back into the island name (whatever it holds), the decimal islandProps index and the normalised key |
| Markers.SlotPayloadRoundTrip | src/runtime/server/preact_hooks.tsx:315 | the `slot` payload splits at its first colon into the decimal slot id and the prop name |
| IslandProps.SignalStringifier | src/runtime/server/preact_hooks.tsx:355-374 | a value is serialised as a signal exactly when it is an object with a function `peek` and a `value`; the substitute is what `peek()` returns |
| IslandProps.SlotStringifier | src/runtime/server/preact_hooks.tsx:365-385 | exactly the Slot placeholder elements are serialised by the Slot stringifier, as an object with their `name` and `id` |
| IslandProps.CustomEncodingCases | src/runtime/server/preact_hooks.tsx:371-386 | a value gets a custom encoding exactly when it is a signal or a slot placeholder; a signal's is its peeked value, a slot's carries its id |
| IslandProps.AllocSlotsSpec | src/runtime/server/preact_hooks.tsx:225-239 | the slot loop keeps every prop name and every non-eligible prop; the records are numbered consecutively from the slot list's length; each `children` prop or element-valued non-signal prop becomes a Slot placeholder naming the record holding its value; ids increase with position |
| IslandProps.AllocSlotsPlaceholders | src/runtime/server/preact_hooks.tsx:225-239 | each eligible prop becomes a Slot placeholder with the prop's name and value whose id names the record holding them |
| IslandProps.AllocSlotsIncreasing | src/runtime/server/preact_hooks.tsx:225-239 | the placeholders' slot ids increase with the props' positions |
| IslandProps.SlotRecordsReferenced | src/runtime/server/preact_hooks.tsx:225-239 | every new slot record is referenced by the placeholder that replaced an eligible prop |
| PreactHooks.IslandOf | src/runtime/server/preact_hooks.tsx:204 | a type is an island exactly when it is a component function the registry knows |
| PreactHooks.IslandOwnedIffChain | src/runtime/server/preact_hooks.tsx:321-332 | the owner walk finds an island exactly when some vnode on the owner chain has a registered island type |
| PreactHooks.AddIsland | src/runtime/server/preact_hooks.tsx:221 | set insertion: the island becomes a member, the members are the old ones plus it, insertion order is kept and no island appears twice |
| PreactHooks.VNodeHookPartialMarker | src/runtime/server/preact_hooks.tsx:124-136 | a Partial's children get wrapped in a `partial` marker whose payload decodes back to the Partial's mode (missing or `replace` is replace, `append` is append, anything else prepend) and its normalised key |
| PreactHooks.VNodeHookBodyScripts | src/runtime/server/preact_hooks.tsx:139-148 | a body's children become FreshScripts when they were null or undefined, the old array with FreshScripts appended when they were an array, and the pair of the old child and FreshScripts otherwise |
| PreactHooks.VNodeHookOtherProps | src/runtime/server/preact_hooks.tsx:138-152 | on a tag, a client-nav attribute becomes a string; no other prop changes, and vnodes that are neither tags nor Partials keep their props |
| PreactHooks.BooleanText | src/runtime/server/preact_hooks.tsx:160 | `String(Boolean(value))` is `"true"` exactly for a truthy value and `"false"` otherwise |
| PreactHooks.ClientNavStringified | src/runtime/server/preact_hooks.tsx:149-151 | on a tag that has the client-nav prop, the vnode hook replaces its value by the value's `String()` |
| PreactHooks.ClientNavRenderedAsWritten | src/runtime/server/preact_hooks.tsx:149-160 | as written, a tag's client-nav prop renders `"false"` only when its string is empty, and `"true"` otherwise |
| PreactHooks.ClientNavFalseAsWritten | src/runtime/server/preact_hooks.tsx:149-160 | as written, a tag's client-nav prop `false` renders as `"true"` |
| PreactHooks.ClientNavRendered | src/runtime/server/preact_hooks.tsx:149-160 | with the corrected attr hook, a tag's client-nav prop renders `"false"` exactly when its string is empty or `false` |
| PreactHooks.ClientNavBooleanRendered | src/runtime/server/preact_hooks.tsx:149-160 | with the corrected attr hook, a boolean client-nav prop renders as that boolean |
| PreactHooks.AttrHooksAgree | src/runtime/server/preact_hooks.tsx:157-166 | the two attr hooks differ only on the client-nav value `"false"`; both render `key` as the data key attribute with the escaped `String()` of the value and leave every other attribute to the previous hook |
| PreactHooks.RenderState.constructor | src/runtime/server/preact_hooks.tsx:68-96 | a fresh state: empty collections, false flags, depth 0, and a nonce that is the UUID without any `-` |
| PreactHooks.RenderState.Clear | src/runtime/server/preact_hooks.tsx:98-105 | the island set, seen partials, owners, slots, island props and owner stack are emptied; depth and flags are unchanged |
| PreactHooks.RenderState.CreateVNode | src/runtime/server/preact_hooks.tsx:113-155 | a new vnode gets the next id, the vnode hook's props, and the top of the owner stack (or no owner) as its owner; nothing else changes |
| PreactHooks.RenderState.HasIslandOwner | src/runtime/server/preact_hooks.tsx:321-332 | the loop over the owner chain returns exactly `IslandOwned` |
| PreactHooks.RenderState.DiffPartial | src/runtime/server/preact_hooks.tsx:182-200 | the depth goes up by one; it throws the duplicate-name error exactly for a string name seen before, otherwise the island error exactly when there is an island owner; string names are recorded and other names are not |
| PreactHooks.RenderState.DiffComponent | src/runtime/server/preact_hooks.tsx:201-252 | a vnode from a replacement renderer or below an island is left alone; an island type is replaced by the island wrapper and joins the island set; another keyed type is replaced by the key wrapper with the normalised key |
| PreactHooks.RenderState.DiffTag | src/runtime/server/preact_hooks.tsx:253-274 | `html`, `head` and `body` raise their flags; a keyed tag inside a partial or an island gets the data key prop set to the key's string |
| PreactHooks.RenderState.DiffHook | src/runtime/server/preact_hooks.tsx:176-278 | dispatches on the vnode's type with the effect of the matching hook: on a Partial, the depth goes up, a string name is recorded, and it throws on a repeated name or an island owner; on another component, the island or key wrapper is given unless it was patched or has an island owner, and an island joins the island set; on a tag, the html, head and body flags rise and a key inside a partial or an island becomes the data key prop; only a Partial can throw; Fragments and text vnodes change nothing; the vnode count is unchanged |
| PreactHooks.RenderState.RenderHook | src/runtime/server/preact_hooks.tsx:280-289 | function vnodes other than Fragment are pushed on the owner stack |
| PreactHooks.RenderState.DiffedHook | src/runtime/server/preact_hooks.tsx:291-304 | function vnodes other than Fragment pop the owner stack; leaving a Partial lowers the depth |
| PreactHooks.RenderState.MoveSlotProps | src/runtime/server/preact_hooks.tsx:225-239 | the loop's props and slot list are exactly those of slot allocation from the current slot count |
| PreactHooks.RenderState.MoveIslandProps | src/runtime/server/preact_hooks.tsx:224-239 | the island vnode's props are replaced by the slot loop's output, the slot list grows by the allocated records, and islandProps grows by one record holding the rewritten props |
| PreactHooks.RenderState.RunIslandWrapper | src/runtime/server/preact_hooks.tsx:224-251 | the slot list grows by the allocated records; islandProps grows by exactly one record holding the rewritten props; the original component renders as a patched vnode inside an `island` marker carrying the new index |
| PreactHooks.RenderState.RunKeyWrapper | src/runtime/server/preact_hooks.tsx:207-215 | the original component renders as a patched vnode inside a `key` marker carrying the key |
| PreactHooks.RenderState.Slot | src/runtime/server/preact_hooks.tsx:311-316 | the slot's entry becomes null and every other existing entry is kept; an id past the end grows the list to `id + 1`, its new entries null (JavaScript leaves holes there, which `slots.map` skips and which render like null); the children are wrapped in a `slot` marker `id:name` |
| PreactHooks.RenderState.FreshScripts | src/runtime/server/preact_hooks.tsx:388-414 | the first call sets the flag and returns the slot templates then the runtime script; every later call returns null |
| PreactHooks.SlotTemplates | src/runtime/server/preact_hooks.tsx:400-410 | one entry per slot: null for a consumed slot, otherwise a template with id `frsh-<id>-<name>` around the slot's vnode |
| PreactHooks.TemplatesExactlyPending | src/runtime/server/preact_hooks.tsx:400-410 | a template is emitted for a slot exactly when it has not been rendered by `Slot` |
| Bootstrap.ImportClauseRoundTrip | src/runtime/server/preact_hooks.tsx:457-463 | the import clause binds exactly the island's export to the island's name: a `default` export, `{ name }` or `{ export as name }` |
| Bootstrap.ScriptImportsEveryIsland | src/runtime/server/preact_hooks.tsx:457-477 | the module script contains the import statement of every rendered island, and each import's specifier is the base path plus the island's file |
| Bootstrap.IslandObjectKeys | src/runtime/server/preact_hooks.tsx:466-468 | the boot object literal lists the island names in rendering order |
| Bootstrap.PartialState | src/runtime/server/preact_hooks.tsx:432-444 | the partial-state JSON lists each island's export name, chunk and name in order, and carries the serialised props |
| Bootstrap.FreshRuntimeScript | src/runtime/server/preact_hooks.tsx:425-493 | a partial request gets the JSON script with id `__FRSH_STATE_<partialId>`; a full page gets the nonced module script, plus the overlay in development mode |
| Bootstrap.StateRuntimeScript | src/runtime/server/preact_hooks.tsx:425-493 | read off the render state: a partial request gets the JSON script named after the state's partial id listing the state's islands in order; a full page gets the module script with the state's nonce |
| Bootstrap.StateScriptImportsIslands | src/runtime/server/preact_hooks.tsx:457-477 | on a full page the runtime script contains the import statement of every island the render recorded |
| Bootstrap.OverlayParams | src/runtime/server/preact_hooks.tsx:499-526 | no overlay exactly when the error is null or undefined or an HTTP error below 500; a thrown primitive gives only its `String()` as message; an object's message, when it has one, comes first and is absent otherwise; a string stack is appended, followed by the code frame exactly when `getCodeFrame` gives one; without a string stack only the message appears |
| FileTransforming.FileTransformer.OnTransform | src/dev/file_transformer.ts:70-72 | the plugin is appended after all registered before it |
| FileTransforming.FileTransformer.HasTransformerFor | src/dev/file_transformer.ts:79-90 | true exactly when some registered filter accepts the path |
| FileTransforming.FileTransformer.IsExcluded | src/dev/file_transformer.ts:129-146 | true exactly when some exclude entry matches the processed file's path: a regular expression by its test, a glob by its expression, any other string by substring |
| FileTransforming.Encode | src/dev/file_transformer.ts:169-171 | a string becomes a new array holding its text, numbered above every array that existed, so it is none of them; an array result is kept as that same array and numbers nothing |
| FileTransforming.EncodeMap | src/dev/file_transformer.ts:173-177 | no map gives null; a string map becomes a new array; arrays stay below the next number |
| FileTransforming.EncodeFresh | src/dev/file_transformer.ts:169-180 | an array encoded from a string is neither the request's content nor its map nor the content or map of any queued request |
| FileTransforming.FirstRequest | src/dev/file_transformer.ts:103-109 | the first request is the file as read under its own path, not new, with no map and the file as its only input |
| FileTransforming.RetargetQueue | src/dev/file_transformer.ts:188-197 | found exactly when the path is queued; every queued request for the path takes the new content and map and the others are kept |
| FileTransforming.ItemEffect | src/dev/file_transformer.ts:179-207 | an item for the current file replaces its content and map and is a change exactly when one of them differs; an item for a queued path retargets every request for it and is a change; any other item is queued as a new file under its path with the parent's inputs |
| FileTransforming.ApplyItem | src/dev/file_transformer.ts:179-208 | the loop body over one item computes exactly its effect (ItemEffect) |
| FileTransforming.ApplyItems | src/dev/file_transformer.ts:160-209 | the loop over a multi-file result computes exactly the left fold of the item effects (ItemsFold), stopping at the first item without a path |
| FileTransforming.ItemsFoldStops | src/dev/file_transformer.ts:163-167 | once an item without a path has thrown, later items change nothing |
| FileTransforming.ItemsFoldError | src/dev/file_transformer.ts:161-167 | a multi-file result throws exactly when some item has no path, and the error names the plugin |
| FileTransforming.ItemsFoldKeeps | src/dev/file_transformer.ts:179-207 | without an error, the request keeps its path, kind and inputs; queued requests keep their paths, kinds and inputs; every added request is a new file with the parent's inputs |
| FileTransforming.ItemsFoldAdded | src/dev/file_transformer.ts:188-207 | without an error, each added request has a path some item names, distinct from the current file's and from every request queued before it |
| FileTransforming.ItemsFoldUntouched | src/dev/file_transformer.ts:179-207 | without an error, a queued request whose path no item names is left as it was, and so is the request when no item names its path |
| FileTransforming.ItemsFoldBelow | src/dev/file_transformer.ts:169-207 | every array the items leave in the request and the queue is below the next number, when that held before |
| FileTransforming.FileTransformer.PluginStep | src/dev/file_transformer.ts:121-230 | one plugin changes nothing unless its filter accepts the request's current path and no exclude matches; it only numbers new arrays upwards |
| FileTransforming.FileTransformer.RunPlugin | src/dev/file_transformer.ts:121-230 | the loop body for one plugin computes exactly PluginStep: filter, excludes, callback, then its single or multi-file result |
| FileTransforming.FileTransformer.RunTransformers | src/dev/file_transformer.ts:119-231 | the loop over the registered plugins computes exactly the fold of PluginStep over them in order (RunAll), stopping at the first error |
| FileTransforming.FileTransformer.RunPrefixStops | src/dev/file_transformer.ts:163-167 | after a plugin has thrown, the remaining plugins do not run |
| FileTransforming.FileTransformer.RunPrefixKeeps | src/dev/file_transformer.ts:179-228 | the plugins keep the request's kind and inputs and only extend the queue, with new files carrying the request's inputs |
| FileTransforming.FileTransformer.RunPrefixErrorName | src/dev/file_transformer.ts:163-167 | an error names a registered plugin |
| FileTransforming.FileTransformer.RunPrefixNoAccept | src/dev/file_transformer.ts:124-127 | when no plugin's filter accepts the request, nothing changes and nothing counts as transformed |
| FileTransforming.FileTransformer.RunPrefixBelow | src/dev/file_transformer.ts:169-219 | every array the plugins leave stays below the next number, so each string a later plugin returns gives an array no request shares |
| FileTransforming.FileTransformer.PluginStepTransformed | src/dev/file_transformer.ts:184-225 | without an error, one plugin's step counts as transformed exactly when an earlier one did or this one changes something |
| FileTransforming.FileTransformer.RunPrefixTransformed | src/dev/file_transformer.ts:119-225 | without an error, the request counts as transformed exactly when some plugin changed something (its content or map from a single result, or a change from a multi-file result) |
| FileTransforming.FileTransformer.SameResultUnchanged | src/dev/file_transformer.ts:221-223 | a plugin returning the very array it was given and no map, for a request without map, changes nothing and is not a change |
| FileTransforming.FileTransformer.TextResultChanges | src/dev/file_transformer.ts:211-227 | a plugin returning a string always changes the request: its content becomes the string's text, in an array no queued request shares, and the request counts as transformed |
| FileTransforming.FileTransformer.RunAllKeeps | src/dev/file_transformer.ts:119-231 | what a handled request keeps from the plugins: its inputs, a queue that only extends, and arrays below the next number |
| FileTransforming.FileTransformer.HandleRequest | src/dev/file_transformer.ts:119-231 | the plugins' run over one popped request is recorded with the queue behind it and its number; an error names a registered plugin |
| FileTransforming.FileTransformer.HandleNew | src/dev/file_transformer.ts:115-241 | a request with a new path is handled once, after every request handled before; unless it threw, the queue and number are the ones it leaves and its file is emitted exactly when it counts |
| FileTransforming.FileTransformer.Drain | src/dev/file_transformer.ts:103-244 | from the file as read, each handled request is the last of the queue left by the one before, with a path not handled before, behind which only already handled paths were popped; an error is the last handled request's, naming a plugin; `OutOfFuel` comes only after `fuel` paths were handled, and re-popping a handled path costs nothing; otherwise the result is the emitted files of the handled requests, or null when none |
| FileTransforming.FileTransformer.Process | src/dev/file_transformer.ts:74-245 | null when no filter accepts the file or it does not exist; a read error is rethrown; otherwise the file as read is handled first; when it counts as transformed or new and nothing throws, the result is a list of files whose first entry is it as the plugins left it; every emitted file lists the processed file as its only input; `OutOfFuel` comes only after `fuel` paths were handled |
| FileTransforming.ToFile | src/dev/file_transformer.ts:235-240 | the processed file carries the request's path, content, map and inputs |
| FileTransforming.Emitted | src/dev/file_transformer.ts:234-241 | at most one file per handled request |
| FileTransforming.Emission | src/dev/file_transformer.ts:244 | a list of files is never empty |
| FileTransforming.EmittedComplete | src/dev/file_transformer.ts:234-241 | each handled request that some plugin changed, or that is a new file, is emitted |
| FileTransforming.EmittedSound | src/dev/file_transformer.ts:234-241 | each emitted file is the final state of a handled request that some plugin changed or that is a new file |
| FileTransforming.EmittedNone | src/dev/file_transformer.ts:234-244 | nothing is emitted exactly when no handled request was changed or new, which is when process() returns null |
| FileTransforming.EmittedFirst | src/dev/file_transformer.ts:234-241 | when the first handled request is emitted, it is the first file |
| FileTransforming.EmittedFiles | src/dev/file_transformer.ts:205-239 | every emitted file of the processing of a file lists that file as its only input |
| FileTransforming.FileTransformer.CssPluginNoUrl | src/dev/file_transformer.ts:255-270 | the CSS plugin returns CSS without `url(` unchanged, as a string result with no path and no map |
| FileTransforming.CssAssetHash | src/dev/file_transformer.ts:250-254 | registers the `fresh-css` plugin for paths ending in `.css`, after every plugin registered before |
| FileTransforming.CssUrlReplacement | src/dev/file_transformer.ts:261-263 | the corrected callback: a non-empty URL becomes `url(<asset url>)`, and a match whose URL is empty is given back whole instead of as its bare group |
| FileTransforming.QuotingIrrelevant | src/dev/file_transformer.ts:256-259 | a double-quoted, a single-quoted and an unquoted URL are rewritten alike |
| FileTransforming.UrlMatchAt | src/dev/file_transformer.ts:248 | a match is `url(` + a non-empty group + `)` at the start of the text |
| FileTransforming.CssRewriteNoUrl | src/dev/file_transformer.ts:255 | CSS without `url(` passes through unchanged |
| FileTransforming.EmptyUrlAsWritten | src/dev/file_transformer.ts:261-263 | as written, `url("")` is rewritten to `""` |
| FileTransforming.EmptyUrlDropped | src/dev/file_transformer.ts:255-263 | as written, any match whose URL is empty after unquoting is replaced by its bare group, dropping the `url(` and `)` around it, and the rewrite goes on after the match |
| FileTransforming.EmptyUrlPreserved | src/dev/file_transformer.ts:261-263 | with the corrected callback, a match with an empty URL is kept verbatim |
| FileTransforming.RewritesAgree | src/dev/file_transformer.ts:255-266 | on CSS where no match has an empty URL, the callback as written and the corrected one give the same text |
| Csrf.IsAllowedOrigin | src/middlewares/csrf.ts:58-78 | a missing origin is never allowed; with no or an empty option the request URL's origin is required; a string option requires equality, a list membership, a function decides |
| Csrf.CsrfDecision | src/middlewares/csrf.ts:80-112 | refused (403) exactly for a cross-site forgery attempt: an unsafe method whose browser marking is another site (or, unmarked, whose origin is present) with an origin that is not allowed; safe methods, `same-origin`/`none` and requests with neither header pass |
| Csrf.EmptyOriginIsDefault | src/middlewares/csrf.ts:66-70 | an empty origin string configures the same policy as no option |
| TrailingSlashes.RedirectPath | src/middlewares/trailing_slashes.ts:16-28 | `/` is never redirected; a redirect happens exactly when `always` meets a path without trailing slash or `never` a path with one; `always` appends one `/`, `never` removes exactly one |
| TrailingSlashes.TrailingSlashes | src/middlewares/trailing_slashes.ts:16-28 | a redirect exactly when a new path exists, to that path followed by the unchanged search string; otherwise next |
| TrailingSlashes.AlwaysConverges | src/middlewares/trailing_slashes.ts:19-20 | the `always` target ends with `/` and is not redirected again |
| TrailingSlashes.NeverRedirectsAgain | src/middlewares/trailing_slashes.ts:21-24 | the `never` target is redirected again exactly when the path ended in `//` and was not `//` |
| TrailingSlashes.ModesAreInverse | src/middlewares/trailing_slashes.ts:18-25 | away from the root, `always` redirects exactly where `never` does not, and `never` undoes `always` |
| ErrorOverlay.DevErrorOverlay | src/dev/middlewares/error_overlay/middleware.tsx:10-12 | the overlay page is served exactly on its route, without consulting the next handler |
| ErrorOverlay.ServerErrorsBecomePages | src/dev/middlewares/error_overlay/middleware.tsx:14-31 | a response passes through; an error becomes the scripts page exactly for an HTML request and an error that is not an HTTP error below 500, with an HTTP error's status and no status otherwise; every other error is rethrown |

## Left out

- Preact itself:
  - the patching of the `options` object and the chaining to the previous hooks;
  - the tree walk that calls the hooks, which in the model are methods called on vnode ids.
- `setActiveUrl` and `assetHashingHook` in the vnode hook: foreign code, and they do not touch the render state.
- The case where no render state is set (`RENDER_STATE === null`): every hook is modelled for an active render.
- The `context`, `error` and `partialCount` fields of `RenderState`: no modelled hook updates them.
- The owner entries of the Fragment vnodes that `wrapWithMarker` creates: the markers are values here, and those entries are never consulted.
- `stringify`, `escapeScript` and `JSON.stringify`: serialisation code that is not part of this model, so the serialised props are a parameter of the boot script.
- ShowErrorOverlay's URL building (`URLSearchParams` encoding) and `getCodeFrame`: `OverlayParams` returns the parameter list, and the code frame is a parameter.
- The `<ErrorOverlay>` page and the `FreshScripts` rendering in the error middleware: their output is an action value.
- `console.error` in the error middleware: it has no effect on the decision.
- The file transformer's asynchrony and file system. The read is a parameter, and a NotFound error becomes `ReadNotFound`.
- `TextEncoder`/`TextDecoder`. The text is the array's content. A string result becomes a fresh array, which is what makes it differ from the current content.
- The `lastIndex` state of the global filter expressions, and the semantics of regular expressions and globs: plugin filters other than the CSS suffix are abstract tests.
- FileTransforming.FileTransformer.Process: its queue loop is bounded by a `fuel` parameter on the number of distinct paths handled, because plugins can keep adding files without end. Once `fuel` paths have been handled and another new path waits, the result is `OutOfFuel`, an outcome the source does not have; popping an already handled path uses no fuel.
- JsStrings.Prim: a JavaScript number is modelled as an integer (`Num(n: int)`), so fractional keys and props, NaN and the infinities are not modelled, nor what `String(...)` and `Boolean(...)` give for them in normalizeKey, `String(vnode.key)` and the attr hook.
- `assetInternal` and the `JSON.stringify` of its result in the CSS plugin: a parameter `assetUrl`.
- Plugin results that hand back an array encoded for a different request: a plugin's array result is either the array it was given (`GivenContent`) or one it made itself (`OwnBytes`), whose identity is its handle.
- FileTransforming.FileTransformer.Invoke: the CSS plugin it runs uses the corrected callback `CssUrlReplacement`, so `url("")` and `url('')` keep their wrapper; `RewritesAgree` shows that this matters only for CSS with an empty URL.
- FileTransforming.CssUrlReplacement: deliberately differs from the source at file_transformer.ts lines 261-263, which return the bare group; the as-written callback is `CssUrlReplacementAsWritten` (see Findings).
- PreactHooks.AttrHook: deliberately reads the string `"false"` as false, where the source renders it `"true"`; the as-written hook is `AttrHookAsWritten` (see Findings).
- PreactHooks.VNodeHookProps: for a body whose children are an array, it builds a new array with the scripts appended, where the source pushes onto the existing array in place; other holders of that array are not modelled.
- Preact's `h()` fields other than type, props and key, and the DOM rendering of templates and scripts.

## Findings

| source | as written | input that shows it | evidently intended | confidence | as-written member | corrected member |
|---|---|---|---|---|---|---|
| src/dev/file_transformer.ts:261-263 | when the URL inside `url(...)` is empty after unquoting, the callback returns the captured group, which replaces the whole match | the CSS text `url("")` becomes `""`, losing its `url(...)` | a match with an empty URL is left as it was | not executed; medium | FileTransforming.EmptyUrlAsWritten | FileTransforming.EmptyUrlPreserved |
| src/runtime/server/preact_hooks.tsx:149-160 | the vnode hook turns the client-nav prop into a string, then the attr hook renders `String(Boolean(value))` of that string, which is `"true"` for the string `"false"` | `f-client-nav={false}` on a tag renders `f-client-nav="true"` | a `false` prop renders `"false"` | not executed; low | PreactHooks.ClientNavFalseAsWritten | PreactHooks.ClientNavBooleanRendered |

The CSS plugin that `FileTransformer.Invoke` runs uses the corrected callback (`CssRewrite`); the attr hook the model states rendering with is the corrected `AttrHook`.
