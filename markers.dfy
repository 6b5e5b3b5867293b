/** The values that flow through the render hooks, and the marker protocol: the comment pairs
    `frsh:<kind>:<payload>` / `/frsh:<kind>` that delimit islands, partials, slots and keyed
    components in the HTML output (src/runtime/server/preact_hooks.tsx). */
module Markers {
  import opened JsStrings

  type NodeId = nat

  /** A property of a props object, in enumeration order. */
  datatype Field = Field(name: string, value: JsVal)

  type Props = seq<Field>

  /** A JavaScript value as far as the hooks inspect it. Elements are the objects Preact's
      isValidElement accepts; `Node` refers to an element the engine tracks by id, the other
      element forms are the ones this core builds itself with h(). */
  datatype JsVal =
    | PrimVal(p: Prim)
      /** A plain object; `constructorless` is true when its constructor is undefined, which is
          what makes Preact treat it as an element. */
    | Obj(fields: Props, constructorless: bool)
      /** A function value; `ret` is what calling it with no arguments returns. */
    | Fn(ret: JsVal)
    | Arr(items: seq<JsVal>)
    | Node(id: NodeId)
      /** h(Fragment, null, ...children) */
    | Fragment(children: seq<JsVal>)
      /** h(Fragment, { UNSTABLE_comment: text }): rendered as an HTML comment */
    | Comment(text: string)
      /** h(Slot, { name, id }, child) */
    | SlotElement(name: string, id: nat, child: JsVal)
      /** <template key={key} id={domId}>{child}</template> */
    | Template(key: nat, domId: string, child: JsVal)
      /** h(FreshScripts, null) */
    | ScriptsElement
      /** <FreshRuntimeScript /> */
    | RuntimeScriptElement

  /** String(v). A function's source text is not modelled and reads as "function". */
  function JsToString(v: JsVal): string {
    match v
    case PrimVal(p) => PrimToString(p)
    case Arr(items) =>
      Join(seq(|items|, i requires 0 <= i < |items| =>
        if items[i] == PrimVal(Undefined) || items[i] == PrimVal(Null) then "" else JsToString(items[i])), ",")
    case Fn(_) => "function"
    case _ => "[object Object]"
  }

  /** JavaScript truthiness: every non-primitive value is truthy. */
  predicate Truthy(v: JsVal) {
    !v.PrimVal? || PrimTruthy(v.p)
  }

  /** props[name], or None when the property is absent. */
  function Get(props: Props, name: string): (r: Option<JsVal>)
    ensures r.Some? <==> exists i :: 0 <= i < |props| && props[i].name == name
  {
    if props == [] then None
    else if props[0].name == name then Some(props[0].value)
    else Get(props[1..], name)
  }

  /** props[name] = value: an existing property keeps its place, a new one goes last. */
  function Set(props: Props, name: string, value: JsVal): (r: Props)
    ensures Get(r, name) == Some(value)
    ensures forall n :: n != name ==> Get(r, n) == Get(props, n)
    ensures |r| == |props| || |r| == |props| + 1
  {
    if props == [] then [Field(name, value)]
    else if props[0].name == name then [Field(name, value)] + props[1..]
    else [props[0]] + Set(props[1..], name, value)
  }

  /** A prop value, with an absent property reading as undefined. */
  function Prop(props: Props, name: string): JsVal {
    match Get(props, name)
    case Some(v) => v
    case None => PrimVal(Undefined)
  }

  // ---------------------------------------------------------------------------------------
  // Key normalisation

  /** normalizeKey: null and undefined become "", anything else is String()-ed, and every
      ':' (the payload separator) becomes '_'. */
  function NormalizeKey(key: Prim): (r: string)
    ensures ':' !in r
    ensures key.Undefined? || key.Null? ==> r == ""
    ensures !(key.Undefined? || key.Null?) ==>
      |r| == |PrimToString(key)| &&
      forall i :: 0 <= i < |r| ==> r[i] == (if PrimToString(key)[i] == ':' then '_' else PrimToString(key)[i])
  {
    var s := if key.Undefined? || key.Null? then "" else PrimToString(key);
    ReplaceChar(s, ':', '_')
  }

  /** Normalising an already normalised key changes nothing. */
  lemma NormalizeKeyIdempotent(key: Prim)
    ensures NormalizeKey(Str(NormalizeKey(key))) == NormalizeKey(key)
  {
    var r := NormalizeKey(key);
    var r' := NormalizeKey(Str(r));
    assert |r'| == |r|;
    assert forall i :: 0 <= i < |r| ==> r'[i] == r[i];
  }

  // ---------------------------------------------------------------------------------------
  // Markers

  /** The text of an opening marker comment. */
  function OpenText(kind: string, payload: string): string {
    "frsh:" + kind + ":" + payload
  }

  /** The text of a closing marker comment. */
  function CloseText(kind: string): string {
    "/frsh:" + kind
  }

  /** wrapWithMarker: the content between an opening and a closing marker comment. */
  function WrapWithMarker(content: JsVal, kind: string, payload: string): JsVal {
    Fragment([Comment(OpenText(kind, payload)), content, Comment(CloseText(kind))])
  }

  /** What a client reads from a comment: an opening or a closing marker, or neither. */
  datatype Token = Open(kind: string, payload: string) | Close(kind: string)

  function ParseComment(text: string): Option<Token> {
    if StartsWith(text, "frsh:") then
      var rest := text[5..];
      match IndexOf(rest, ':')
      case Some(k) => Some(Open(rest[..k], rest[k + 1..]))
      case None => None
    else if StartsWith(text, "/frsh:") then Some(Close(text[6..]))
    else None
  }

  lemma ParseOpenText(kind: string, payload: string)
    requires ':' !in kind
    ensures ParseComment(OpenText(kind, payload)) == Some(Open(kind, payload))
  {
    var text := OpenText(kind, payload);
    assert StartsWith(text, "frsh:");
    var rest := text[5..];
    assert rest == kind + ":" + payload;
    assert rest[..|kind|] == kind;
    IndexOfFirst(rest, ':', |kind|);
    assert rest[|kind| + 1..] == payload;
  }

  lemma ParseCloseText(kind: string)
    ensures ParseComment(CloseText(kind)) == Some(Close(kind))
  {
    var text := CloseText(kind);
    assert text[0] == '/';
    assert !StartsWith(text, "frsh:");
    assert StartsWith(text, "/frsh:");
    assert text[6..] == kind;
  }

  /** The marker comments of a value, in document order. A slot placeholder renders as a
      `slot` marker pair around its child; elements the engine tracks (`Node`) are opaque here. */
  function Tokens(v: JsVal): seq<Token> {
    match v
    case Comment(text) => (match ParseComment(text) case Some(t) => [t] case None => [])
    case Fragment(cs) => TokensAll(cs)
    case Arr(items) => TokensAll(items)
    case SlotElement(name, id, child) =>
      [Open("slot", SlotPayload(id, name))] + Tokens(child) + [Close("slot")]
    case Template(_, _, child) => Tokens(child)
    case _ => []
  }

  function TokensAll(vs: seq<JsVal>): seq<Token> {
    if vs == [] then [] else Tokens(vs[0]) + TokensAll(vs[1..])
  }

  /** Reads tokens against a stack of open kinds (innermost first); None when a closing
      marker does not match the innermost open one. */
  function Run(ts: seq<Token>, stack: seq<string>): Option<seq<string>> {
    if ts == [] then Some(stack)
    else match ts[0]
      case Open(k, _) => Run(ts[1..], [k] + stack)
      case Close(k) => if stack != [] && stack[0] == k then Run(ts[1..], stack[1..]) else None
  }

  /** Every opening marker has exactly one matching closing marker of the same kind, and
      markers of all kinds nest like balanced parentheses. */
  predicate WellNested(ts: seq<Token>) {
    Run(ts, []) == Some([])
  }

  lemma {:induction false} RunAppend(a: seq<Token>, b: seq<Token>, stack: seq<string>)
    ensures Run(a + b, stack) == (match Run(a, stack) case Some(s) => Run(b, s) case None => None)
  {
    if a != [] {
      assert (a + b)[1..] == a[1..] + b;
      match a[0]
      case Open(k, _) => RunAppend(a[1..], b, [k] + stack);
      case Close(k) =>
        if stack != [] && stack[0] == k { RunAppend(a[1..], b, stack[1..]); }
    } else {
      assert a + b == b;
    }
  }

  lemma {:induction false} RunExtend(ts: seq<Token>, stack: seq<string>, below: seq<string>, r: seq<string>)
    requires Run(ts, stack) == Some(r)
    ensures Run(ts, stack + below) == Some(r + below)
  {
    if ts != [] {
      match ts[0]
      case Open(k, _) =>
        assert [k] + (stack + below) == ([k] + stack) + below;
        RunExtend(ts[1..], [k] + stack, below, r);
      case Close(k) =>
        assert (stack + below)[1..] == stack[1..] + below;
        RunExtend(ts[1..], stack[1..], below, r);
    }
  }

  /** The marker round trip: a wrapped value reads as the opening marker with the kind and
      payload given, the content's own markers, and the closing marker. */
  lemma WrapTokens(content: JsVal, kind: string, payload: string)
    requires ':' !in kind
    ensures Tokens(WrapWithMarker(content, kind, payload)) == [Open(kind, payload)] + Tokens(content) + [Close(kind)]
  {
    ParseOpenText(kind, payload);
    ParseCloseText(kind);
    var o, cl := Comment(OpenText(kind, payload)), Comment(CloseText(kind));
    var cs := [o, content, cl];
    assert cs[1..] == [content, cl] && cs[1..][1..] == [cl] && cs[1..][1..][1..] == [];
    assert TokensAll([cl]) == [Close(kind)];
    assert TokensAll([content, cl]) == Tokens(content) + [Close(kind)];
    assert TokensAll(cs) == [Open(kind, payload)] + (Tokens(content) + [Close(kind)]);
  }

  /** Wrapping well-nested content with a marker pair keeps it well-nested. */
  lemma WrapKeepsWellNested(content: JsVal, kind: string, payload: string)
    requires ':' !in kind
    requires WellNested(Tokens(content))
    ensures WellNested(Tokens(WrapWithMarker(content, kind, payload)))
  {
    WrapTokens(content, kind, payload);
    var inner := Tokens(content);
    var ts := [Open(kind, payload)] + inner + [Close(kind)];
    assert ts[0] == Open(kind, payload);
    assert ts[1..] == inner + [Close(kind)];
    assert [kind] + [] == [kind];
    assert Run(ts, []) == Run(inner + [Close(kind)], [kind]);
    RunExtend(inner, [], [kind], []);
    assert [] + [kind] == [kind];
    RunAppend(inner, [Close(kind)], [kind]);
    assert [Close(kind)][1..] == [] && [kind][1..] == [];
    assert Run([Close(kind)], [kind]) == Some([]);
  }

  /** Two well-nested sibling values are well-nested together. */
  lemma SiblingsWellNested(a: seq<Token>, b: seq<Token>)
    requires WellNested(a) && WellNested(b)
    ensures WellNested(a + b)
  {
    RunAppend(a, b, []);
  }

  // ---------------------------------------------------------------------------------------
  // Payloads

  /** The merge mode of a partial region. */
  datatype PartialMode = Replace | Append | Prepend

  /** The mode a Partial's `mode` prop selects: a missing (falsy) value or "replace" is
      Replace, "append" is Append, anything else Prepend. */
  function PartialModeOf(mode: JsVal): (m: PartialMode)
    ensures m == Replace <==> !Truthy(mode) || mode == PrimVal(Str("replace"))
    ensures m == Append <==> Truthy(mode) && mode == PrimVal(Str("append"))
  {
    if !Truthy(mode) || mode == PrimVal(Str("replace")) then Replace
    else if mode == PrimVal(Str("append")) then Append
    else Prepend
  }

  /** The numeric value of a mode in the marker payload. */
  function ModeNumber(m: PartialMode): nat {
    match m
    case Replace => 0
    case Append => 1
    case Prepend => 2
  }

  /** Decodes the mode field of a partial payload. */
  function DecodeMode(s: string): Option<PartialMode> {
    if s == "0" then Some(Replace) else if s == "1" then Some(Append)
    else if s == "2" then Some(Prepend) else None
  }

  /** Payload of a `partial` marker: `name:mode:key`. */
  function PartialPayload(name: JsVal, mode: PartialMode, key: Prim): string {
    JsToString(name) + ":" + IntToString(ModeNumber(mode)) + ":" + NormalizeKey(key)
  }

  /** Payload of an `island` marker: `name:index:key`. */
  function IslandPayload(islandName: string, index: nat, key: Prim): string {
    islandName + ":" + IntToString(index) + ":" + NormalizeKey(key)
  }

  /** Payload of a `slot` marker: `id:name`. */
  function SlotPayload(id: nat, name: string): string {
    IntToString(id) + ":" + name
  }

  /** Splits `a:b:c` at its last two colons, as a reader of the payload that trusts only the
      trailing fields to be colon-free does. */
  function SplitLastTwo(s: string): Option<(string, string, string)> {
    match LastIndexOf(s, ':')
    case None => None
    case Some(k2) =>
      match LastIndexOf(s[..k2], ':')
      case None => None
      case Some(k1) => Some((s[..k1], s[k1 + 1..k2], s[k2 + 1..]))
  }

  lemma {:induction false} LastIndexOfLast(s: string, c: char, k: nat)
    requires k < |s| && s[k] == c && c !in s[k + 1..]
    ensures LastIndexOf(s, c) == Some(k)
  {
    if k < |s| - 1 {
      assert s[|s| - 1] in s[k + 1..];
      assert s[..|s| - 1][k + 1..] == s[k + 1..|s| - 1];
      assert s[k + 1..] == s[k + 1..|s| - 1] + [s[|s| - 1]];
      LastIndexOfLast(s[..|s| - 1], c, k);
    }
  }

  /** The first field may hold any text; the last two are recovered exactly as long as they
      hold no colon. */
  lemma SplitLastTwoRoundTrip(a: string, b: string, c: string)
    requires ':' !in b && ':' !in c
    ensures SplitLastTwo(a + ":" + b + ":" + c) == Some((a, b, c))
  {
    var s := a + ":" + b + ":" + c;
    var k2 := |a| + 1 + |b|;
    assert s[k2] == ':';
    assert s[k2 + 1..] == c;
    LastIndexOfLast(s, ':', k2);
    var t := s[..k2];
    assert t == a + ":" + b;
    assert t[|a|] == ':';
    assert t[|a| + 1..] == b;
    LastIndexOfLast(t, ':', |a|);
    assert s[..|a|] == a;
    assert s[|a| + 1..k2] == b;
  }

  /** A client reading an island marker recovers the island name, its islandProps index and
      the normalised key, whatever the island name holds. */
  lemma IslandPayloadRoundTrip(islandName: string, index: nat, key: Prim)
    ensures var p := SplitLastTwo(IslandPayload(islandName, index, key));
      p.Some? && p.value.0 == islandName && p.value.2 == NormalizeKey(key) &&
      (forall i :: 0 <= i < |p.value.1| ==> IsDigit(p.value.1[i])) && ParseNat(p.value.1) == index
  {
    var digits := IntToString(index);
    assert ':' !in digits by {
      assert forall i :: 0 <= i < |digits| ==> IsDigit(digits[i]);
    }
    SplitLastTwoRoundTrip(islandName, digits, NormalizeKey(key));
    NatToStringRoundTrip(index);
  }

  /** A client reading a partial marker recovers the name text, the mode and the normalised key. */
  lemma PartialPayloadRoundTrip(name: JsVal, mode: PartialMode, key: Prim)
    ensures var p := SplitLastTwo(PartialPayload(name, mode, key));
      p.Some? && p.value.0 == JsToString(name) && DecodeMode(p.value.1) == Some(mode) &&
      p.value.2 == NormalizeKey(key)
  {
    PartialFieldsRoundTrip(JsToString(name), mode, NormalizeKey(key));
  }

  lemma PartialFieldsRoundTrip(n: string, mode: PartialMode, k: string)
    requires ':' !in k
    ensures var p := SplitLastTwo(n + ":" + IntToString(ModeNumber(mode)) + ":" + k);
      p.Some? && p.value.0 == n && DecodeMode(p.value.1) == Some(mode) && p.value.2 == k
  {
    var digits := IntToString(ModeNumber(mode));
    assert digits == [Digit(ModeNumber(mode))];
    SplitLastTwoRoundTrip(n, digits, k);
    match mode
    case Replace => assert digits == "0";
    case Append => assert digits == "1";
    case Prepend => assert digits == "2";
  }

  /** A client reading a slot marker recovers the slot id and the prop name, whatever the
      name holds. */
  lemma SlotPayloadRoundTrip(id: nat, name: string)
    ensures var s := SlotPayload(id, name);
      IndexOf(s, ':').Some? &&
      var k := IndexOf(s, ':').value;
      (forall i :: 0 <= i < k ==> IsDigit(s[i])) && ParseNat(s[..k]) == id && s[k + 1..] == name
  {
    var digits := IntToString(id);
    var s := SlotPayload(id, name);
    assert ':' !in digits by {
      assert forall i :: 0 <= i < |digits| ==> IsDigit(digits[i]);
    }
    assert s[..|digits|] == digits;
    IndexOfFirst(s, ':', |digits|);
    assert s[|digits| + 1..] == name;
    NatToStringRoundTrip(id);
  }
}
