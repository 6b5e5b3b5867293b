/** The per-render state and the Preact option hooks that update it as vnodes pass through
    (src/runtime/server/preact_hooks.tsx). The engine's vnodes live in an arena inside the
    state: a vnode's id is its index, and rewriting its `type` or `props` in place is an
    update of that entry. */
module PreactHooks {
  import opened JsStrings
  import opened Markers
  import opened IslandProps

  /** A component function the island registry may know. */
  type ComponentId = nat

  /** An island descriptor from the build-time registry. */
  datatype Island = Island(name: string, file: string, exportName: string)

  /** The `type` of a vnode. */
  datatype NodeType =
    | PartialType
    | FragmentType
    | SlotType
      /** FreshScripts */
    | ScriptsType
      /** any other function component; the registry decides whether it is an island */
    | Component(c: ComponentId)
      /** the replacement renderer installed for a keyed ordinary component */
    | KeyWrapper(inner: NodeType, key: string)
      /** the replacement renderer installed for an island */
    | IslandWrapper(inner: NodeType, island: Island)
      /** a string tag such as "div" */
    | Tag(name: string)
      /** a text vnode: neither a function nor a string */
    | Text

  /** typeof vnode.type === "function" */
  predicate IsFunctionType(t: NodeType) {
    !t.Tag? && !t.Text?
  }

  datatype VNode = VNode(nodeType: NodeType, props: Props, key: Prim)

  datatype RenderError = DuplicatePartial(name: string) | PartialInIsland

  /** The message of the thrown error. */
  function ErrorMessage(e: RenderError): string {
    match e
    case DuplicatePartial(name) => "Rendered response contains duplicate partial name: \"" + name + "\""
    case PartialInIsland => "<Partial> components cannot be used inside islands."
  }

  datatype Outcome = Ok | Throw(error: RenderError)

  /** One entry of islandProps: `{ slots: [], props }`. */
  datatype IslandPropsRecord = IslandPropsRecord(slots: seq<SlotRecord>, props: Props)

  /** islandRegistry.get(type): only a component function can be registered. */
  function IslandOf(registry: map<ComponentId, Island>, t: NodeType): (r: Option<Island>)
    ensures r.Some? <==> t.Component? && t.c in registry
  {
    if t.Component? && t.c in registry then Some(registry[t.c]) else None
  }

  /** Every recorded owner was created before the vnode it owns. */
  predicate OwnersAcyclic(owners: map<NodeId, Option<NodeId>>) {
    forall k :: k in owners && owners[k].Some? ==> owners[k].value < k
  }

  /** Recording, for a new vnode, an owner from the owner stack keeps the owners acyclic
      and every owner entry and stack entry an existing vnode. */
  lemma CreateKeepsOwners(owners: map<NodeId, Option<NodeId>>, count: nat, ownerStack: seq<NodeId>,
                          owner: Option<NodeId>, owners': map<NodeId, Option<NodeId>>)
    requires OwnersAcyclic(owners) && (forall k :: k in owners ==> k < count)
    requires forall j :: 0 <= j < |ownerStack| ==> ownerStack[j] < count
    requires owner == if ownerStack == [] then None else Some(ownerStack[|ownerStack| - 1])
    requires owners' == owners[count := owner]
    ensures OwnersAcyclic(owners')
    ensures forall k :: k in owners' ==> k < count + 1
    ensures forall j :: 0 <= j < |ownerStack| ==> ownerStack[j] < count + 1
  {
  }

  /** The owner recorded for a vnode, if there is one (a stored `undefined` reads as none). */
  function OwnerOf(owners: map<NodeId, Option<NodeId>>, id: NodeId): Option<NodeId> {
    if id in owners then owners[id] else None
  }

  /** The owners of a vnode, nearest first. */
  function OwnerChain(owners: map<NodeId, Option<NodeId>>, id: NodeId): (chain: seq<NodeId>)
    requires OwnersAcyclic(owners)
    ensures forall j :: 0 <= j < |chain| ==> chain[j] < id
    decreases id
  {
    match OwnerOf(owners, id)
    case None => []
    case Some(o) => [o] + OwnerChain(owners, o)
  }

  /** What hasIslandOwner computes: walking the owner chain meets an island-typed vnode. */
  predicate IslandOwned(owners: map<NodeId, Option<NodeId>>, nodes: seq<VNode>, registry: map<ComponentId, Island>, id: NodeId)
    requires OwnersAcyclic(owners) && id < |nodes|
    decreases id
  {
    match OwnerOf(owners, id)
    case None => false
    case Some(o) => IslandOf(registry, nodes[o].nodeType).Some? || IslandOwned(owners, nodes, registry, o)
  }

  /** A vnode has an island owner exactly when some vnode on its owner chain has a
      registered island type. */
  lemma {:induction false} IslandOwnedIffChain(owners: map<NodeId, Option<NodeId>>, nodes: seq<VNode>,
                                               registry: map<ComponentId, Island>, id: NodeId)
    requires OwnersAcyclic(owners) && id < |nodes|
    ensures IslandOwned(owners, nodes, registry, id) <==>
      ChainMeetsIsland(OwnerChain(owners, id), nodes, registry)
    decreases id
  {
    match OwnerOf(owners, id)
    case None =>
    case Some(o) =>
      IslandOwnedIffChain(owners, nodes, registry, o);
      var chain := OwnerChain(owners, id);
      assert chain == [o] + OwnerChain(owners, o);
      var rest := OwnerChain(owners, o);
      assert IslandOwned(owners, nodes, registry, id) ==
        (IslandOf(registry, nodes[o].nodeType).Some? || IslandOwned(owners, nodes, registry, o));
      if IslandOf(registry, nodes[o].nodeType).Some? {
        assert chain[0] == o;
        assert IslandOf(registry, nodes[chain[0]].nodeType).Some?;
      } else if IslandOwned(owners, nodes, registry, o) {
        var j :| 0 <= j < |rest| && rest[j] < |nodes| && IslandOf(registry, nodes[rest[j]].nodeType).Some?;
        assert chain[j + 1] == rest[j];
        assert IslandOf(registry, nodes[chain[j + 1]].nodeType).Some?;
      }
      if ChainMeetsIsland(chain, nodes, registry) {
        var j :| 0 <= j < |chain| && chain[j] < |nodes| && IslandOf(registry, nodes[chain[j]].nodeType).Some?;
        if j > 0 {
          assert rest[j - 1] == chain[j];
          assert IslandOf(registry, nodes[rest[j - 1]].nodeType).Some?;
          assert IslandOwned(owners, nodes, registry, o);
        } else {
          assert chain[0] == o;
        }
        assert IslandOwned(owners, nodes, registry, id);
      }
      assert IslandOwned(owners, nodes, registry, id) ==>
        exists j :: 0 <= j < |chain| && IslandOf(registry, nodes[chain[j]].nodeType).Some?;
  }

  /** Some vnode of the chain has a registered island type. */
  predicate ChainMeetsIsland(chain: seq<NodeId>, nodes: seq<VNode>, registry: map<ComponentId, Island>) {
    exists j :: 0 <= j < |chain| && chain[j] < |nodes| && IslandOf(registry, nodes[chain[j]].nodeType).Some?
  }

  /** Set insertion: the island set keeps first-insertion order and never holds a duplicate. */
  function AddIsland(islands: seq<Island>, island: Island): (r: seq<Island>)
    ensures island in r
    ensures forall x :: x in r <==> x in islands || x == island
    ensures NoDuplicates(islands) ==> NoDuplicates(r)
    ensures island in islands ==> r == islands
    ensures island !in islands ==> r == islands + [island]
  {
    if island in islands then islands else islands + [island]
  }

  predicate NoDuplicates<T(==)>(s: seq<T>) {
    forall i, j :: 0 <= i < j < |s| ==> s[i] != s[j]
  }

  /** The children of a body tag with the FreshScripts element appended. */
  function AppendScripts(children: JsVal): JsVal {
    if children == PrimVal(Null) || children == PrimVal(Undefined) then ScriptsElement
    else if children.Arr? then Arr(children.items + [ScriptsElement])
    else Arr([children, ScriptsElement])
  }

  /** How the vnode option hook rewrites the props of a freshly created vnode. */
  function VNodeHookProps(t: NodeType, props: Props, key: Prim, clientNavAttr: string): Props {
    if t == PartialType then
      var payload := PartialPayload(Prop(props, "name"), PartialModeOf(Prop(props, "mode")), key);
      Set(props, "children", WrapWithMarker(Prop(props, "children"), "partial", payload))
    else if t.Tag? then
      var withScripts := if t.name == "body" then Set(props, "children", AppendScripts(Prop(props, "children"))) else props;
      if Get(withScripts, clientNavAttr).Some? then
        Set(withScripts, clientNavAttr, PrimVal(Str(JsToString(Prop(withScripts, clientNavAttr)))))
      else withScripts
    else props
  }

  /** The vnode hook wraps a Partial's children in a `partial` marker whose payload a
      client splits back into the name, the mode and the normalised key. */
  lemma VNodeHookPartialMarker(props: Props, key: Prim, clientNavAttr: string)
    ensures var r := VNodeHookProps(PartialType, props, key, clientNavAttr);
      var payload := PartialPayload(Prop(props, "name"), PartialModeOf(Prop(props, "mode")), key);
      && Tokens(Prop(r, "children")) == [Open("partial", payload)] + Tokens(Prop(props, "children")) + [Close("partial")]
      && var p := SplitLastTwo(payload);
         p.Some? && DecodeMode(p.value.1) == Some(PartialModeOf(Prop(props, "mode"))) && p.value.2 == NormalizeKey(key)
  {
    var payload := PartialPayload(Prop(props, "name"), PartialModeOf(Prop(props, "mode")), key);
    WrapTokens(Prop(props, "children"), "partial", payload);
    PartialPayloadRoundTrip(Prop(props, "name"), PartialModeOf(Prop(props, "mode")), key);
  }

  /** The vnode hook gives a body FreshScripts as its last child, after all the children
      it had. */
  lemma VNodeHookBodyScripts(props: Props, key: Prim, clientNavAttr: string)
    requires clientNavAttr != "children"
    ensures var c := Prop(VNodeHookProps(Tag("body"), props, key, clientNavAttr), "children");
      c == ScriptsElement || (c.Arr? && |c.items| > 0 && c.items[|c.items| - 1] == ScriptsElement &&
        (Prop(props, "children").Arr? ==> c.items[..|c.items| - 1] == Prop(props, "children").items) &&
        (!Prop(props, "children").Arr? ==> c.items == [Prop(props, "children"), ScriptsElement]))
    ensures Prop(VNodeHookProps(Tag("body"), props, key, clientNavAttr), "children") == ScriptsElement <==>
      Prop(props, "children") == PrimVal(Null) || Prop(props, "children") == PrimVal(Undefined)
  {
    var c := Prop(props, "children");
    var withScripts := Set(props, "children", AppendScripts(c));
    assert Get(VNodeHookProps(Tag("body"), props, key, clientNavAttr), "children") == Get(withScripts, "children");
    assert Prop(VNodeHookProps(Tag("body"), props, key, clientNavAttr), "children") == AppendScripts(c);
    if c.Arr? {
      assert AppendScripts(c).items[..|AppendScripts(c).items| - 1] == c.items;
    }
  }

  /** The vnode hook turns a tag's client-nav attribute into a string and changes no prop
      other than `children` and that attribute; the props of a vnode that is neither a tag
      nor a Partial are left alone. */
  lemma VNodeHookOtherProps(t: NodeType, props: Props, key: Prim, clientNavAttr: string)
    ensures var r := VNodeHookProps(t, props, key, clientNavAttr);
      && (t.Tag? && Get(props, clientNavAttr).Some? ==> Prop(r, clientNavAttr).PrimVal? && Prop(r, clientNavAttr).p.Str?)
      && (forall n :: n != "children" && n != clientNavAttr ==> Get(r, n) == Get(props, n))
      && (!t.Tag? && t != PartialType ==> r == props)
  {
  }

  class RenderState {
    /** The island registry of the build cache. */
    const registry: map<ComponentId, Island>
    const partialId: string
    const nonce: string
    /** The names of two props set by the hooks (CLIENT_NAV_ATTR and DATA_FRESH_KEY). */
    const clientNavAttr: string
    const dataFreshKey: string

    var partialDepth: int
    var slots: seq<Option<SlotRecord>>
    var islandProps: seq<IslandPropsRecord>
    /** The island set, in insertion order. */
    var islands: seq<Island>
    var encounteredPartials: set<string>
    var owners: map<NodeId, Option<NodeId>>
    var ownerStack: seq<NodeId>
    var renderedHtmlTag: bool
    var renderedHtmlBody: bool
    var renderedHtmlHead: bool
    var hasRuntimeScript: bool

    /** The engine's vnodes, by id. */
    var nodes: seq<VNode>
    /** The vnodes produced by a replacement renderer, which are never classified again. */
    var patched: set<NodeId>

    ghost predicate Valid()
      reads this
    {
      && OwnersAcyclic(owners)
      && (forall k :: k in owners ==> k < |nodes|)
      && (forall j :: 0 <= j < |ownerStack| ==> ownerStack[j] < |nodes|)
      && NoDuplicates(islands)
    }

    /** A fresh state; the nonce is the random UUID with its dashes removed. */
    constructor (registry: map<ComponentId, Island>, partialId: string, uuid: string,
                 clientNavAttr: string, dataFreshKey: string)
      ensures Valid()
      ensures this.registry == registry && this.partialId == partialId
      ensures this.clientNavAttr == clientNavAttr && this.dataFreshKey == dataFreshKey
      ensures nonce == RemoveChar(uuid, '-') && '-' !in nonce
      ensures partialDepth == 0 && slots == [] && islandProps == [] && islands == []
      ensures encounteredPartials == {} && owners == map[] && ownerStack == []
      ensures !renderedHtmlTag && !renderedHtmlBody && !renderedHtmlHead && !hasRuntimeScript
      ensures nodes == [] && patched == {}
    {
      this.registry := registry;
      this.partialId := partialId;
      this.clientNavAttr := clientNavAttr;
      this.dataFreshKey := dataFreshKey;
      nonce := RemoveChar(uuid, '-');
      partialDepth := 0;
      slots := [];
      islandProps := [];
      islands := [];
      encounteredPartials := {};
      owners := map[];
      ownerStack := [];
      renderedHtmlTag := false;
      renderedHtmlBody := false;
      renderedHtmlHead := false;
      hasRuntimeScript := false;
      nodes := [];
      patched := {};
    }

    /** clear(): empties the registries and the owner bookkeeping; counters and flags stay. */
    method Clear()
      requires Valid()
      modifies this
      ensures Valid()
      ensures islands == [] && encounteredPartials == {} && owners == map[]
      ensures slots == [] && islandProps == [] && ownerStack == []
      ensures partialDepth == old(partialDepth) && nodes == old(nodes) && patched == old(patched)
      ensures renderedHtmlTag == old(renderedHtmlTag) && renderedHtmlBody == old(renderedHtmlBody)
      ensures renderedHtmlHead == old(renderedHtmlHead) && hasRuntimeScript == old(hasRuntimeScript)
    {
      islands := [];
      encounteredPartials := {};
      owners := map[];
      slots := [];
      islandProps := [];
      ownerStack := [];
    }

    /** h(): the engine creates a vnode, then the `vnode` option hook records its owner (the
        top of the owner stack, or undefined) and rewrites its props. */
    method CreateVNode(t: NodeType, props: Props, key: Prim) returns (id: NodeId)
      requires Valid()
      modifies this`nodes, this`owners
      ensures Valid()
      ensures id == old(|nodes|)
      ensures nodes == old(nodes) + [VNode(t, VNodeHookProps(t, props, key, clientNavAttr), key)]
      ensures owners == old(owners)[id := if ownerStack == [] then None else Some(ownerStack[|ownerStack| - 1])]
    {
      id := |nodes|;
      var owner := if ownerStack == [] then None else Some(ownerStack[|ownerStack| - 1]);
      CreateKeepsOwners(owners, |nodes|, ownerStack, owner, owners[id := owner]);
      nodes := nodes + [VNode(t, VNodeHookProps(t, props, key, clientNavAttr), key)];
      owners := owners[id := owner];
    }

    /** hasIslandOwner: walks the owner chain from a vnode until the owner is missing. */
    method HasIslandOwner(id: NodeId) returns (b: bool)
      requires Valid() && id < |nodes|
      ensures b == IslandOwned(owners, nodes, registry, id)
    {
      var current: NodeId := id;
      while OwnerOf(owners, current).Some?
        invariant current < |nodes|
        invariant IslandOwned(owners, nodes, registry, id) == IslandOwned(owners, nodes, registry, current)
        decreases current
      {
        var owner := OwnerOf(owners, current).value;
        if IslandOf(registry, nodes[owner].nodeType).Some? {
          return true;
        }
        current := owner;
      }
      return false;
    }

    /** The diff-start hook on a Partial: the partial depth goes up, a string name is
        recorded, and the hook throws on a name seen before or on an island owner. */
    method DiffPartial(id: NodeId) returns (r: Outcome)
      requires Valid() && id < |nodes| && nodes[id].nodeType == PartialType
      modifies this`partialDepth, this`encounteredPartials
      ensures partialDepth == old(partialDepth) + 1
      ensures var name := Prop(nodes[id].props, "name");
        && (r == Throw(DuplicatePartial(if name.PrimVal? && name.p.Str? then name.p.s else "")) <==>
             name.PrimVal? && name.p.Str? && name.p.s in old(encounteredPartials))
        && (r == Throw(PartialInIsland) <==>
             !(name.PrimVal? && name.p.Str? && name.p.s in old(encounteredPartials)) &&
             IslandOwned(owners, nodes, registry, id))
        && (r == Ok <==>
             !(name.PrimVal? && name.p.Str? && name.p.s in old(encounteredPartials)) &&
             !IslandOwned(owners, nodes, registry, id))
        && encounteredPartials == (if name.PrimVal? && name.p.Str? then old(encounteredPartials) + {name.p.s}
                                   else old(encounteredPartials))
    {
      partialDepth := partialDepth + 1;
      var name := Prop(nodes[id].props, "name");
      if name.PrimVal? && name.p.Str? {
        if name.p.s in encounteredPartials {
          return Throw(DuplicatePartial(name.p.s));
        }
        encounteredPartials := encounteredPartials + {name.p.s};
      }
      var owned := HasIslandOwner(id);
      if owned {
        return Throw(PartialInIsland);
      }
      return Ok;
    }

    /** The diff-start hook on a component that is neither a Partial nor a Fragment: unless
        it came from a replacement renderer or has an island owner, it is given one, the
        island wrapper when the registry knows its type (which joins the island set), or
        else the key wrapper when it has a key. */
    method DiffComponent(id: NodeId)
      requires Valid() && id < |nodes|
      requires IsFunctionType(nodes[id].nodeType) && nodes[id].nodeType != FragmentType && nodes[id].nodeType != PartialType
      modifies this`nodes, this`islands
      ensures Valid()
      ensures var t := old(nodes[id].nodeType); var v := old(nodes[id]);
        if id in patched || IslandOwned(owners, old(nodes), registry, id) then
          nodes == old(nodes) && islands == old(islands)
        else match IslandOf(registry, t)
          case Some(island) =>
            islands == AddIsland(old(islands), island) &&
            nodes == old(nodes)[id := v.(nodeType := IslandWrapper(t, island))]
          case None =>
            islands == old(islands) &&
            nodes == (if v.key != Undefined then old(nodes)[id := v.(nodeType := KeyWrapper(t, NormalizeKey(v.key)))]
                      else old(nodes))
    {
      var v := nodes[id];
      var t := v.nodeType;
      if id !in patched {
        var owned := HasIslandOwner(id);
        if !owned {
          var island := IslandOf(registry, t);
          if island.None? {
            // not an island, but a key must survive the marker boundary
            if v.key != Undefined {
              nodes := nodes[id := v.(nodeType := KeyWrapper(t, NormalizeKey(v.key)))];
            }
          } else {
            islands := AddIsland(islands, island.value);
            nodes := nodes[id := v.(nodeType := IslandWrapper(t, island.value))];
          }
        }
      }
    }

    /** The diff-start hook on a string tag: html, head and body raise their flags, and a
        key inside a partial or an island is kept as the data key prop. */
    method DiffTag(id: NodeId)
      requires Valid() && id < |nodes| && nodes[id].nodeType.Tag?
      modifies this`nodes, this`renderedHtmlTag, this`renderedHtmlHead, this`renderedHtmlBody
      ensures Valid()
      ensures var name := old(nodes[id].nodeType).name; var v := old(nodes[id]);
        && renderedHtmlTag == (old(renderedHtmlTag) || name == "html")
        && renderedHtmlHead == (old(renderedHtmlHead) || name == "head")
        && renderedHtmlBody == (old(renderedHtmlBody) || name == "body")
        && nodes == (if v.key != Undefined && (partialDepth > 0 || IslandOwned(owners, old(nodes), registry, id))
                     then old(nodes)[id := v.(props := Set(v.props, dataFreshKey, PrimVal(Str(PrimToString(v.key)))))]
                     else old(nodes))
    {
      var v := nodes[id];
      if v.nodeType.name == "html" {
        renderedHtmlTag := true;
      } else if v.nodeType.name == "head" {
        renderedHtmlHead := true;
      } else if v.nodeType.name == "body" {
        renderedHtmlBody := true;
      }
      if v.key != Undefined {
        var keep := partialDepth > 0;
        if !keep {
          keep := HasIslandOwner(id);
        }
        if keep {
          nodes := nodes[id := v.(props := Set(v.props, dataFreshKey, PrimVal(Str(PrimToString(v.key)))))];
        }
      }
    }

    /** The diff-start hook: dispatches on the vnode's type; only a Partial can throw, and
        a Fragment or a text vnode is left alone. */
    method DiffHook(id: NodeId) returns (r: Outcome)
      requires Valid() && id < |nodes|
      modifies this`nodes, this`islands, this`partialDepth, this`encounteredPartials
      modifies this`renderedHtmlTag, this`renderedHtmlHead, this`renderedHtmlBody
      ensures Valid()
      ensures |nodes| == old(|nodes|)
      ensures old(nodes[id].nodeType) != PartialType ==> r == Ok && encounteredPartials == old(encounteredPartials)
      ensures old(nodes[id].nodeType) == PartialType ==>
        nodes == old(nodes) && islands == old(islands) && partialDepth == old(partialDepth) + 1 &&
        (r.Throw? <==> (Prop(nodes[id].props, "name").PrimVal? && Prop(nodes[id].props, "name").p.Str? &&
                        Prop(nodes[id].props, "name").p.s in old(encounteredPartials)) ||
                       IslandOwned(owners, nodes, registry, id))
      ensures old(nodes[id].nodeType) != PartialType ==> partialDepth == old(partialDepth)
      ensures !old(nodes[id].nodeType).Tag? ==>
        renderedHtmlTag == old(renderedHtmlTag) && renderedHtmlHead == old(renderedHtmlHead) &&
        renderedHtmlBody == old(renderedHtmlBody)
      ensures (old(nodes[id].nodeType) == Text || old(nodes[id].nodeType) == FragmentType) ==>
        nodes == old(nodes) && islands == old(islands)
      ensures old(nodes[id].nodeType).Tag? ==> islands == old(islands)
      ensures old(nodes[id].nodeType).Tag? || old(nodes[id].nodeType) == PartialType ==>
        forall k :: 0 <= k < |nodes| ==> nodes[k].nodeType == old(nodes[k].nodeType)
      ensures old(nodes[id].nodeType) == PartialType ==> var name := Prop(nodes[id].props, "name");
        && (r == Throw(DuplicatePartial(if name.PrimVal? && name.p.Str? then name.p.s else "")) <==>
             name.PrimVal? && name.p.Str? && name.p.s in old(encounteredPartials))
        && (r == Throw(PartialInIsland) <==>
             !(name.PrimVal? && name.p.Str? && name.p.s in old(encounteredPartials)) &&
             IslandOwned(owners, nodes, registry, id))
        && encounteredPartials == (if name.PrimVal? && name.p.Str? then old(encounteredPartials) + {name.p.s}
                                   else old(encounteredPartials))
      ensures var t := old(nodes[id].nodeType); var v := old(nodes[id]);
        IsFunctionType(t) && t != FragmentType && t != PartialType ==>
          if id in patched || IslandOwned(owners, old(nodes), registry, id) then
            nodes == old(nodes) && islands == old(islands)
          else match IslandOf(registry, t)
            case Some(island) =>
              islands == AddIsland(old(islands), island) &&
              nodes == old(nodes)[id := v.(nodeType := IslandWrapper(t, island))]
            case None =>
              islands == old(islands) &&
              nodes == (if v.key != Undefined then old(nodes)[id := v.(nodeType := KeyWrapper(t, NormalizeKey(v.key)))]
                        else old(nodes))
      ensures var t := old(nodes[id].nodeType); var v := old(nodes[id]);
        t.Tag? ==>
          && renderedHtmlTag == (old(renderedHtmlTag) || t.name == "html")
          && renderedHtmlHead == (old(renderedHtmlHead) || t.name == "head")
          && renderedHtmlBody == (old(renderedHtmlBody) || t.name == "body")
          && nodes == (if v.key != Undefined && (old(partialDepth) > 0 || IslandOwned(owners, old(nodes), registry, id))
                       then old(nodes)[id := v.(props := Set(v.props, dataFreshKey, PrimVal(Str(PrimToString(v.key)))))]
                       else old(nodes))
    {
      var t := nodes[id].nodeType;
      r := Ok;
      if t == PartialType {
        r := DiffPartial(id);
      } else if IsFunctionType(t) && t != FragmentType {
        DiffComponent(id);
      } else if t.Tag? {
        DiffTag(id);
      }
    }

    /** The render hook: a function vnode other than a Fragment goes on the owner stack. */
    method RenderHook(id: NodeId)
      requires Valid() && id < |nodes|
      modifies this`ownerStack
      ensures Valid()
      ensures ownerStack == if IsFunctionType(nodes[id].nodeType) && nodes[id].nodeType != FragmentType
                            then old(ownerStack) + [id] else old(ownerStack)
    {
      var t := nodes[id].nodeType;
      if IsFunctionType(t) && t != FragmentType {
        ownerStack := ownerStack + [id];
      }
    }

    /** The diffed hook: a function vnode other than a Fragment comes off the owner stack
        (popping an empty stack does nothing), and leaving a Partial lowers the depth. */
    method DiffedHook(id: NodeId)
      requires Valid() && id < |nodes|
      modifies this`ownerStack, this`partialDepth
      ensures Valid()
      ensures var t := nodes[id].nodeType;
        && ownerStack == (if IsFunctionType(t) && t != FragmentType && old(ownerStack) != []
                          then old(ownerStack)[..|old(ownerStack)| - 1] else old(ownerStack))
        && partialDepth == (if t == PartialType then old(partialDepth) - 1 else old(partialDepth))
    {
      var t := nodes[id].nodeType;
      if IsFunctionType(t) && t != FragmentType {
        if ownerStack != [] {
          ownerStack := ownerStack[..|ownerStack| - 1];
        }
        if t == PartialType {
          partialDepth := partialDepth - 1;
        }
      }
    }

    /** The loop of the island wrapper: every `children` prop and every element-valued
        non-signal prop is moved to a new slot, numbered from the slot list's current length,
        and replaced by a Slot placeholder. */
    method MoveSlotProps(props: Props) returns (r: Props)
      modifies this`slots
      ensures r == AllocSlots(props, |old(slots)|).0
      ensures slots == old(slots) + Pending(AllocSlots(props, |old(slots)|).1)
    {
      ghost var slots0 := slots;
      var base := |slots|;
      ghost var acc: (Props, seq<SlotRecord>) := ([], []);
      r := props;
      var i := 0;
      while i < |props|
        invariant 0 <= i <= |props| == |r|
        invariant acc == AllocSlots(props[..i], base)
        invariant r == acc.0 + props[i..]
        invariant slots == slots0 + Pending(acc.1)
      {
        var f := r[i];
        MoveSlotStep(props, base, i, r, slots0, slots);
        if SlotEligible(f) {
          var slotId := |slots|;
          slots := slots + [Some(SlotRecord(slotId, f.name, f.value))];
          r := r[i := Field(f.name, SlotElement(f.name, slotId, f.value))];
        }
        acc := AllocSlots(props[..i + 1], base);
        i := i + 1;
      }
      assert props[..i] == props && props[i..] == [];
    }

    /** The first half of the island wrapper: the island vnode's props go through the slot
        loop and are appended to islandProps. */
    method MoveIslandProps(id: NodeId) returns (props: Props)
      requires Valid() && id < |nodes|
      modifies this`slots, this`nodes, this`islandProps
      ensures Valid()
      ensures var alloc := AllocSlots(old(nodes[id].props), |old(slots)|);
        && props == alloc.0
        && slots == old(slots) + Pending(alloc.1)
        && islandProps == old(islandProps) + [IslandPropsRecord([], props)]
        && nodes == old(nodes)[id := old(nodes[id]).(props := props)]
    {
      var v := nodes[id];
      props := MoveSlotProps(v.props);
      nodes := nodes[id := v.(props := props)];
      islandProps := islandProps + [IslandPropsRecord([], props)];
    }

    /** The island wrapper, run by the engine in place of the island component: the props
        go through the slot loop and are appended to islandProps; the original component is
        rendered as a vnode that is never classified again, inside an `island` marker whose
        payload carries the new islandProps index. */
    method RunIslandWrapper(id: NodeId) returns (child: NodeId, out: JsVal)
      requires Valid() && id < |nodes| && nodes[id].nodeType.IslandWrapper?
      modifies this`slots, this`nodes, this`islandProps, this`owners, this`patched
      ensures Valid()
      ensures var t := old(nodes[id].nodeType); var v := old(nodes[id]);
        var alloc := AllocSlots(v.props, |old(slots)|);
        && slots == old(slots) + Pending(alloc.1)
        && islandProps == old(islandProps) + [IslandPropsRecord([], alloc.0)]
        && child == old(|nodes|)
        && nodes == old(nodes)[id := v.(props := alloc.0)] +
                    [VNode(t.inner, VNodeHookProps(t.inner, alloc.0, Undefined, clientNavAttr), Undefined)]
        && patched == old(patched) + {child}
        && out == WrapWithMarker(Node(child), "island", IslandPayload(t.island.name, |old(islandProps)|, v.key))
      ensures owners == old(owners)[child := if ownerStack == [] then None else Some(ownerStack[|ownerStack| - 1])]
    {
      var v := nodes[id];
      var index := |islandProps|;
      var props := MoveIslandProps(id);
      child := CreateVNode(v.nodeType.inner, props, Undefined);
      patched := patched + {child};
      out := WrapWithMarker(Node(child), "island", IslandPayload(v.nodeType.island.name, index, v.key));
    }

    /** The key wrapper, run by the engine in place of a keyed component: the original
        component is rendered as a vnode that is never classified again, inside a `key`
        marker carrying the normalised key. */
    method RunKeyWrapper(id: NodeId) returns (child: NodeId, out: JsVal)
      requires Valid() && id < |nodes| && nodes[id].nodeType.KeyWrapper?
      modifies this`nodes, this`owners, this`patched
      ensures Valid()
      ensures var t := old(nodes[id].nodeType);
        && child == old(|nodes|)
        && nodes == old(nodes) + [VNode(t.inner, VNodeHookProps(t.inner, old(nodes[id].props), Undefined, clientNavAttr), Undefined)]
        && patched == old(patched) + {child}
        && out == WrapWithMarker(Node(child), "key", t.key)
      ensures owners == old(owners)[child := if ownerStack == [] then None else Some(ownerStack[|ownerStack| - 1])]
    {
      var v := nodes[id];
      child := CreateVNode(v.nodeType.inner, v.props, Undefined);
      patched := patched + {child};
      out := WrapWithMarker(Node(child), "key", v.nodeType.key);
    }

    /** Slot: marks the slot consumed (assigning past the end of the list grows it with
        holes, which read as null) and wraps the children in a `slot` marker. */
    method Slot(id: nat, name: string, children: JsVal) returns (out: JsVal)
      modifies this`slots
      ensures |slots| == if id < |old(slots)| then |old(slots)| else id + 1
      ensures slots[id] == None
      ensures forall j :: 0 <= j < |slots| && j != id ==> slots[j] == if j < |old(slots)| then old(slots)[j] else None
      ensures out == WrapWithMarker(children, "slot", SlotPayload(id, name))
    {
      if id < |slots| {
        slots := slots[id := None];
      } else {
        slots := slots + seq(id - |slots|, _ => None) + [None];
      }
      out := WrapWithMarker(children, "slot", SlotPayload(id, name));
    }

    /** FreshScripts: the first call in a render sets the runtime-script flag and returns the
        templates of the slots not yet rendered followed by the runtime script; every later
        call returns null. */
    method FreshScripts() returns (out: Option<JsVal>)
      modifies this`hasRuntimeScript
      ensures hasRuntimeScript
      ensures old(hasRuntimeScript) ==> out == None
      ensures !old(hasRuntimeScript) ==> out == Some(Fragment([Arr(SlotTemplates(slots)), RuntimeScriptElement]))
    {
      if hasRuntimeScript {
        return None;
      }
      hasRuntimeScript := true;
      out := Some(Fragment([Arr(SlotTemplates(slots)), RuntimeScriptElement]));
    }
  }

  /** Slot records as entries of the slot list: not yet rendered. */
  function Pending(records: seq<SlotRecord>): (r: seq<Option<SlotRecord>>)
    ensures |r| == |records|
  {
    if records == [] then [] else Pending(records[..|records| - 1]) + [Some(records[|records| - 1])]
  }

  /** Every record becomes a pending entry, in order. */
  lemma {:induction false} PendingAt(records: seq<SlotRecord>, j: nat)
    requires j < |records|
    ensures Pending(records)[j] == Some(records[j])
    decreases |records|
  {
    if j < |records| - 1 {
      PendingAt(records[..|records| - 1], j);
    }
  }

  lemma PendingSnoc(records: seq<SlotRecord>, x: SlotRecord)
    ensures Pending(records + [x]) == Pending(records) + [Some(x)]
  {
    assert (records + [x])[..|records|] == records;
  }

  /** Overwriting the first element after a prefix. */
  lemma UpdateAt<T>(prefix: seq<T>, rest: seq<T>, x: T)
    requires |rest| > 0
    ensures (prefix + rest)[|prefix| := x] == (prefix + [x]) + rest[1..]
  {
  }

  /** One iteration of the island wrapper's slot loop, stated on AllocSlots. */
  lemma SlotLoopStep(props: Props, base: nat, i: nat, r: Props)
    requires i < |props| && r == AllocSlots(props[..i], base).0 + props[i..]
    ensures r[i] == props[i]
    ensures var before := AllocSlots(props[..i], base); var after := AllocSlots(props[..i + 1], base);
      && (SlotEligible(props[i]) ==>
            && after.0 + props[i + 1..] == r[i := Field(props[i].name, SlotElement(props[i].name, base + |before.1|, props[i].value))]
            && Pending(after.1) == Pending(before.1) + [Some(SlotRecord(base + |before.1|, props[i].name, props[i].value))])
      && (!SlotEligible(props[i]) ==> after.0 + props[i + 1..] == r && after.1 == before.1)
  {
    var before := AllocSlots(props[..i], base);
    assert r[i] == props[i..][0];
    assert props[i..][1..] == props[i + 1..];
    AllocSlotsStep(props, base, i);
    if SlotEligible(props[i]) {
      var x := Field(props[i].name, SlotElement(props[i].name, base + |before.1|, props[i].value));
      UpdateAt(before.0, props[i..], x);
      PendingSnoc(before.1, SlotRecord(base + |before.1|, props[i].name, props[i].value));
    } else {
      UpdateAt(before.0, props[i..], props[i]);
    }
  }

  /** One iteration of the island wrapper's slot loop keeps its two invariants. */
  lemma MoveSlotStep(props: Props, base: nat, i: nat, r: Props, slots0: seq<Option<SlotRecord>>,
                     slots: seq<Option<SlotRecord>>)
    requires i < |props| && r == AllocSlots(props[..i], base).0 + props[i..]
    requires slots == slots0 + Pending(AllocSlots(props[..i], base).1) && |slots0| == base
    ensures r[i] == props[i]
    ensures var after := AllocSlots(props[..i + 1], base); var f := r[i];
      if SlotEligible(f) then
        && r[i := Field(f.name, SlotElement(f.name, |slots|, f.value))] == after.0 + props[i + 1..]
        && slots + [Some(SlotRecord(|slots|, f.name, f.value))] == slots0 + Pending(after.1)
      else r == after.0 + props[i + 1..] && slots == slots0 + Pending(after.1)
  {
    SlotLoopStep(props, base, i, r);
    var before := AllocSlots(props[..i], base);
    assert |slots| == base + |before.1|;
    if SlotEligible(r[i]) {
      assert slots + [Some(SlotRecord(|slots|, r[i].name, r[i].value))] ==
        slots0 + (Pending(before.1) + [Some(SlotRecord(|slots|, r[i].name, r[i].value))]);
    }
  }

  /** One more prop through the slot loop. */
  lemma AllocSlotsStep(props: Props, base: nat, i: nat)
    requires i < |props|
    ensures var before := AllocSlots(props[..i], base);
      AllocSlots(props[..i + 1], base) ==
        if SlotEligible(props[i])
        then (before.0 + [Field(props[i].name, SlotElement(props[i].name, base + |before.1|, props[i].value))],
              before.1 + [SlotRecord(base + |before.1|, props[i].name, props[i].value)])
        else (before.0 + [props[i]], before.1)
  {
    assert props[..i + 1][..i] == props[..i];
  }

  /** The DOM id of a slot's template: `frsh-<id>-<name>`. */
  function TemplateId(s: SlotRecord): string {
    "frsh-" + IntToString(s.id) + "-" + s.name
  }

  /** slots.map: a consumed slot renders nothing, a pending one renders its template. */
  function SlotTemplates(slots: seq<Option<SlotRecord>>): (r: seq<JsVal>)
    ensures |r| == |slots|
    ensures forall j :: 0 <= j < |slots| ==>
      r[j] == match slots[j]
              case None => PrimVal(Null)
              case Some(s) => Template(s.id, TemplateId(s), s.vnode)
  {
    seq(|slots|, j requires 0 <= j < |slots| =>
      match slots[j]
      case None => PrimVal(Null)
      case Some(s) => Template(s.id, TemplateId(s), s.vnode))
  }

  /** The only templates FreshScripts emits are those of slots that were never rendered,
      and each of those is emitted. */
  lemma {:induction false} TemplatesExactlyPending(slots: seq<Option<SlotRecord>>, j: nat)
    requires j < |slots|
    ensures SlotTemplates(slots)[j].Template? <==> slots[j].Some?
    ensures slots[j].Some? ==> SlotTemplates(slots)[j].domId == TemplateId(slots[j].value) &&
                               SlotTemplates(slots)[j].child == slots[j].value.vnode
  {
  }

  /** String(Boolean(value)). */
  function BooleanText(value: JsVal): (r: string)
    ensures r == "true" <==> Truthy(value)
    ensures r == "true" || r == "false"
  {
    if Truthy(value) then "true" else "false"
  }

  /** The attr hook as the source writes it: the client-nav attribute renders as
      String(Boolean(value)), a `key` as the data key attribute with its value escaped;
      other attributes go to the previous hook (None here). */
  function AttrHookAsWritten(name: string, value: JsVal, clientNavAttr: string, dataFreshKey: string,
                             escapeHtml: string -> string): Option<string> {
    if name == clientNavAttr then Some(clientNavAttr + "=\"" + BooleanText(value) + "\"")
    else if name == "key" then Some(dataFreshKey + "=\"" + escapeHtml(JsToString(value)) + "\"")
    else None
  }

  /** The attr hook, reading the string `"false"` that the vnode hook makes of a `false`
      client-nav prop as false. */
  function AttrHook(name: string, value: JsVal, clientNavAttr: string, dataFreshKey: string,
                    escapeHtml: string -> string): Option<string> {
    if name == clientNavAttr then
      Some(clientNavAttr + "=\"" + (if value == PrimVal(Str("false")) then "false" else BooleanText(value)) + "\"")
    else if name == "key" then Some(dataFreshKey + "=\"" + escapeHtml(JsToString(value)) + "\"")
    else None
  }

  /** The client-nav prop of a tag after the vnode hook. */
  function ClientNavAfterHook(t: NodeType, props: Props, key: Prim, clientNavAttr: string): JsVal {
    Prop(VNodeHookProps(t, props, key, clientNavAttr), clientNavAttr)
  }

  /** The vnode hook turns a tag's client-nav prop into its string, so the attr hook as
      written renders `"true"` for every value whose string is not empty. */
  lemma ClientNavRenderedAsWritten(t: NodeType, props: Props, key: Prim, clientNavAttr: string,
                                   dataFreshKey: string, escapeHtml: string -> string)
    requires t.Tag? && clientNavAttr != "children" && Get(props, clientNavAttr).Some?
    ensures AttrHookAsWritten(clientNavAttr, ClientNavAfterHook(t, props, key, clientNavAttr), clientNavAttr, dataFreshKey, escapeHtml) ==
      Some(clientNavAttr + "=\"" + (if JsToString(Prop(props, clientNavAttr)) == "" then "false" else "true") + "\"")
  {
    ClientNavStringified(t, props, key, clientNavAttr);
  }

  lemma ClientNavStringified(t: NodeType, props: Props, key: Prim, clientNavAttr: string)
    requires t.Tag? && clientNavAttr != "children" && Get(props, clientNavAttr).Some?
    ensures ClientNavAfterHook(t, props, key, clientNavAttr) == PrimVal(Str(JsToString(Prop(props, clientNavAttr))))
  {
    var withScripts := if t.name == "body" then Set(props, "children", AppendScripts(Prop(props, "children"))) else props;
    assert Get(withScripts, clientNavAttr) == Get(props, clientNavAttr);
    assert Prop(withScripts, clientNavAttr) == Prop(props, clientNavAttr);
  }

  /** As written, `f-client-nav={false}` on a tag renders as `="true"`. */
  lemma ClientNavFalseAsWritten(t: NodeType, props: Props, key: Prim, clientNavAttr: string,
                                dataFreshKey: string, escapeHtml: string -> string)
    requires t.Tag? && clientNavAttr != "children" && Get(props, clientNavAttr) == Some(PrimVal(Bool(false)))
    ensures AttrHookAsWritten(clientNavAttr, ClientNavAfterHook(t, props, key, clientNavAttr), clientNavAttr, dataFreshKey, escapeHtml) ==
      Some(clientNavAttr + "=\"" + "true" + "\"")
  {
    assert Prop(props, clientNavAttr) == PrimVal(Bool(false));
    assert JsToString(PrimVal(Bool(false))) == "false";
    ClientNavRenderedAsWritten(t, props, key, clientNavAttr, dataFreshKey, escapeHtml);
  }

  /** With the corrected attr hook, a client-nav prop on a tag renders `"false"` exactly
      when its string is empty or `false`. */
  lemma ClientNavRendered(t: NodeType, props: Props, key: Prim, clientNavAttr: string,
                          dataFreshKey: string, escapeHtml: string -> string)
    requires t.Tag? && clientNavAttr != "children" && Get(props, clientNavAttr).Some?
    ensures var text := JsToString(Prop(props, clientNavAttr));
      AttrHook(clientNavAttr, ClientNavAfterHook(t, props, key, clientNavAttr), clientNavAttr, dataFreshKey, escapeHtml) ==
      Some(clientNavAttr + "=\"" + (if text == "" || text == "false" then "false" else "true") + "\"")
  {
    ClientNavStringified(t, props, key, clientNavAttr);
    var text := JsToString(Prop(props, clientNavAttr));
    var v := ClientNavAfterHook(t, props, key, clientNavAttr);
    assert v == PrimVal(Str(text));
    assert BooleanText(v) == if text == "" then "false" else "true";
    assert (v == PrimVal(Str("false"))) == (text == "false");
  }

  /** With the corrected attr hook, a boolean client-nav prop on a tag renders as that
      boolean. */
  lemma ClientNavBooleanRendered(t: NodeType, props: Props, key: Prim, clientNavAttr: string,
                                 dataFreshKey: string, escapeHtml: string -> string, b: bool)
    requires t.Tag? && clientNavAttr != "children" && Get(props, clientNavAttr) == Some(PrimVal(Bool(b)))
    ensures AttrHook(clientNavAttr, ClientNavAfterHook(t, props, key, clientNavAttr), clientNavAttr, dataFreshKey, escapeHtml) ==
      Some(clientNavAttr + "=\"" + (if b then "true" else "false") + "\"")
  {
    assert Prop(props, clientNavAttr) == PrimVal(Bool(b));
    assert JsToString(PrimVal(Bool(b))) == if b then "true" else "false";
    ClientNavRendered(t, props, key, clientNavAttr, dataFreshKey, escapeHtml);
  }

  /** Both hooks render a `key` as the data key attribute with its escaped string, leave
      every attribute other than the two to the previous hook, and differ only on the
      client-nav value `"false"`. */
  lemma AttrHooksAgree(name: string, value: JsVal, clientNavAttr: string, dataFreshKey: string,
                       escapeHtml: string -> string)
    requires name != clientNavAttr || value != PrimVal(Str("false"))
    ensures AttrHook(name, value, clientNavAttr, dataFreshKey, escapeHtml) ==
            AttrHookAsWritten(name, value, clientNavAttr, dataFreshKey, escapeHtml)
    ensures name != clientNavAttr && name == "key" ==>
      AttrHook(name, value, clientNavAttr, dataFreshKey, escapeHtml) == Some(dataFreshKey + "=\"" + escapeHtml(JsToString(value)) + "\"")
    ensures name != clientNavAttr && name != "key" ==> AttrHook(name, value, clientNavAttr, dataFreshKey, escapeHtml).None?
  {
  }
}
