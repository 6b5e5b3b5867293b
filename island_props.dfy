/** What the island wrapper does to an island's props: the element test, the signal test,
    slot allocation, and the two custom stringifiers (src/runtime/server/preact_hooks.tsx). */
module IslandProps {
  import opened JsStrings
  import opened Markers

  /** Preact's isValidElement: an object whose constructor is undefined. Every element form
      the core builds is one. */
  predicate IsValidElement(v: JsVal) {
    match v
    case PrimVal(_) => false
    case Fn(_) => false
    case Arr(_) => false
    case Obj(_, constructorless) => constructorless
    case _ => true
  }

  /** isSignal: a non-null object with a function-valued `peek` and a `value` property. */
  predicate IsSignal(v: JsVal) {
    v.Obj? && Get(v.fields, "value").Some? &&
    match Get(v.fields, "peek") case Some(f) => f.Fn? case None => false
  }

  /** isVNode: an element carrying `type`, `ref` and `__k`. All element forms built by h()
      carry them; a constructorless plain object must list them itself. */
  predicate IsVNode(v: JsVal) {
    IsValidElement(v) &&
    (v.Obj? ==> Get(v.fields, "type").Some? && Get(v.fields, "ref").Some? && Get(v.fields, "__k").Some?)
  }

  /** The value a custom stringifier substitutes, tagged with the stringifier's name. */
  datatype Custom = Custom(tag: string, value: JsVal)

  /** The `Signal` stringifier: a signal serialises as the snapshot `peek()` returns. */
  function SignalStringifier(v: JsVal): (r: Option<JsVal>)
    ensures r.Some? <==> IsSignal(v)
    ensures r.Some? ==> Get(v.fields, "peek") == Some(Fn(r.value))
  {
    if IsSignal(v) then Some(Get(v.fields, "peek").value.ret) else None
  }

  /** The `Slot` stringifier: a slot placeholder serialises as `{ name, id }`. */
  function SlotStringifier(v: JsVal): (r: Option<JsVal>)
    ensures r.Some? <==> v.SlotElement?
    ensures r.Some? ==> (r.value.Obj? &&
      Get(r.value.fields, "name") == Some(PrimVal(Str(v.name))) &&
      Get(r.value.fields, "id") == Some(PrimVal(Num(v.id))))
  {
    if IsVNode(v) && v.SlotElement? then
      Some(Obj([Field("name", PrimVal(Str(v.name))), Field("id", PrimVal(Num(v.id)))], false))
    else None
  }

  /** The stringifiers in the order they are declared. */
  function CustomEncoding(v: JsVal): Option<Custom> {
    match SignalStringifier(v)
    case Some(x) => Some(Custom("Signal", x))
    case None =>
      match SlotStringifier(v)
      case Some(x) => Some(Custom("Slot", x))
      case None => None
  }

  /** A value is custom-encoded exactly when it is a signal or a slot placeholder, and the
      encoding of a signal is its peeked snapshot, that of a slot its name and id. */
  lemma CustomEncodingCases(v: JsVal)
    ensures CustomEncoding(v).Some? <==> IsSignal(v) || v.SlotElement?
    ensures IsSignal(v) ==> CustomEncoding(v) == Some(Custom("Signal", Get(v.fields, "peek").value.ret))
    ensures v.SlotElement? ==> (CustomEncoding(v).value.tag == "Slot" &&
      Get(CustomEncoding(v).value.value.fields, "id") == Some(PrimVal(Num(v.id))))
  {
  }

  // ---------------------------------------------------------------------------------------
  // Slot allocation

  /** A slot record: the slot's id, the prop it came from, and the deferred value. */
  datatype SlotRecord = SlotRecord(id: nat, name: string, vnode: JsVal)

  /** A prop becomes a slot when it is `children`, or an element that is not a signal. */
  predicate SlotEligible(f: Field) {
    f.name == "children" || (IsValidElement(f.value) && !IsSignal(f.value))
  }

  function CountEligible(props: Props): (n: nat)
    ensures n <= |props|
  {
    if props == [] then 0
    else CountEligible(props[..|props| - 1]) + (if SlotEligible(props[|props| - 1]) then 1 else 0)
  }

  /** The props after the island wrapper's loop, in the order the loop visits them, and the
      slot records it appends, numbered from `base` (the slot list's length before it). */
  function AllocSlots(props: Props, base: nat): (r: (Props, seq<SlotRecord>))
    ensures |r.0| == |props| && |r.1| == CountEligible(props)
  {
    if props == [] then ([], [])
    else
      var init := AllocSlots(props[..|props| - 1], base);
      var f := props[|props| - 1];
      if SlotEligible(f) then
        var id := base + |init.1|;
        (init.0 + [Field(f.name, SlotElement(f.name, id, f.value))], init.1 + [SlotRecord(id, f.name, f.value)])
      else
        (init.0 + [f], init.1)
  }

  /** Slot allocation keeps every prop name and every prop that is not eligible; it numbers
      the records consecutively from `base`; each eligible prop becomes a placeholder naming
      a record that holds the prop's value; and the placeholders' ids increase with the
      props' positions. */
  lemma AllocSlotsSpec(props: Props, base: nat)
    ensures var r := AllocSlots(props, base);
      && (forall i :: 0 <= i < |props| ==> r.0[i].name == props[i].name)
      && (forall i :: 0 <= i < |props| && !SlotEligible(props[i]) ==> r.0[i] == props[i])
      && (forall j :: 0 <= j < |r.1| ==> r.1[j].id == base + j)
      && (forall i :: 0 <= i < |props| && SlotEligible(props[i]) ==>
            var e := r.0[i].value;
            e.SlotElement? && e.name == props[i].name && e.child == props[i].value &&
            base <= e.id < base + |r.1| && r.1[e.id - base] == SlotRecord(e.id, props[i].name, props[i].value))
      && (forall i, i' :: 0 <= i < i' < |props| && SlotEligible(props[i]) && SlotEligible(props[i']) ==>
            r.0[i].value.id < r.0[i'].value.id)
  {
    AllocSlotsKeeps(props, base);
    AllocSlotsIds(props, base);
    AllocSlotsPlaceholders(props, base);
    AllocSlotsIncreasing(props, base);
  }

  /** The last prop through the loop: the earlier props and records are those of the
      prefix. */
  lemma AllocSlotsLast(props: Props, base: nat)
    requires props != []
    ensures var a, r := AllocSlots(props[..|props| - 1], base), AllocSlots(props, base);
      var f := props[|props| - 1];
      && r.0[..|props| - 1] == a.0 && r.1[..|a.1|] == a.1
      && (SlotEligible(f) ==> r.0[|props| - 1] == Field(f.name, SlotElement(f.name, base + |a.1|, f.value)) &&
                              r.1 == a.1 + [SlotRecord(base + |a.1|, f.name, f.value)])
      && (!SlotEligible(f) ==> r.0[|props| - 1] == f && r.1 == a.1)
  {
  }

  lemma {:induction false} AllocSlotsKeeps(props: Props, base: nat)
    ensures var r := AllocSlots(props, base);
      && (forall i :: 0 <= i < |props| ==> r.0[i].name == props[i].name)
      && (forall i :: 0 <= i < |props| && !SlotEligible(props[i]) ==> r.0[i] == props[i])
    decreases |props|
  {
    if props != [] {
      var init := props[..|props| - 1];
      AllocSlotsKeeps(init, base);
      AllocSlotsLast(props, base);
      var r := AllocSlots(props, base);
      assert forall i :: 0 <= i < |init| ==> props[i] == init[i] && r.0[i] == AllocSlots(init, base).0[i];
    }
  }

  lemma {:induction false} AllocSlotsIds(props: Props, base: nat)
    ensures var r := AllocSlots(props, base); forall j :: 0 <= j < |r.1| ==> r.1[j].id == base + j
    decreases |props|
  {
    if props != [] {
      var init := props[..|props| - 1];
      AllocSlotsIds(init, base);
      AllocSlotsLast(props, base);
      var a, r := AllocSlots(init, base), AllocSlots(props, base);
      assert forall j :: 0 <= j < |a.1| ==> r.1[j] == a.1[j];
    }
  }

  /** A loop output field is the placeholder for prop p, naming its record in `records`
      (numbered from `base`). */
  predicate PlaceholderFor(x: Field, p: Field, records: seq<SlotRecord>, base: nat) {
    var e := x.value;
    e.SlotElement? && e.name == p.name && e.child == p.value &&
    base <= e.id < base + |records| && records[e.id - base] == SlotRecord(e.id, p.name, p.value)
  }

  lemma {:induction false} AllocSlotsPlaceholders(props: Props, base: nat)
    ensures var r := AllocSlots(props, base);
      forall i :: 0 <= i < |props| && SlotEligible(props[i]) ==> PlaceholderFor(r.0[i], props[i], r.1, base)
    decreases |props|
  {
    if props != [] {
      var init := props[..|props| - 1];
      AllocSlotsPlaceholders(init, base);
      AllocSlotsLast(props, base);
      var a, r := AllocSlots(init, base), AllocSlots(props, base);
      forall i | 0 <= i < |props| && SlotEligible(props[i])
        ensures PlaceholderFor(r.0[i], props[i], r.1, base)
      {
        if i < |init| {
          assert props[i] == init[i] && r.0[i] == a.0[i];
          assert PlaceholderFor(a.0[i], init[i], a.1, base);
          var id := a.0[i].value.id;
          assert r.1[id - base] == a.1[id - base];
        }
      }
    }
  }

  lemma {:induction false} AllocSlotsIncreasing(props: Props, base: nat)
    ensures var r := AllocSlots(props, base);
      forall i, i' :: 0 <= i < i' < |props| && SlotEligible(props[i]) && SlotEligible(props[i']) ==>
        r.0[i].value.SlotElement? && r.0[i'].value.SlotElement? && r.0[i].value.id < r.0[i'].value.id
    decreases |props|
  {
    if props != [] {
      var init := props[..|props| - 1];
      AllocSlotsIncreasing(init, base);
      AllocSlotsPlaceholders(init, base);
      AllocSlotsLast(props, base);
      var a, r := AllocSlots(init, base), AllocSlots(props, base);
      assert forall i :: 0 <= i < |init| ==> props[i] == init[i] && r.0[i] == a.0[i];
    }
  }

  /** Every slot record is referenced by the placeholder that replaced an eligible prop (only
      one, since the ids increase with position). */
  lemma {:induction false} SlotRecordsReferenced(props: Props, base: nat, j: nat)
    requires j < |AllocSlots(props, base).1|
    ensures exists i :: (0 <= i < |props| && SlotEligible(props[i]) &&
      AllocSlots(props, base).0[i].value == SlotElement(props[i].name, base + j, props[i].value))
    decreases |props|
  {
    var init := AllocSlots(props[..|props| - 1], base);
    var i := |props| - 1;
    AllocSlotsSpec(props, base);
    AllocSlotsSpec(props[..|props| - 1], base);
    if j < |init.1| {
      SlotRecordsReferenced(props[..|props| - 1], base, j);
      var k :| 0 <= k < |props| - 1 && SlotEligible(props[..|props| - 1][k]) &&
        init.0[k].value == SlotElement(props[..|props| - 1][k].name, base + j, props[..|props| - 1][k].value);
      assert props[k] == props[..|props| - 1][k];
      assert AllocSlots(props, base).0[k] == init.0[k];
    } else {
      assert SlotEligible(props[i]);
      assert AllocSlots(props, base).0[i].value == SlotElement(props[i].name, base + j, props[i].value);
    }
  }
}
