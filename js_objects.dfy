/** The caller's objects as the registration code sees them: heap objects whose
    nested objects are shared by reference, so that a spread copy
    `{ ...obj }` shares the nested objects but not the top-level slots. */
module JsObjects {
  import opened Json

  /** A property slot: a value held directly, or a reference to another object. */
  datatype Slot = Plain(v: Value) | Ref(target: JsObject)

  class JsObject {
    var props: map<string, Slot>

    /** An object literal; `new JsObject(obj.props)` is the spread `{ ...obj }`. */
    constructor (props0: map<string, Slot>)
      ensures props == props0
    {
      props := props0;
    }

    /** The objects this one refers to directly. */
    ghost function Children(): set<JsObject>
      reads this
    {
      set f | f in props && props[f].Ref? :: props[f].target
    }

    /** No slot refers to another object. */
    ghost predicate Flat()
      reads this
    {
      forall f :: f in props ==> props[f].Plain?
    }

    /** Two levels: the children are flat, this object is not one of them, and
        every nested object is held by reference, never as a plain value. */
    ghost predicate TwoLevel()
      reads this, Children()
    {
      && this !in Children()
      && (forall c :: c in Children() ==> c.Flat())
      && (forall f :: f in props && props[f].Plain? ==> !props[f].v.Obj?)
    }

    /** The property `name` holds an object. */
    predicate RefersAt(name: string)
      reads this
    {
      name in props && props[name].Ref?
    }

    /** The record of a flat object. */
    function Fields(): (r: Record)
      reads this
      requires Flat()
      ensures r.Keys == props.Keys
      ensures forall f :: f in props ==> r[f] == props[f].v
    {
      map f | f in props :: props[f].v
    }

    /** What the database stores when this object is written: references are
        followed, so a nested object contributes its contents at write time. */
    function Serialize(): (r: Record)
      reads this, Children()
      requires TwoLevel()
      ensures r.Keys == props.Keys
      ensures forall f :: f in props && props[f].Plain? ==> r[f] == props[f].v
      ensures forall f :: f in props && props[f].Ref? ==> r[f] == Obj(props[f].target.Fields())
    {
      map f | f in props :: match props[f] case Plain(v) => v case Ref(o) => Obj(o.Fields())
    }

    /** What `Serialize` will give once `field` of the nested object `target`
        is set to `v`: every slot that refers to `target` shows the new value,
        and every other slot is written as now. */
    function SerializeAssigned(target: JsObject, field: string, v: Value): (r: Record)
      reads this, Children()
      requires TwoLevel()
      ensures r.Keys == props.Keys
      ensures forall f :: f in props && props[f].Ref? && props[f].target == target ==>
        r[f] == Obj(target.Fields()[field := v])
      ensures forall f :: f in props && !(props[f].Ref? && props[f].target == target) ==>
        r[f] == Serialize()[f]
    {
      map f | f in props ::
        if props[f].Ref? && props[f].target == target then Obj(target.Fields()[field := v]) else Serialize()[f]
    }

    /** `obj.name = v`. */
    method Assign(name: string, v: Value)
      modifies this
      ensures props == old(props)[name := Plain(v)]
    {
      props := props[name := Plain(v)];
    }
  }

  /** A spread copy is written exactly as its original: it holds the same slots,
      so it follows the same references. */
  lemma SpreadCopySerializesAlike(copy: JsObject, original: JsObject)
    requires copy.props == original.props
    requires original.TwoLevel() && copy !in original.Children()
    ensures copy.Children() == original.Children()
    ensures copy.TwoLevel()
    ensures copy.Serialize() == original.Serialize()
  {
  }

  /** `original.name.field = v` where `original.name` holds an object that the
      spread copy `copy` shares, followed by serializing the copy: the shared
      object changes under both, so what is written carries the new value. */
  method AssignThroughShared(original: JsObject, copy: JsObject, name: string, field: string, v: Value) returns (written: Record)
    requires original.TwoLevel() && original.RefersAt(name) && !v.Obj?
    requires copy.props == original.props && copy !in original.Children()
    modifies original.props[name].target
    ensures original.props == old(original.props) && original.TwoLevel()
    ensures original.props[name].target.props == old(original.props[name].target.props)[field := Plain(v)]
    ensures written == original.Serialize()
    ensures written == old(original.SerializeAssigned(original.props[name].target, field, v))
  {
    var shared := original.props[name].target;
    ghost var before := shared.Fields();
    ghost var expected := original.SerializeAssigned(shared, field, v);
    shared.Assign(field, v);
    assert shared.Fields() == before[field := v];
    assert original.TwoLevel();
    SpreadCopySerializesAlike(copy, original);
    written := copy.Serialize();
    assert written == expected;
  }

  /** `original.name = v` after the spread copy `copy` was taken, followed by
      serializing the copy: the assignment lands on the original's own slot,
      which the copy does not share, so what is written is the original as it
      was before the assignment. */
  method AssignAfterCopy(original: JsObject, copy: JsObject, name: string, v: Value) returns (written: Record)
    requires original.TwoLevel() && !v.Obj?
    requires copy.props == original.props && copy !in original.Children() && copy != original
    modifies original
    ensures original.props == old(original.props)[name := Plain(v)]
    ensures written == old(original.Serialize())
  {
    SpreadCopySerializesAlike(copy, original);
    ghost var snapshot := copy.Serialize();
    original.Assign(name, v);
    written := copy.Serialize();
    assert written == snapshot;
  }

  /** A spread copy with `name` then set to `v` is written as the original with
      that one field replaced. */
  lemma AssignedCopySerializes(copy: JsObject, original: JsObject, name: string, v: Value)
    requires copy.props == original.props[name := Plain(v)] && !v.Obj?
    requires original.TwoLevel() && copy !in original.Children()
    ensures copy.Children() <= original.Children()
    ensures copy.TwoLevel()
    ensures copy.Serialize() == original.Serialize()[name := v]
  {
  }
}
