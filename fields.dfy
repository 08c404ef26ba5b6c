/** Meta/debug separation and recursive Error serialisation (src/lib/fields.ts). */
module FieldProcessing {
  import opened Wrappers
  import opened Values

  /** The `$`-prefixed part of a field map. */
  function MetaPart(fields: Fields): Fields {
    map k | k in fields && StartsWithDollar(k) :: fields[k]
  }

  /** Everything else. */
  function DebugPart(fields: Fields): Fields {
    map k | k in fields && !StartsWithDollar(k) :: fields[k]
  }

  /** The two parts partition the input: each key lands in exactly one, by its marker, with its value unchanged. */
  lemma SeparationPartitions(fields: Fields)
    ensures MetaPart(fields).Keys !! DebugPart(fields).Keys
    ensures MetaPart(fields).Keys + DebugPart(fields).Keys == fields.Keys
    ensures forall k :: k in MetaPart(fields) <==> k in fields && StartsWithDollar(k)
    ensures forall k :: k in DebugPart(fields) ==> DebugPart(fields)[k] == fields[k]
    ensures forall k :: k in MetaPart(fields) ==> MetaPart(fields)[k] == fields[k]
    ensures fields == map[] ==> MetaPart(fields) == map[] && DebugPart(fields) == map[]
  {
  }

  /** `separateFields`: one pass over the entries, filling `meta` and `debug`. */
  method SeparateFields(fields: Fields) returns (meta: Fields, debug: Fields)
    ensures meta == MetaPart(fields) && debug == DebugPart(fields)
  {
    meta, debug := map[], map[];
    var todo := fields.Keys;
    while todo != {}
      invariant todo <= fields.Keys
      invariant meta == map k | k in fields && k !in todo && StartsWithDollar(k) :: fields[k]
      invariant debug == map k | k in fields && k !in todo && !StartsWithDollar(k) :: fields[k]
      decreases todo
    {
      var key :| key in todo;
      if StartsWithDollar(key) {
        meta := meta[key := fields[key]];
      } else {
        debug := debug[key := fields[key]];
      }
      todo := todo - {key};
    }
  }

  /** No Error instance occurs anywhere in the value. */
  predicate ErrorFree(v: Value) {
    match v
    case Err(_, _, _, _) => false
    case Arr(elems) => forall i :: 0 <= i < |elems| ==> ErrorFree(elems[i])
    case Obj(props) => forall k :: k in props ==> ErrorFree(props[k])
    case _ => true
  }

  /** The plain object an Error serialises to. */
  function ErrorRecord(name: string, message: string, stack: Option<string>, subclass: Option<string>): (r: Fields)
    ensures r.Keys == {"name", "message", "stack"} + (if subclass.Some? then {"_class"} else {})
    ensures r["name"] == Str(name) && r["message"] == Str(message)
    ensures r["stack"] == (if stack.Some? then Str(stack.value) else Undefined)
    ensures "_class" in r <==> subclass.Some?
    ensures subclass.Some? ==> r["_class"] == Str(subclass.value)
  {
    var base := map["name" := Str(name), "message" := Str(message),
                     "stack" := if stack.Some? then Str(stack.value) else Undefined];
    if subclass.Some? then base["_class" := Str(subclass.value)] else base
  }

  /** `serializeErrors`: replaces every Error by its record, keeping the shape of arrays and objects. */
  function SerializeErrors(v: Value): (r: Value)
    ensures ErrorFree(r)
    ensures v.Arr? ==> r.Arr? && |r.elems| == |v.elems|
    ensures v.Obj? ==> r.Obj? && r.props.Keys == v.props.Keys
    decreases v
  {
    match v
    case Err(name, message, stack, subclass) => Obj(ErrorRecord(name, message, stack, subclass))
    case Arr(elems) => Arr(seq(|elems|, i requires 0 <= i < |elems| => SerializeErrors(elems[i])))
    case Obj(props) => Obj(map k | k in props :: SerializeErrors(props[k]))
    case _ => v
  }

  /** Errors become their record; arrays and objects are mapped element- and value-wise; primitives, null and undefined pass through. */
  lemma SerializeErrorsCases(v: Value)
    ensures v.Err? ==> SerializeErrors(v) == Obj(ErrorRecord(v.name, v.message, v.stack, v.subclass))
    ensures v.Arr? ==> forall i :: 0 <= i < |v.elems| ==> SerializeErrors(v).elems[i] == SerializeErrors(v.elems[i])
    ensures v.Obj? ==> forall k :: k in v.props ==> SerializeErrors(v).props[k] == SerializeErrors(v.props[k])
    ensures !v.Err? && !v.Arr? && !v.Obj? ==> SerializeErrors(v) == v
  {
  }

  /** On a value without Errors the serialiser is the identity. */
  lemma {:induction false} SerializeErrorsIdentity(v: Value)
    requires ErrorFree(v)
    ensures SerializeErrors(v) == v
    decreases v
  {
    match v
    case Arr(elems) =>
      forall i | 0 <= i < |elems| ensures SerializeErrors(elems[i]) == elems[i] {
        SerializeErrorsIdentity(elems[i]);
      }
      assert SerializeErrors(v).elems == elems;
    case Obj(props) =>
      forall k | k in props ensures SerializeErrors(props[k]) == props[k] {
        SerializeErrorsIdentity(props[k]);
      }
      assert SerializeErrors(v).props == props;
    case _ =>
  }

  /** Serialising twice is serialising once. */
  lemma SerializeErrorsIdempotent(v: Value)
    ensures SerializeErrors(SerializeErrors(v)) == SerializeErrors(v)
  {
    SerializeErrorsIdentity(SerializeErrors(v));
  }
}
