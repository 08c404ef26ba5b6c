/**
 * The JavaScript values that flow through the logging pipeline: primitives,
 * null, undefined, arrays, plain objects and Error instances.
 */
module Values {
  import opened Wrappers

  datatype Value =
    | Undefined
    | Null
    | Bool(b: bool)
    | Num(n: int)
    | Str(s: string)
    | Arr(elems: seq<Value>)
    | Obj(props: map<string, Value>)
      /** An Error instance: its name, message and stack, and the name of its
          constructor when that constructor is a subclass of Error. */
    | Err(name: string, message: string, stack: Option<string>, subclass: Option<string>)

  /** A field map attached to one log call (string keys, arbitrary values). */
  type Fields = map<string, Value>

  /** The reserved marker of meta fields. */
  const Marker: char := '$'

  predicate StartsWithDollar(key: string) {
    |key| > 0 && key[0] == Marker
  }

  /** `typeof v === 'object'` for a truthy value. */
  predicate IsObject(v: Value) {
    v.Arr? || v.Obj? || v.Err?
  }

  /** An array of strings. */
  function StrSeq(ss: seq<string>): seq<Value> {
    seq(|ss|, i requires 0 <= i < |ss| => Str(ss[i]))
  }
}
