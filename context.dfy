/** The scoped request context (src/lib/context.ts), held as an explicit store rather than async-local storage. */
module Context {
  import opened Wrappers
  import opened Values

  type Context = map<string, Value>

  const NoContextMessage: string := "getContext called outside of addContext"

  /** `{ ...parent, ...patch }`: the patch shallow-merged over the parent, or over `{}` when there is none. */
  function Merged(parent: Option<Context>, patch: Context): (c: Context)
    ensures c.Keys == parent.GetOr(map[]).Keys + patch.Keys
  {
    parent.GetOr(map[]) + patch
  }

  /** Patch keys win on conflict; parent keys absent from the patch are inherited unchanged. */
  lemma MergedPrecedence(parent: Option<Context>, patch: Context)
    ensures forall k :: k in patch ==> Merged(parent, patch)[k] == patch[k]
    ensures parent.Some? ==> forall k :: k in parent.value && k !in patch ==> Merged(parent, patch)[k] == parent.value[k]
    ensures parent.None? ==> Merged(parent, patch) == patch
  {
  }

  class ContextStore {
    /** The context of the innermost active `addContext`, if any. */
    var current: Option<Context>

    constructor()
      ensures current == None
    {
      current := None;
    }

    /** `maybeContext`: the current context, `null` (None) outside every `addContext`. */
    function MaybeContext(): (r: Option<Context>)
      reads this
      ensures r == current
      ensures r.None? <==> GetContext().Failure?
      ensures r.Some? ==> GetContext() == Success(r.value)
    {
      current
    }

    /** `getContext`: the current context, or a failure outside every `addContext`. */
    function GetContext(): (r: Result<Context, string>)
      reads this
      ensures r.Failure? <==> current.None?
      ensures r.Failure? ==> r.error == NoContextMessage
      ensures r.Success? ==> current == Some(r.value)
    {
      match current
      case None => Failure(NoContextMessage)
      case Some(c) => Success(c)
    }

    /** Entry into a scope: make the merged context current and hand back the one it replaces. */
    method Enter(patch: Context) returns (saved: Option<Context>)
      modifies this
      ensures saved == old(current)
      ensures current == Some(Merged(old(current), patch))
    {
      saved := current;
      current := Some(Merged(current, patch));
    }

    /** Exit from a scope: reinstate the context saved on entry. */
    method Restore(saved: Option<Context>)
      modifies this
      ensures current == saved
    {
      current := saved;
    }

    /** `addContext(patch, body)`: run the body under the merged context and return its result, restoring the previous context. */
    method AddContext<T>(patch: Context, body: Option<Context> -> T) returns (r: T)
      modifies this
      ensures r == body(Some(Merged(old(current), patch)))
      ensures current == old(current)
    {
      var saved := Enter(patch);
      r := body(MaybeContext());
      Restore(saved);
    }
  }

  /** Nested scopes see the merge of both patches, the inner winning; every exit restores the enclosing context. */
  method NestedScopes()
  {
    var store := new ContextStore();
    assert store.MaybeContext() == None;
    assert store.GetContext() == Failure(NoContextMessage);
    var outer := store.Enter(map["requestId" := Str("123")]);
    assert map[] + map["requestId" := Str("123")] == map["requestId" := Str("123")];
    var inner := store.Enter(map["userId" := Num(42)]);
    assert map["requestId" := Str("123")] + map["userId" := Num(42)] == map["requestId" := Str("123"), "userId" := Num(42)];
    assert store.MaybeContext() == Some(map["requestId" := Str("123"), "userId" := Num(42)]);
    store.Restore(inner);
    var shadow := store.Enter(map["requestId" := Str("456")]);
    assert map["requestId" := Str("123")] + map["requestId" := Str("456")] == map["requestId" := Str("456")];
    assert store.MaybeContext() == Some(map["requestId" := Str("456")]);
    store.Restore(shadow);
    assert store.MaybeContext() == Some(map["requestId" := Str("123")]);
    store.Restore(outer);
    assert store.MaybeContext() == None;
    var r := store.AddContext(map["requestId" := Str("123")], (c: Option<Context>) => c);
    assert map[] + map["requestId" := Str("123")] == map["requestId" := Str("123")];
    assert r == Some(map["requestId" := Str("123")]);
    assert store.MaybeContext() == None;
  }
}
