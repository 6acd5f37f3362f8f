/**
 * The no-op tag-context builder: the one builder instance the tagging API
 * hands out when tagging is disabled. Put and Remove reject null arguments
 * and otherwise return the builder unchanged; Build and BuildScoped always
 * return the no-op context and the no-op scope, whatever came before.
 */
module Tags {
  import opened Wrappers

  datatype TagKey = TagKey(name: string)
  datatype TagValue = TagValue(text: string)

  /** ArgumentNullException, with the name of the parameter that was null. */
  datatype ArgumentError = ArgumentNull(paramName: string)

  /**
   * A tag context: the no-op context, or one carrying tags. The no-op
   * builder never produces the second kind; it is here only so that the
   * contracts below can say that Build returns nothing else.
   */
  datatype TagContext = NoopTagContext | TagContext(tags: map<TagKey, TagValue>)

  /**
   * A disposable scope: the no-op scope, or one that installs a tag
   * context. As with TagContext, the second kind exists only so that the
   * contracts can say BuildScoped never returns it.
   */
  datatype Disposable = NoopDisposable | ContextScope(context: TagContext)

  /**
   * The builder has no state and a single constructor, so the value below
   * is the only instance there is.
   */
  datatype NoopTagContextBuilder = NoopTagContextBuilder {

    function Put(key: Option<TagKey>, value: Option<TagValue>): (r: Result<NoopTagContextBuilder, ArgumentError>)
      ensures r.Success? <==> key.Some? && value.Some?
      ensures key.None? ==> r == Failure(ArgumentNull("key"))
      ensures key.Some? && value.None? ==> r == Failure(ArgumentNull("value"))
      ensures r.Success? ==> r.value == this
    {
      if key.None? then Failure(ArgumentNull("key"))
      else if value.None? then Failure(ArgumentNull("value"))
      else Success(this)
    }

    function Remove(key: Option<TagKey>): (r: Result<NoopTagContextBuilder, ArgumentError>)
      ensures r.Success? <==> key.Some?
      ensures key.None? ==> r == Failure(ArgumentNull("key"))
      ensures r.Success? ==> r.value == this
    {
      if key.None? then Failure(ArgumentNull("key")) else Success(this)
    }

    function Build(): (context: TagContext)
      ensures context == NoopTagContext
    {
      NoopTagContext
    }

    function BuildScoped(): (scope: Disposable)
      ensures scope == NoopDisposable
    {
      NoopDisposable
    }
  }

  /** The singleton instance. */
  const Instance: NoopTagContextBuilder := NoopTagContextBuilder

  /** Every builder value is the singleton. */
  lemma OnlyInstance(b: NoopTagContextBuilder)
    ensures b == Instance
  {
  }

  /** One call on a builder, with its possibly null arguments. */
  datatype BuilderCall = PutCall(key: Option<TagKey>, value: Option<TagValue>) | RemoveCall(removed: Option<TagKey>)

  /** The call has no null argument. */
  predicate Accepted(call: BuilderCall) {
    match call
    case PutCall(k, v) => k.Some? && v.Some?
    case RemoveCall(k) => k.Some?
  }

  /** The exception a rejected call throws. */
  function ErrorOf(call: BuilderCall): ArgumentError
    requires !Accepted(call)
  {
    match call
    case PutCall(k, v) => if k.None? then ArgumentNull("key") else ArgumentNull("value")
    case RemoveCall(_) => ArgumentNull("key")
  }

  function Apply(b: NoopTagContextBuilder, call: BuilderCall): Result<NoopTagContextBuilder, ArgumentError> {
    match call
    case PutCall(k, v) => b.Put(k, v)
    case RemoveCall(k) => b.Remove(k)
  }

  /** A fluent chain of calls: each call is made on the builder the previous one returned; the first throw ends it. */
  function ApplyAll(b: NoopTagContextBuilder, calls: seq<BuilderCall>): Result<NoopTagContextBuilder, ArgumentError>
    decreases |calls|
  {
    if calls == [] then Success(b)
    else
      match Apply(b, calls[0])
      case Failure(e) => Failure(e)
      case Success(next) => ApplyAll(next, calls[1..])
  }

  /**
   * A chain of Put and Remove calls succeeds iff no call has a null
   * argument, and then returns the same builder; otherwise it throws the
   * error of the first call that has one.
   */
  lemma {:induction false} ApplyAllOutcome(b: NoopTagContextBuilder, calls: seq<BuilderCall>)
    ensures ApplyAll(b, calls).Success? <==> forall i | 0 <= i < |calls| :: Accepted(calls[i])
    ensures ApplyAll(b, calls).Success? ==> ApplyAll(b, calls).value == b
    ensures ApplyAll(b, calls).Failure? ==>
      exists i | 0 <= i < |calls| ::
        && !Accepted(calls[i])
        && (forall j | 0 <= j < i :: Accepted(calls[j]))
        && ApplyAll(b, calls).error == ErrorOf(calls[i])
    decreases |calls|
  {
    if calls != [] {
      var c := calls[0];
      if Accepted(c) {
        assert Apply(b, c) == Success(b);
        ApplyAllOutcome(b, calls[1..]);
        if ApplyAll(b, calls[1..]).Failure? {
          var i :| 0 <= i < |calls[1..]| && !Accepted(calls[1..][i])
            && (forall j | 0 <= j < i :: Accepted(calls[1..][j]))
            && ApplyAll(b, calls[1..]).error == ErrorOf(calls[1..][i]);
          assert calls[i + 1] == calls[1..][i];
          assert forall j | 0 <= j < i + 1 :: Accepted(calls[j]) by {
            forall j | 0 <= j < i + 1 ensures Accepted(calls[j]) {
              if j > 0 { assert calls[j] == calls[1..][j - 1]; }
            }
          }
        } else {
          forall i | 0 <= i < |calls| ensures Accepted(calls[i]) {
            if i > 0 { assert calls[i] == calls[1..][i - 1]; }
          }
        }
      } else {
        assert Apply(b, c) == Failure(ErrorOf(c));
        assert !Accepted(calls[0]);
      }
    }
  }

  /**
   * Whatever chain of calls produced the builder, Build and BuildScoped
   * return the no-op context and the no-op scope.
   */
  lemma BuildIgnoresHistory(calls: seq<BuilderCall>)
    requires forall i | 0 <= i < |calls| :: Accepted(calls[i])
    ensures ApplyAll(Instance, calls).Success?
    ensures ApplyAll(Instance, calls).value.Build() == NoopTagContext
    ensures ApplyAll(Instance, calls).value.BuildScoped() == NoopDisposable
  {
    ApplyAllOutcome(Instance, calls);
  }
}
