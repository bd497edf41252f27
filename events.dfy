/**
 * The process-wide publish/subscribe registry: callbacks keyed by
 * (class name, event name, state), resolution of a publication along a
 * class's ancestor chain, the STARTED/FAILED/FINISHED wrapper, and the
 * decorator that restores a target's url and class path after a call.
 */
module Events {
  import opened Json

  datatype State = Any | Started | Failed | Finished | Progress

  /**
   * The registry key `"<class>.<event>.<STATE>"`. Class and method names are
   * Python identifiers and hold no dot, so the joined string and this triple
   * identify each other.
   */
  datatype EventKey = EventKey(cls: string, event: string, state: State)

  /** A subscribed callback, by identity. */
  type Callback = nat

  /** One call `callback(obj)` made by a publication. */
  datatype Invocation = Invocation(callback: Callback, subject: nat)

  /** Index of the most specific class in `chain` with an entry for (event, state), if any. */
  function FirstWith(handlers: map<EventKey, seq<Callback>>, chain: seq<string>, event: string, state: State): (r: Option<nat>)
    ensures r.Some? ==> r.value < |chain| && EventKey(chain[r.value], event, state) in handlers
    ensures r.Some? ==> forall j :: 0 <= j < r.value ==> EventKey(chain[j], event, state) !in handlers
    ensures r.None? ==> forall j :: 0 <= j < |chain| ==> EventKey(chain[j], event, state) !in handlers
  {
    if chain == [] then None
    else if EventKey(chain[0], event, state) in handlers then Some(0)
    else match FirstWith(handlers, chain[1..], event, state)
      case None => None
      case Some(i) => Some(i + 1)
  }

  /**
   * The callback list a publication fires: the ANY list of the most specific
   * class that has one, when that class comes strictly before the most
   * specific class with an exact entry (or no class has one); otherwise the
   * exact list; otherwise nothing.
   */
  function Selected(handlers: map<EventKey, seq<Callback>>, chain: seq<string>, event: string, state: State): seq<Callback>
  {
    var exact := FirstWith(handlers, chain, event, state);
    var any := FirstWith(handlers, chain, event, Any);
    if any.Some? && (exact.None? || any.value < exact.value) then handlers[EventKey(chain[any.value], event, Any)]
    else if exact.Some? then handlers[EventKey(chain[exact.value], event, state)]
    else []
  }

  /**
   * A publication fires only callbacks subscribed for this event, under
   * this state or ANY, by a class on the chain.
   */
  lemma SelectedFromChain(handlers: map<EventKey, seq<Callback>>, chain: seq<string>, event: string, state: State)
    ensures var fired := Selected(handlers, chain, event, state);
      fired == [] ||
      exists i, s :: 0 <= i < |chain| && (s == state || s == Any) &&
        EventKey(chain[i], event, s) in handlers && handlers[EventKey(chain[i], event, s)] == fired
  {
  }

  /** The calls made when `callbacks` fire for `subject`, in list order. */
  function Invocations(callbacks: seq<Callback>, subject: nat): (r: seq<Invocation>)
    ensures |r| == |callbacks|
    ensures forall i :: 0 <= i < |r| ==> r[i] == Invocation(callbacks[i], subject)
  {
    if callbacks == [] then [] else [Invocation(callbacks[0], subject)] + Invocations(callbacks[1..], subject)
  }

  /** The registry after appending `callback` to the list under `key`, creating it when missing. */
  function Subscribed(handlers: map<EventKey, seq<Callback>>, key: EventKey, callback: Callback): (r: map<EventKey, seq<Callback>>)
    ensures key in r
    ensures r[key] == (if key in handlers then handlers[key] else []) + [callback]
    ensures forall k :: k in handlers ==> k in r
    ensures forall k :: k in r && k != key ==> k in handlers && r[k] == handlers[k]
  {
    handlers[key := (if key in handlers then handlers[key] else []) + [callback]]
  }

  class Registry {
    /** EVENT_HANDLERS. */
    var handlers: map<EventKey, seq<Callback>>
    /** Every callback invocation made so far, in order. */
    var log: seq<Invocation>

    constructor()
      ensures handlers == map[] && log == []
    {
      handlers := map[];
      log := [];
    }

    /** `subscribe`: append the callback to the key's list; a missing state means ANY. */
    method Subscribe(cls: string, event: string, callback: Callback, state: Option<State>)
      modifies this
      ensures handlers == Subscribed(old(handlers), EventKey(cls, event, if state.Some? then state.value else Any), callback)
      ensures log == old(log)
    {
      var st := if state.Some? then state.value else Any;
      var key := EventKey(cls, event, st);
      if key !in handlers {
        handlers := handlers[key := []];
      }
      handlers := handlers[key := handlers[key] + [callback]];
    }

    /**
     * The walk of `publish` over the ancestor chain (most specific class
     * first): stop at the first exact entry, remembering the first ANY entry
     * met before it; the remembered ANY list, if any, replaces the exact one.
     */
    method Resolve(chain: seq<string>, event: string, state: State) returns (callbacks: seq<Callback>)
      ensures callbacks == Selected(handlers, chain, event, state)
    {
      var fallbacks: Option<seq<Callback>> := None;
      callbacks := [];
      ghost var anyAt: Option<nat> := None;
      ghost var exactAt: Option<nat> := None;
      var i := 0;
      while i < |chain|
        invariant 0 <= i <= |chain|
        invariant exactAt.None? && callbacks == []
        invariant forall j :: 0 <= j < i ==> EventKey(chain[j], event, state) !in handlers
        invariant anyAt.None? ==> forall j :: 0 <= j < i ==> EventKey(chain[j], event, Any) !in handlers
        invariant anyAt.Some? ==> anyAt.value < i && EventKey(chain[anyAt.value], event, Any) in handlers
        invariant anyAt.Some? ==> forall j :: 0 <= j < anyAt.value ==> EventKey(chain[j], event, Any) !in handlers
        invariant fallbacks.Some? <==> anyAt.Some?
        invariant anyAt.Some? ==> fallbacks.value == handlers[EventKey(chain[anyAt.value], event, Any)]
      {
        var eventKey := EventKey(chain[i], event, state);
        var backupKey := EventKey(chain[i], event, Any);
        if eventKey in handlers {
          callbacks := handlers[eventKey];
          exactAt := Some(i);
          break;
        } else if fallbacks.None? && backupKey in handlers {
          fallbacks := Some(handlers[backupKey]);
          anyAt := Some(i);
        }
        i := i + 1;
      }
      assert exactAt == FirstWith(handlers, chain, event, state);
      assert anyAt.Some? ==> anyAt == FirstWith(handlers, chain, event, Any);
      assert anyAt.None? && exactAt.None? ==> FirstWith(handlers, chain, event, Any).None?;
      if fallbacks.Some? {
        callbacks := fallbacks.value;
      }
    }

    /**
     * `publish`: return at once when nothing is subscribed; otherwise resolve
     * the callback list along the chain and call each callback in order.
     */
    method Publish(chain: seq<string>, subject: nat, event: string, state: State) returns (fired: seq<Callback>)
      modifies this`log
      ensures fired == Selected(handlers, chain, event, state)
      ensures |handlers| == 0 ==> fired == []
      ensures log == old(log) + Invocations(fired, subject)
    {
      if |handlers| == 0 {
        return [];
      }
      fired := Resolve(chain, event, state);
      var k := 0;
      while k < |fired|
        invariant 0 <= k <= |fired|
        invariant log == old(log) + Invocations(fired[..k], subject)
      {
        log := log + [Invocation(fired[k], subject)];
        k := k + 1;
      }
      assert fired[..k] == fired;
    }

    /**
     * `evented`: publish STARTED, run the wrapped call (here given by its
     * outcome), publish FAILED only if it raised, publish FINISHED in every
     * case, and pass the outcome through unchanged.
     */
    method Evented(chain: seq<string>, subject: nat, event: string, call: Result<Value>) returns (r: Result<Value>)
      modifies this`log
      ensures r == call
      ensures log == old(log)
        + Invocations(Selected(handlers, chain, event, Started), subject)
        + (if call.Err? then Invocations(Selected(handlers, chain, event, State.Failed), subject) else [])
        + Invocations(Selected(handlers, chain, event, Finished), subject)
    {
      var started := Publish(chain, subject, event, Started);
      if call.Err? {
        var failed := Publish(chain, subject, event, State.Failed);
      }
      var finished := Publish(chain, subject, event, Finished);
      r := call;
    }
  }

  /** Publication with an empty registry fires nothing. */
  lemma EmptyRegistryFiresNothing(chain: seq<string>, event: string, state: State)
    ensures Selected(map[], chain, event, state) == []
  {
  }

  /**
   * Callbacks fire in subscription order: after two subscriptions to a
   * class's exact (event, state) entry, with no ANY entry for that class, a
   * publication from that class fires the first callback, then the second.
   */
  lemma SubscriptionOrder(handlers: map<EventKey, seq<Callback>>, chain: seq<string>, event: string, state: State, first: Callback, second: Callback)
    requires |chain| > 0 && state != Any
    requires EventKey(chain[0], event, state) !in handlers && EventKey(chain[0], event, Any) !in handlers
    ensures var key := EventKey(chain[0], event, state);
      Selected(Subscribed(Subscribed(handlers, key, first), key, second), chain, event, state) == [first, second]
  {
  }

  /** When the most specific class with any entry has both an exact and an ANY entry, the exact list fires. */
  lemma {:induction false} ExactWinsWithinOneClass(handlers: map<EventKey, seq<Callback>>, chain: seq<string>, event: string, state: State, i: nat)
    requires i < |chain|
    requires EventKey(chain[i], event, state) in handlers && EventKey(chain[i], event, Any) in handlers
    requires forall j :: 0 <= j < i ==> EventKey(chain[j], event, state) !in handlers && EventKey(chain[j], event, Any) !in handlers
    ensures Selected(handlers, chain, event, state) == handlers[EventKey(chain[i], event, state)]
  {
    var exact := FirstWith(handlers, chain, event, state);
    var any := FirstWith(handlers, chain, event, Any);
    assert exact == Some(i);
    assert any == Some(i);
  }

  /**
   * An ANY entry on a class strictly more specific than every class with an
   * exact entry takes precedence over the exact entry further up the chain.
   */
  lemma {:induction false} AnyBeforeExactWins(handlers: map<EventKey, seq<Callback>>, chain: seq<string>, event: string, state: State, a: nat)
    requires a < |chain|
    requires EventKey(chain[a], event, Any) in handlers
    requires forall j :: 0 <= j <= a ==> EventKey(chain[j], event, state) !in handlers
    requires forall j :: 0 <= j < a ==> EventKey(chain[j], event, Any) !in handlers
    ensures Selected(handlers, chain, event, state) == handlers[EventKey(chain[a], event, Any)]
  {
    var any := FirstWith(handlers, chain, event, Any);
    assert any == Some(a);
  }

  /** With no ANY entry anywhere on the chain, the most specific exact entry fires. */
  lemma {:induction false} ExactWithoutAny(handlers: map<EventKey, seq<Callback>>, chain: seq<string>, event: string, state: State, e: nat)
    requires e < |chain|
    requires EventKey(chain[e], event, state) in handlers
    requires forall j :: 0 <= j < e ==> EventKey(chain[j], event, state) !in handlers
    requires forall j :: 0 <= j < |chain| ==> EventKey(chain[j], event, Any) !in handlers
    ensures Selected(handlers, chain, event, state) == handlers[EventKey(chain[e], event, state)]
  {
    var exact := FirstWith(handlers, chain, event, state);
    assert exact == Some(e);
  }

  /**
   * The docstring's reading (exact match anywhere first, ANY only as a last
   * resort) is not what the code does: a subclass's ANY callback shadows an
   * ancestor's exact STARTED callback.
   */
  lemma SubclassAnyShadowsAncestorExact()
    ensures var h := map[EventKey("Child", "wait", Any) := [1], EventKey("Base", "wait", Started) := [2]];
      Selected(h, ["Child", "Base"], "wait", Started) == [1]
  {
    var h := map[EventKey("Child", "wait", Any) := [1], EventKey("Base", "wait", Started) := [2]];
    AnyBeforeExactWins(h, ["Child", "Base"], "wait", Started, 0);
  }

  /**
   * The object `keep_path_and_url` wraps: its `url` attribute and its model
   * class's `path`, with "" standing for None.
   */
  class Target {
    var url: string
    var path: string
    /** Reading `url` succeeds (a model whose url cannot be resolved raises). */
    const urlReadable: bool
    /** `url` can be assigned (a model); on a collection it is a read-only property. */
    const urlSettable: bool
    /** The object has a `model_class` whose `path` can be read and assigned. */
    const hasModelClass: bool

    constructor(url: string, path: string, urlReadable: bool, urlSettable: bool, hasModelClass: bool)
      ensures this.url == url && this.path == path
      ensures this.urlReadable == urlReadable && this.urlSettable == urlSettable && this.hasModelClass == hasModelClass
    {
      this.url := url;
      this.path := path;
      this.urlReadable := urlReadable;
      this.urlSettable := urlSettable;
      this.hasModelClass := hasModelClass;
    }
  }

  /** What the wrapped call leaves behind: the url and class path it set, and how it ended. */
  datatype WrappedCall = WrappedCall(urlAfter: string, pathAfter: string, outcome: Result<Value>)

  /**
   * `keep_path_and_url`: remember the url and class path (reading errors are
   * swallowed), run the call, then put back whichever remembered value was
   * truthy, ignoring a read-only attribute. If the call raises, nothing is
   * put back.
   */
  method KeepPathAndUrl(t: Target, call: WrappedCall) returns (r: Result<Value>)
    modifies t
    ensures r == call.outcome
    ensures call.outcome.Err? ==> t.url == call.urlAfter && t.path == call.pathAfter
    ensures call.outcome.Ok? ==>
      t.url == (if t.urlReadable && old(t.url) != "" && t.urlSettable then old(t.url) else call.urlAfter)
    ensures call.outcome.Ok? ==>
      t.path == (if t.hasModelClass && old(t.path) != "" then old(t.path) else call.pathAfter)
  {
    var savedUrl := "";
    var savedPath := "";
    if t.hasModelClass {
      savedPath := t.path;
    }
    if t.urlReadable {
      savedUrl := t.url;
    }
    t.url, t.path := call.urlAfter, call.pathAfter;
    if call.outcome.Err? {
      return call.outcome;
    }
    if savedUrl != "" && t.urlSettable {
      t.url := savedUrl;
    }
    if savedPath != "" {
      t.path := savedPath;
    }
    r := call.outcome;
  }
}
