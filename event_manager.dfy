/** The event listener registry: per event type a set of listeners, each the
    callable itself or a weak wrapper around it, and a name-to-type table
    filled as types with an event name are subscribed to. Whether a weak
    wrapper still resolves is given by an explicit set of live callables; a
    scheduled callback task is one invocation record. */
module EventManager {
  import opened Wrappers
  import opened Json
  import opened GatewayApi

  /** An event class: its identity and its `__event_name__`, if it has one. */
  datatype EventType = EventType(id: nat, eventName: Option<string>)

  /** A callable, identified by its hash. */
  type CallbackId = int

  /** `WeakFunc(callback)`: a weak reference that remembers the hash of its
      target. */
  datatype WeakFunc = WeakFunc(target: CallbackId)

  /** `WeakFunc.unwrap`: the target while it is alive, ReferenceError after. */
  function Unwrap(w: WeakFunc, alive: set<CallbackId>): (r: Result<CallbackId, Failure>)
    ensures r.Success? <==> w.target in alive
    ensures r.Success? ==> r.value == w.target
    ensures r.Failure? ==> r.error == ReferenceError
  {
    if w.target in alive then Success(w.target) else Failure(ReferenceError)
  }

  /** `WeakFunc.unwrap_or`: what `unwrap` returns, or the default where
      `unwrap` would raise. */
  function UnwrapOr(w: WeakFunc, alive: set<CallbackId>, default: Option<CallbackId>): (r: Option<CallbackId>)
    ensures r == (match Unwrap(w, alive) case Success(c) => Some(c) case Failure(_) => default)
  {
    if w.target in alive then Some(w.target) else default
  }

  /** A listener entry: the callable, or a weak wrapper around it. */
  datatype Listener = Strong(callback: CallbackId) | Weak(ref: WeakFunc)

  /** The hash of an entry: a wrapper hashes as the callable it wraps. */
  function Hash(l: Listener): CallbackId {
    match l
    case Strong(c) => c
    case Weak(w) => w.target
  }

  /** Entry equality as the wrapper's `__eq__` defines it: two entries are
      equal when they hash alike, so a callable equals its own wrapper. */
  predicate SameCallback(a: Listener, b: Listener) {
    Hash(a) == Hash(b)
  }

  lemma WrapperEqualsCallable(c: CallbackId)
    ensures SameCallback(Strong(c), Weak(WeakFunc(c)))
    ensures forall d :: SameCallback(Strong(d), Weak(WeakFunc(c))) <==> d == c
  {
  }

  /** A Python set holds no two equal entries. */
  predicate Distinct(s: set<Listener>) {
    forall a, b :: a in s && b in s && Hash(a) == Hash(b) ==> a == b
  }

  function Callbacks(s: set<Listener>): set<CallbackId> {
    set l | l in s :: Hash(l)
  }

  /** `s.add(l)`: an entry equal to one already present is not added. */
  function Added(s: set<Listener>, l: Listener): (r: set<Listener>)
    requires Distinct(s)
    ensures Distinct(r)
    ensures Callbacks(r) == Callbacks(s) + {Hash(l)}
    ensures Hash(l) in Callbacks(s) ==> r == s
    ensures Hash(l) !in Callbacks(s) ==> r == s + {l}
  {
    if Hash(l) in Callbacks(s) then s
    else
      assert Callbacks(s + {l}) == Callbacks(s) + {Hash(l)};
      s + {l}
  }

  /** `s.remove(callback)`: drops the entry equal to the callable, or raises
      KeyError when there is none. */
  function Removed(s: set<Listener>, cb: CallbackId): (r: Result<set<Listener>, Failure>)
    requires Distinct(s)
    ensures r.Success? <==> cb in Callbacks(s)
    ensures r.Failure? ==> r.error == KeyError
    ensures r.Success? ==>
      && r.value <= s && Distinct(r.value)
      && Callbacks(r.value) == Callbacks(s) - {cb}
      && |r.value| == |s| - 1
  {
    if cb in Callbacks(s) then
      var kept := set l | l in s && Hash(l) != cb;
      var gone :| gone in s && Hash(gone) == cb;
      assert kept == s - {gone};
      assert Callbacks(kept) == Callbacks(s) - {cb};
      Success(kept)
    else Failure(KeyError)
  }

  /** A strong entry is always live; a weak one while its target is alive. */
  predicate Live(l: Listener, alive: set<CallbackId>) {
    match l
    case Strong(_) => true
    case Weak(w) => UnwrapOr(w, alive, None).Some?
  }

  /** The entries a dispatch pass keeps. */
  function Pruned(s: set<Listener>, alive: set<CallbackId>): set<Listener> {
    set l | l in s && Live(l, alive)
  }

  /** The callables a dispatch pass invokes. */
  function LiveCallbacks(s: set<Listener>, alive: set<CallbackId>): set<CallbackId> {
    set l | l in s && Live(l, alive) :: Hash(l)
  }

  lemma LiveCallbacksAdd(s: set<Listener>, l: Listener, alive: set<CallbackId>)
    requires Live(l, alive)
    ensures LiveCallbacks(s + {l}, alive) == LiveCallbacks(s, alive) + {Hash(l)}
  {
  }

  /** The task `_invoke_callback(event=event, callback=callback)`. */
  datatype Invocation<E> = Invocation(callback: CallbackId, event: E)

  function InvokedCallbacks<E>(tasks: seq<Invocation<E>>): set<CallbackId> {
    set i | 0 <= i < |tasks| :: tasks[i].callback
  }

  /** Exactly one task per callable of `cbs`, each carrying `event`. */
  ghost predicate OneTaskEach<E>(tasks: seq<Invocation<E>>, cbs: set<CallbackId>, event: E) {
    && InvokedCallbacks(tasks) == cbs
    && (forall i, j :: 0 <= i < j < |tasks| ==> tasks[i].callback != tasks[j].callback)
    && (forall i :: 0 <= i < |tasks| ==> tasks[i].event == event)
  }

  /** One task each means as many tasks as callables. */
  lemma {:induction false} OneTaskEachCount<E>(tasks: seq<Invocation<E>>, cbs: set<CallbackId>, event: E)
    requires OneTaskEach(tasks, cbs, event)
    ensures |tasks| == |cbs|
  {
    if tasks != [] {
      var init := tasks[..|tasks| - 1];
      var last := tasks[|tasks| - 1];
      assert InvokedCallbacks(init) == cbs - {last.callback} by {
        forall c | c in cbs - {last.callback} ensures c in InvokedCallbacks(init) {
          var i :| 0 <= i < |tasks| && tasks[i].callback == c;
          assert i < |tasks| - 1 && init[i] == tasks[i];
        }
        forall i | 0 <= i < |init| ensures init[i].callback in cbs - {last.callback} {
          assert init[i] == tasks[i];
        }
      }
      OneTaskEachCount(init, cbs - {last.callback}, event);
    }
  }

  class BaseEventManager<E> {
    /** `_listeners`, a defaultdict of sets: a missing type reads as empty */
    var listeners: map<EventType, set<Listener>>
    /** `_event_map`: event name to event type */
    var eventMap: map<string, EventType>
    /** every callback task created, in order */
    var scheduled: seq<Invocation<E>>

    ghost predicate Valid()
      reads this
    {
      forall t :: t in listeners ==> Distinct(listeners[t])
    }

    function ListenersOf(t: EventType): (s: set<Listener>)
      reads this
      requires Valid()
      ensures Distinct(s)
    {
      if t in listeners then listeners[t] else {}
    }

    constructor ()
      ensures Valid() && listeners == map[] && eventMap == map[] && scheduled == []
    {
      listeners := map[];
      eventMap := map[];
      scheduled := [];
    }

    /** Registers the callable, weakly wrapped unless `weakRef` is false; a
        second subscription of the same callable, strong or weak, leaves the
        first entry. The first type subscribed under an event name owns it. */
    method Subscribe(t: EventType, cb: CallbackId, weakRef: bool)
      requires Valid()
      modifies this`listeners, this`eventMap
      ensures Valid()
      ensures listeners == old(listeners)[t := Added(old(ListenersOf(t)), if weakRef then Weak(WeakFunc(cb)) else Strong(cb))]
      ensures Callbacks(ListenersOf(t)) == Callbacks(old(ListenersOf(t))) + {cb}
      ensures eventMap ==
        if t.eventName.Some? && t.eventName.value !in old(eventMap)
        then old(eventMap)[t.eventName.value := t] else old(eventMap)
    {
      var entry := if weakRef then Weak(WeakFunc(cb)) else Strong(cb);
      if t.eventName.Some? && t.eventName.value !in eventMap {
        eventMap := eventMap[t.eventName.value := t];
      }
      listeners := listeners[t := Added(ListenersOf(t), entry)];
    }

    /** Removes the entry equal to the callable, or raises KeyError; the
        defaultdict lookup leaves an (empty) set for the type either way. */
    method Unsubscribe(t: EventType, cb: CallbackId) returns (r: Outcome<Failure>)
      requires Valid()
      modifies this`listeners
      ensures Valid()
      ensures r == if cb in Callbacks(old(ListenersOf(t))) then Pass else Fail(KeyError)
      ensures t in listeners && listeners.Keys == old(listeners).Keys + {t}
      ensures r.Pass? ==> Callbacks(ListenersOf(t)) == Callbacks(old(ListenersOf(t))) - {cb}
      ensures forall u :: u != t ==> ListenersOf(u) == old(ListenersOf(u))
      ensures listeners == old(listeners)[t :=
        match Removed(old(ListenersOf(t)), cb)
        case Success(s) => s
        case Failure(_) => old(ListenersOf(t))]
    {
      var current := ListenersOf(t);
      listeners := listeners[t := current];
      var removed := Removed(current, cb);
      if removed.Failure? {
        return Fail(KeyError);
      }
      listeners := listeners[t := removed.value];
      return Pass;
    }

    /** `event_type or event_map.get(event_name) if event_name else None`. */
    function ResolveType(eventType: Option<EventType>, eventName: Option<string>): (r: Option<EventType>)
      reads this
      ensures eventType.Some? ==> r == eventType
      ensures eventType.None? ==>
        (r.Some? <==> eventName.Some? && eventName.value != "" && eventName.value in eventMap)
      ensures eventType.None? && r.Some? ==> r.value == eventMap[eventName.value]
    {
      if eventType.Some? then eventType
      else if eventName.Some? && eventName.value != "" && eventName.value in eventMap
      then Some(eventMap[eventName.value])
      else None
    }

    /** Resolves the event type, converts the payload, schedules one task per
        live listener and afterwards drops the dead weak entries of that type.
        An unresolvable type schedules nothing and changes nothing, and
        returns None even when tasks were asked for. */
    method Dispatch(
      payload: Json, eventType: Option<EventType>, eventName: Option<string>, returnTasks: bool,
      alive: set<CallbackId>, convert: (Json, EventType) -> Option<E>)
      returns (r: Result<Option<seq<Invocation<E>>>, Failure>)
      requires Valid()
      modifies this`listeners, this`scheduled
      ensures Valid()
      ensures ResolveType(eventType, eventName).None? ==>
        r.Success? && r.value.None? && unchanged(this)
      ensures ResolveType(eventType, eventName).Some? &&
              convert(payload, ResolveType(eventType, eventName).value).None? ==>
        r.Failure? && r.error == DecodeError && unchanged(this)
      ensures ResolveType(eventType, eventName).Some? &&
              convert(payload, ResolveType(eventType, eventName).value).Some? ==>
        var t := ResolveType(eventType, eventName).value;
        var before := old(ListenersOf(t));
        && listeners == old(listeners)[t := Pruned(before, alive)]
        && |old(scheduled)| <= |scheduled|
        && scheduled[..|old(scheduled)|] == old(scheduled)
        && var tasks := scheduled[|old(scheduled)|..];
        && OneTaskEach(tasks, LiveCallbacks(before, alive), convert(payload, t).value)
        && r.Success?
        && (if returnTasks then r.value == Some(tasks) else r.value.None?)
    {
      var resolved := ResolveType(eventType, eventName);
      if resolved.None? {
        return Success(None);
      }
      var t := resolved.value;
      var event := convert(payload, t);
      if event.None? {
        return Failure(DecodeError);
      }
      var before := ListenersOf(t);
      listeners := listeners[t := before];
      var tasks, dead := ScheduleLive(before, event.value, alive);
      listeners := listeners[t := before - dead];
      assert scheduled[|old(scheduled)|..] == tasks;
      if returnTasks {
        return Success(Some(tasks));
      }
      return Success(None);
    }

    /** The loop over a type's listeners: one task per live entry, and the
        dead weak entries collected for removal. */
    method ScheduleLive(before: set<Listener>, event: E, alive: set<CallbackId>)
      returns (tasks: seq<Invocation<E>>, dead: set<Listener>)
      requires Distinct(before)
      modifies this`scheduled
      ensures before - dead == Pruned(before, alive)
      ensures OneTaskEach(tasks, LiveCallbacks(before, alive), event)
      ensures scheduled == old(scheduled) + tasks
    {
      var remaining := before;
      dead := {};
      tasks := [];
      while remaining != {}
        invariant remaining <= before
        invariant dead == set l | l in before - remaining && !Live(l, alive)
        invariant InvokedCallbacks(tasks) == LiveCallbacks(before - remaining, alive)
        invariant forall i, j :: 0 <= i < j < |tasks| ==> tasks[i].callback != tasks[j].callback
        invariant forall i :: 0 <= i < |tasks| ==> tasks[i].event == event
        invariant scheduled == old(scheduled) + tasks
        decreases remaining
      {
        var l :| l in remaining;
        var callback: CallbackId;
        match l {
          case Weak(w) =>
            var f := UnwrapOr(w, alive, None);
            if f.None? {
              dead := dead + {l};
              remaining := remaining - {l};
              continue;
            }
            callback := f.value;
          case Strong(c) =>
            callback := c;
        }
        assert Hash(l) == callback && l !in before - remaining;
        assert callback !in InvokedCallbacks(tasks);
        var task := Invocation(callback, event);
        TaskAppended(tasks, task);
        assert before - (remaining - {l}) == (before - remaining) + {l};
        LiveCallbacksAdd(before - remaining, l, alive);
        scheduled := scheduled + [task];
        tasks := tasks + [task];
        remaining := remaining - {l};
      }
      assert before - dead == Pruned(before, alive);
    }

    lemma TaskAppended(tasks: seq<Invocation<E>>, task: Invocation<E>)
      ensures InvokedCallbacks(tasks + [task]) == InvokedCallbacks(tasks) + {task.callback}
    {
      var all := tasks + [task];
      assert all[|tasks|] == task;
      forall c | c in InvokedCallbacks(tasks) ensures c in InvokedCallbacks(all) {
        var i :| 0 <= i < |tasks| && tasks[i].callback == c;
        assert all[i] == tasks[i];
      }
    }
  }

  /** Two listeners on one type, one of them a weak entry whose target has
      died: a dispatch pass invokes exactly the live one and removes the dead
      entry, without raising. */
  method DispatchSkipsDeadListener(live: CallbackId, dead: CallbackId, t: EventType, body: Json)
    requires live != dead
  {
    var manager := new BaseEventManager<Json>();
    manager.Subscribe(t, live, false);
    assert Callbacks({}) == {};
    assert manager.ListenersOf(t) == {Strong(live)};
    assert Callbacks({Strong(live)}) == {live};
    manager.Subscribe(t, dead, true);
    assert Hash(Weak(WeakFunc(dead))) !in {live};
    assert t in manager.listeners && manager.listeners[t] == {Strong(live)} + {Weak(WeakFunc(dead))};
    assert manager.ListenersOf(t) == {Strong(live), Weak(WeakFunc(dead))};
    assert Pruned({Strong(live), Weak(WeakFunc(dead))}, {live}) == {Strong(live)};
    assert LiveCallbacks({Strong(live), Weak(WeakFunc(dead))}, {live}) == {live};
    var r := manager.Dispatch(body, Some(t), None, true, {live}, (p: Json, u: EventType) => Some(p));
    assert r.Success? && r.value.Some?;
    var tasks := r.value.value;
    OneTaskEachCount(tasks, {live}, body);
    assert InvokedCallbacks(tasks) == {live} && |tasks| == 1 && tasks[0] == Invocation(live, body);
    assert manager.ListenersOf(t) == {Strong(live)};
  }
}
