/** GameEventBus.cs: the process-wide typed publish/subscribe bus.
    Handlers are opaque delegate identities; what a handler does to the bus
    while it runs is given to Publish as a Reaction per handler. */
module EventBus {
  import opened Common
  import opened GameEvents

  /** The identity of a subscribed delegate (Action<T>). */
  type HandlerId = nat

  /** MAX_HISTORY: the history keeps at most this many entries. */
  const MaxHistory: nat := 50

  /** What a handler does when invoked: return normally, throw (caught by Publish),
      unsubscribe itself, or subscribe another handler to the same event type. */
  datatype Reaction = Returns | Throws | UnsubscribesItself | SubscribesHandler(other: HandlerId)

  /** The _handlers dictionary: event type to handler list, in subscription order. */
  type Registry = map<EventType, seq<HandlerId>>

  /** No type maps to an empty list and no list holds a handler twice. */
  ghost predicate WellFormed(m: Registry) {
    forall t :: t in m ==> m[t] != [] && NoDup(m[t])
  }

  /** The handlers registered for t, in subscription order. */
  function Registered(m: Registry, t: EventType): seq<HandlerId> {
    if t in m then m[t] else []
  }

  /** The registry after Subscribe<T>(h): create the list on first use, append h unless present. */
  function Subscribed(m: Registry, t: EventType, h: HandlerId): Registry {
    if t !in m then m[t := [h]]
    else if h in m[t] then m
    else m[t := m[t] + [h]]
  }

  /** The registry after Unsubscribe<T>(h): remove h from t's list and drop the entry once empty. */
  function Unsubscribed(m: Registry, t: EventType, h: HandlerId): Registry {
    if t !in m then m
    else
      var rest := RemoveFirst(m[t], h);
      if rest == [] then m - {t} else m[t := rest]
  }

  /** The history after one Publish: append, then evict the oldest entry past the cap. */
  function Logged(history: seq<EventType>, t: EventType): seq<EventType> {
    var h := history + [t];
    if |h| > MaxHistory then h[1..] else h
  }

  /** The effect on the registry of one handler invocation during dispatch of type t. */
  function Effect(m: Registry, t: EventType, h: HandlerId, r: Reaction): Registry {
    match r
    case Returns => m
    case Throws => m
    case UnsubscribesItself => Unsubscribed(m, t, h)
    case SubscribesHandler(other) => Subscribed(m, t, other)
  }

  /** The registry after the handlers hs have run, in that order, during dispatch of type t. */
  function Dispatched(m: Registry, t: EventType, hs: seq<HandlerId>, react: HandlerId -> Reaction): Registry
    decreases |hs|
  {
    if hs == [] then m else Dispatched(Effect(m, t, hs[0], react(hs[0])), t, hs[1..], react)
  }

  lemma {:induction false} DispatchedSnoc(m: Registry, t: EventType, hs: seq<HandlerId>, h: HandlerId, react: HandlerId -> Reaction)
    ensures Dispatched(m, t, hs + [h], react) == Effect(Dispatched(m, t, hs, react), t, h, react(h))
    decreases |hs|
  {
    if hs != [] {
      assert (hs + [h])[1..] == hs[1..] + [h];
      DispatchedSnoc(Effect(m, t, hs[0], react(hs[0])), t, hs[1..], h, react);
    }
  }

  // ---------------------------------------------------------------------------
  // Properties of the registry operations

  /** Subscribe keeps the registry well formed: the new list is non-empty and h is added at most once. */
  lemma SubscribedWellFormed(m: Registry, t: EventType, h: HandlerId)
    requires WellFormed(m)
    ensures WellFormed(Subscribed(m, t, h))
  {
    if t in m && h !in m[t] {
      var l := m[t] + [h];
      forall i, j | 0 <= i < j < |l| ensures l[i] != l[j] {
        if j < |m[t]| { assert l[i] == m[t][i] && l[j] == m[t][j]; }
      }
    }
  }

  /** Unsubscribe keeps the registry well formed: an emptied list loses its entry. */
  lemma UnsubscribedWellFormed(m: Registry, t: EventType, h: HandlerId)
    requires WellFormed(m)
    ensures WellFormed(Unsubscribed(m, t, h))
    ensures h !in Registered(Unsubscribed(m, t, h), t)
  {
    if t in m {
      RemoveFirstNoDup(m[t], h);
    }
  }

  /** Subscribing a handler already registered for the type changes nothing;
      a new handler goes to the end of the type's list. */
  lemma SubscribeIdempotent(m: Registry, t: EventType, h: HandlerId)
    ensures h in Registered(m, t) ==> Subscribed(m, t, h) == m
    ensures h !in Registered(m, t) ==> Registered(Subscribed(m, t, h), t) == Registered(m, t) + [h]
    ensures forall u :: u != t ==> Registered(Subscribed(m, t, h), u) == Registered(m, u)
  {
  }

  /** Unsubscribing from an unknown type, or a handler that is not registered, changes nothing. */
  lemma UnsubscribeAbsentIsNoop(m: Registry, t: EventType, h: HandlerId)
    requires WellFormed(m)
    requires h !in Registered(m, t)
    ensures Unsubscribed(m, t, h) == m
  {
    if t in m {
      assert RemoveFirst(m[t], h) == m[t];
    }
  }

  /** Unsubscribe undoes a Subscribe of a handler that was not registered before. */
  lemma UnsubscribeUndoesSubscribe(m: Registry, t: EventType, h: HandlerId)
    requires WellFormed(m)
    requires h !in Registered(m, t)
    ensures Unsubscribed(Subscribed(m, t, h), t, h) == m
  {
    if t in m {
      UndoOnExistingList(m, t, h);
    } else {
      UndoOnNewList(m, t, h);
    }
  }

  lemma UndoOnExistingList(m: Registry, t: EventType, h: HandlerId)
    requires t in m && m[t] != [] && h !in m[t]
    ensures Unsubscribed(Subscribed(m, t, h), t, h) == m
  {
    RemoveAppended(m[t], h);
  }

  lemma UndoOnNewList(m: Registry, t: EventType, h: HandlerId)
    requires t !in m
    ensures Unsubscribed(Subscribed(m, t, h), t, h) == m
  {
    assert RemoveFirst([h], h) == [];
    assert m[t := [h]] - {t} == m;
  }

  /** Removing an element just appended to a list that did not hold it gives the list back. */
  lemma {:induction false} RemoveAppended(l: seq<HandlerId>, h: HandlerId)
    requires h !in l
    ensures RemoveFirst(l + [h], h) == l
  {
    if l != [] {
      assert (l + [h])[1..] == l[1..] + [h];
      RemoveAppended(l[1..], h);
      assert l == [l[0]] + l[1..];
    }
  }

  /** Subscribing the same handler twice still invokes it exactly once per Publish. */
  lemma SubscribeTwiceInvokedOnce(m: Registry, t: EventType, h: HandlerId)
    requires WellFormed(m)
    ensures multiset(Reverse(Registered(Subscribed(Subscribed(m, t, h), t, h), t)))[h] == 1
  {
    SubscribedWellFormed(m, t, h);
    var m' := Subscribed(m, t, h);
    assert t in m';
    var l := Registered(m', t);
    assert NoDup(l);
    assert Subscribed(Subscribed(m, t, h), t, h) == Subscribed(m, t, h);
    assert h in l;
    var k :| 0 <= k < |l| && l[k] == h;
    ReverseMultiset(l);
    NoDupCount(l, k);
    assert multiset(l)[h] == 1;
    assert multiset(Reverse(l)) == multiset(l);
    assert multiset(Reverse(l))[h] == 1;
  }

  lemma {:induction false} ReverseMultiset<T>(s: seq<T>)
    ensures multiset(Reverse(s)) == multiset(s)
  {
    if s != [] {
      ReverseMultiset(s[1..]);
      assert s == [s[0]] + s[1..];
    }
  }

  /** In a list without duplicates, each element occurs exactly once. */
  lemma {:induction false} NoDupCount<T>(s: seq<T>, k: nat)
    requires NoDup(s) && k < |s|
    ensures multiset(s)[s[k]] == 1
  {
    if k == 0 {
      assert s == [s[0]] + s[1..];
      assert s[0] !in s[1..];
    } else {
      assert s == [s[0]] + s[1..];
      assert s[1..][k - 1] == s[k];
      assert NoDup(s[1..]);
      NoDupCount(s[1..], k - 1);
    }
  }

  /** Every Publish adds exactly one entry, the history never holds more than MaxHistory
      entries, and once full the oldest entry is the one evicted. */
  lemma LoggedBounded(history: seq<EventType>, t: EventType)
    requires |history| <= MaxHistory
    ensures |Logged(history, t)| <= MaxHistory
    ensures Logged(history, t)[|Logged(history, t)| - 1] == t
    ensures |history| < MaxHistory ==> Logged(history, t) == history + [t]
    ensures |history| == MaxHistory ==> Logged(history, t) == history[1..] + [t]
  {
  }

  /** Publish on a type with no entry invokes nothing and leaves the registry as it was. */
  lemma PublishUnregisteredIsNoop(m: Registry, t: EventType, react: HandlerId -> Reaction)
    requires t !in m
    ensures Reverse(Registered(m, t)) == []
    ensures Dispatched(m, t, Reverse(Registered(m, t)), react) == m
  {
  }

  /** When every handler simply returns or throws, dispatch leaves the registry as it was. */
  lemma {:induction false} DispatchWithoutSideEffects(m: Registry, t: EventType, hs: seq<HandlerId>, react: HandlerId -> Reaction)
    requires forall h :: h in hs ==> react(h) == Returns || react(h) == Throws
    ensures Dispatched(m, t, hs, react) == m
    decreases |hs|
  {
    if hs != [] {
      DispatchWithoutSideEffects(m, t, hs[1..], react);
    }
  }

  // ---------------------------------------------------------------------------
  // The bus

  class GameEventBus {
    var handlers: Registry
    var history: seq<EventType>

    ghost predicate Valid()
      reads this
    {
      WellFormed(handlers) && |history| <= MaxHistory
    }

    constructor ()
      ensures Valid() && handlers == map[] && history == []
    {
      handlers := map[];
      history := [];
    }

    /** Subscribe<T>(handler) */
    method Subscribe(t: EventType, h: HandlerId)
      requires Valid()
      modifies this
      ensures Valid()
      ensures handlers == Subscribed(old(handlers), t, h)
      ensures history == old(history)
    {
      SubscribedWellFormed(handlers, t, h);
      if t !in handlers {
        handlers := handlers[t := [h]];
      } else if h !in handlers[t] {
        handlers := handlers[t := handlers[t] + [h]];
      }
    }

    /** Unsubscribe<T>(handler) */
    method Unsubscribe(t: EventType, h: HandlerId)
      requires Valid()
      modifies this
      ensures Valid()
      ensures handlers == Unsubscribed(old(handlers), t, h)
      ensures h !in Registered(handlers, t)
      ensures history == old(history)
    {
      UnsubscribedWellFormed(handlers, t, h);
      if t in handlers {
        handlers := handlers[t := RemoveFirst(handlers[t], h)];
        if |handlers[t]| == 0 {
          handlers := handlers - {t};
        }
      }
    }

    /** Publish<T>(eventData): log the event, then run the type's handlers from the
        last subscribed to the first; a throwing handler does not stop the others.
        Returns the handlers invoked, in invocation order. */
    method Publish(e: GameEvent, react: HandlerId -> Reaction) returns (invoked: seq<HandlerId>)
      requires Valid()
      modifies this
      ensures Valid()
      ensures history == Logged(old(history), TypeOf(e))
      ensures invoked == Reverse(Registered(old(handlers), TypeOf(e)))
      ensures handlers == Dispatched(old(handlers), TypeOf(e), invoked, react)
    {
      var t := TypeOf(e);
      history := history + [t];
      if |history| > MaxHistory {
        history := history[1..];
      }
      if t !in handlers {
        return [];
      }
      invoked := Dispatch(t, react);
    }

    /** The reverse loop of Publish over the live handler list of t. A handler that
        unsubscribes itself only shifts the handlers after it, which have already run,
        and one subscribed during the loop lands past the current index. */
    method Dispatch(t: EventType, react: HandlerId -> Reaction) returns (invoked: seq<HandlerId>)
      requires Valid() && t in handlers
      modifies this
      ensures Valid() && history == old(history)
      ensures invoked == Reverse(old(handlers)[t])
      ensures handlers == Dispatched(old(handlers), t, invoked, react)
    {
      ghost var s := handlers[t];
      invoked := [];
      var i := |handlers[t]| - 1;
      while i >= 0
        invariant -1 <= i < |s|
        invariant Valid() && history == old(history)
        invariant i >= 0 ==> t in handlers && |handlers[t]| > i && handlers[t][..i + 1] == s[..i + 1]
        invariant invoked == Reverse(s[i + 1..])
        invariant handlers == Dispatched(old(handlers), t, invoked, react)
        decreases i
      {
        var h := handlers[t][i];
        DispatchStep(handlers, t, s, i, react(h));
        Invoke(t, h, react(h));
        DispatchedSnoc(old(handlers), t, invoked, h, react);
        ReverseStep(s, i);
        invoked := invoked + [h];
        i := i - 1;
      }
      assert s[0..] == s;
    }

    /** One handler invocation inside Publish's try block: the handler returns, throws
        (the exception is caught and logged), or calls back into the bus. */
    method Invoke(t: EventType, h: HandlerId, r: Reaction)
      requires Valid()
      modifies this
      ensures Valid()
      ensures handlers == Effect(old(handlers), t, h, r)
      ensures history == old(history)
    {
      match r {
        case Returns =>
        case Throws =>
        case UnsubscribesItself =>
          Unsubscribe(t, h);
        case SubscribesHandler(other) =>
          Subscribe(t, other);
      }
    }

    /** GetEventHistory: a copy of the history, oldest first. */
    method GetEventHistory() returns (copy: seq<EventType>)
      ensures copy == history
    {
      copy := history;
    }

    /** ClearAllSubscriptions: drop every registration and the history. */
    method ClearAllSubscriptions()
      requires Valid()
      modifies this
      ensures Valid() && handlers == map[] && history == []
    {
      handlers := map[];
      history := [];
    }

    /** GetSubscriptionStats: the number of handlers per registered type, keyed by the type's name.
        Every registered type appears with a positive count. */
    function GetSubscriptionStats(): (stats: map<string, nat>)
      reads this
      requires Valid()
      ensures forall t :: Name(t) in stats <==> t in handlers
      ensures forall t :: t in handlers ==> stats[Name(t)] == |handlers[t]| > 0
    {
      assert forall t, u :: Name(t) == Name(u) ==> t == u by {
        forall t, u ensures Name(t) == Name(u) ==> t == u {
          NameInjective(t, u);
        }
      }
      map t | t in handlers :: Name(t) := |handlers[t]|
    }
  }

  /** Running the handler at index i leaves the handlers before it where they were. */
  lemma EffectKeepsPrefix(m: Registry, t: EventType, i: nat, r: Reaction)
    requires WellFormed(m) && t in m && i < |m[t]|
    ensures WellFormed(Effect(m, t, m[t][i], r))
    ensures i > 0 ==> t in Effect(m, t, m[t][i], r) && |Effect(m, t, m[t][i], r)[t]| >= i
                      && Effect(m, t, m[t][i], r)[t][..i] == m[t][..i]
  {
    var l := m[t];
    match r
    case Returns =>
    case Throws =>
    case UnsubscribesItself =>
      UnsubscribedWellFormed(m, t, l[i]);
      RemoveFirstAt(l, i);
      assert (l[..i] + l[i + 1..])[..i] == l[..i];
    case SubscribesHandler(other) =>
      SubscribedWellFormed(m, t, other);
      assert (l + [other])[..i] == l[..i];
  }

  /** The loop step of Publish: the handler at index i is the snapshot's, and after it runs
      the handlers below index i are still the snapshot's. */
  lemma DispatchStep(m: Registry, t: EventType, s: seq<HandlerId>, i: nat, r: Reaction)
    requires WellFormed(m) && t in m && i < |m[t]| && i < |s| && m[t][..i + 1] == s[..i + 1]
    ensures m[t][i] == s[i]
    ensures WellFormed(Effect(m, t, m[t][i], r))
    ensures i > 0 ==> t in Effect(m, t, m[t][i], r) && |Effect(m, t, m[t][i], r)[t]| >= i
                      && Effect(m, t, m[t][i], r)[t][..i] == s[..i]
  {
    assert m[t][..i + 1][i] == s[..i + 1][i];
    EffectKeepsPrefix(m, t, i, r);
    assert m[t][..i + 1][..i] == s[..i + 1][..i];
  }

  lemma ReverseStep<T>(s: seq<T>, i: nat)
    requires i < |s|
    ensures Reverse(s[i..]) == Reverse(s[i + 1..]) + [s[i]]
  {
    var a := Reverse(s[i..]);
    var b := Reverse(s[i + 1..]) + [s[i]];
    assert |a| == |b|;
    forall k | 0 <= k < |a| ensures a[k] == b[k] {
    }
  }
}
