/**
 * The client's realtime event registry (`SignalRProvider`): handlers kept
 * per normalised event name, one dispatcher per name that fans an event out
 * to them, and the hub connection the dispatchers are bound to.
 *
 * A handler is known by its identity (a JavaScript `Set` compares functions
 * by reference), so it is an integer here. A `Set` iterates in insertion
 * order, so an event's handlers are a sequence without repetitions.
 */
module SignalR {
  import opened Common
  import opened Text

  type Handler = int

  /** What `subscribe` hands back: its unsubscribe closure, which holds the event name and the handler. */
  datatype Subscription = Subscription(event: string, handler: Handler)

  /** A hub method the client invokes, with its argument. */
  datatype Invocation = Invocation(hubMethod: string, argument: string)

  const JobEvent: string := "receivenewjob"

  /** `eventName.trim().toLowerCase()`. */
  function Normalize(eventName: string): string
  {
    Lower(JsTrim(eventName))
  }

  /** Normalising twice is normalising once. */
  lemma NormalizeIdempotent(s: string)
    ensures Normalize(Normalize(s)) == Normalize(s)
  {
    var t := JsTrim(s);
    JsTrimLower(t);
    JsTrimIdempotent(s);
    LowerIdempotent(t);
  }

  /** Names that differ only in letter case, or in surrounding white space, share one entry. */
  lemma NormalizeIgnoresCase(s: string, t: string)
    requires Lower(s) == Lower(t)
    ensures Normalize(s) == Normalize(t)
  {
    JsTrimLower(s);
    JsTrimLower(t);
  }

  lemma NormalizeIgnoresSurroundingSpace(s: string)
    ensures Normalize(" " + s + "\n") == Normalize(s)
  {
    var padded := " " + s + "\n";
    assert TrimStart(padded) == TrimStart(s + "\n") by {
      assert padded[1..] == s + "\n";
    }
    TrimStartAppendSpace(s);
  }

  /** A trailing white-space character is trimmed with the rest. */
  lemma {:induction false} TrimStartAppendSpace(s: string)
    ensures TrimEnd(TrimStart(s + "\n")) == TrimEnd(TrimStart(s))
    decreases |s|
  {
    if s == [] {
      assert TrimStart("\n") == [];
    } else if JsSpace(s[0]) {
      assert (s + "\n")[1..] == s[1..] + "\n";
      TrimStartAppendSpace(s[1..]);
    } else {
      assert TrimStart(s + "\n") == s + "\n";
      assert (s + "\n")[..|s|] == s;
    }
  }

  lemma JobEventIsNormal()
    ensures Normalize(JobEvent) == JobEvent
  {
    assert TrimStart(JobEvent) == JobEvent;
    assert TrimEnd(JobEvent) == JobEvent;
    assert Lower(JobEvent) == JobEvent;
  }

  // ---------------------------------------------------------------------
  // Handler sets

  predicate Distinct(hs: seq<Handler>)
  {
    forall i, j :: 0 <= i < j < |hs| ==> hs[i] != hs[j]
  }

  /** `set.add(h)`. */
  function With(hs: seq<Handler>, h: Handler): (r: seq<Handler>)
    ensures forall x :: x in r <==> x in hs || x == h
    ensures Distinct(hs) ==> Distinct(r)
  {
    if h in hs then hs else hs + [h]
  }

  /** `set.delete(h)`: the other handlers stay, in their order. */
  function Without(hs: seq<Handler>, h: Handler): (r: seq<Handler>)
    ensures forall x :: x in r <==> x in hs && x != h
    ensures h !in hs ==> r == hs
  {
    if hs == [] then []
    else (if hs[0] == h then [] else [hs[0]]) + Without(hs[1..], h)
  }

  /** The tail of a distinct sequence is distinct and does not hold the head. */
  lemma TailDistinct(hs: seq<Handler>)
    requires hs != [] && Distinct(hs)
    ensures Distinct(hs[1..]) && hs[0] !in hs[1..]
  {
    var tail := hs[1..];
    forall i, j | 0 <= i < j < |tail|
      ensures tail[i] != tail[j]
    {
      assert tail[i] == hs[i + 1] && tail[j] == hs[j + 1];
    }
    forall i | 0 <= i < |tail|
      ensures tail[i] != hs[0]
    {
      assert tail[i] == hs[i + 1];
    }
  }

  /** A new handler in front of distinct ones keeps them distinct. */
  lemma ConsDistinct(x: Handler, t: seq<Handler>)
    requires Distinct(t) && x !in t
    ensures Distinct([x] + t)
  {
    var r := [x] + t;
    forall i, j | 0 <= i < j < |r|
      ensures r[i] != r[j]
    {
      assert r[j] == t[j - 1];
      if i > 0 {
        assert r[i] == t[i - 1];
      }
    }
  }

  lemma {:induction false} WithoutDistinct(hs: seq<Handler>, h: Handler)
    requires Distinct(hs)
    ensures Distinct(Without(hs, h))
    decreases |hs|
  {
    if hs != [] {
      TailDistinct(hs);
      WithoutDistinct(hs[1..], h);
      if hs[0] != h {
        ConsDistinct(hs[0], Without(hs[1..], h));
      } else {
        assert Without(hs, h) == [] + Without(hs[1..], h);
      }
    }
  }

  lemma {:induction false} WithoutAppended(hs: seq<Handler>, h: Handler)
    requires h !in hs
    ensures Without(hs + [h], h) == hs
    decreases |hs|
  {
    if hs == [] {
      assert Without([h], h) == [] + Without([], h);
    } else {
      assert (hs + [h])[1..] == hs[1..] + [h];
      WithoutAppended(hs[1..], h);
    }
  }

  /** `handlersRef.current.get(e)`, with a missing entry read as no handlers. */
  function Lookup(handlers: map<string, seq<Handler>>, e: string): seq<Handler>
  {
    if e in handlers then handlers[e] else []
  }

  /** Every entry holds at least one handler, none of them twice. */
  predicate WellFormed(handlers: map<string, seq<Handler>>)
  {
    forall e :: e in handlers ==> handlers[e] != [] && Distinct(handlers[e])
  }

  /** The handler map after `subscribe(e, h)`. */
  function Subscribed(handlers: map<string, seq<Handler>>, e: string, h: Handler): map<string, seq<Handler>>
  {
    handlers[e := With(Lookup(handlers, e), h)]
  }

  /** The handler map after the unsubscribe closure of `(e, h)` runs: an entry left empty goes. */
  function Unsubscribed(handlers: map<string, seq<Handler>>, e: string, h: Handler): map<string, seq<Handler>>
  {
    if e !in handlers then handlers
    else
      var rest := Without(handlers[e], h);
      if rest == [] then handlers - {e} else handlers[e := rest]
  }

  /** Subscribing adds the handler to that event alone, after the ones already there. */
  lemma SubscribeAdds(handlers: map<string, seq<Handler>>, e: string, h: Handler, other: string)
    ensures h in Lookup(Subscribed(handlers, e, h), e)
    ensures h !in Lookup(handlers, e) ==> Lookup(Subscribed(handlers, e, h), e) == Lookup(handlers, e) + [h]
    ensures h in Lookup(handlers, e) ==> Subscribed(handlers, e, h) == handlers[e := Lookup(handlers, e)]
    ensures other != e ==> Lookup(Subscribed(handlers, e, h), other) == Lookup(handlers, other)
  {
  }

  /** Unsubscribing removes that handler from that event and nothing else; an entry left empty is deleted. */
  lemma UnsubscribeRemovesOnlyIt(handlers: map<string, seq<Handler>>, e: string, h: Handler, other: string)
    requires WellFormed(handlers)
    ensures Lookup(Unsubscribed(handlers, e, h), e) == Without(Lookup(handlers, e), h)
    ensures e in Unsubscribed(handlers, e, h) <==> Without(Lookup(handlers, e), h) != []
    ensures other != e ==> Lookup(Unsubscribed(handlers, e, h), other) == Lookup(handlers, other)
    ensures other != e ==> (other in Unsubscribed(handlers, e, h) <==> other in handlers)
    ensures WellFormed(Unsubscribed(handlers, e, h))
    ensures Unsubscribed(handlers, e, h).Keys == handlers.Keys - (if Without(Lookup(handlers, e), h) == [] then {e} else {})
  {
    if e in handlers {
      WithoutDistinct(handlers[e], h);
    }
  }

  lemma SubscribedWellFormed(handlers: map<string, seq<Handler>>, e: string, h: Handler)
    requires WellFormed(handlers)
    ensures WellFormed(Subscribed(handlers, e, h))
    ensures Subscribed(handlers, e, h).Keys == handlers.Keys + {e}
  {
  }

  /**
   * The dispatcher table covers exactly the events in `keys`, with
   * distinct identities below `next`.
   */
  predicate DispatchersFit(keys: set<string>, dispatchers: map<string, nat>, next: nat)
  {
    dispatchers.Keys == keys &&
    (forall e :: e in dispatchers ==> dispatchers[e] < next) &&
    (forall a, b :: a in dispatchers && b in dispatchers && a != b ==> dispatchers[a] != dispatchers[b])
  }

  lemma FreshDispatcherFits(keys: set<string>, dispatchers: map<string, nat>, next: nat, e: string)
    requires DispatchersFit(keys, dispatchers, next) && e !in dispatchers
    ensures DispatchersFit(keys + {e}, dispatchers[e := next], next + 1)
  {
  }

  lemma DroppedDispatcherFits(keys: set<string>, dispatchers: map<string, nat>, next: nat, e: string)
    requires DispatchersFit(keys, dispatchers, next)
    ensures DispatchersFit(keys - {e}, dispatchers - {e}, next)
  {
  }

  /** After a subscribe the dispatchers still fit, with a fresh one for a new event. */
  lemma SubscribeFits(handlers: map<string, seq<Handler>>, dispatchers: map<string, nat>, next: nat, e: string, h: Handler)
    requires WellFormed(handlers) && DispatchersFit(handlers.Keys, dispatchers, next)
    ensures WellFormed(Subscribed(handlers, e, h))
    ensures e in dispatchers ==> DispatchersFit(Subscribed(handlers, e, h).Keys, dispatchers, next)
    ensures e !in dispatchers ==> DispatchersFit(Subscribed(handlers, e, h).Keys, dispatchers[e := next], next + 1)
  {
    SubscribedWellFormed(handlers, e, h);
    if e !in dispatchers {
      FreshDispatcherFits(handlers.Keys, dispatchers, next, e);
    } else {
      assert handlers.Keys + {e} == handlers.Keys;
    }
  }

  /** After an unsubscribe the dispatchers still fit, less the one of an event left without handlers. */
  lemma UnsubscribeFits(handlers: map<string, seq<Handler>>, dispatchers: map<string, nat>, next: nat, e: string, h: Handler)
    requires WellFormed(handlers) && DispatchersFit(handlers.Keys, dispatchers, next) && e in handlers
    ensures WellFormed(Unsubscribed(handlers, e, h))
    ensures Without(handlers[e], h) == [] ==>
      Unsubscribed(handlers, e, h) == handlers - {e} && DispatchersFit(Unsubscribed(handlers, e, h).Keys, dispatchers - {e}, next)
    ensures Without(handlers[e], h) != [] ==>
      Unsubscribed(handlers, e, h) == handlers[e := Without(handlers[e], h)] &&
      DispatchersFit(Unsubscribed(handlers, e, h).Keys, dispatchers, next)
  {
    UnsubscribeRemovesOnlyIt(handlers, e, h, e);
    if Without(handlers[e], h) == [] {
      DroppedDispatcherFits(handlers.Keys, dispatchers, next, e);
    }
  }

  /**
   * An event has a dispatcher exactly when it has handlers; dispatchers
   * are distinct closures; the connection has exactly the dispatchers
   * bound, once it exists.
   */
  predicate RegistryOk(handlers: map<string, seq<Handler>>, dispatchers: map<string, nat>, next: nat,
                       connected: bool, bound: map<string, nat>)
  {
    WellFormed(handlers) &&
    DispatchersFit(handlers.Keys, dispatchers, next) &&
    bound == (if connected then dispatchers else map[])
  }

  /** An unsubscribe that empties its event drops the event's dispatcher and its binding. */
  lemma UnsubscribeLastOk(handlers: map<string, seq<Handler>>, dispatchers: map<string, nat>, next: nat,
                          connected: bool, bound: map<string, nat>, e: string, h: Handler)
    requires RegistryOk(handlers, dispatchers, next, connected, bound) && e in handlers
    requires Without(handlers[e], h) == []
    ensures RegistryOk(handlers - {e}, dispatchers - {e}, next, connected, if connected then bound - {e} else bound)
    ensures Unsubscribed(handlers, e, h) == handlers - {e}
  {
    UnsubscribeFits(handlers, dispatchers, next, e, h);
  }

  /** An unsubscribe that leaves other handlers keeps every dispatcher. */
  lemma UnsubscribeOneOk(handlers: map<string, seq<Handler>>, dispatchers: map<string, nat>, next: nat,
                         connected: bool, bound: map<string, nat>, e: string, h: Handler)
    requires RegistryOk(handlers, dispatchers, next, connected, bound) && e in handlers
    requires Without(handlers[e], h) != []
    ensures RegistryOk(handlers[e := Without(handlers[e], h)], dispatchers, next, connected, bound)
    ensures Unsubscribed(handlers, e, h) == handlers[e := Without(handlers[e], h)]
  {
    UnsubscribeFits(handlers, dispatchers, next, e, h);
  }

  /** Unsubscribing a fresh subscription restores the handler map exactly. */
  lemma SubscribeUnsubscribeRoundTrip(handlers: map<string, seq<Handler>>, e: string, h: Handler)
    requires WellFormed(handlers) && h !in Lookup(handlers, e)
    ensures Unsubscribed(Subscribed(handlers, e, h), e, h) == handlers
  {
    WithoutAppended(Lookup(handlers, e), h);
    if e !in handlers {
      assert Subscribed(handlers, e, h) - {e} == handlers;
    }
  }

  // ---------------------------------------------------------------------
  // The registry

  class Registry {
    var handlers: map<string, seq<Handler>>
    /** Each event's dispatcher, a closure known by its identity. */
    var dispatchers: map<string, nat>
    var nextDispatcher: nat
    /** Whether `connectionRef.current` holds a started connection. */
    var connected: bool
    /** The dispatchers registered on the connection with `on`. */
    var bound: map<string, nat>
    var jobSubscription: Option<Subscription>

    /**
     * An event has a dispatcher exactly when it has handlers; dispatchers
     * are distinct closures; the connection has exactly the dispatchers
     * bound, once it exists.
     */
    predicate Valid()
      reads this
    {
      RegistryOk(handlers, dispatchers, nextDispatcher, connected, bound)
    }

    constructor ()
      ensures Valid()
      ensures handlers == map[] && dispatchers == map[] && !connected && jobSubscription == None
    {
      handlers := map[];
      dispatchers := map[];
      nextDispatcher := 0;
      connected := false;
      bound := map[];
      jobSubscription := None;
    }

    /** `ensureDispatcher`: the existing dispatcher is kept; a new one is bound if the connection exists. */
    method EnsureDispatcher(e: string)
      modifies this
      ensures e in old(dispatchers) ==> dispatchers == old(dispatchers) && nextDispatcher == old(nextDispatcher) && bound == old(bound)
      ensures e !in old(dispatchers) ==>
        dispatchers == old(dispatchers)[e := old(nextDispatcher)] && nextDispatcher == old(nextDispatcher) + 1 &&
        bound == (if connected then old(bound)[e := old(nextDispatcher)] else old(bound))
      ensures handlers == old(handlers) && connected == old(connected) && jobSubscription == old(jobSubscription)
    {
      if e in dispatchers {
        return;
      }
      var dispatcher := nextDispatcher;
      nextDispatcher := nextDispatcher + 1;
      dispatchers := dispatchers[e := dispatcher];
      if connected {
        bound := bound[e := dispatcher];
      }
    }

    /** `subscribe(eventName, h)`. */
    method Subscribe(eventName: string, h: Handler) returns (sub: Subscription)
      requires Valid()
      modifies this
      ensures Valid()
      ensures sub == Subscription(Normalize(eventName), h)
      ensures handlers == Subscribed(old(handlers), sub.event, h)
      ensures sub.event in old(dispatchers) ==> dispatchers == old(dispatchers)
      ensures sub.event !in old(dispatchers) ==> dispatchers == old(dispatchers)[sub.event := old(nextDispatcher)]
      ensures connected == old(connected) && jobSubscription == old(jobSubscription)
    {
      var normalized := Normalize(eventName);
      SubscribeFits(handlers, dispatchers, nextDispatcher, normalized, h);
      if normalized !in handlers {
        handlers := handlers[normalized := []];
      }
      handlers := handlers[normalized := With(handlers[normalized], h)];
      assert handlers == Subscribed(old(handlers), normalized, h);
      EnsureDispatcher(normalized);
      sub := Subscription(normalized, h);
    }

    /** The unsubscribe closure `subscribe` returns. */
    method Unsubscribe(sub: Subscription)
      requires Valid()
      modifies this
      ensures Valid()
      ensures handlers == Unsubscribed(old(handlers), sub.event, sub.handler)
      ensures dispatchers == if sub.event in handlers then old(dispatchers) else old(dispatchers) - {sub.event}
      ensures nextDispatcher == old(nextDispatcher)
      ensures connected == old(connected) && jobSubscription == old(jobSubscription)
    {
      if sub.event !in handlers {
        return;
      }
      if Without(handlers[sub.event], sub.handler) == [] {
        DropEvent(sub.event, sub.handler);
      } else {
        DropHandler(sub.event, sub.handler);
      }
    }

    /** The event's last handler goes: so do its entry, its dispatcher and its binding. */
    method DropEvent(e: string, h: Handler)
      requires Valid() && e in handlers && Without(handlers[e], h) == []
      modifies this
      ensures Valid()
      ensures handlers == old(handlers) - {e} && handlers == Unsubscribed(old(handlers), e, h)
      ensures dispatchers == old(dispatchers) - {e} && nextDispatcher == old(nextDispatcher)
      ensures bound == if connected then old(bound) - {e} else old(bound)
      ensures connected == old(connected) && jobSubscription == old(jobSubscription)
    {
      UnsubscribeLastOk(handlers, dispatchers, nextDispatcher, connected, bound, e, h);
      handlers := handlers - {e};
      if connected {
        bound := bound - {e};
      }
      dispatchers := dispatchers - {e};
    }

    /** Other handlers of the event remain: only its list changes. */
    method DropHandler(e: string, h: Handler)
      requires Valid() && e in handlers && Without(handlers[e], h) != []
      modifies this
      ensures Valid()
      ensures handlers == old(handlers)[e := Without(old(handlers)[e], h)] && handlers == Unsubscribed(old(handlers), e, h)
      ensures dispatchers == old(dispatchers) && nextDispatcher == old(nextDispatcher) && bound == old(bound)
      ensures connected == old(connected) && jobSubscription == old(jobSubscription)
    {
      UnsubscribeOneOk(handlers, dispatchers, nextDispatcher, connected, bound, e, h);
      handlers := handlers[e := Without(handlers[e], h)];
    }

    /**
     * The dispatcher of event `e` running: every handler is called in
     * order; the ones that throw (`throws`) are caught and do not stop the
     * rest.
     */
    method Dispatch(e: string, throws: Handler -> bool) returns (called: seq<Handler>, failed: seq<Handler>)
      ensures called == Lookup(handlers, e)
      ensures failed == Filter(called, throws)
    {
      called, failed := [], [];
      if e !in handlers {
        return;
      }
      var hs := handlers[e];
      var i := 0;
      while i < |hs|
        invariant 0 <= i <= |hs|
        invariant called == hs[..i]
        invariant failed == Filter(called, throws)
      {
        FilterAppend(called, hs[i], throws);
        if throws(hs[i]) {
          failed := failed + [hs[i]];
        }
        called := called + [hs[i]];
        assert hs[..i + 1] == hs[..i] + [hs[i]];
        i := i + 1;
      }
      assert hs[..|hs|] == hs;
    }

    /** The connection has started: every dispatcher registered so far is bound to it. */
    method Connect()
      requires Valid()
      modifies this
      ensures Valid()
      ensures connected && bound == dispatchers
      ensures handlers == old(handlers) && dispatchers == old(dispatchers) && jobSubscription == old(jobSubscription)
    {
      connected := true;
      bound := dispatchers;
    }

    /** `setJobCallback`: the previous job subscription is dropped, and a given callback subscribed. */
    method SetJobCallback(callback: Option<Handler>)
      requires Valid()
      modifies this
      ensures Valid()
      ensures jobSubscription == if callback.Some? then Some(Subscription(JobEvent, callback.value)) else None
      ensures var dropped :=
          if old(jobSubscription).Some? then Unsubscribed(old(handlers), old(jobSubscription).value.event, old(jobSubscription).value.handler)
          else old(handlers);
        handlers == if callback.Some? then Subscribed(dropped, JobEvent, callback.value) else dropped
      ensures connected == old(connected)
    {
      if jobSubscription.Some? {
        Unsubscribe(jobSubscription.value);
        jobSubscription := None;
      }
      if callback.Some? {
        JobEventIsNormal();
        var sub := Subscribe(JobEvent, callback.value);
        jobSubscription := Some(sub);
      }
    }

    /** The guard both group calls share: a hub method is invoked only with a connection and a non-empty user id. */
    method InvokeForUser(hubMethod: string, userId: string) returns (sent: Option<Invocation>)
      ensures sent.Some? <==> connected && userId != ""
      ensures sent.Some? ==> sent.value == Invocation(hubMethod, userId)
    {
      if !connected || userId == "" {
        return None;
      }
      return Some(Invocation(hubMethod, userId));
    }

    /** `joinUserGroup`: a failure of the invocation is swallowed. */
    method JoinUserGroup(userId: string) returns (sent: Option<Invocation>)
      ensures sent.Some? <==> connected && userId != ""
      ensures sent.Some? ==> sent.value == Invocation("JoinUserGroup", userId)
    {
      sent := InvokeForUser("JoinUserGroup", userId);
    }

    /** `leaveUserGroup`, guarded like `joinUserGroup`. */
    method LeaveUserGroup(userId: string) returns (sent: Option<Invocation>)
      ensures sent.Some? <==> connected && userId != ""
      ensures sent.Some? ==> sent.value == Invocation("LeaveUserGroup", userId)
    {
      sent := InvokeForUser("LeaveUserGroup", userId);
    }
  }

  /**
   * Replacing the job callback leaves the new callback, and not the old
   * one, among the job event's handlers.
   */
  lemma ReplacingJobCallback(handlers: map<string, seq<Handler>>, old1: Handler, new1: Handler)
    requires WellFormed(handlers) && old1 != new1
    ensures var after := Subscribed(Unsubscribed(handlers, JobEvent, old1), JobEvent, new1);
      new1 in Lookup(after, JobEvent) && old1 !in Lookup(after, JobEvent)
  {
    UnsubscribeRemovesOnlyIt(handlers, JobEvent, old1, JobEvent);
  }

  /** Clearing the job callback leaves no trace of it among the job event's handlers. */
  lemma ClearingJobCallback(handlers: map<string, seq<Handler>>, cb: Handler)
    requires WellFormed(handlers)
    ensures cb !in Lookup(Unsubscribed(handlers, JobEvent, cb), JobEvent)
  {
    UnsubscribeRemovesOnlyIt(handlers, JobEvent, cb, JobEvent);
  }
}
