// The publish/subscribe registry of frontend/src/core/eventBus.js: a map from
// event name to an insertion-ordered set of handlers.
module EventBus {

  // ---------------------------------------------------------------------
  // Insertion-ordered sets, as JavaScript's Set keeps them
  // ---------------------------------------------------------------------

  /** No handler occurs twice. */
  ghost predicate Distinct<H>(s: seq<H>) {
    forall i, j :: 0 <= i < j < |s| ==> s[i] != s[j]
  }

  /** `Set.prototype.add`: a handler already present keeps its place; a new one goes last. */
  function Add<H(==)>(s: seq<H>, h: H): seq<H> {
    if h in s then s else s + [h]
  }

  /** `Set.prototype.delete`: drops `h`, keeping the order of the others. */
  function Remove<H(==)>(s: seq<H>, h: H): seq<H> {
    if s == [] then []
    else if s[0] == h then Remove(s[1..], h)
    else [s[0]] + Remove(s[1..], h)
  }

  /** Adding keeps the set duplicate-free, and adding the same handler twice leaves one entry. */
  lemma AddSpec<H>(s: seq<H>, h: H)
    requires Distinct(s)
    ensures Distinct(Add(s, h))
    ensures forall x :: x in Add(s, h) <==> x in s || x == h
    ensures Add(Add(s, h), h) == Add(s, h)
    ensures h in s ==> Add(s, h) == s
  {
  }

  /** Removing drops exactly `h`: membership of every other handler is unchanged. */
  lemma {:induction false} RemoveSpec<H>(s: seq<H>, h: H)
    ensures forall x :: x in Remove(s, h) <==> x in s && x != h
    ensures |Remove(s, h)| <= |s|
    ensures Distinct(s) ==> Distinct(Remove(s, h))
  {
    if s != [] {
      RemoveSpec(s[1..], h);
      if Distinct(s) {
        assert Distinct(s[1..]);
        assert s[0] !in s[1..];
      }
    }
  }

  /** Removing a handler that is not there changes nothing. */
  lemma {:induction false} RemoveAbsent<H>(s: seq<H>, h: H)
    requires h !in s
    ensures Remove(s, h) == s
  {
    if s != [] {
      RemoveAbsent(s[1..], h);
      assert s == [s[0]] + s[1..];
    }
  }

  /** Removing one registered handler keeps all the others in their order. */
  lemma {:induction false} RemoveAt<H>(s: seq<H>, i: nat)
    requires i < |s| && Distinct(s)
    ensures Remove(s, s[i]) == s[..i] + s[i + 1..]
  {
    if i == 0 {
      assert s[0] !in s[1..];
      RemoveAbsent(s[1..], s[0]);
    } else {
      assert Distinct(s[1..]);
      assert s[1..][i - 1] == s[i];
      RemoveAt(s[1..], i - 1);
      assert s[1..][..i - 1] == s[1..i] && s[1..][i..] == s[i + 1..];
      assert [s[0]] + s[1..i] == s[..i];
    }
  }

  /** Registering a new handler and then unregistering it restores the set, order included. */
  lemma {:induction false} RemoveAdd<H>(s: seq<H>, h: H)
    requires h !in s
    ensures Remove(Add(s, h), h) == s
  {
    if s == [] {
    } else {
      assert (s + [h])[0] == s[0];
      assert (s + [h])[1..] == s[1..] + [h];
      RemoveAdd(s[1..], h);
      assert s == [s[0]] + s[1..];
    }
  }

  /** The handlers among `hs`, in order, for which `fails` says the call throws. */
  function Failing<H>(hs: seq<H>, fails: H -> bool): seq<H> {
    if hs == [] then []
    else Failing(hs[..|hs| - 1], fails) + (if fails(hs[|hs| - 1]) then [hs[|hs| - 1]] else [])
  }

  /** The unsubscribe function that `on` hands back. */
  datatype Subscription<H> = Subscription(event: string, handler: H)

  class Bus<H(==)> {
    /** event name -> handlers registered for it, in registration order */
    var listeners: map<string, seq<H>>

    ghost predicate Valid()
      reads this
    {
      forall e :: e in listeners ==> Distinct(listeners[e])
    }

    /** The handlers `emit` would call for `event`. */
    function Registered(event: string): seq<H>
      reads this
    {
      if event in listeners then listeners[event] else []
    }

    constructor ()
      ensures Valid() && listeners == map[]
    {
      listeners := map[];
    }

    /** `on(event, handler)`: creates the event's set when absent, then adds the handler. */
    method On(event: string, handler: H) returns (unsubscribe: Subscription<H>)
      requires Valid()
      modifies this
      ensures Valid()
      ensures listeners == old(listeners)[event := Add(old(Registered(event)), handler)]
      ensures unsubscribe == Subscription(event, handler)
    {
      if event !in listeners {
        listeners := listeners[event := []];
      }
      AddSpec(listeners[event], handler);
      listeners := listeners[event := Add(listeners[event], handler)];
      unsubscribe := Subscription(event, handler);
    }

    /** `off(event, handler)`: a no-op for an event never registered. */
    method Off(event: string, handler: H)
      requires Valid()
      modifies this
      ensures Valid()
      ensures event !in old(listeners) ==> listeners == old(listeners)
      ensures event in old(listeners) ==>
        listeners == old(listeners)[event := Remove(old(listeners)[event], handler)]
    {
      if event !in listeners {
        return;
      }
      RemoveSpec(listeners[event], handler);
      listeners := listeners[event := Remove(listeners[event], handler)];
    }

    /** Calling the function returned by `on` is `off` for that event and handler. */
    method Unsubscribe(sub: Subscription<H>)
      requires Valid()
      modifies this
      ensures Valid()
      ensures sub.event !in old(listeners) ==> listeners == old(listeners)
      ensures sub.event in old(listeners) ==>
        listeners == old(listeners)[sub.event := Remove(old(listeners)[sub.event], sub.handler)]
    {
      Off(sub.event, sub.handler);
    }

    /** `emit(event, payload)`: each registered handler is called once with the payload, in
        registration order. `fails(h)` says whether handler `h` throws; a throwing handler
        is logged in `warnings` and the loop goes on, so `emit` itself never throws. */
    method Emit<P>(event: string, payload: P, fails: H -> bool)
      returns (calls: seq<(H, P)>, warnings: seq<H>)
      ensures |calls| == |Registered(event)|
      ensures forall i :: 0 <= i < |calls| ==> calls[i] == (Registered(event)[i], payload)
      ensures warnings == Failing(Registered(event), fails)
    {
      calls, warnings := [], [];
      if event !in listeners {
        return;
      }
      var handlers := listeners[event];
      for i := 0 to |handlers|
        invariant |calls| == i
        invariant forall k :: 0 <= k < i ==> calls[k] == (handlers[k], payload)
        invariant warnings == Failing(handlers[..i], fails)
      {
        calls := calls + [(handlers[i], payload)];
        assert handlers[..i + 1][..i] == handlers[..i];
        if fails(handlers[i]) {
          warnings := warnings + [handlers[i]];
        }
      }
      assert handlers[..|handlers|] == handlers;
    }
  }
}
