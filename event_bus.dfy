/** The process-wide event emitter (`eventBus`, a Node `EventEmitter`), restricted to the
    three calls the server makes: `on`, `off` and `emit`. Each topic maps to its
    listeners in registration order. A listener is a closure created per request, so it
    is modelled by a fresh identifier. What the listeners do with an update is recorded
    in `delivered`, one entry per listener call, in call order. */
module EventBus {

  import opened Status

  type ListenerId = nat

  /** One call of a listener with an update. */
  datatype Delivery = Delivery(listener: ListenerId, update: StatusUpdate)

  /** One `emit(topic, update)`. */
  datatype Publication = Publication(topic: string, update: StatusUpdate)

  predicate NoDuplicates(s: seq<ListenerId>) {
    forall i, j :: 0 <= i < j < |s| ==> s[i] != s[j]
  }

  /** Position of the last registration of `x`, or -1; `removeListener` searches from the
      end of the listener array. */
  function LastIndex(s: seq<ListenerId>, x: ListenerId): (k: int)
    ensures -1 <= k < |s|
    ensures k == -1 <==> x !in s
    ensures k >= 0 ==> s[k] == x && x !in s[k + 1..]
    decreases |s|
  {
    if |s| == 0 then -1
    else if s[|s| - 1] == x then |s| - 1
    else LastIndex(s[..|s| - 1], x)
  }

  /** `off(topic, x)` on one listener array: removes the last registration of `x`, if
      any, and keeps everything else in order. */
  function RemoveLast(s: seq<ListenerId>, x: ListenerId): (r: seq<ListenerId>)
    ensures x !in s ==> r == s
    ensures x in s ==> |r| == |s| - 1 && multiset(r) == multiset(s) - multiset{x}
    ensures forall y :: y != x ==> (y in r <==> y in s)
    ensures NoDuplicates(s) ==> NoDuplicates(r) && x !in r
    ensures x in s ==> forall i :: 0 <= i < |r| ==> r[i] == s[if i < LastIndex(s, x) then i else i + 1]
  {
    var k := LastIndex(s, x);
    if k < 0 then s
    else
      RemoveAtCount(s, k);
      RemoveAtMembers(s, k);
      RemoveAtOrder(s, k, s[..k] + s[k + 1..]);
      RemoveAtNoDuplicates(s, k);
      s[..k] + s[k + 1..]
  }

  lemma RemoveAtCount(s: seq<ListenerId>, k: nat)
    requires k < |s|
    ensures |s[..k] + s[k + 1..]| == |s| - 1
    ensures multiset(s[..k] + s[k + 1..]) == multiset(s) - multiset{s[k]}
  {
    assert s == s[..k] + [s[k]] + s[k + 1..];
  }

  lemma RemoveAtMembers(s: seq<ListenerId>, k: nat)
    requires k < |s|
    ensures forall y :: y != s[k] ==> (y in s[..k] + s[k + 1..] <==> y in s)
  {
    RemoveAtCount(s, k);
    forall y | y != s[k] ensures y in s[..k] + s[k + 1..] <==> y in s {
      assert y in s[..k] + s[k + 1..] <==> y in multiset(s[..k] + s[k + 1..]);
      assert y in s <==> y in multiset(s);
    }
  }

  /** Removing position `k` shifts every later element one place to the front. */
  lemma RemoveAtOrder(s: seq<ListenerId>, k: nat, r: seq<ListenerId>)
    requires k < |s| && r == s[..k] + s[k + 1..]
    ensures forall i :: 0 <= i < |r| ==> r[i] == s[if i < k then i else i + 1]
  {
  }

  lemma RemoveAtNoDuplicates(s: seq<ListenerId>, k: nat)
    requires k < |s|
    ensures NoDuplicates(s) ==> NoDuplicates(s[..k] + s[k + 1..]) && s[k] !in s[..k] + s[k + 1..]
  {
    RemoveAtOrder(s, k, s[..k] + s[k + 1..]);
  }

  /** The listener calls one `emit` makes: every listener registered at that moment, in
      registration order, each with the same update. */
  function Fanout(listeners: seq<ListenerId>, update: StatusUpdate): (ds: seq<Delivery>)
    ensures |ds| == |listeners|
    ensures forall k :: 0 <= k < |ds| ==> ds[k] == Delivery(listeners[k], update)
  {
    seq(|listeners|, k requires 0 <= k < |listeners| => Delivery(listeners[k], update))
  }

  /** The listener array of one topic: non-empty, without duplicates, and made of
      identifiers below `next`. */
  ghost predicate ValidRegistrations(s: seq<ListenerId>, next: nat) {
    && |s| > 0
    && NoDuplicates(s)
    && forall k :: 0 <= k < |s| ==> s[k] < next
  }

  class Emitter {
    var listeners: map<string, seq<ListenerId>>
    var nextListener: nat
    var published: seq<Publication>
    var delivered: seq<Delivery>

    /** Every topic present has at least one listener (Node deletes the key with the
        last listener), no listener is registered twice on a topic, and every registered
        or already called identifier has been handed out. */
    ghost predicate Valid()
      reads this
    {
      && (forall t :: t in listeners ==> ValidRegistrations(listeners[t], nextListener))
      && (forall k :: 0 <= k < |delivered| ==> delivered[k].listener < nextListener)
    }

    /** `listeners(topic)`: empty when nobody listens. */
    function Listeners(topic: string): seq<ListenerId>
      reads this
    {
      if topic in listeners then listeners[topic] else []
    }

    constructor ()
      ensures Valid()
      ensures listeners == map[] && nextListener == 0
      ensures published == [] && delivered == []
    {
      listeners := map[];
      nextListener := 0;
      published := [];
      delivered := [];
    }

    /** `on(topic, listener)` with a listener created for this call. */
    method On(topic: string) returns (listener: ListenerId)
      requires Valid()
      modifies this
      ensures Valid()
      ensures listener == old(nextListener) && nextListener == listener + 1
      ensures listener !in old(Listeners(topic))
      ensures forall k :: 0 <= k < |delivered| ==> delivered[k].listener != listener
      ensures listeners == old(listeners)[topic := old(Listeners(topic)) + [listener]]
      ensures published == old(published) && delivered == old(delivered)
    {
      listener := nextListener;
      var current := Listeners(topic);
      assert forall k :: 0 <= k < |current| ==> current[k] < listener;
      listeners := listeners[topic := current + [listener]];
      nextListener := nextListener + 1;
    }

    /** `off(topic, listener)`: removes that listener's last registration on `topic`; a
        listener that is not registered leaves everything as it was. */
    method Off(topic: string, listener: ListenerId)
      requires Valid()
      modifies this
      ensures Valid()
      ensures Listeners(topic) == RemoveLast(old(Listeners(topic)), listener)
      ensures listener !in Listeners(topic)
      ensures forall t :: t != topic ==> Listeners(t) == old(Listeners(t))
      ensures listener !in old(Listeners(topic)) ==> listeners == old(listeners)
      ensures nextListener == old(nextListener)
      ensures published == old(published) && delivered == old(delivered)
    {
      if topic in listeners {
        var current := listeners[topic];
        var rest := RemoveLast(current, listener);
        assert forall k :: 0 <= k < |rest| ==> rest[k] < nextListener by {
          forall k | 0 <= k < |rest| ensures rest[k] < nextListener {
            assert rest[k] in current;
          }
        }
        if listener !in current {
          assert listeners[topic := rest] == listeners;
        }
        if |rest| == 0 {
          listeners := listeners - {topic};
        } else {
          listeners := listeners[topic := rest];
        }
      }
    }

    /** `emit(topic, update)`: one publication, and one call of each listener registered
        on `topic` at this moment. Registrations do not change. */
    method Emit(topic: string, update: StatusUpdate)
      requires Valid()
      modifies this
      ensures Valid()
      ensures published == old(published) + [Publication(topic, update)]
      ensures delivered == old(delivered) + Fanout(old(Listeners(topic)), update)
      ensures listeners == old(listeners) && nextListener == old(nextListener)
    {
      published := published + [Publication(topic, update)];
      var calls := Fanout(Listeners(topic), update);
      assert forall k :: 0 <= k < |calls| ==> calls[k].listener < nextListener;
      delivered := delivered + calls;
    }
  }
}
