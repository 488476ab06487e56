/** EventManager.Event: a named event with a default handler and subscriber handlers that
    can veto it. The subscriber dictionary is a sequence of (subscriber key, handler) pairs
    in enumeration order; a handler is represented by what calling it does. */
module Events {
  import opened Outcomes

  type Handler = Outcome

  /** One entry of HandlerMethods. */
  type Entry = (string, Handler)

  /** One call made by a trigger, in the order the calls happen. */
  datatype Call = CallSubscriber(subscriber: string) | CallDefault

  function Keys(hs: seq<Entry>): seq<string> {
    seq(|hs|, i requires 0 <= i < |hs| => hs[i].0)
  }

  /** A dictionary has no key twice. */
  ghost predicate UniqueKeys(hs: seq<Entry>) {
    forall i, j :: 0 <= i < j < |hs| ==> hs[i].0 != hs[j].0
  }

  /** The dictionary indexer: the handler stored under `key`, if any. */
  function Lookup(hs: seq<Entry>, key: string): (r: Option<Handler>)
    ensures r.None? <==> key !in Keys(hs)
    ensures r.Some? ==> (key, r.value) in hs
  {
    if hs == [] then None
    else if hs[0].0 == key then
      assert Keys(hs)[0] == key;
      Some(hs[0].1)
    else
      assert Keys(hs) == [hs[0].0] + Keys(hs[1..]);
      Lookup(hs[1..], key)
  }

  /** `Dictionary.Remove`: the entries other than the one under `key`, in their order. It adds
      nothing, keeps nothing under `key` and keeps every entry under another key. */
  function RemoveKey(hs: seq<Entry>, key: string): (r: seq<Entry>)
    ensures |r| <= |hs|
    ensures forall e :: e in r ==> e in hs && e.0 != key
    ensures forall e :: e in hs && e.0 != key ==> e in r
  {
    if hs == [] then []
    else (if hs[0].0 == key then [] else [hs[0]]) + RemoveKey(hs[1..], key)
  }

  /** Whether the default runs after the subscribers in `hs` have been called in order:
      the fold of the trigger loop, one handler at a time from the first. */
  function RunsDefault(hs: seq<Entry>): bool {
    if hs == [] then true
    else RunsDefault(hs[..|hs| - 1]) && !Halts(hs[|hs| - 1].1)
  }

  /** The subscriber calls of a trigger over `hs`, in order. */
  function SubscriberCalls(hs: seq<Entry>): seq<Call> {
    if hs == [] then []
    else SubscriberCalls(hs[..|hs| - 1]) + [CallSubscriber(hs[|hs| - 1].0)]
  }

  /** The default runs exactly when no handler returned false without throwing. */
  lemma {:induction false} RunsDefaultIffNoVeto(hs: seq<Entry>)
    ensures RunsDefault(hs) <==> forall i :: 0 <= i < |hs| ==> !Halts(hs[i].1)
  {
    if hs != [] {
      var init := hs[..|hs| - 1];
      RunsDefaultIffNoVeto(init);
      assert forall i :: 0 <= i < |init| ==> init[i] == hs[i];
    }
  }

  /** A throwing handler never vetoes: removing it or adding it anywhere changes nothing. */
  lemma ThrowingHandlerNeverVetoes(before: seq<Entry>, key: string, after: seq<Entry>)
    ensures RunsDefault(before + [(key, Threw)] + after) == RunsDefault(before + after)
  {
    var with := before + [(key, Threw)] + after;
    var without := before + after;
    RunsDefaultIffNoVeto(with);
    RunsDefaultIffNoVeto(without);
    assert forall i :: 0 <= i < |without| ==>
      without[i] == with[if i < |before| then i else i + 1];
    assert forall i :: 0 <= i < |with| && i != |before| ==>
      with[i] == without[if i < |before| then i else i - 1];
  }

  /** One explicit `false` anywhere vetoes the default, whatever the other handlers do. */
  lemma OneVetoSuffices(hs: seq<Entry>, k: nat)
    requires k < |hs| && hs[k].1 == Returned(false)
    ensures !RunsDefault(hs)
  {
    RunsDefaultIffNoVeto(hs);
  }

  lemma {:induction false} SubscriberCallsKeys(hs: seq<Entry>)
    ensures |SubscriberCalls(hs)| == |hs|
    ensures forall i :: 0 <= i < |hs| ==> SubscriberCalls(hs)[i] == CallSubscriber(hs[i].0)
  {
    if hs != [] {
      var init := hs[..|hs| - 1];
      SubscriberCallsKeys(init);
      assert forall i :: 0 <= i < |init| ==> init[i] == hs[i];
    }
  }

  /** Registering a new key makes the indexer return the new handler there and leaves
      every other key's handler as it was. */
  lemma {:induction false} LookupAfterAppend(hs: seq<Entry>, key: string, h: Handler, other: string)
    requires key !in Keys(hs)
    ensures Lookup(hs + [(key, h)], key) == Some(h)
    ensures other != key ==> Lookup(hs + [(key, h)], other) == Lookup(hs, other)
  {
    if hs != [] {
      assert (hs + [(key, h)])[1..] == hs[1..] + [(key, h)];
      assert Keys(hs) == [hs[0].0] + Keys(hs[1..]);
      LookupAfterAppend(hs[1..], key, h, other);
    }
  }

  lemma KeysCons(hs: seq<Entry>)
    requires hs != []
    ensures Keys(hs) == [hs[0].0] + Keys(hs[1..])
  {
  }

  /** After Remove the key is gone and every other key keeps its handler. */
  lemma {:induction false} RemoveKeyLookup(hs: seq<Entry>, key: string, other: string)
    ensures Lookup(RemoveKey(hs, key), key) == None
    ensures other != key ==> Lookup(RemoveKey(hs, key), other) == Lookup(hs, other)
  {
    if hs != [] {
      RemoveKeyLookup(hs[1..], key, other);
      var rest := RemoveKey(hs[1..], key);
      if hs[0].0 != key {
        var r := [hs[0]] + rest;
        assert RemoveKey(hs, key) == r;
        assert r != [] && r[0] == hs[0] && r[1..] == rest;
        assert Lookup(r, key) == Lookup(rest, key);
      } else {
        assert RemoveKey(hs, key) == rest;
      }
    }
  }

  lemma TailUnique(hs: seq<Entry>)
    requires hs != [] && UniqueKeys(hs)
    ensures UniqueKeys(hs[1..]) && hs[0].0 !in Keys(hs[1..])
  {
    var tail := hs[1..];
    forall i, j | 0 <= i < j < |tail| ensures tail[i].0 != tail[j].0 {
      assert tail[i] == hs[i + 1] && tail[j] == hs[j + 1];
    }
    forall i | 0 <= i < |tail| ensures Keys(tail)[i] != hs[0].0 {
      assert tail[i] == hs[i + 1];
    }
  }

  /** Remove keeps the keys distinct, and takes out exactly one entry when the key was there. */
  lemma {:induction false} RemoveKeyUnique(hs: seq<Entry>, key: string)
    requires UniqueKeys(hs)
    ensures UniqueKeys(RemoveKey(hs, key))
    ensures |RemoveKey(hs, key)| == if key in Keys(hs) then |hs| - 1 else |hs|
  {
    if hs != [] {
      var tail := hs[1..];
      KeysCons(hs);
      TailUnique(hs);
      RemoveKeyUnique(tail, key);
      var rest := RemoveKey(tail, key);
      if hs[0].0 != key {
        var r := [hs[0]] + rest;
        forall i, j | 0 <= i < j < |r| ensures r[i].0 != r[j].0 {
          if i == 0 {
            assert r[j] in tail;
            var m :| 0 <= m < |tail| && tail[m] == r[j];
            assert Keys(tail)[m] == r[j].0;
          } else {
            assert r[i] == rest[i - 1] && r[j] == rest[j - 1];
          }
        }
      }
    }
  }

  class Event {
    const Key: string
    const Name: string
    const DefaultHandler: Handler
    var HandlerMethods: seq<Entry>

    ghost predicate Valid()
      reads this
    {
      UniqueKeys(HandlerMethods)
    }

    constructor (key: string, name: string, defaultHandler: Handler)
      ensures Valid()
      ensures Key == key && Name == name && DefaultHandler == defaultHandler
      ensures HandlerMethods == []
    {
      Key, Name, DefaultHandler := key, name, defaultHandler;
      HandlerMethods := [];
    }

    /** TriggerFunction: call every subscriber in order, then the default unless one of them
        vetoed; the result says whether the default ran. */
    method Trigger() returns (runDefault: bool, calls: seq<Call>)
      ensures runDefault == RunsDefault(HandlerMethods)
      ensures calls == SubscriberCalls(HandlerMethods) + (if runDefault then [CallDefault] else [])
    {
      runDefault := true;
      calls := [];
      if |HandlerMethods| > 0 {
        var i := 0;
        while i < |HandlerMethods|
          invariant 0 <= i <= |HandlerMethods|
          invariant runDefault == RunsDefault(HandlerMethods[..i])
          invariant calls == SubscriberCalls(HandlerMethods[..i])
          decreases |HandlerMethods| - i
        {
          var subscriber := HandlerMethods[i].0;
          var handler := HandlerMethods[i].1;
          calls := calls + [CallSubscriber(subscriber)];
          var response := true;
          var exception := false;
          match handler {
            case Returned(b) => response := b;
            case Threw => exception := true;
          }
          if !exception && !response {
            runDefault := false;
          }
          assert HandlerMethods[..i + 1][..i] == HandlerMethods[..i];
          i := i + 1;
        }
        assert HandlerMethods[..i] == HandlerMethods;
      }
      if runDefault {
        // The default handler's own result is ignored and its exception caught.
        calls := calls + [CallDefault];
      }
    }

    method RegisterHandler(source: string, handler: Handler) returns (added: bool)
      requires Valid()
      modifies this
      ensures Valid()
      ensures added <==> source !in Keys(old(HandlerMethods))
      ensures HandlerMethods == if added then old(HandlerMethods) + [(source, handler)] else old(HandlerMethods)
    {
      if source !in Keys(HandlerMethods) {
        HandlerMethods := HandlerMethods + [(source, handler)];
        assert UniqueKeys(HandlerMethods) by {
          var hs := HandlerMethods;
          forall i, j | 0 <= i < j < |hs| ensures hs[i].0 != hs[j].0 {
            if j == |hs| - 1 {
              assert Keys(old(HandlerMethods))[i] == hs[i].0;
            }
          }
        }
        return true;
      }
      return false;
    }

    method UnregisterHandler(source: string) returns (removed: bool)
      requires Valid()
      modifies this
      ensures Valid()
      ensures removed <==> source in Keys(old(HandlerMethods))
      ensures HandlerMethods == RemoveKey(old(HandlerMethods), source)
      ensures Lookup(HandlerMethods, source) == None
    {
      removed := source in Keys(HandlerMethods);
      RemoveKeyLookup(HandlerMethods, source, source);
      RemoveKeyUnique(HandlerMethods, source);
      HandlerMethods := RemoveKey(HandlerMethods, source);
    }
  }

  /** Subscription uniqueness: a second registration under the same key is refused and the
      first handler stays installed; removing a key that was never added reports false. */
  method SubscriptionUniqueness(h: Handler, h2: Handler) returns (first: bool, second: bool, installed: Option<Handler>, removedMissing: bool)
    ensures first && !second && installed == Some(h) && !removedMissing
  {
    var e := new Event("OnPlayerKilled", "Player Killed", Returned(true));
    first := e.RegisterHandler("sub", h);
    second := e.RegisterHandler("sub", h2);
    installed := Lookup(e.HandlerMethods, "sub");
    removedMissing := e.UnregisterHandler("missing");
  }

  /** Event veto: with no subscribers only the default runs; one `false` subscriber skips it;
      a throwing subscriber counts as a `true` one. */
  method VetoScenario() returns (empty: bool, vetoed: bool, threw: bool, threwCalls: seq<Call>)
    ensures empty && !vetoed && threw
    ensures threwCalls == [CallSubscriber("crashes"), CallDefault]
  {
    var e := new Event("OnPlayerKilled", "Player Killed", Returned(true));
    var calls;
    empty, calls := e.Trigger();
    var added := e.RegisterHandler("crashes", Threw);
    threw, threwCalls := e.Trigger();
    added := e.RegisterHandler("vetoes", Returned(false));
    vetoed, calls := e.Trigger();
  }
}
