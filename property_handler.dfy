// Model of PropertyHandler (sensord/propertyhandler.cpp): per-property,
// per-adaptor requests of the sessions, keyed "property::adaptor", and the
// value that wins among them. The propertyRequestReceived signal is recorded
// as the list of keys it was emitted for.
module PropertyHandler {
  import opened Common

  /** The map key of a property of an adaptor. */
  function Key(property: string, adaptor: string): (k: string)
    ensures |k| == |property| + 2 + |adaptor|
    ensures k[..|property|] == property && k[|property| + 2..] == adaptor
  {
    property + "::" + adaptor
  }

  /**
   * getHighestValue's answer: despite the name, the smallest positive request,
   * or 0 when no request is positive.
   */
  ghost predicate IsHighestValue(requests: map<int, int>, r: int)
  {
    && r >= 0
    && (r == 0 <==> forall s :: s in requests ==> requests[s] <= 0)
    && (r > 0 ==> exists s :: s in requests && requests[s] == r)
    && (forall s :: s in requests && requests[s] > 0 ==> r <= requests[s])
  }

  /** The answer is determined by the requests. */
  lemma HighestValueUnique(requests: map<int, int>, r: int, r': int)
    requires IsHighestValue(requests, r) && IsHighestValue(requests, r')
    ensures r == r'
  {
    if r > 0 && r' > 0 {
      var s :| s in requests && requests[s] == r;
      var s' :| s' in requests && requests[s'] == r';
      assert r <= r' && r' <= r;
    }
  }

  /**
   * A new positive request from a session that had none lowers the answer to
   * that value or leaves it, whichever is smaller.
   */
  lemma HighestValueAfterRequest(requests: map<int, int>, r: int, sessionId: int, value: int)
    requires IsHighestValue(requests, r) && sessionId !in requests && value > 0
    ensures IsHighestValue(requests[sessionId := value], if r == 0 || value < r then value else r)
  {
    var m := requests[sessionId := value];
    var r' := if r == 0 || value < r then value else r;
    if r' == r {
      var s :| s in requests && requests[s] == r;
      assert s in m && m[s] == r;
    } else {
      assert sessionId in m && m[sessionId] == r';
    }
  }

  /** A request that is not positive never changes the answer. */
  lemma NonPositiveRequestIgnored(requests: map<int, int>, r: int, sessionId: int, value: int)
    requires IsHighestValue(requests, r) && sessionId !in requests && value <= 0
    ensures IsHighestValue(requests[sessionId := value], r)
  {
    if r > 0 {
      var s :| s in requests && requests[s] == r;
      assert s in requests[sessionId := value];
    }
  }

  /**
   * `m` is `before` with the session's request dropped under the keys in
   * `done` and nothing else changed.
   */
  ghost predicate ClearedUnder(m: map<string, map<int, int>>, before: map<string, map<int, int>>, done: set<string>, sessionId: int)
  {
    && m.Keys == before.Keys
    && (forall key :: key in m && key in done ==> m[key] == before[key] - {sessionId})
    && (forall key :: key in m && key !in done ==> m[key] == before[key])
  }

  /** `signals` names, once each, exactly the keys in `done` that held a request of the session. */
  ghost predicate SignalledUnder(signals: seq<string>, before: map<string, map<int, int>>, done: set<string>, sessionId: int)
  {
    && NoDuplicates(signals)
    && forall key :: key in signals <==> key in before && key in done && sessionId in before[key]
  }

  lemma ClearStep(m: map<string, map<int, int>>, m0: map<string, map<int, int>>, before: map<string, map<int, int>>,
                  done: set<string>, sessionId: int, key: string)
    requires ClearedUnder(m0, before, done, sessionId) && key in m0 && key !in done
    requires m == m0[key := m0[key] - {sessionId}]
    ensures ClearedUnder(m, before, done + {key}, sessionId)
  {
  }

  lemma SignalStep(signals: seq<string>, before: map<string, map<int, int>>, done: set<string>, sessionId: int, key: string)
    requires SignalledUnder(signals, before, done, sessionId) && key in before && key !in done
    ensures SignalledUnder(signals + (if sessionId in before[key] then [key] else []), before, done + {key}, sessionId)
  {
    if sessionId in before[key] {
      AppendNewKeepsNoDuplicates(signals, key);
    } else {
      assert signals + [] == signals;
    }
  }

  class Handler {
    /** m_propertyMap: key -> (session -> requested value). */
    var propertyMap: map<string, map<int, int>>
    /** The keys propertyRequestReceived was emitted for, oldest first. */
    var notified: seq<string>

    constructor ()
      ensures propertyMap == map[] && notified == []
    {
      propertyMap := map[];
      notified := [];
    }

    /** The requests stored for a key; a missing key has none. */
    function Requests(key: string): (m: map<int, int>)
      reads this
      ensures key !in propertyMap ==> m == map[]
    {
      if key in propertyMap then propertyMap[key] else map[]
    }

    /**
     * setRequest: the session's value is stored under the key, replacing an
     * earlier one of the same session; other keys and sessions are untouched.
     */
    method SetRequest(property: string, adaptor: string, sessionId: int, value: int)
      modifies this
      ensures propertyMap == old(propertyMap)[Key(property, adaptor) := old(Requests(Key(property, adaptor)))[sessionId := value]]
      ensures notified == old(notified) + [Key(property, adaptor)]
    {
      var key := Key(property, adaptor);
      if key in propertyMap {
        propertyMap := propertyMap[key := propertyMap[key][sessionId := value]];
      } else {
        var valueMap := map[sessionId := value];
        propertyMap := propertyMap[key := valueMap];
      }
      notified := notified + [key];
    }

    /**
     * clearRequests: the session's request is removed under every key and
     * only there; the signal is emitted once for each key that held one. The
     * order of the signals follows the key order, which is not modelled.
     */
    method ClearRequests(sessionId: int)
      modifies this
      ensures ClearedUnder(propertyMap, old(propertyMap), old(propertyMap).Keys, sessionId)
      ensures |notified| >= |old(notified)| && notified[..|old(notified)|] == old(notified)
      ensures SignalledUnder(notified[|old(notified)|..], old(propertyMap), old(propertyMap).Keys, sessionId)
    {
      ghost var before := propertyMap;
      ghost var signals: seq<string> := [];
      var keys := propertyMap.Keys;
      while keys != {}
        invariant keys <= before.Keys
        invariant ClearedUnder(propertyMap, before, before.Keys - keys, sessionId)
        invariant notified == old(notified) + signals
        invariant SignalledUnder(signals, before, before.Keys - keys, sessionId)
        decreases |keys|
      {
        var key := Pick(keys);
        ghost var pm := propertyMap;
        ClearKey(key, sessionId);
        ClearStep(propertyMap, pm, before, before.Keys - keys, sessionId, key);
        SignalStep(signals, before, before.Keys - keys, sessionId, key);
        ghost var signal := if sessionId in before[key] then [key] else [];
        AppendAssociative(old(notified), signals, signal);
        signals := signals + signal;
        assert before.Keys - (keys - {key}) == (before.Keys - keys) + {key};
        keys := keys - {key};
      }
      assert notified[|old(notified)|..] == signals;
    }

    /** One key of clearRequests: drop the session's request there, signalling if it had one. */
    method ClearKey(key: string, sessionId: int)
      requires key in propertyMap
      modifies this
      ensures propertyMap == old(propertyMap)[key := old(propertyMap)[key] - {sessionId}]
      ensures notified == old(notified) + (if sessionId in old(propertyMap)[key] then [key] else [])
    {
      if sessionId in propertyMap[key] {
        propertyMap := propertyMap[key := propertyMap[key] - {sessionId}];
        notified := notified + [key];
      } else {
        assert propertyMap[key] - {sessionId} == propertyMap[key];
      }
    }

    /** getHighestValue: one pass over the key's requests, keeping the smallest positive one. */
    method GetHighestValue(property: string, adaptor: string) returns (r: int)
      ensures IsHighestValue(Requests(Key(property, adaptor)), r)
    {
      var highestValue := -1;
      var valueMap := Requests(Key(property, adaptor));
      var rest := valueMap.Keys;
      while rest != {}
        invariant rest <= valueMap.Keys
        invariant highestValue == -1 || highestValue > 0
        invariant highestValue == -1 ==> forall s :: s in valueMap && s !in rest ==> valueMap[s] <= 0
        invariant highestValue > 0 ==> exists s :: s in valueMap && s !in rest && valueMap[s] == highestValue
        invariant forall s :: s in valueMap && s !in rest && valueMap[s] > 0 ==> highestValue <= valueMap[s]
        decreases |rest|
      {
        var s := Pick(rest);
        var value := valueMap[s];
        if (value < highestValue || highestValue < 0) && value > 0 {
          highestValue := value;
        }
        rest := rest - {s};
      }
      r := if highestValue > 0 then highestValue else 0;
    }
  }

}
