// Model of AbstractSensorChannel's session bookkeeping (core/abstractsensor.cpp):
// a start counter and the list of active sessions. The channel is a NodeBase;
// here it holds its NodeBase.Node, whose interval requests start and stop
// maintain.
module AbstractSensor {
  import opened Common
  import opened NodeBase

  /** start(): one more start; true exactly when the counter goes from 0 to 1. */
  function Started(cnt: int): (r: (int, bool))
    ensures r.0 == cnt + 1
    ensures r.1 <==> cnt == 0
  {
    (cnt + 1, cnt + 1 == 1)
  }

  /**
   * stop(): one start less; true exactly when the counter goes from 1 to 0,
   * and the counter is clamped at 0.
   */
  function Stopped(cnt: int): (r: (int, bool))
    ensures r.0 == Max(cnt - 1, 0)
    ensures r.1 <==> cnt == 1
  {
    var c := cnt - 1;
    if c == 0 then (c, true)
    else if c < 0 then (0, false)
    else (c, false)
  }

  /** A stop undoes a start, and only the stop of the last start reports true. */
  lemma StopUndoesStart(cnt: int)
    requires cnt >= 0
    ensures Stopped(Started(cnt).0) == (cnt, cnt == 0)
  {
  }

  /** start(sessionId) records the session once. */
  function WithSession(sessions: seq<int>, sessionId: int): (r: seq<int>)
    ensures forall s :: s in r <==> s in sessions || s == sessionId
  {
    if sessionId in sessions then sessions else sessions + [sessionId]
  }

  /** The active-session list never holds a session twice. */
  lemma WithSessionKeepsNoDuplicates(sessions: seq<int>, sessionId: int)
    requires NoDuplicates(sessions)
    ensures NoDuplicates(WithSession(sessions, sessionId))
  {
    if sessionId !in sessions {
      AppendNewKeepsNoDuplicates(sessions, sessionId);
    }
  }

  /** A stop of a session that was not active undoes its start. */
  lemma StopSessionUndoesStart(sessions: seq<int>, sessionId: int)
    requires sessionId !in sessions
    ensures RemoveAll(WithSession(sessions, sessionId), sessionId) == sessions
  {
    RemoveAllAppended(sessions, sessionId);
  }

  class Channel {
    /** id_: the channel id without its parameters. */
    const id: string
    /** cnt_ */
    var cnt: int
    /** activeSessions_ */
    var activeSessions: seq<int>
    /** The channel's NodeBase part. */
    const node: Node

    ghost predicate Valid()
      reads this`cnt, this`activeSessions
    {
      cnt >= 0 && NoDuplicates(activeSessions)
    }

    constructor (id: string)
      ensures Valid()
      ensures this.id == CleanId(id) && cnt == 0 && activeSessions == []
      ensures fresh(node) && node.intervalMap == map[] && node.hasDefault == false
    {
      this.id := CleanId(id);
      cnt := 0;
      activeSessions := [];
      node := new Node();
    }

    /**
     * start(sessionId): the session becomes active (once), its default
     * interval is requested, and the channel starts.
     */
    method StartSession(sessionId: int) returns (r: bool)
      requires Valid()
      modifies this`cnt, this`activeSessions, node`intervalMap, node`intervalSet
      ensures Valid()
      ensures activeSessions == WithSession(old(activeSessions), sessionId)
      ensures (cnt, r) == Started(old(cnt))
      ensures !node.hasDefault ==> node.intervalMap == old(node.intervalMap) && node.intervalSet == old(node.intervalSet)
      ensures node.hasDefault && InRanges(node.intervalList, node.defaultInterval) ==>
        node.intervalMap == old(node.intervalMap)[sessionId := node.defaultInterval] &&
        node.intervalSet == IntervalApplied(node.intervalMap, old(node.intervalSet))
      ensures node.hasDefault && !InRanges(node.intervalList, node.defaultInterval) ==>
        node.intervalMap == old(node.intervalMap) && node.intervalSet == old(node.intervalSet)
    {
      WithSessionKeepsNoDuplicates(activeSessions, sessionId);
      if sessionId !in activeSessions {
        activeSessions := activeSessions + [sessionId];
      }
      var _ := node.RequestDefaultInterval(sessionId);
      r := Start();
    }

    /** start() */
    method Start() returns (r: bool)
      modifies this`cnt
      ensures (cnt, r) == Started(old(cnt))
    {
      cnt := cnt + 1;
      r := cnt == 1;
    }

    /**
     * stop(sessionId): the session is no longer active, and when the channel
     * stops its interval request is removed.
     */
    method StopSession(sessionId: int) returns (r: bool)
      requires Valid()
      modifies this`cnt, this`activeSessions, node`intervalMap, node`intervalSet
      ensures Valid()
      ensures activeSessions == RemoveAll(old(activeSessions), sessionId)
      ensures (cnt, r) == Stopped(old(cnt))
      ensures r ==> node.intervalMap == old(node.intervalMap) - {sessionId} &&
                    node.intervalSet == IntervalApplied(node.intervalMap, old(node.intervalSet))
      ensures !r ==> node.intervalMap == old(node.intervalMap) && node.intervalSet == old(node.intervalSet)
    {
      RemoveAllKeepsNoDuplicates(activeSessions, sessionId);
      activeSessions := RemoveAll(activeSessions, sessionId);
      r := Stop();
      if r {
        node.RemoveIntervalRequest(sessionId);
      }
    }

    /** stop() */
    method Stop() returns (r: bool)
      modifies this`cnt
      ensures (cnt, r) == Stopped(old(cnt))
    {
      cnt := cnt - 1;
      if cnt == 0 {
        return true;
      }
      if cnt < 0 {
        cnt := 0;
      }
      return false;
    }
  }
}
