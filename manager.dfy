/** The registry of live streams (src/core/StreamManager.cpp): one session per
    stream id, and a map from every connected handler, publisher or subscriber,
    to the session it belongs to. */
module Manager {
  import opened Transport
  import opened Session

  /** validateStreamId: only the empty id is rejected. */
  function ValidateStreamId(streamId: string): (ok: bool)
    ensures ok <==> |streamId| > 0
  {
    if streamId == [] then false else true
  }

  /** The two maps of the registry. */
  datatype Registry = Registry(byStreamId: map<string, StreamSession>, byConnection: map<Handler, StreamSession>)
  {
    /** Every key agrees with the stream id of the session it maps to. */
    predicate Valid()
    {
      (forall id | id in byStreamId :: byStreamId[id].publisher.streamId == id)
      && (forall c | c in byConnection :: c.streamId == byConnection[c].publisher.streamId)
    }

    /** Every connection entry points at the session registered under its
        stream id. */
    predicate Linked()
    {
      forall c | c in byConnection :: c.streamId in byStreamId && byStreamId[c.streamId] == byConnection[c]
    }

    /** The maps hold a reference to `session`. In these files they are the
        only owners of a session, so a session they no longer hold is
        destroyed. */
    predicate Holds(session: StreamSession)
    {
      session in byStreamId.Values || session in byConnection.Values
    }

    /** onPublisherConnected once its session has started: both maps point the
        publisher at the new session. */
    function AttachPublisher(publisher: Handler, session: StreamSession): Registry
    {
      Registry(byStreamId[publisher.streamId := session], byConnection[publisher := session])
    }

    /** onPublisherConnected when startPublishing fails: the two entries just
        inserted are erased again. */
    function RollBackPublisher(publisher: Handler): Registry
    {
      Registry(byStreamId - {publisher.streamId}, byConnection - {publisher})
    }

    /** onSubscriberConnected for a known stream id. */
    function AttachSubscriber(subscriber: Handler): Registry
      requires subscriber.streamId in byStreamId
    {
      this.(byConnection := byConnection[subscriber := byStreamId[subscriber.streamId]])
    }

    /** removeStream: the id entry and every connection entry whose value is
        that session go; an unknown id changes nothing. */
    function RemoveStream(streamId: string): Registry
    {
      if streamId !in byStreamId then this
      else
        var session := byStreamId[streamId];
        Registry(byStreamId - {streamId}, Detach(byConnection, session))
    }

    /** The onDisconnect callback with removeStream restricted to the reporting
        session: every connection entry of that session goes, and the stream id
        entry goes only while it still maps to that session, so a newer stream
        registered under the same id is left alone. */
    function RemoveStreamOf(streamId: string, session: StreamSession): Registry
    {
      Registry(if streamId in byStreamId && byStreamId[streamId] == session then byStreamId - {streamId} else byStreamId,
               Detach(byConnection, session))
    }

    /** removeSession as written: the found key is compared with the connection
        it was looked up by, so every mapped connection counts as the publisher
        and its stream id entry is erased. */
    function RemoveSessionAsWritten(connection: Handler): (r: Registry)
      ensures connection !in byConnection ==> r == this
      ensures connection in byConnection ==>
        connection !in r.byConnection && connection.streamId !in r.byStreamId
    {
      if connection !in byConnection then this
      else Registry(byStreamId - {connection.streamId}, byConnection - {connection})
    }

    /** removeSession with the publisher test made against the session's own
        publisher: a subscriber loses only its connection entry. */
    function RemoveSession(connection: Handler): Registry
    {
      if connection !in byConnection then this
      else if byConnection[connection].publisher == connection then
        Registry(byStreamId - {connection.streamId}, byConnection - {connection})
      else this.(byConnection := byConnection - {connection})
    }
  }

  /** A connection map without the entries that point at `session`. */
  function Detach(m: map<Handler, StreamSession>, session: StreamSession): map<Handler, StreamSession>
  {
    map c | c in m && m[c] != session :: m[c]
  }

  /** The connection map part way through removeStream's walk: entries not yet
      visited are all still there, visited ones only if they point at another
      session. */
  function Pruned(m: map<Handler, StreamSession>, session: StreamSession, unvisited: set<Handler>): map<Handler, StreamSession>
  {
    map c | c in m && (c in unvisited || m[c] != session) :: m[c]
  }

  lemma PrunedAll(m: map<Handler, StreamSession>, session: StreamSession)
    ensures Pruned(m, session, m.Keys) == m
  {
  }

  lemma PrunedNone(m: map<Handler, StreamSession>, session: StreamSession)
    ensures Pruned(m, session, {}) == Detach(m, session)
  {
  }

  /** Visiting one more entry erases it exactly when it points at the session. */
  lemma PrunedStep(m: map<Handler, StreamSession>, session: StreamSession, unvisited: set<Handler>, c: Handler)
    requires c in unvisited && unvisited <= m.Keys
    ensures c in Pruned(m, session, unvisited) && Pruned(m, session, unvisited)[c] == m[c]
    ensures Pruned(m, session, unvisited - {c}) ==
      if m[c] == session then Pruned(m, session, unvisited) - {c} else Pruned(m, session, unvisited)
  {
  }

  class StreamManager {
    var byStreamId: map<string, StreamSession>
    var byConnection: map<Handler, StreamSession>

    function Abs(): Registry
      reads this
    {
      Registry(byStreamId, byConnection)
    }

    /** Every key agrees with the stream id of the session it maps to. */
    predicate Valid()
      reads this
    {
      Abs().Valid()
    }

    constructor ()
      ensures Abs() == Registry(map[], map[]) && Valid()
    {
      byStreamId, byConnection := map[], map[];
    }

    /** onPublisherConnected: a second publisher for a registered id is
        refused and changes nothing; otherwise a new session with the
        onDisconnect callback is registered under both maps and started. */
    method OnPublisherConnected(publisher: Handler) returns (ok: bool)
      requires Valid()
      modifies this
      ensures Valid()
      ensures publisher.streamId in old(byStreamId) ==> !ok && Abs() == old(Abs())
      ensures publisher.streamId !in old(byStreamId) ==>
        ok && publisher.streamId in byStreamId
        && var session := byStreamId[publisher.streamId];
        fresh(session) && session.publisher == publisher && session.hasCallback
        && session.Abs() == State(true, false, [], true, [], [])
        && Abs() == old(Abs()).AttachPublisher(publisher, session)
    {
      if publisher.streamId in byStreamId {
        return false;
      }
      var session := new StreamSession(publisher, true);
      ok := RegisterAndStart(publisher, session);
    }

    /** The insert-then-start part of onPublisherConnected, with its rollback
        when startPublishing reports that the session was already running. */
    method RegisterAndStart(publisher: Handler, session: StreamSession) returns (ok: bool)
      requires Valid() && session.publisher == publisher
      modifies this, session
      ensures Valid()
      ensures ok == !old(session.running)
      ensures session.Abs() == old(session.Abs()).StartPublishing()
      ensures ok ==> Abs() == old(Abs()).AttachPublisher(publisher, session)
      ensures !ok ==> Abs() == old(Abs()).AttachPublisher(publisher, session).RollBackPublisher(publisher)
    {
      byStreamId := byStreamId[publisher.streamId := session];
      byConnection := byConnection[publisher := session];
      var started := session.StartPublishing();
      if !started {
        byStreamId := byStreamId - {publisher.streamId};
        byConnection := byConnection - {publisher};
        return false;
      }
      return true;
    }

    /** onSubscriberConnected: an unknown stream id is refused and changes
        nothing; otherwise the subscriber is appended to that session and
        mapped to it. */
    method OnSubscriberConnected(subscriber: Handler) returns (ok: bool)
      requires Valid()
      modifies this, if subscriber.streamId in byStreamId then {byStreamId[subscriber.streamId]} else {}
      ensures Valid()
      ensures ok <==> subscriber.streamId in old(byStreamId)
      ensures !ok ==> Abs() == old(Abs())
      ensures ok ==> (Abs() == old(Abs()).AttachSubscriber(subscriber)
        && var session := old(byStreamId[subscriber.streamId]);
        session.Abs() == old(session.Abs()).AddSubscriber(subscriber))
    {
      if subscriber.streamId !in byStreamId {
        return false;
      }
      var session := byStreamId[subscriber.streamId];
      session.AddSubscriber(subscriber);
      byConnection := byConnection[subscriber := session];
      return true;
    }

    /** removeSession, with the publisher test against the session's publisher
        (see RemoveSessionAsWritten). A subscriber is also removed from its
        session, which disconnects it. */
    method RemoveSession(connection: Handler)
      requires Valid()
      modifies this, if connection in byConnection then {byConnection[connection]} else {}
      ensures Abs() == old(Abs()).RemoveSession(connection) && Valid()
      ensures connection in old(byConnection) && old(byConnection[connection].publisher) != connection ==>
        var session := old(byConnection[connection]);
        session.Abs() == old(session.Abs()).RemoveSubscriber(connection)
      ensures connection in old(byConnection) && old(byConnection[connection].publisher) == connection ==>
        unchanged(old(byConnection[connection]))
    {
      if connection !in byConnection {
        return;
      }
      var session := byConnection[connection];
      var isPublisher := session.publisher == connection;
      byConnection := byConnection - {connection};
      if isPublisher {
        byStreamId := byStreamId - {connection.streamId};
      } else {
        session.RemoveSubscriber(connection);
      }
    }

    /** removeStream: walk the connection map, erasing every entry that points
        at the stream's session, then erase the stream id. */
    method RemoveStream(streamId: string)
      requires Valid()
      modifies this
      ensures Abs() == old(Abs()).RemoveStream(streamId) && Valid()
    {
      if streamId !in byStreamId {
        return;
      }
      DetachSession(byStreamId[streamId]);
      byStreamId := byStreamId - {streamId};
      RemoveStreamDropsSession(old(Abs()), streamId);
    }

    /** The onDisconnect callback of `session`, restricted to that session
        (see Registry.RemoveStreamOf). */
    method RemoveStreamOf(streamId: string, session: StreamSession)
      requires Valid()
      modifies this
      ensures Abs() == old(Abs()).RemoveStreamOf(streamId, session) && Valid()
    {
      DetachSession(session);
      if streamId in byStreamId && byStreamId[streamId] == session {
        byStreamId := byStreamId - {streamId};
      }
    }

    /** removeStream's walk over the connection map: every entry that points
        at `session` is erased, the others stay. */
    method DetachSession(session: StreamSession)
      requires Valid()
      modifies this
      ensures byStreamId == old(byStreamId) && byConnection == Detach(old(byConnection), session) && Valid()
    {
      ghost var before := byConnection;
      var unvisited := byConnection.Keys;
      PrunedAll(before, session);
      while unvisited != {}
        invariant byStreamId == old(byStreamId) && unvisited <= before.Keys
        invariant byConnection == Pruned(before, session, unvisited)
        decreases |unvisited|
      {
        var c :| c in unvisited;
        PrunedStep(before, session, unvisited, c);
        if byConnection[c] == session {
          byConnection := byConnection - {c};
        }
        unvisited := unvisited - {c};
      }
      PrunedNone(before, session);
    }

    /** One worker iteration of a session the registry holds, with its
        onDisconnect callback restricted to that session (see Findings). When
        the callback drops the registry's last reference, the session is
        destroyed right there, on its own worker thread. */
    method PublisherStep(session: StreamSession, r: Received, results: seq<int>) returns (proceed: bool)
      requires Valid() && Abs().Holds(session) && |results| == |session.subscribers|
      modifies this, session
      ensures Valid()
      ensures var step := old(session.Abs()).AfterReceive(session.publisher, session.hasCallback, r, results);
        proceed == step.proceed
        && Abs() == (if step.report.Some? then old(Abs()).RemoveStreamOf(step.report.value, session) else old(Abs()))
        && (step.report.Some? ==> !Abs().Holds(session))
        && session.Abs() == if Abs().Holds(session) then step.next else step.next.Destroy(session.publisher, true, false)
    {
      var report;
      proceed, report := session.HandleReceive(r, results);
      if report.Some? {
        CallbackRemovesOnlyItsStream(Abs(), report.value, session);
        RemoveStreamOf(report.value, session);
        if !Abs().Holds(session) {
          session.Destroy(true, false);
        }
      }
    }
  }

  /** A publisher for an id that is not registered adds exactly one stream id,
      its own, and maps it and the publisher to the session; every other entry
      stays. */
  lemma AttachPublisherRegisters(reg: Registry, publisher: Handler, session: StreamSession)
    requires publisher.streamId !in reg.byStreamId
    ensures var r := reg.AttachPublisher(publisher, session);
      |r.byStreamId| == |reg.byStreamId| + 1
      && r.byStreamId.Keys == reg.byStreamId.Keys + {publisher.streamId}
      && r.byStreamId[publisher.streamId] == session && r.byConnection[publisher] == session
      && (forall id | id in reg.byStreamId :: r.byStreamId[id] == reg.byStreamId[id])
      && (forall c | c in reg.byConnection && c != publisher :: r.byConnection[c] == reg.byConnection[c])
  {
    var r := reg.AttachPublisher(publisher, session);
    assert r.byStreamId.Keys == reg.byStreamId.Keys + {publisher.streamId};
  }

  /** Attaching a session under its own publisher keeps the registry valid and
      linked. */
  lemma AttachPublisherKeepsInvariants(reg: Registry, publisher: Handler, session: StreamSession)
    requires publisher.streamId !in reg.byStreamId && session.publisher == publisher
    ensures reg.Valid() ==> reg.AttachPublisher(publisher, session).Valid()
    ensures reg.Linked() ==> reg.AttachPublisher(publisher, session).Linked()
  {
    var r := reg.AttachPublisher(publisher, session);
    if reg.Linked() {
      forall c | c in r.byConnection
        ensures c.streamId in r.byStreamId && r.byStreamId[c.streamId] == r.byConnection[c]
      {
        if c != publisher {
          assert c.streamId in reg.byStreamId;
        }
      }
    }
  }

  /** The rollback undoes the insertion of a publisher whose id was not
      registered: the id map is back as it was, and the publisher has no
      connection entry. */
  lemma RollBackUndoesAttach(reg: Registry, publisher: Handler, session: StreamSession)
    requires publisher.streamId !in reg.byStreamId
    ensures var r := reg.AttachPublisher(publisher, session).RollBackPublisher(publisher);
      r.byStreamId == reg.byStreamId && r.byConnection == reg.byConnection - {publisher}
  {
    var r := reg.AttachPublisher(publisher, session).RollBackPublisher(publisher);
    assert r.byStreamId == reg.byStreamId;
    assert r.byConnection == reg.byConnection - {publisher};
  }

  /** A subscriber joins the session registered under its own stream id and
      keeps the registry valid and linked. */
  lemma AttachSubscriberKeepsInvariants(reg: Registry, subscriber: Handler)
    requires subscriber.streamId in reg.byStreamId
    ensures var r := reg.AttachSubscriber(subscriber);
      r.byStreamId == reg.byStreamId && r.byConnection[subscriber] == reg.byStreamId[subscriber.streamId]
    ensures reg.Valid() ==> reg.AttachSubscriber(subscriber).Valid()
    ensures reg.Linked() ==> reg.AttachSubscriber(subscriber).Linked()
  {
  }

  /** removeStream for a registered id drops the id and every connection of
      its session, and only those; for an unregistered id it changes nothing.
      It keeps the registry valid and linked. */
  lemma RemoveStreamDropsSession(reg: Registry, streamId: string)
    ensures streamId !in reg.byStreamId ==> reg.RemoveStream(streamId) == reg
    ensures streamId in reg.byStreamId ==>
      var session := reg.byStreamId[streamId];
      var r := reg.RemoveStream(streamId);
      r.byStreamId == reg.byStreamId - {streamId}
      && (forall c :: c in r.byConnection <==> c in reg.byConnection && reg.byConnection[c] != session)
      && (forall c | c in r.byConnection :: r.byConnection[c] == reg.byConnection[c])
    ensures reg.Valid() ==> reg.RemoveStream(streamId).Valid()
    ensures reg.Linked() ==> reg.RemoveStream(streamId).Linked()
  {
    if streamId in reg.byStreamId && reg.Linked() {
      var session := reg.byStreamId[streamId];
      var r := reg.RemoveStream(streamId);
      forall c | c in r.byConnection
        ensures c.streamId in r.byStreamId && r.byStreamId[c.streamId] == r.byConnection[c]
      {
        assert reg.byStreamId[c.streamId] == reg.byConnection[c] != session;
      }
    }
  }

  /** With the corrected test, a subscriber's disconnect erases only its own
      connection entry and keeps the registry valid and linked; a publisher's
      erases its stream id as well. An unmapped connection changes nothing. */
  lemma RemoveSessionKeepsStreams(reg: Registry, connection: Handler)
    ensures connection !in reg.byConnection ==> reg.RemoveSession(connection) == reg
    ensures connection in reg.byConnection && reg.byConnection[connection].publisher != connection ==>
      reg.RemoveSession(connection) == reg.(byConnection := reg.byConnection - {connection})
      && (reg.Linked() ==> reg.RemoveSession(connection).Linked())
    ensures connection in reg.byConnection && reg.byConnection[connection].publisher == connection ==>
      reg.RemoveSession(connection) == Registry(reg.byStreamId - {connection.streamId}, reg.byConnection - {connection})
    ensures reg.Valid() ==> reg.RemoveSession(connection).Valid()
  {
  }

  /** The discrepancy in removeSession: when a subscriber of a registered
      stream disconnects, the code as written erases that stream's id entry,
      so later subscribers are refused and the remaining connection entries
      no longer point at a registered stream, while the corrected version
      keeps the stream. */
  lemma SubscriberDisconnectAsWrittenDropsStream(reg: Registry, subscriber: Handler)
    requires reg.Valid() && reg.Linked() && subscriber in reg.byConnection
    requires reg.byConnection[subscriber].publisher != subscriber
    ensures subscriber.streamId in reg.byStreamId
    ensures subscriber.streamId !in reg.RemoveSessionAsWritten(subscriber).byStreamId
    ensures reg.RemoveSession(subscriber).byStreamId == reg.byStreamId
    ensures var publisher := reg.byConnection[subscriber].publisher;
      publisher in reg.byConnection ==> !reg.RemoveSessionAsWritten(subscriber).Linked()
  {
    var publisher := reg.byConnection[subscriber].publisher;
    if publisher in reg.byConnection {
      var r := reg.RemoveSessionAsWritten(subscriber);
      assert publisher in r.byConnection;
      assert publisher.streamId == subscriber.streamId;
    }
  }

  /** For a publisher the two versions agree. */
  lemma PublisherDisconnectAgrees(reg: Registry, connection: Handler)
    requires connection !in reg.byConnection || reg.byConnection[connection].publisher == connection
    ensures reg.RemoveSessionAsWritten(connection) == reg.RemoveSession(connection)
  {
  }

  /** The failure of a registered publisher, end to end. The worker reports
      the stream id to the callback, removeStream drops every reference the
      registry holds, so the session is destroyed on its own worker thread;
      as written, that destruction meets a still-joinable handle and ends in
      std::terminate. */
  lemma PublisherFailureAsWrittenTerminates(reg: Registry, session: StreamSession, st: State, results: seq<int>)
    requires reg.Valid() && session.publisher.streamId in reg.byStreamId
    requires reg.byStreamId[session.publisher.streamId] == session
    requires session.hasCallback && st.running && st.threadPresent && |results| == |st.subscribers|
    ensures var step := st.AfterReceive(session.publisher, session.hasCallback, RecvError, results);
      step.report == Some(session.publisher.streamId)
      && !reg.RemoveStream(session.publisher.streamId).Holds(session)
      && step.next.DestroyAsWritten(session.publisher, true, false) == Terminated
  {
    ReleasedAfterRemoveStream(reg, session);
  }

  /** With the handle detached and the callback restricted to the reporting
      session, the same failure ends with the session torn down, whether or
      not its id is still registered to it: no registry entry refers to it,
      its handle is released, and its subscribers and then its publisher are
      disconnected. */
  lemma PublisherFailureReleasesSession(reg: Registry, session: StreamSession, st: State, results: seq<int>)
    requires reg.Valid()
    requires session.hasCallback && st.running && !st.disconnecting && |results| == |st.subscribers|
    ensures var step := st.AfterReceive(session.publisher, session.hasCallback, RecvError, results);
      var d := step.next.Destroy(session.publisher, true, false);
      step.report == Some(session.publisher.streamId)
      && !reg.RemoveStreamOf(session.publisher.streamId, session).Holds(session)
      && !d.threadPresent && d.subscribers == []
      && d.disconnected == st.disconnected + st.subscribers + [session.publisher]
  {
    CallbackRemovesOnlyItsStream(reg, session.publisher.streamId, session);
  }

  /** removeStream under a session's own stream id leaves the registry
      holding no reference to it. */
  lemma ReleasedAfterRemoveStream(reg: Registry, session: StreamSession)
    requires reg.Valid() && session.publisher.streamId in reg.byStreamId
    requires reg.byStreamId[session.publisher.streamId] == session
    ensures !reg.RemoveStream(session.publisher.streamId).Holds(session)
  {
  }

  /** The restricted callback, reported with the session's own id, releases
      that session and nothing else: a stream id stays exactly when it maps
      to another session, and a connection entry stays exactly when it points
      at another session, each with its old value. */
  lemma CallbackRemovesOnlyItsStream(reg: Registry, streamId: string, session: StreamSession)
    requires reg.Valid() && streamId == session.publisher.streamId
    ensures var r := reg.RemoveStreamOf(streamId, session);
      !r.Holds(session)
      && (forall id :: id in r.byStreamId <==> id in reg.byStreamId && reg.byStreamId[id] != session)
      && (forall id | id in r.byStreamId :: r.byStreamId[id] == reg.byStreamId[id])
      && (forall c :: c in r.byConnection <==> c in reg.byConnection && reg.byConnection[c] != session)
      && (forall c | c in r.byConnection :: r.byConnection[c] == reg.byConnection[c])
      && r.Valid() && (reg.Linked() ==> r.Linked())
  {
    var r := reg.RemoveStreamOf(streamId, session);
    if reg.Linked() {
      forall c | c in r.byConnection
        ensures c.streamId in r.byStreamId && r.byStreamId[c.streamId] == r.byConnection[c]
      {
        assert reg.byStreamId[c.streamId] == reg.byConnection[c] != session;
      }
    }
  }

  /** When the id still maps to the reporting session, the restricted callback
      is removeStream itself. */
  lemma CallbackAgreesWithRemoveStream(reg: Registry, streamId: string, session: StreamSession)
    requires streamId in reg.byStreamId && reg.byStreamId[streamId] == session
    ensures reg.RemoveStreamOf(streamId, session) == reg.RemoveStream(streamId)
  {
  }

  /** The discrepancy in the callback: a stale session, whose publisher was
      removed and whose id was registered again by a newer publisher, still
      runs its worker; when its receive fails, removeStream by id drops the
      newer stream and every reference to the newer session, while the stale
      session's own subscriber entries stay. The restricted callback keeps
      the newer stream. */
  lemma StaleCallbackAsWrittenDropsNewerStream(reg: Registry, session: StreamSession, subscriber: Handler)
    requires reg.Valid() && session.publisher.streamId in reg.byStreamId
    requires reg.byStreamId[session.publisher.streamId] != session
    requires subscriber in reg.byConnection && reg.byConnection[subscriber] == session
    ensures var id := session.publisher.streamId;
      var newer := reg.byStreamId[id];
      var r := reg.RemoveStream(id);
      id !in r.byStreamId && !r.Holds(newer)
      && subscriber in r.byConnection && r.byConnection[subscriber] == session
    ensures var id := session.publisher.streamId;
      var r := reg.RemoveStreamOf(id, session);
      id in r.byStreamId && r.byStreamId[id] == reg.byStreamId[id]
      && subscriber !in r.byConnection
  {
    var newer := reg.byStreamId[session.publisher.streamId];
    ReleasedAfterRemoveStream(reg, newer);
  }
}
