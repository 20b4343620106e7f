/** The earlier stream session (oldCPP/src/core/StreamSession.cpp). It differs
    from the current one in three ways: cleanupSession raises a `cleanupDone`
    signal that waitForCleanup blocks on, the loss of the publisher is reported
    as a StreamEvent to a listener held by a weak reference, and receive() may
    throw, which the worker treats like a failed receive.

    As in module Session, the worker loop is the two steps `ContinueLoop` and
    `HandleReceive`, and other operations may run between them. */
module LegacySession {
  import opened Transport
  import opened SubscriberList

  /** What one receive() on the publisher yields; it may also throw. */
  datatype Received = Bytes(data: Chunk) | RecvError | RecvException

  datatype StreamEventType = PublisherDisconnected

  /** The event a session hands its listener: the kind, the stream id and the
      publisher handler. */
  datatype StreamEvent = StreamEvent(kind: StreamEventType, streamId: string, handler: Handler)

  /** notifyDisconnect: an event for the publisher when the listener is still
      alive (the weak reference locks), nothing otherwise. */
  function NotifyDisconnect(publisher: Handler, listenerAlive: bool): (event: Option<StreamEvent>)
    ensures event.Some? <==> listenerAlive
    ensures event.Some? ==>
      event.value.kind == PublisherDisconnected && event.value.streamId == publisher.streamId
      && event.value.handler == publisher
  {
    if listenerAlive then Some(StreamEvent(PublisherDisconnected, publisher.streamId, publisher)) else None
  }

  /** The abstract value of a session; the fields are those of module Session's
      State plus `cleanupDone`. */
  datatype State = State(
    running: bool,
    disconnecting: bool,
    subscribers: seq<Handler>,
    threadPresent: bool,
    cleanupDone: bool,
    disconnected: seq<Handler>,
    sent: seq<Delivery>)
  {
    /** The completion signal agrees with the latch: cleanupDone is raised
        exactly when cleanupSession has latched `disconnecting`. */
    predicate Settled()
    {
      cleanupDone == disconnecting
    }

    function AddSubscriber(h: Handler): State
    {
      this.(subscribers := subscribers + [h])
    }

    function RemoveSubscriber(h: Handler): State
    {
      this.(subscribers := Erase(subscribers, h), disconnected := disconnected + [h])
    }

    function RemoveAllSubscribers(): State
    {
      this.(subscribers := [], disconnected := disconnected + subscribers)
    }

    function StartPublishing(): State
    {
      if running then this else this.(running := true, threadPresent := true)
    }

    /** cleanupSession as the source writes it. On the worker thread the handle
        of a still-joinable thread is reset, and destroying a joinable
        std::thread calls std::terminate. */
    function CleanupAsWritten(publisher: Handler, callerIsWorker: bool, joinThrows: bool): (outcome: Outcome)
      ensures outcome.Terminated? <==> !disconnecting && threadPresent && callerIsWorker
      ensures outcome.Completed? ==> outcome.state.disconnecting
      ensures outcome.Completed? && !disconnecting ==>
        outcome.state.cleanupDone && !outcome.state.running && outcome.state.subscribers == []
    {
      if disconnecting then Completed(this)
      else
        var cleared := this.(running := false, disconnecting := true).RemoveAllSubscribers();
        if !cleared.threadPresent then
          Completed(cleared.(disconnected := cleared.disconnected + [publisher], cleanupDone := true))
        else if callerIsWorker then Terminated
        else if joinThrows then Completed(cleared.(cleanupDone := true))
        else
          Completed(cleared.(threadPresent := false, disconnected := cleared.disconnected + [publisher],
                             cleanupDone := true))
    }

    /** cleanupSession with the worker's own handle detached before it is
        released. A join() that throws skips the rest of the try block, and the
        handler still signals completion. */
    function Cleanup(publisher: Handler, callerIsWorker: bool, joinThrows: bool): State
    {
      if disconnecting then this
      else
        var cleared := this.(running := false, disconnecting := true).RemoveAllSubscribers();
        if cleared.threadPresent && !callerIsWorker && joinThrows then cleared.(cleanupDone := true)
        else
          cleared.(threadPresent := false, disconnected := cleared.disconnected + [publisher],
                   cleanupDone := true)
    }

    /** The rest of one worker iteration after receive() returned or threw. */
    function AfterReceive(publisher: Handler, listenerAlive: bool, r: Received, results: seq<int>): Step
      requires |results| == |subscribers|
    {
      match r
      case RecvError =>
        Step(this, false, if running then NotifyDisconnect(publisher, listenerAlive) else None)
      case RecvException =>
        Step(this, false, NotifyDisconnect(publisher, listenerAlive))
      case Bytes(data) =>
        if disconnecting then Step(this, true, None)
        else
          var failed := Failed(subscribers, results);
          Step(this.(sent := sent + Deliveries(subscribers, data),
                     subscribers := EraseAll(subscribers, failed),
                     disconnected := disconnected + failed),
               true, None)
    }
  }

  /** What a call of cleanupSession as written leads to. */
  datatype Outcome = Completed(state: State) | Terminated

  /** One worker step: the new state, whether the loop goes on, and the event
      delivered to the listener, if any. */
  datatype Step = Step(next: State, proceed: bool, event: Option<StreamEvent>)

  class StreamSession {
    const publisher: Handler
    var running: bool
    var disconnecting: bool
    var subscribers: seq<Handler>
    var threadPresent: bool
    var cleanupDone: bool
    var disconnected: seq<Handler>
    var sent: seq<Delivery>

    function Abs(): State
      reads this
    {
      State(running, disconnecting, subscribers, threadPresent, cleanupDone, disconnected, sent)
    }

    /** Between operations the completion signal agrees with the latch. */
    predicate Valid()
      reads this
    {
      Abs().Settled()
    }

    constructor (publisher: Handler)
      ensures this.publisher == publisher
      ensures Abs() == State(false, false, [], false, false, [], []) && Valid()
    {
      this.publisher := publisher;
      running, disconnecting, threadPresent, cleanupDone := false, false, false, false;
      subscribers, disconnected, sent := [], [], [];
    }

    method AddSubscriber(h: Handler)
      requires Valid()
      modifies this
      ensures Abs() == old(Abs()).AddSubscriber(h) && Valid()
    {
      subscribers := subscribers + [h];
    }

    method RemoveSubscriber(h: Handler)
      requires Valid()
      modifies this
      ensures Abs() == old(Abs()).RemoveSubscriber(h) && Valid()
    {
      subscribers := Erase(subscribers, h);
      disconnected := disconnected + [h];
    }

    method RemoveAllSubscribers()
      modifies this
      ensures Abs() == old(Abs()).RemoveAllSubscribers() && (Valid() <==> old(Valid()))
    {
      var i := 0;
      while i < |subscribers|
        invariant subscribers == old(subscribers) && 0 <= i <= |subscribers|
        invariant Abs() == old(Abs()).(disconnected := old(disconnected) + old(subscribers)[..i])
      {
        disconnected := disconnected + [subscribers[i]];
        i := i + 1;
      }
      subscribers := [];
    }

    method StartPublishing() returns (started: bool)
      requires Valid()
      modifies this
      ensures started == !old(running)
      ensures Abs() == old(Abs()).StartPublishing() && Valid()
    {
      if running {
        return false;
      }
      running := true;
      threadPresent := true;
      return true;
    }

    method CleanupSession(callerIsWorker: bool, joinThrows: bool)
      requires Valid()
      modifies this
      ensures Abs() == old(Abs()).Cleanup(publisher, callerIsWorker, joinThrows) && Valid()
    {
      if disconnecting {
        return;
      }
      disconnecting := true;
      running := false;
      RemoveAllSubscribers();
      if threadPresent {
        if !callerIsWorker {
          if joinThrows {
            // the handler logs and still signals completion
            cleanupDone := true;
            return;
          }
          // joined
        }
        // on the worker thread the handle is detached first
        threadPresent := false;
      }
      disconnected := disconnected + [publisher];
      cleanupDone := true;
    }

    /** One evaluation of the condition waitForCleanup blocks on: the waiter is
        released exactly when cleanupSession has run, that is, once the
        `disconnecting` latch is set. */
    method WaitForCleanup() returns (released: bool)
      requires Valid()
      ensures released <==> disconnecting
    {
      released := cleanupDone;
    }

    /** The loop head of the worker. */
    method ContinueLoop() returns (proceed: bool)
      ensures proceed <==> running && !disconnecting
    {
      proceed := running;
      if proceed && disconnecting {
        proceed := false;
      }
    }

    /** The rest of one worker iteration: the receive-failure and exception
        paths, then the snapshot, the send pass and the prune. */
    method HandleReceive(r: Received, results: seq<int>, listenerAlive: bool)
      returns (proceed: bool, event: Option<StreamEvent>)
      requires Valid() && |results| == |subscribers|
      modifies this
      ensures var step := old(Abs()).AfterReceive(publisher, listenerAlive, r, results);
        Abs() == step.next && proceed == step.proceed && event == step.event
      ensures Valid()
    {
      match r {
        case RecvError =>
          proceed, event := false, None;
          if running {
            event := NotifyDisconnect(publisher, listenerAlive);
          }
        case RecvException =>
          proceed := false;
          event := NotifyDisconnect(publisher, listenerAlive);
        case Bytes(data) =>
          proceed, event := true, None;
          var snapshot := subscribers;
          if snapshot == [] {
            return;
          }
          var failed := SendToEach(snapshot, data, results);
          PruneFailed(snapshot, failed);
      }
    }

    /** The send pass over a snapshot; returns the entries whose send() failed. */
    method SendToEach(snapshot: seq<Handler>, data: Chunk, results: seq<int>) returns (failed: seq<Handler>)
      requires |results| == |snapshot|
      modifies this`sent
      ensures disconnecting ==> failed == [] && sent == old(sent)
      ensures !disconnecting ==> failed == Failed(snapshot, results) && sent == old(sent) + Deliveries(snapshot, data)
    {
      failed := [];
      var i := 0;
      while i < |snapshot|
        invariant 0 <= i <= |snapshot|
        invariant disconnecting ==> i == 0
        invariant failed == Failed(snapshot[..i], results[..i])
        invariant sent == old(sent) + Deliveries(snapshot[..i], data)
      {
        if disconnecting {
          break;
        }
        sent := sent + [Delivery(snapshot[i], data)];
        if results[i] == STREAM_ERROR {
          failed := failed + [snapshot[i]];
        }
        FailedPrefix(snapshot, results, i);
        DeliveriesPrefix(snapshot, data, i);
        i := i + 1;
      }
      assert !disconnecting ==> snapshot[..i] == snapshot && results[..i] == results;
    }

    /** Disconnect and erase every failed subscriber, one after another. */
    method PruneFailed(snapshot: seq<Handler>, failed: seq<Handler>)
      requires subscribers == snapshot
      modifies this`subscribers, this`disconnected
      ensures subscribers == EraseAll(snapshot, failed)
      ensures disconnected == old(disconnected) + failed
    {
      var j := 0;
      while j < |failed|
        invariant 0 <= j <= |failed|
        invariant subscribers == EraseAll(snapshot, failed[..j])
        invariant disconnected == old(disconnected) + failed[..j]
      {
        disconnected := disconnected + [failed[j]];
        EraseAllPrefix(snapshot, failed, j);
        subscribers := Erase(subscribers, failed[j]);
        j := j + 1;
      }
      assert failed[..j] == failed;
    }
  }

  /** The subscriber operations: addSubscriber appends, removeSubscriber drops
      every occurrence and then disconnects the handler once, and
      removeAllSubscribers disconnects each listed subscriber and clears. */
  lemma SubscriberOperations(st: State, h: Handler)
    ensures st.AddSubscriber(h).subscribers == st.subscribers + [h]
    ensures var r := st.RemoveSubscriber(h);
      r.subscribers == Keep(st.subscribers, [h]) && r.disconnected == st.disconnected + [h]
    ensures var r := st.RemoveAllSubscribers();
      r.subscribers == [] && r.disconnected == st.disconnected + st.subscribers
    ensures h !in st.subscribers ==> st.AddSubscriber(h).RemoveSubscriber(h).subscribers == st.subscribers
  {
    assert EraseAll(st.subscribers, [h]) == Erase(st.subscribers, h) by {
      assert [h][..0] == [];
    }
    EraseAllIsKeep(st.subscribers, [h]);
    if h !in st.subscribers {
      EraseConcat(st.subscribers, [h], h);
      EraseAbsent(st.subscribers, h);
    }
  }

  /** The first cleanupSession latches `disconnecting`, clears `running` and the
      subscribers, and raises `cleanupDone` on the normal path and on the path
      where join() throws alike. */
  lemma CleanupSignalsCompletion(st: State, publisher: Handler, callerIsWorker: bool, joinThrows: bool)
    requires !st.disconnecting
    ensures var r := st.Cleanup(publisher, callerIsWorker, joinThrows);
      r.disconnecting && !r.running && r.subscribers == [] && r.cleanupDone
  {
  }

  /** Unless join() throws, the first cleanupSession releases the worker handle
      whichever thread calls it, joining only from another thread, and
      disconnects every subscriber and then the publisher once. */
  lemma CleanupReleasesThread(st: State, publisher: Handler, callerIsWorker: bool)
    requires !st.disconnecting
    ensures var r := st.Cleanup(publisher, callerIsWorker, false);
      !r.threadPresent && r.disconnected == st.disconnected + st.subscribers + [publisher]
  {
  }

  /** Later calls of cleanupSession return at once. */
  lemma CleanupIdempotent(st: State, publisher: Handler, worker1: bool, throws1: bool, worker2: bool, throws2: bool)
    ensures var once := st.Cleanup(publisher, worker1, throws1);
      once.disconnecting && once.Cleanup(publisher, worker2, throws2) == once
  {
  }

  /** `cleanupDone` and `disconnecting` move together: every transition keeps
      them equal, so a waiter is released exactly when cleanup has run. */
  lemma CompletionTracksLatch(st: State, publisher: Handler, h: Handler, callerIsWorker: bool, joinThrows: bool,
                              listenerAlive: bool, r: Received, results: seq<int>)
    requires st.Settled() && |results| == |st.subscribers|
    ensures st.Cleanup(publisher, callerIsWorker, joinThrows).Settled()
    ensures st.AddSubscriber(h).Settled() && st.RemoveSubscriber(h).Settled()
    ensures st.RemoveAllSubscribers().Settled() && st.StartPublishing().Settled()
    ensures st.AfterReceive(publisher, listenerAlive, r, results).next.Settled()
  {
  }

  /** The loss of the publisher (a failed receive while running, or a receive
      that throws) ends the loop and delivers a PublisherDisconnected event
      carrying the publisher's stream id and handler exactly when the listener
      is alive. A failed receive after `running` was cleared ends the loop
      without an event. */
  lemma PublisherLossReported(st: State, publisher: Handler, listenerAlive: bool, r: Received, results: seq<int>)
    requires |results| == |st.subscribers| && !r.Bytes?
    ensures var step := st.AfterReceive(publisher, listenerAlive, r, results);
      !step.proceed && step.next == st
      && (step.event.Some? <==> listenerAlive && (r.RecvException? || st.running))
      && (step.event.Some? ==>
            step.event.value == StreamEvent(PublisherDisconnected, publisher.streamId, publisher))
  {
  }

  /** A received chunk goes, whole, to every snapshot subscriber in order;
      afterwards only the subscribers whose send returned STREAM_ERROR are
      disconnected and erased. With an empty snapshot, or while disconnecting,
      nothing is sent. */
  lemma BroadcastAndPrune(st: State, publisher: Handler, listenerAlive: bool, data: Chunk, results: seq<int>, x: Handler)
    requires |results| == |st.subscribers|
    ensures var step := st.AfterReceive(publisher, listenerAlive, Bytes(data), results);
      step.proceed && step.event == None
      && (st.subscribers == [] || st.disconnecting ==> step.next == st)
      && (!st.disconnecting ==>
            var failed := Failed(st.subscribers, results);
            step.next.sent == st.sent + Deliveries(st.subscribers, data)
            && step.next.disconnected == st.disconnected + failed
            && step.next.subscribers == Keep(st.subscribers, failed)
            && (x in step.next.subscribers <==>
                  x in st.subscribers &&
                  forall i :: 0 <= i < |st.subscribers| && st.subscribers[i] == x ==> results[i] != STREAM_ERROR))
  {
    var failed := Failed(st.subscribers, results);
    EraseAllIsKeep(st.subscribers, failed);
    EraseAllCount(st.subscribers, failed, x);
    FailedMember(st.subscribers, results, x);
  }

  /** The discrepancy: called on the worker thread while the worker handle is
      present, cleanupSession as written destroys a joinable std::thread and so
      terminates the process. */
  lemma CleanupAsWrittenTerminatesOnWorker(st: State, publisher: Handler, joinThrows: bool)
    requires !st.disconnecting && st.threadPresent
    ensures st.CleanupAsWritten(publisher, true, joinThrows) == Terminated
  {
  }

  /** Everywhere else the corrected cleanup is the code as written. */
  lemma CleanupAgreesWithAsWritten(st: State, publisher: Handler, callerIsWorker: bool, joinThrows: bool)
    requires st.disconnecting || !st.threadPresent || !callerIsWorker
    ensures st.CleanupAsWritten(publisher, callerIsWorker, joinThrows) ==
            Completed(st.Cleanup(publisher, callerIsWorker, joinThrows))
  {
  }
}
