/** One stream session of the current relay (src/core/StreamSession.cpp): a
    publisher handler, a vector of subscriber handlers, the `running` and
    `disconnecting` flags, and a worker thread that receives chunks from the
    publisher and fans them out.

    Threads are not modelled. The worker loop is two steps, `ContinueLoop` (the
    loop head) and `HandleReceive` (what follows one receive() call); any other
    operation, `CleanupSession` in particular, may run between them, which is
    how a receive that fails after `running` was cleared is reached. */
module Session {
  import opened Transport
  import opened SubscriberList

  /** What one receive() on the publisher yields. */
  datatype Received = Bytes(data: Chunk) | RecvError

  /** The abstract value of a session. `disconnected` and `sent` record the
      disconnect() and send() calls the session has made on its handlers, oldest
      first; `threadPresent` says whether the worker-thread handle is non-null. */
  datatype State = State(
    running: bool,
    disconnecting: bool,
    subscribers: seq<Handler>,
    threadPresent: bool,
    disconnected: seq<Handler>,
    sent: seq<Delivery>)
  {
    function AddSubscriber(h: Handler): State
    {
      this.(subscribers := subscribers + [h])
    }

    function RemoveSubscriber(h: Handler): State
    {
      this.(subscribers := Erase(subscribers, h), disconnected := disconnected + [h])
    }

    function RemoveAllSubscribers(): State
    {
      this.(subscribers := [], disconnected := disconnected + subscribers)
    }

    /** startPublishing succeeds exactly when `running` was false. */
    function StartPublishing(): State
    {
      if running then this else this.(running := true, threadPresent := true)
    }

    /** cleanupSession. The worker is joined only when the caller is another
        thread; a join() that throws skips the rest of the try block. */
    function Cleanup(publisher: Handler, callerIsWorker: bool, joinThrows: bool): State
    {
      if disconnecting then this
      else
        var cleared := this.(running := false, disconnecting := true).RemoveAllSubscribers();
        if cleared.threadPresent && !callerIsWorker && joinThrows then cleared
        else
          cleared.(threadPresent := cleared.threadPresent && callerIsWorker,
                   disconnected := cleared.disconnected + [publisher])
    }

    /** ~StreamSession as written: cleanupSession runs, then the member handle
        is destroyed, and destroying a std::thread that is still joinable calls
        std::terminate. The handle survives cleanup when it was already running
        (or ran) on the worker, or when join() threw. */
    function DestroyAsWritten(publisher: Handler, callerIsWorker: bool, joinThrows: bool): (outcome: Outcome)
      ensures outcome.Terminated? <==> threadPresent && (disconnecting || callerIsWorker || joinThrows)
    {
      var cleaned := Cleanup(publisher, callerIsWorker, joinThrows);
      if cleaned.threadPresent then Terminated else Released(cleaned)
    }

    /** ~StreamSession with a handle that is still joinable detached before it
        is released. */
    function Destroy(publisher: Handler, callerIsWorker: bool, joinThrows: bool): State
    {
      Cleanup(publisher, callerIsWorker, joinThrows).(threadPresent := false)
    }

    /** The rest of one worker iteration after receive() returned `r`; `results`
        holds what send() returns for each snapshot entry. */
    function AfterReceive(publisher: Handler, hasCallback: bool, r: Received, results: seq<int>): Step
      requires |results| == |subscribers|
    {
      match r
      case RecvError =>
        Step(this, false, if running && hasCallback then Some(publisher.streamId) else None)
      case Bytes(data) =>
        if disconnecting then Step(this, true, None)
        else
          var failed := Failed(subscribers, results);
          Step(this.(sent := sent + Deliveries(subscribers, data),
                     subscribers := EraseAll(subscribers, failed),
                     disconnected := disconnected + failed),
               true, None)
    }
  }

  /** The outcome of one step of the worker: the new state, whether the loop
      goes on, and the stream id handed to the onDisconnect callback, if any. */
  datatype Step = Step(next: State, proceed: bool, report: Option<string>)

  /** What destroying a session as written leads to. */
  datatype Outcome = Released(state: State) | Terminated

  class StreamSession {
    const publisher: Handler
    /** Whether an onDisconnect callback was supplied. */
    const hasCallback: bool
    var running: bool
    var disconnecting: bool
    var subscribers: seq<Handler>
    var threadPresent: bool
    var disconnected: seq<Handler>
    var sent: seq<Delivery>

    function Abs(): State
      reads this
    {
      State(running, disconnecting, subscribers, threadPresent, disconnected, sent)
    }

    constructor (publisher: Handler, hasCallback: bool)
      ensures this.publisher == publisher && this.hasCallback == hasCallback
      ensures Abs() == State(false, false, [], false, [], [])
    {
      this.publisher := publisher;
      this.hasCallback := hasCallback;
      running, disconnecting, threadPresent := false, false, false;
      subscribers, disconnected, sent := [], [], [];
    }

    method AddSubscriber(h: Handler)
      modifies this
      ensures Abs() == old(Abs()).AddSubscriber(h)
    {
      subscribers := subscribers + [h];
    }

    method RemoveSubscriber(h: Handler)
      modifies this
      ensures Abs() == old(Abs()).RemoveSubscriber(h)
    {
      subscribers := Erase(subscribers, h);
      disconnected := disconnected + [h];
    }

    method RemoveAllSubscribers()
      modifies this
      ensures Abs() == old(Abs()).RemoveAllSubscribers()
    {
      var i := 0;
      while i < |subscribers|
        invariant subscribers == old(subscribers) && 0 <= i <= |subscribers|
        invariant Abs() == old(Abs()).(disconnected := old(disconnected) + old(subscribers)[..i])
      {
        disconnected := disconnected + [subscribers[i]];
        i := i + 1;
      }
      subscribers := [];
    }

    method StartPublishing() returns (started: bool)
      modifies this
      ensures started == !old(running)
      ensures Abs() == old(Abs()).StartPublishing()
    {
      if running {
        return false;
      }
      running := true;
      threadPresent := true;
      return true;
    }

    method CleanupSession(callerIsWorker: bool, joinThrows: bool)
      modifies this
      ensures Abs() == old(Abs()).Cleanup(publisher, callerIsWorker, joinThrows)
    {
      if disconnecting {
        return;
      }
      disconnecting := true;
      running := false;
      RemoveAllSubscribers();
      if threadPresent && !callerIsWorker {
        if joinThrows {
          // the exception leaves the try block; the handler only logs
          return;
        }
        threadPresent := false;
      }
      disconnected := disconnected + [publisher];
    }

    /** The destructor: cleanupSession, then the worker handle is released,
        detached first if it is still joinable (see DestroyAsWritten). */
    method Destroy(callerIsWorker: bool, joinThrows: bool)
      modifies this
      ensures Abs() == old(Abs()).Destroy(publisher, callerIsWorker, joinThrows)
    {
      CleanupSession(callerIsWorker, joinThrows);
      if threadPresent {
        // detached before the handle is released
        threadPresent := false;
      }
    }

    /** The loop head of the worker: go on to receive() only while running and
        not disconnecting. */
    method ContinueLoop() returns (proceed: bool)
      ensures proceed <==> running && !disconnecting
    {
      proceed := running;
      if proceed && disconnecting {
        proceed := false;
      }
    }

    /** The rest of one worker iteration: the receive-failure check, then the
        snapshot, the send pass and the prune of failed subscribers. */
    method HandleReceive(r: Received, results: seq<int>) returns (proceed: bool, report: Option<string>)
      requires |results| == |subscribers|
      modifies this
      ensures var step := old(Abs()).AfterReceive(publisher, hasCallback, r, results);
        Abs() == step.next && proceed == step.proceed && report == step.report
    {
      match r {
        case RecvError =>
          proceed, report := false, None;
          if running && hasCallback {
            report := Some(publisher.streamId);
          }
        case Bytes(data) =>
          proceed, report := true, None;
          var snapshot := subscribers;
          if snapshot == [] {
            return;
          }
          var failed := SendToEach(snapshot, data, results);
          PruneFailed(snapshot, failed);
      }
    }
    /** The send pass over a snapshot: each entry in order is sent the chunk,
        unless the session is disconnecting, which stops the pass before its
        next send. Returns the entries whose send() failed. */
    method SendToEach(snapshot: seq<Handler>, data: Chunk, results: seq<int>) returns (failed: seq<Handler>)
      requires |results| == |snapshot|
      modifies this`sent
      ensures disconnecting ==> failed == [] && sent == old(sent)
      ensures !disconnecting ==> failed == Failed(snapshot, results) && sent == old(sent) + Deliveries(snapshot, data)
    {
      failed := [];
      var i := 0;
      while i < |snapshot|
        invariant 0 <= i <= |snapshot|
        invariant disconnecting ==> i == 0
        invariant failed == Failed(snapshot[..i], results[..i])
        invariant sent == old(sent) + Deliveries(snapshot[..i], data)
      {
        if disconnecting {
          break;
        }
        sent := sent + [Delivery(snapshot[i], data)];
        if results[i] == STREAM_ERROR {
          failed := failed + [snapshot[i]];
        }
        FailedPrefix(snapshot, results, i);
        DeliveriesPrefix(snapshot, data, i);
        i := i + 1;
      }
      assert !disconnecting ==> snapshot[..i] == snapshot && results[..i] == results;
    }

    /** Disconnect and erase every failed subscriber, one after another. */
    method PruneFailed(snapshot: seq<Handler>, failed: seq<Handler>)
      requires subscribers == snapshot
      modifies this`subscribers, this`disconnected
      ensures subscribers == EraseAll(snapshot, failed)
      ensures disconnected == old(disconnected) + failed
    {
      var j := 0;
      while j < |failed|
        invariant 0 <= j <= |failed|
        invariant subscribers == EraseAll(snapshot, failed[..j])
        invariant disconnected == old(disconnected) + failed[..j]
      {
        disconnected := disconnected + [failed[j]];
        EraseAllPrefix(snapshot, failed, j);
        subscribers := Erase(subscribers, failed[j]);
        j := j + 1;
      }
      assert failed[..j] == failed;
    }
  }

  /** addSubscriber appends exactly the given handler at the end, without a
      duplicate check; the earlier entries and everything else stay. */
  lemma AddSubscriberAppends(st: State, h: Handler)
    ensures var r := st.AddSubscriber(h);
      |r.subscribers| == |st.subscribers| + 1 && r.subscribers[..|st.subscribers|] == st.subscribers
      && r.subscribers[|st.subscribers|] == h && r.(subscribers := st.subscribers) == st
  {
  }

  /** removeSubscriber drops every occurrence of h, keeps the others in their
      order, and disconnects h exactly once whether or not it was listed. */
  lemma RemoveSubscriberErasesAll(st: State, h: Handler)
    ensures var r := st.RemoveSubscriber(h);
      h !in r.subscribers && r.subscribers == Keep(st.subscribers, [h])
      && r.disconnected == st.disconnected + [h]
      && r.(subscribers := st.subscribers, disconnected := st.disconnected) == st
  {
    var r := st.RemoveSubscriber(h);
    EraseCount(st.subscribers, h, h);
    assert EraseAll(st.subscribers, [h]) == Erase(st.subscribers, h) by {
      assert [h][..0] == [];
    }
    EraseAllIsKeep(st.subscribers, [h]);
  }

  /** Adding a handler that was not listed and then removing it restores the
      subscriber vector; the removal disconnects it once. */
  lemma AddThenRemove(st: State, h: Handler)
    requires h !in st.subscribers
    ensures st.AddSubscriber(h).RemoveSubscriber(h).subscribers == st.subscribers
    ensures st.AddSubscriber(h).RemoveSubscriber(h).disconnected == st.disconnected + [h]
  {
    EraseConcat(st.subscribers, [h], h);
    EraseAbsent(st.subscribers, h);
    assert [h][..0] == [];
  }

  /** removeAllSubscribers disconnects each listed subscriber once per listing,
      in order, and leaves the vector empty; an empty vector is fine. */
  lemma RemoveAllDisconnectsEach(st: State)
    ensures var r := st.RemoveAllSubscribers();
      r.subscribers == [] && r.disconnected == st.disconnected + st.subscribers
      && r.(subscribers := st.subscribers, disconnected := st.disconnected) == st
    ensures st.subscribers == [] ==> st.RemoveAllSubscribers() == st
  {
  }

  /** startPublishing latches `running`: the first call sets it and creates the
      worker handle, a second call changes nothing. */
  lemma StartPublishingOnce(st: State)
    ensures st.StartPublishing().running
    ensures !st.running ==> st.StartPublishing() == st.(running := true, threadPresent := true)
    ensures st.running ==> st.StartPublishing() == st
    ensures st.StartPublishing().StartPublishing() == st.StartPublishing()
  {
  }

  /** The first cleanupSession (with a join that does not throw) latches
      `disconnecting`, clears `running`, disconnects every subscriber and then
      the publisher, and drops the worker handle unless the caller is the
      worker itself. */
  lemma CleanupFirstCall(st: State, publisher: Handler, callerIsWorker: bool)
    requires !st.disconnecting
    ensures var r := st.Cleanup(publisher, callerIsWorker, false);
      r.disconnecting && !r.running && r.subscribers == []
      && r.disconnected == st.disconnected + st.subscribers + [publisher]
      && r.threadPresent == (st.threadPresent && callerIsWorker)
      && r.sent == st.sent
  {
  }

  /** A join() that throws in the first cleanupSession leaves the worker handle
      in place and the publisher connected; the latches are set and the
      subscribers are gone all the same. */
  lemma CleanupJoinThrows(st: State, publisher: Handler)
    requires !st.disconnecting && st.threadPresent
    ensures var r := st.Cleanup(publisher, false, true);
      r.disconnecting && !r.running && r.subscribers == [] && r.threadPresent
      && r.disconnected == st.disconnected + st.subscribers
  {
  }

  /** cleanupSession is idempotent: once it has run, any later call, from any
      thread, changes nothing. */
  lemma CleanupIdempotent(st: State, publisher: Handler, worker1: bool, throws1: bool, worker2: bool, throws2: bool)
    ensures var once := st.Cleanup(publisher, worker1, throws1);
      once.disconnecting && once.Cleanup(publisher, worker2, throws2) == once
  {
  }

  /** Calling cleanupSession twice, as an explicit call followed by the
      destructor's does, disconnects the publisher exactly once. */
  lemma CleanupTwiceDisconnectsPublisherOnce(st: State, publisher: Handler, worker1: bool, worker2: bool)
    requires !st.disconnecting && publisher !in st.subscribers
    ensures var twice := st.Cleanup(publisher, worker1, false).Cleanup(publisher, worker2, false);
      multiset(twice.disconnected)[publisher] == multiset(st.disconnected)[publisher] + 1
  {
    var once := st.Cleanup(publisher, worker1, false);
    assert once.disconnected == st.disconnected + st.subscribers + [publisher];
  }

  /** A failed receive ends the loop and changes no state. While `running` it
      hands the publisher's stream id to the callback (when one is set); once
      `running` has been cleared it ends silently. */
  lemma ReceiveFailureEndsLoop(st: State, publisher: Handler, hasCallback: bool, results: seq<int>)
    requires |results| == |st.subscribers|
    ensures var step := st.AfterReceive(publisher, hasCallback, RecvError, results);
      !step.proceed && step.next == st
      && (step.report.Some? <==> st.running && hasCallback)
      && (step.report.Some? ==> step.report.value == publisher.streamId)
  {
  }

  /** With an empty snapshot, or once `disconnecting` is set, a received chunk
      is sent to no one and the loop goes on. */
  lemma NothingSentWithoutTargets(st: State, publisher: Handler, hasCallback: bool, data: Chunk, results: seq<int>)
    requires |results| == |st.subscribers|
    requires st.subscribers == [] || st.disconnecting
    ensures var step := st.AfterReceive(publisher, hasCallback, Bytes(data), results);
      step.proceed && step.report == None && step.next == st
  {
  }

  /** A received chunk of N bytes is sent, whole, to every snapshot subscriber in
      snapshot order, once per listing. */
  lemma BroadcastSendsToEach(st: State, publisher: Handler, hasCallback: bool, data: Chunk, results: seq<int>)
    requires |results| == |st.subscribers| && !st.disconnecting
    ensures var n := st.AfterReceive(publisher, hasCallback, Bytes(data), results).next;
      |n.sent| == |st.sent| + |st.subscribers| && n.sent[..|st.sent|] == st.sent
      && forall i :: 0 <= i < |st.subscribers| ==>
           n.sent[|st.sent| + i].to == st.subscribers[i] && n.sent[|st.sent| + i].payload == data
  {
  }

  /** After the pass exactly the subscribers with a failed send are
      disconnected, in snapshot order, and removed; the others stay, in order. */
  lemma PruneRemovesExactlyFailed(st: State, publisher: Handler, hasCallback: bool, data: Chunk, results: seq<int>, x: Handler)
    requires |results| == |st.subscribers| && !st.disconnecting
    ensures var step := st.AfterReceive(publisher, hasCallback, Bytes(data), results);
      var failed := Failed(st.subscribers, results);
      step.proceed && step.report == None
      && step.next.disconnected == st.disconnected + failed
      && step.next.subscribers == Keep(st.subscribers, failed)
      && (x in step.next.subscribers <==>
            x in st.subscribers &&
            forall i :: 0 <= i < |st.subscribers| && st.subscribers[i] == x ==> results[i] != STREAM_ERROR)
  {
    var failed := Failed(st.subscribers, results);
    EraseAllIsKeep(st.subscribers, failed);
    EraseAllCount(st.subscribers, failed, x);
    FailedMember(st.subscribers, results, x);
  }

  /** The discrepancy: a session destroyed on its own worker thread while the
      worker handle exists (which is the case from startPublishing on) ends
      in std::terminate, whatever cleanup did before. */
  lemma DestroyOnWorkerAsWrittenTerminates(st: State, publisher: Handler, joinThrows: bool)
    requires st.threadPresent
    ensures st.DestroyAsWritten(publisher, true, joinThrows) == Terminated
  {
  }

  /** Wherever the code as written does not terminate, it is the corrected
      destructor. */
  lemma DestroyAgreesWithAsWritten(st: State, publisher: Handler, callerIsWorker: bool, joinThrows: bool)
    requires st.DestroyAsWritten(publisher, callerIsWorker, joinThrows).Released?
    ensures st.DestroyAsWritten(publisher, callerIsWorker, joinThrows) ==
            Released(st.Destroy(publisher, callerIsWorker, joinThrows))
  {
  }

  /** The corrected destructor always releases the worker handle, from any
      thread. When cleanup has not run yet it latches, clears the subscribers
      and, unless join() throws, disconnects them and then the publisher; when
      it has, only the handle is released. */
  lemma DestroyReleasesHandle(st: State, publisher: Handler, callerIsWorker: bool, joinThrows: bool)
    ensures var d := st.Destroy(publisher, callerIsWorker, joinThrows);
      !d.threadPresent && d.disconnecting
    ensures st.disconnecting ==> st.Destroy(publisher, callerIsWorker, joinThrows) == st.(threadPresent := false)
    ensures !st.disconnecting && (callerIsWorker || !joinThrows || !st.threadPresent) ==>
      var d := st.Destroy(publisher, callerIsWorker, joinThrows);
      !d.running && d.subscribers == [] && d.disconnected == st.disconnected + st.subscribers + [publisher]
  {
  }
}
