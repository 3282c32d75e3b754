/** The two HTTP handlers of the API server that drive the pipeline: the mock upload
    endpoint, which starts processing, and the status endpoint, which subscribes a
    per-request listener to the file's topic, forwards every update as one Server-Sent
    Event named "update", and unsubscribes when the client goes away. */
module Server {

  import opened Common
  import opened Text
  import opened Status
  import EventBus
  import Worker
  import DocumentRouter
  import Trpc

  datatype UploadResponse = UploadResponse(success: bool)

  /** `stream.writeSSE({ data: JSON.stringify(update), event: "update" })`; the event
      carries the update itself in place of its JSON text. */
  datatype SseEvent = SseEvent(event: string, data: StatusUpdate)

  const UploadRoutePrefix := "/api/upload/"

  /** The route `/api/upload/:fileId`: the parameter is one non-empty path segment. */
  function MatchUploadRoute(path: string): (fileId: Option<string>)
    ensures fileId.Some? ==> path == UploadRoutePrefix + fileId.value && '/' !in fileId.value
    ensures fileId.Some? ==> |fileId.value| > 0
    ensures fileId.Some? <==>
              StartsWith(path, UploadRoutePrefix) && |path| > |UploadRoutePrefix|
              && '/' !in path[|UploadRoutePrefix|..]
  {
    if StartsWith(path, UploadRoutePrefix) then
      var rest := path[|UploadRoutePrefix|..];
      assert path == UploadRoutePrefix + rest;
      if |rest| > 0 && '/' !in rest then Some(rest) else None
    else None
  }

  /** The URL `getUploadUrl` hands out reaches the upload route with the same id. */
  lemma UploadUrlMatchesRoute(fileId: string)
    requires DocumentRouter.IsNanoId(fileId)
    ensures StartsWith(DocumentRouter.UploadUrl(fileId), DocumentRouter.ApiOrigin)
    ensures MatchUploadRoute(DocumentRouter.UploadUrl(fileId)[|DocumentRouter.ApiOrigin|..]) == Some(fileId)
  {
    var url := DocumentRouter.UploadUrl(fileId);
    var path := url[|DocumentRouter.ApiOrigin|..];
    assert path == UploadRoutePrefix + fileId;
    assert path[..|UploadRoutePrefix|] == UploadRoutePrefix;
    assert path[|UploadRoutePrefix|..] == fileId;
    assert '/' !in fileId by {
      forall k | 0 <= k < |fileId| ensures fileId[k] != '/' {
      }
    }
  }

  /** POST `/api/upload/:fileId`: ignores the body, starts processing for the id in the
      path (again on every call: there is no guard), and answers `{ success: true }`. */
  method UploadHandler(w: Worker.WorkerState, fileId: string, body: seq<bv8>) returns (resp: UploadResponse)
    requires w.Valid()
    modifies w`timers, w.eventBus
    ensures w.Valid()
    ensures resp == UploadResponse(true)
    ensures w.fileMetadata == old(w.fileMetadata)
    ensures w.eventBus.published ==
              old(w.eventBus.published) + [EventBus.Publication(Worker.Topic(fileId), Worker.UploadedUpdate(fileId))]
    ensures w.eventBus.delivered ==
              old(w.eventBus.delivered) + EventBus.Fanout(old(w.eventBus.Listeners(Worker.Topic(fileId))), Worker.UploadedUpdate(fileId))
    ensures w.eventBus.listeners == old(w.eventBus.listeners)
    ensures w.timers == old(w.timers) + Worker.ScheduleFor(fileId, Worker.Lookup(w.fileMetadata, fileId))
  {
    w.StartProcessing(fileId);
    resp := UploadResponse(true);
  }

  /** GET `/api/status/:fileId`, up to the point where it waits: a listener made for
      this request is subscribed to the topic `emit` publishes on for that id. */
  method OpenStatusStream(w: Worker.WorkerState, fileId: string) returns (listener: EventBus.ListenerId)
    requires w.Valid()
    modifies w.eventBus
    ensures w.Valid()
    ensures listener !in old(w.eventBus.Listeners(Worker.Topic(fileId)))
    ensures w.eventBus.listeners ==
              old(w.eventBus.listeners)[Worker.Topic(fileId) := old(w.eventBus.Listeners(Worker.Topic(fileId))) + [listener]]
    ensures w.eventBus.published == old(w.eventBus.published) && w.eventBus.delivered == old(w.eventBus.delivered)
    ensures StreamOf(w.eventBus.delivered, listener) == []
  {
    listener := w.eventBus.On(Worker.Topic(fileId));
    StreamOfFresh(w.eventBus.delivered, listener);
  }

  /** A listener that has never been called has written nothing. */
  lemma {:induction false} StreamOfFresh(delivered: seq<EventBus.Delivery>, listener: EventBus.ListenerId)
    requires forall k :: 0 <= k < |delivered| ==> delivered[k].listener < listener
    ensures StreamOf(delivered, listener) == []
    decreases |delivered|
  {
    if |delivered| > 0 {
      StreamOfFresh(delivered[..|delivered| - 1], listener);
    }
  }

  /** The abort callback: exactly this request's listener leaves the topic; the other
      listeners of the topic stay, and other topics are untouched. */
  method AbortStatusStream(w: Worker.WorkerState, fileId: string, listener: EventBus.ListenerId)
    requires w.Valid()
    modifies w.eventBus
    ensures w.Valid()
    ensures w.eventBus.Listeners(Worker.Topic(fileId)) ==
              EventBus.RemoveLast(old(w.eventBus.Listeners(Worker.Topic(fileId))), listener)
    ensures listener !in w.eventBus.Listeners(Worker.Topic(fileId))
    ensures forall other :: other != listener ==>
              (other in w.eventBus.Listeners(Worker.Topic(fileId)) <==> other in old(w.eventBus.Listeners(Worker.Topic(fileId))))
    ensures forall t :: t != Worker.Topic(fileId) ==> w.eventBus.Listeners(t) == old(w.eventBus.Listeners(t))
    ensures w.eventBus.published == old(w.eventBus.published) && w.eventBus.delivered == old(w.eventBus.delivered)
  {
    w.eventBus.Off(Worker.Topic(fileId), listener);
  }

  /** The events the stream of `listener` has written: one "update" event per call of the
      listener, in call order. A terminal status does not end the stream. */
  function StreamOf(delivered: seq<EventBus.Delivery>, listener: EventBus.ListenerId): (events: seq<SseEvent>)
    ensures |events| <= |delivered|
    ensures forall k :: 0 <= k < |events| ==> events[k].event == "update"
    decreases |delivered|
  {
    if |delivered| == 0 then []
    else
      var last := delivered[|delivered| - 1];
      StreamOf(delivered[..|delivered| - 1], listener)
        + (if last.listener == listener then [SseEvent("update", last.update)] else [])
  }

  /** A stream only writes updates its own listener was called with. */
  lemma {:induction false} StreamOfDelivered(delivered: seq<EventBus.Delivery>, listener: EventBus.ListenerId)
    ensures forall k :: 0 <= k < |StreamOf(delivered, listener)| ==>
              EventBus.Delivery(listener, StreamOf(delivered, listener)[k].data) in delivered
    decreases |delivered|
  {
    if |delivered| > 0 {
      var init := delivered[..|delivered| - 1];
      StreamOfDelivered(init, listener);
      assert forall d :: d in init ==> d in delivered;
    }
  }

  /** The "update" events for a sequence of updates. */
  function UpdateEvents(updates: seq<StatusUpdate>): (events: seq<SseEvent>)
    ensures |events| == |updates|
    ensures forall k :: 0 <= k < |updates| ==> events[k] == SseEvent("update", updates[k])
  {
    seq(|updates|, k requires 0 <= k < |updates| => SseEvent("update", updates[k]))
  }

  /** A stream's output over two stretches of listener calls is the two outputs in order. */
  lemma {:induction false} StreamOfAppend(d1: seq<EventBus.Delivery>, d2: seq<EventBus.Delivery>, listener: EventBus.ListenerId)
    ensures StreamOf(d1 + d2, listener) == StreamOf(d1, listener) + StreamOf(d2, listener)
    decreases |d2|
  {
    if |d2| > 0 {
      var d2' := d2[..|d2| - 1];
      StreamOfAppend(d1, d2', listener);
      assert (d1 + d2)[..|d1 + d2| - 1] == d1 + d2';
    } else {
      assert d1 + d2 == d1;
    }
  }

  /** One `emit` writes exactly one event to the stream of a listener registered once on
      the topic, and nothing to the stream of a listener that is not registered (for
      instance one removed by an abort). */
  lemma {:induction false} StreamOfFanout(listeners: seq<EventBus.ListenerId>, update: StatusUpdate, listener: EventBus.ListenerId)
    requires EventBus.NoDuplicates(listeners)
    ensures StreamOf(EventBus.Fanout(listeners, update), listener) ==
              if listener in listeners then [SseEvent("update", update)] else []
    decreases |listeners|
  {
    if |listeners| > 0 {
      var init := listeners[..|listeners| - 1];
      StreamOfFanout(init, update, listener);
      assert EventBus.Fanout(listeners, update)[..|listeners| - 1] == EventBus.Fanout(init, update);
      assert listeners == init + [listeners[|listeners| - 1]];
    }
  }

  /** All the listener calls of a run of `emit`s on one topic whose listeners stay the same. */
  function FanoutAll(listeners: seq<EventBus.ListenerId>, updates: seq<StatusUpdate>): seq<EventBus.Delivery>
    decreases |updates|
  {
    if |updates| == 0 then []
    else FanoutAll(listeners, updates[..|updates| - 1]) + EventBus.Fanout(listeners, updates[|updates| - 1])
  }

  /** Every subscriber of the topic sees the whole run, in publication order, once each:
      so any two subscribers see the same sequence. */
  lemma {:induction false} SubscribersSeeEveryUpdate(listeners: seq<EventBus.ListenerId>, updates: seq<StatusUpdate>, listener: EventBus.ListenerId)
    requires EventBus.NoDuplicates(listeners) && listener in listeners
    ensures StreamOf(FanoutAll(listeners, updates), listener) == UpdateEvents(updates)
    decreases |updates|
  {
    if |updates| > 0 {
      var init := updates[..|updates| - 1];
      SubscribersSeeEveryUpdate(listeners, init, listener);
      StreamOfAppend(FanoutAll(listeners, init), EventBus.Fanout(listeners, updates[|updates| - 1]), listener);
      StreamOfFanout(listeners, updates[|updates| - 1], listener);
      assert UpdateEvents(updates) == UpdateEvents(init) + [SseEvent("update", updates[|updates| - 1])];
    }
  }

  /** The event loop fires the four timers one `startProcessing` call set, in due order
      (the earliest pending timer is always the first one), while `listener` is the only
      subscriber of the file's topic: the listener is called once per scheduled update. */
  method DrainTimers(w: Worker.WorkerState, fileId: string, metadata: Option<Worker.Metadata>, listener: EventBus.ListenerId)
    requires w.Valid()
    requires w.timers == Worker.ScheduleFor(fileId, metadata)
    requires w.eventBus.Listeners(Worker.Topic(fileId)) == [listener]
    modifies w`timers, w.eventBus
    ensures w.Valid() && w.timers == []
    ensures w.eventBus.Listeners(Worker.Topic(fileId)) == [listener]
    ensures w.eventBus.delivered ==
              old(w.eventBus.delivered) + FanoutAll([listener], Worker.Emitted(fileId, metadata)[1..])
  {
    ghost var run := Worker.Emitted(fileId, metadata);
    ghost var schedule := Worker.ScheduleFor(fileId, metadata);
    var k := 0;
    while k < 4
      invariant 0 <= k <= 4
      invariant w.Valid()
      invariant w.timers == schedule[k..]
      invariant w.eventBus.Listeners(Worker.Topic(fileId)) == [listener]
      invariant w.eventBus.delivered == old(w.eventBus.delivered) + FanoutAll([listener], run[1..k + 1])
    {
      DrainStep(fileId, metadata, listener, k);
      w.FireTimer(0);
      k := k + 1;
    }
    assert run[1..5] == run[1..];
  }

  /** One round of `DrainTimers`: the first pending timer carries the next update of the
      run, firing it leaves the rest of the schedule, and its listener call extends the
      calls made so far. */
  lemma DrainStep(fileId: string, metadata: Option<Worker.Metadata>, listener: EventBus.ListenerId, k: nat)
    requires k < 4
    ensures var schedule := Worker.ScheduleFor(fileId, metadata);
            var run := Worker.Emitted(fileId, metadata);
            && schedule[k..][0].update == run[k + 1]
            && schedule[k..][..0] + schedule[k..][1..] == schedule[k + 1..]
            && FanoutAll([listener], run[1..k + 2])
               == FanoutAll([listener], run[1..k + 1]) + EventBus.Fanout([listener], run[k + 1])
  {
    var run := Worker.Emitted(fileId, metadata);
    assert run[1..k + 2][..k] == run[1..k + 1];
  }

  /** The start of a job on a fresh worker: the file is registered through the guarded
      mutation, one status stream is opened (before or after the upload, as `streamFirst`
      says) and the upload is posted. The stream's listener is then the topic's only one,
      the four timers are pending, and the stream has had the UPLOADED update exactly when
      it was opened first. */
  method StartJob(w: Worker.WorkerState, fileId: string, filename: string, streamFirst: bool)
    returns (listener: EventBus.ListenerId)
    requires w.Valid()
    requires w.fileMetadata == map[] && w.timers == []
    requires w.eventBus.listeners == map[] && w.eventBus.delivered == []
    modifies w, w.eventBus
    ensures w.Valid()
    ensures w.timers == Worker.ScheduleFor(fileId, Some(Worker.Metadata(filename)))
    ensures w.eventBus.Listeners(Worker.Topic(fileId)) == [listener]
    ensures w.eventBus.delivered ==
              if streamFirst then EventBus.Fanout([listener], Worker.UploadedUpdate(fileId)) else []
  {
    var ctx := Trpc.CreateContext(Trpc.Resolved(None));
    var ticket := DocumentRouter.GetUploadUrl(w, ctx, fileId, filename);
    assert Worker.Lookup(w.fileMetadata, fileId) == Some(Worker.Metadata(filename));
    if streamFirst {
      listener := OpenStatusStream(w, fileId);
      var response := UploadHandler(w, fileId, []);
    } else {
      var response := UploadHandler(w, fileId, []);
      listener := OpenStatusStream(w, fileId);
    }
  }

  /** What a single listener's stream holds after the run: UPLOADED (when it was
      already subscribed at the upload) followed by every scheduled update. */
  lemma RunStream(start: seq<EventBus.Delivery>, listener: EventBus.ListenerId, run: seq<StatusUpdate>, streamFirst: bool)
    requires |run| >= 1
    requires start == if streamFirst then EventBus.Fanout([listener], run[0]) else []
    ensures StreamOf(start + FanoutAll([listener], run[1..]), listener) ==
              UpdateEvents(if streamFirst then run else run[1..])
  {
    var tail := FanoutAll([listener], run[1..]);
    StreamOfAppend(start, tail, listener);
    SubscribersSeeEveryUpdate([listener], run[1..], listener);
    if streamFirst {
      StreamOfFanout([listener], run[0], listener);
      assert StreamOf(start, listener) == [SseEvent("update", run[0])];
      assert [SseEvent("update", run[0])] + UpdateEvents(run[1..]) == UpdateEvents(run);
    } else {
      assert StreamOf(start, listener) == [];
      assert StreamOf(start, listener) + StreamOf(tail, listener) == StreamOf(tail, listener);
    }
  }

  /** One whole job on a fresh server: `StartJob`, then the four timers fire. The stream
      receives every update of the run in order, except that a stream opened after the
      upload, as the dashboard opens it, misses the UPLOADED update, which is emitted
      during the upload call. */
  method WholeRun(fileId: string, filename: string, streamFirst: bool) returns (events: seq<SseEvent>)
    ensures var run := Worker.Emitted(fileId, Some(Worker.Metadata(filename)));
            events == UpdateEvents(if streamFirst then run else run[1..])
  {
    var w := new Worker.WorkerState();
    var metadata := Some(Worker.Metadata(filename));
    var listener := StartJob(w, fileId, filename, streamFirst);
    ghost var start := w.eventBus.delivered;
    DrainTimers(w, fileId, metadata, listener);
    events := StreamOf(w.eventBus.delivered, listener);
    RunStream(start, listener, Worker.Emitted(fileId, metadata), streamFirst);
  }
}
