/** The simulated processing pipeline: the in-memory file registry (`fileMetadata`), the
    choice between the two scripted scenarios, the stage schedule, and the publication of
    each status update on the topic `status:<fileId>` of the shared event bus.
    Timers are a list of pending (delay, update) entries rather than real time. */
module Worker {

  import opened Common
  import opened Status
  import EventBus

  /** What the registry stores per file id. */
  datatype Metadata = Metadata(filename: string)

  /** One row of a scenario: `setTimeout(() => emit(fileId, status, message, progress), delayMs)`. */
  datatype Entry = Entry(delayMs: nat, status: Step, message: string, progress: int)

  /** A pending timer: when it fires, `update` is emitted. */
  datatype Timer = Timer(delayMs: nat, update: StatusUpdate)

  const TestFilename := "test.pdf"

  const UploadedMessage := "PDF hochgeladen."
  const UploadedProgress := 10

  const OcrMessage := "OCR-Verarbeitung läuft..."
  const ExtractionMessage := "Extrahiere medizinische Entitäten..."
  const MissingDateMessage := "Warnung: Rechnungsdatum fehlt oder unleserlich."
  const RulesMessage := "Wende GOÄ-Regelwerk an..."
  const SkipDateMessage := "Überspringe Datumsvalidierung..."
  const CompletedMessage := "Abrechnungsentwurf bereit."
  const CompletedWithWarningsMessage := "Verarbeitung abgeschlossen (mit Warnungen)."

  /** The event-bus topic a file's updates travel on. */
  function Topic(fileId: string): (topic: string)
    ensures |topic| == |fileId| + 7 && topic[..7] == "status:" && topic[7..] == fileId
  {
    "status:" + fileId
  }

  /** Different files never share a topic. */
  lemma TopicInjective(a: string, b: string)
    ensures Topic(a) == Topic(b) <==> a == b
  {
    if Topic(a) == Topic(b) {
      assert a == Topic(a)[7..] == Topic(b)[7..] == b;
    }
  }

  /** `fileMetadata.get(fileId)`: `undefined` for an id never stored. */
  function Lookup(registry: map<string, Metadata>, fileId: string): (m: Option<Metadata>)
    ensures m.Some? <==> fileId in registry
    ensures m.Some? ==> m.value == registry[fileId]
  {
    if fileId in registry then Some(registry[fileId]) else None
  }

  /** `metadata?.filename === "test.pdf"`. */
  predicate IsTestPdf(metadata: Option<Metadata>)
    ensures IsTestPdf(metadata) <==> metadata == Some(Metadata(TestFilename))
  {
    metadata.Some? && metadata.value.filename == TestFilename
  }

  /** The happy path is chosen exactly for a stored filename equal to "test.pdf"; an
      unknown file id falls into the degraded scenario. */
  lemma ScenarioSelection(registry: map<string, Metadata>, fileId: string)
    ensures IsTestPdf(Lookup(registry, fileId)) <==>
              fileId in registry && registry[fileId].filename == "test.pdf"
    ensures fileId !in registry ==> !IsTestPdf(Lookup(registry, fileId))
  {
  }

  /** Delays and progress both strictly increase along a schedule. */
  ghost predicate StrictlyIncreasing(plan: seq<Entry>) {
    forall i, j :: 0 <= i < j < |plan| ==>
      plan[i].delayMs < plan[j].delayMs && plan[i].progress < plan[j].progress
  }

  /** The timers `startProcessing` sets, for the happy path (`isTestPdf`) or the
      "missing date" path. Both end with COMPLETED at 100 and never schedule FAILED. */
  function Plan(isTestPdf: bool): (plan: seq<Entry>)
    ensures |plan| == 4
    ensures StrictlyIncreasing(plan)
    ensures plan[0].progress > UploadedProgress
    ensures plan[3].status == COMPLETED && plan[3].progress == 100
    ensures forall k :: 0 <= k < |plan| ==> plan[k].status != FAILED && plan[k].message != ""
    ensures forall k :: 0 <= k < 3 ==> !IsTerminal(plan[k].status)
  {
    if isTestPdf then
      [ Entry(4000, OCR_PROCESSING, OcrMessage, 30),
        Entry(8000, ENTITY_EXTRACTION, ExtractionMessage, 60),
        Entry(12000, RULE_APPLICATION, RulesMessage, 80),
        Entry(16000, COMPLETED, CompletedMessage, 100) ]
    else
      [ Entry(4000, OCR_PROCESSING, OcrMessage, 30),
        Entry(8000, ENTITY_EXTRACTION, MissingDateMessage, 60),
        Entry(12000, RULE_APPLICATION, SkipDateMessage, 80),
        Entry(16000, COMPLETED, CompletedWithWarningsMessage, 100) ]
  }

  /** Both scenarios schedule the same stages at the same delays and progress; only the
      last three messages differ, and the degraded ones carry the missing-date warning,
      the skipped date validation and the "with warnings" completion. */
  lemma ScenariosDifferOnlyInMessages()
    ensures forall k :: 0 <= k < 4 ==>
      && Plan(true)[k].delayMs == Plan(false)[k].delayMs
      && Plan(true)[k].status == Plan(false)[k].status
      && Plan(true)[k].progress == Plan(false)[k].progress
    ensures Plan(true)[0].message == Plan(false)[0].message
    ensures forall k :: 1 <= k < 4 ==> Plan(true)[k].message != Plan(false)[k].message
    ensures Plan(false)[1].message == MissingDateMessage
    ensures Plan(false)[2].message == SkipDateMessage
    ensures Plan(false)[3].message == CompletedWithWarningsMessage
    ensures [Plan(true)[0].status, Plan(true)[1].status, Plan(true)[2].status, Plan(true)[3].status]
         == [OCR_PROCESSING, ENTITY_EXTRACTION, RULE_APPLICATION, COMPLETED]
    ensures [Plan(true)[0].delayMs, Plan(true)[1].delayMs, Plan(true)[2].delayMs, Plan(true)[3].delayMs]
         == [4000, 8000, 12000, 16000]
    ensures [Plan(true)[0].progress, Plan(true)[1].progress, Plan(true)[2].progress, Plan(true)[3].progress]
         == [30, 60, 80, 100]
  {
  }

  /** The update `emit(fileId, status, message, progress)` builds. */
  function UpdateFor(fileId: string, e: Entry): StatusUpdate {
    StatusUpdate(fileId, e.status, e.message, e.progress)
  }

  /** The update emitted synchronously when processing starts. */
  function UploadedUpdate(fileId: string): StatusUpdate {
    StatusUpdate(fileId, UPLOADED, UploadedMessage, UploadedProgress)
  }

  /** Every update processing publishes for `fileId`, in emission order: UPLOADED first,
      then the scheduled ones (their delays increase, so they fire in table order). */
  function Emitted(fileId: string, metadata: Option<Metadata>): (updates: seq<StatusUpdate>)
    ensures |updates| == 5
    ensures updates[0] == UploadedUpdate(fileId)
    ensures forall k :: 0 <= k < |updates| ==> updates[k].fileId == fileId
    ensures forall i, j :: 0 <= i < j < |updates| ==> updates[i].progress < updates[j].progress
    ensures updates[4].status == COMPLETED && updates[4].progress == 100
    ensures forall k :: 0 <= k < |updates| ==> updates[k].status != FAILED
    ensures forall k :: 0 <= k < |updates| ==> (IsTerminal(updates[k].status) <==> k == 4)
  {
    var plan := Plan(IsTestPdf(metadata));
    [UploadedUpdate(fileId)] + seq(4, k requires 0 <= k < 4 => UpdateFor(fileId, plan[k]))
  }

  /** The timers one `startProcessing` call leaves pending: delays increase, and their
      updates are exactly the emitted sequence after UPLOADED. */
  function ScheduleFor(fileId: string, metadata: Option<Metadata>): (timers: seq<Timer>)
    ensures |timers| == 4
    ensures forall i, j :: 0 <= i < j < 4 ==> timers[i].delayMs < timers[j].delayMs
    ensures forall k :: 0 <= k < 4 ==> timers[k].update == Emitted(fileId, metadata)[k + 1]
  {
    var plan := Plan(IsTestPdf(metadata));
    seq(4, k requires 0 <= k < 4 => Timer(plan[k].delayMs, UpdateFor(fileId, plan[k])))
  }

  /** What a start publishes for a file follows the registry: the happy messages
      exactly for a stored "test.pdf", the missing-date ones otherwise (an unknown id
      included), always at 4, 8, 12 and 16 s with progress 10, 30, 60, 80 and 100. */
  lemma ScenarioRun(registry: map<string, Metadata>, fileId: string)
    ensures var happy := fileId in registry && registry[fileId].filename == "test.pdf";
            var run := Emitted(fileId, Lookup(registry, fileId));
            var timers := ScheduleFor(fileId, Lookup(registry, fileId));
            && [run[0].progress, run[1].progress, run[2].progress, run[3].progress, run[4].progress]
               == [10, 30, 60, 80, 100]
            && [run[0].status, run[1].status, run[2].status, run[3].status, run[4].status]
               == [UPLOADED, OCR_PROCESSING, ENTITY_EXTRACTION, RULE_APPLICATION, COMPLETED]
            && [timers[0].delayMs, timers[1].delayMs, timers[2].delayMs, timers[3].delayMs]
               == [4000, 8000, 12000, 16000]
            && run[0].message == UploadedMessage && run[1].message == OcrMessage
            && run[2].message == (if happy then ExtractionMessage else MissingDateMessage)
            && run[3].message == (if happy then RulesMessage else SkipDateMessage)
            && run[4].message == (if happy then CompletedMessage else CompletedWithWarningsMessage)
  {
  }

  /** The module-level state of the worker: the registry, the shared event bus and the
      timers set but not yet fired. */
  class WorkerState {
    var fileMetadata: map<string, Metadata>
    const eventBus: EventBus.Emitter
    var timers: seq<Timer>

    ghost predicate Valid()
      reads this, eventBus
    {
      eventBus.Valid()
    }

    constructor ()
      ensures Valid() && fresh(eventBus)
      ensures fileMetadata == map[] && timers == []
      ensures eventBus.listeners == map[] && eventBus.published == [] && eventBus.delivered == []
    {
      fileMetadata := map[];
      eventBus := new EventBus.Emitter();
      timers := [];
    }

    /** `emit`: exactly one publication, on the file's topic, of an update carrying the
        given fields; every listener of that topic is called once with it. */
    method Emit(fileId: string, status: Step, message: string, progress: int)
      requires Valid()
      modifies eventBus
      ensures Valid()
      ensures eventBus.published ==
                old(eventBus.published) + [EventBus.Publication(Topic(fileId), StatusUpdate(fileId, status, message, progress))]
      ensures eventBus.delivered ==
                old(eventBus.delivered) + EventBus.Fanout(old(eventBus.Listeners(Topic(fileId))), StatusUpdate(fileId, status, message, progress))
      ensures eventBus.listeners == old(eventBus.listeners) && eventBus.nextListener == old(eventBus.nextListener)
    {
      var update := StatusUpdate(fileId, status, message, progress);
      eventBus.Emit(Topic(fileId), update);
    }

    /** `startProcessing`: reads the registry without changing it, publishes UPLOADED at
        10 before returning, and sets the four timers of the chosen scenario. */
    method StartProcessing(fileId: string)
      requires Valid()
      modifies this`timers, eventBus
      ensures Valid()
      ensures fileMetadata == old(fileMetadata)
      ensures eventBus.published ==
                old(eventBus.published) + [EventBus.Publication(Topic(fileId), Emitted(fileId, Lookup(fileMetadata, fileId))[0])]
      ensures eventBus.delivered ==
                old(eventBus.delivered) + EventBus.Fanout(old(eventBus.Listeners(Topic(fileId))), UploadedUpdate(fileId))
      ensures eventBus.listeners == old(eventBus.listeners) && eventBus.nextListener == old(eventBus.nextListener)
      ensures timers == old(timers) + ScheduleFor(fileId, Lookup(fileMetadata, fileId))
    {
      var metadata := Lookup(fileMetadata, fileId);
      Emit(fileId, UPLOADED, UploadedMessage, UploadedProgress);
      timers := timers + ScheduleFor(fileId, metadata);
    }

    /** The event loop runs the callback of pending timer `i`: its update is emitted on its
        file's topic and the timer is gone. */
    method FireTimer(i: nat)
      requires Valid() && i < |timers|
      modifies this`timers, eventBus
      ensures Valid()
      ensures timers == old(timers[..i] + timers[i + 1..])
      ensures eventBus.published ==
                old(eventBus.published) + [EventBus.Publication(Topic(old(timers[i]).update.fileId), old(timers[i]).update)]
      ensures eventBus.delivered ==
                old(eventBus.delivered) + EventBus.Fanout(old(eventBus.Listeners(Topic(timers[i].update.fileId))), old(timers[i]).update)
      ensures eventBus.listeners == old(eventBus.listeners) && eventBus.nextListener == old(eventBus.nextListener)
      ensures fileMetadata == old(fileMetadata)
    {
      var u := timers[i].update;
      timers := timers[..i] + timers[i + 1..];
      Emit(u.fileId, u.status, u.message, u.progress);
    }
  }
}
