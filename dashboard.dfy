/** The dashboard page: the list of processing jobs the user started, which of them is
    focused, the registry of open status streams (one EventSource per file id), and the
    reducer that folds each streamed status update into the job list. Rendering is not
    modelled. React state updates are applied at once, in call order. */
module Dashboard {

  import opened Common
  import opened Text
  import opened Status
  import Worker
  import DocumentRouter

  /** `Job`. */
  datatype Job = Job(
    fileId: string,
    filename: string,
    status: Option<StatusUpdate>,
    logs: seq<StatusUpdate>,
    isCompleted: bool,
    hasError: bool)

  /** The job `handleUpload` creates: no status yet, no log lines, neither flag set. */
  function NewJob(fileId: string, filename: string): (job: Job)
    ensures job.fileId == fileId && job.filename == filename
    ensures job.status.None? && job.logs == [] && !job.isCompleted && !job.hasError
  {
    Job(fileId, filename, None, [], false, false)
  }

  /** The job the reducer returns for a job whose id matches: the update becomes the
      current status and the last log line, and the two flags follow the update's step. */
  function UpdateJob(job: Job, data: StatusUpdate): (updated: Job)
    ensures updated.fileId == job.fileId && updated.filename == job.filename
    ensures updated.status == Some(data)
    ensures |updated.logs| == |job.logs| + 1 && updated.logs[..|job.logs|] == job.logs
    ensures updated.logs[|job.logs|] == data
    ensures updated.isCompleted <==> data.status == COMPLETED
    ensures updated.hasError <==> data.status == FAILED
    ensures !(updated.isCompleted && updated.hasError)
    ensures updated.isCompleted || updated.hasError <==> IsTerminal(data.status)
  {
    job.(status := Some(data), logs := job.logs + [data],
         isCompleted := data.status == COMPLETED, hasError := data.status == FAILED)
  }

  /** The updater passed to `setJobs` by the listener of the stream opened for `fileId`.
      It compares against that id, not against the id inside the update. Every job of
      another file is returned as it was and the order is kept. */
  function ApplyUpdate(jobs: seq<Job>, fileId: string, data: StatusUpdate): (updated: seq<Job>)
    ensures |updated| == |jobs|
    ensures forall k :: 0 <= k < |jobs| && jobs[k].fileId != fileId ==> updated[k] == jobs[k]
    ensures forall k :: 0 <= k < |jobs| && jobs[k].fileId == fileId ==> updated[k] == UpdateJob(jobs[k], data)
    ensures forall k :: 0 <= k < |jobs| ==> updated[k].fileId == jobs[k].fileId && updated[k].filename == jobs[k].filename
  {
    seq(|jobs|, k requires 0 <= k < |jobs| => if jobs[k].fileId != fileId then jobs[k] else UpdateJob(jobs[k], data))
  }

  /** A run of updates on one stream, folded in arrival order. A job of that file ends
      with the whole run appended to its log and with the last update as its status;
      jobs of other files are untouched. */
  function ApplyAll(jobs: seq<Job>, fileId: string, updates: seq<StatusUpdate>): (updated: seq<Job>)
    ensures |updated| == |jobs|
    ensures forall k :: 0 <= k < |jobs| && jobs[k].fileId != fileId ==> updated[k] == jobs[k]
    ensures forall k :: 0 <= k < |jobs| ==> updated[k].fileId == jobs[k].fileId && updated[k].filename == jobs[k].filename
    ensures forall k :: 0 <= k < |jobs| && jobs[k].fileId == fileId ==> updated[k].logs == jobs[k].logs + updates
    ensures |updates| > 0 ==> forall k :: 0 <= k < |jobs| && jobs[k].fileId == fileId ==>
              && updated[k].status == Some(updates[|updates| - 1])
              && (updated[k].isCompleted <==> updates[|updates| - 1].status == COMPLETED)
              && (updated[k].hasError <==> updates[|updates| - 1].status == FAILED)
    decreases |updates|
  {
    if |updates| == 0 then jobs
    else
      var init := updates[..|updates| - 1];
      assert updates == init + [updates[|updates| - 1]];
      ApplyUpdate(ApplyAll(jobs, fileId, init), fileId, updates[|updates| - 1])
  }

  /** A job created for a fresh file id and then fed what the dashboard's stream carries
      for that file (every update after UPLOADED, which was emitted before the stream was
      opened) ends completed, without error, at 100 percent, with those four updates as
      its log and no UPLOADED line; the other jobs are unchanged. */
  lemma DashboardJobCompletes(jobs: seq<Job>, fileId: string, filename: string, metadata: Option<Worker.Metadata>)
    requires forall k :: 0 <= k < |jobs| ==> jobs[k].fileId != fileId
    ensures var received := Worker.Emitted(fileId, metadata)[1..];
            var updated := ApplyAll(jobs + [NewJob(fileId, filename)], fileId, received);
            && updated[..|jobs|] == jobs
            && updated[|jobs|].isCompleted && !updated[|jobs|].hasError
            && updated[|jobs|].logs == received
            && updated[|jobs|].status.Some? && updated[|jobs|].status.value.progress == 100
            && forall k :: 0 <= k < |updated[|jobs|].logs| ==> updated[|jobs|].logs[k].status != UPLOADED
  {
    var received := Worker.Emitted(fileId, metadata)[1..];
    var all := jobs + [NewJob(fileId, filename)];
    var updated := ApplyAll(all, fileId, received);
    StreamedRun(fileId, metadata);
    assert all[|jobs|] == NewJob(fileId, filename);
    assert updated[..|jobs|] == jobs by {
      forall k | 0 <= k < |jobs| ensures updated[k] == jobs[k] {
        assert all[k] == jobs[k];
      }
    }
  }

  /** What the stream carries after UPLOADED: four updates, none of them UPLOADED, the
      last one COMPLETED at 100. */
  lemma StreamedRun(fileId: string, metadata: Option<Worker.Metadata>)
    ensures var received := Worker.Emitted(fileId, metadata)[1..];
            && |received| == 4
            && received[3].status == COMPLETED && received[3].progress == 100
            && forall k :: 0 <= k < |received| ==> received[k].status != UPLOADED
  {
    var run := Worker.Emitted(fileId, metadata);
    forall k | 1 <= k < |run| ensures run[k].status != UPLOADED {
      assert run[0].progress < run[k].progress;
    }
  }

  /** The index of the first job with the given id, or -1 when there is none. */
  function FindJob(jobs: seq<Job>, fileId: string): (k: int)
    ensures -1 <= k < |jobs|
    ensures k >= 0 ==> jobs[k].fileId == fileId
    ensures k >= 0 ==> forall i :: 0 <= i < k ==> jobs[i].fileId != fileId
    ensures k == -1 <==> forall i :: 0 <= i < |jobs| ==> jobs[i].fileId != fileId
    decreases |jobs|
  {
    if |jobs| == 0 then -1
    else if jobs[0].fileId == fileId then 0
    else
      var k := FindJob(jobs[1..], fileId);
      if k == -1 then -1 else k + 1
  }

  /** `jobs.find(j => j.fileId === focusedJobId)`: no focus finds nothing; otherwise the
      first job of the focused file, if there is one. */
  function FocusedJob(jobs: seq<Job>, focusedJobId: Option<string>): (job: Option<Job>)
    ensures focusedJobId.None? ==> job.None?
    ensures focusedJobId.Some? ==>
              (job.None? <==> forall i :: 0 <= i < |jobs| ==> jobs[i].fileId != focusedJobId.value)
    ensures job.Some? ==> job.value in jobs && job.value.fileId == focusedJobId.value
    ensures job.Some? ==> job.value == jobs[FindJob(jobs, focusedJobId.value)]
  {
    if focusedJobId.None? then None
    else
      var k := FindJob(jobs, focusedJobId.value);
      if k == -1 then None else Some(jobs[k])
  }

  /** A freshly uploaded job is the focused one, and stays so while its updates arrive. */
  lemma NewJobIsFocused(jobs: seq<Job>, fileId: string, filename: string, updates: seq<StatusUpdate>)
    requires forall k :: 0 <= k < |jobs| ==> jobs[k].fileId != fileId
    ensures FocusedJob(jobs + [NewJob(fileId, filename)], Some(fileId)) == Some(NewJob(fileId, filename))
    ensures var updated := ApplyAll(jobs + [NewJob(fileId, filename)], fileId, updates);
            FocusedJob(updated, Some(fileId)) == Some(updated[|jobs|])
  {
    var all := jobs + [NewJob(fileId, filename)];
    assert forall k :: 0 <= k < |jobs| ==> all[k].fileId != fileId;
    FocusOnLast(all, fileId);
    var updated := ApplyAll(all, fileId, updates);
    FocusOnLast(updated, fileId);
  }

  /** When only the last job has the focused id, the focus finds that job. */
  lemma FocusOnLast(jobs: seq<Job>, fileId: string)
    requires |jobs| > 0 && jobs[|jobs| - 1].fileId == fileId
    requires forall k :: 0 <= k < |jobs| - 1 ==> jobs[k].fileId != fileId
    ensures FocusedJob(jobs, Some(fileId)) == Some(jobs[|jobs| - 1])
  {
    var k := FindJob(jobs, fileId);
    assert k == |jobs| - 1;
  }

  /** `session.user` as far as the header uses it. */
  datatype SessionUser = SessionUser(email: string, name: string)

  datatype UserDisplay = UserDisplay(name: string, org: string)

  /** The organisation shown for the text after the first "@" (absent without one). */
  function OrgName(domain: Option<string>): (org: string)
    ensures org == "Charité" <==> domain == Some("charite.de")
    ensures org == "Helios Kliniken" <==> domain == Some("helios-kliniken.de")
    ensures org == "GlassBox" <==> domain != Some("charite.de") && domain != Some("helios-kliniken.de")
  {
    if domain == Some("charite.de") then "Charité"
    else if domain == Some("helios-kliniken.de") then "Helios Kliniken"
    else "GlassBox"
  }

  /** `getUserDisplay`: nothing without a user; otherwise the user's name, or the text
      before the first "@" of the e-mail when the name is empty, and the organisation
      of the e-mail's second "@"-separated piece. */
  function GetUserDisplay(user: Option<SessionUser>): (display: Option<UserDisplay>)
    ensures display.None? <==> user.None?
    ensures display.Some? ==> display.value.org == OrgName(Field(user.value.email, '@', 1))
    ensures display.Some? && user.value.name != "" ==> display.value.name == user.value.name
    ensures display.Some? && user.value.name == "" ==> display.value.name == Split(user.value.email, '@')[0]
  {
    match user
    case None => None
    case Some(u) =>
      var domain := Field(u.email, '@', 1);
      Some(UserDisplay(if u.name != "" then u.name else Split(u.email, '@')[0], OrgName(domain)))
  }

  /** For an address `local@domain` of a user without a name, the header shows the local
      part and the organisation of exactly that domain. */
  lemma DisplayOfAddress(local: string, domain: string)
    requires '@' !in local && '@' !in domain
    ensures GetUserDisplay(Some(SessionUser(local + "@" + domain, ""))) == Some(UserDisplay(local, OrgName(Some(domain))))
  {
    SplitAtFirst(local, '@', domain);
    SplitNoSep(domain, '@');
    assert local + "@" + domain == local + ['@'] + domain;
  }

  /** An e-mail without "@" has no domain: the organisation falls back to GlassBox and a
      missing name to the whole e-mail. */
  lemma DisplayWithoutAtSign(email: string)
    requires '@' !in email
    ensures GetUserDisplay(Some(SessionUser(email, ""))) == Some(UserDisplay(email, "GlassBox"))
  {
    SplitNoSep(email, '@');
  }

  const StatusStreamBase := "http://localhost:3001/api/status/"

  const UploadFailedAlert := "Upload failed"

  /** The URL `startSSE` opens for a file. */
  function StatusStreamUrl(fileId: string): (url: string)
    ensures StartsWith(url, StatusStreamBase) && url[|StatusStreamBase|..] == fileId
  {
    StatusStreamBase + fileId
  }

  /** The page's state. EventSources are numbered in creation order: `sourceFiles[s]` is
      the file id EventSource `s` was opened for (its URL is `StatusStreamUrl` of it), and
      `closed` holds the ones closed. `uploads` are the URLs posted to and `alerts` the
      messages shown. */
  class DashboardState {
    var jobs: seq<Job>
    var focusedJobId: Option<string>
    var eventSources: map<string, nat>
    var sourceFiles: seq<string>
    var closed: set<nat>
    var uploads: seq<string>
    var alerts: seq<string>

    /** The registry holds exactly the open EventSources, each under the file id it was
        opened for; so no file ever has two open streams. */
    ghost predicate Valid()
      reads this
    {
      && (forall f :: f in eventSources ==>
            eventSources[f] < |sourceFiles| && sourceFiles[eventSources[f]] == f && eventSources[f] !in closed)
      && (forall s :: 0 <= s < |sourceFiles| && s !in closed ==>
            sourceFiles[s] in eventSources && eventSources[sourceFiles[s]] == s)
      && (forall s :: s in closed ==> s < |sourceFiles|)
    }

    constructor ()
      ensures Valid()
      ensures jobs == [] && focusedJobId == None
      ensures eventSources == map[] && sourceFiles == [] && closed == {}
      ensures uploads == [] && alerts == []
    {
      jobs := [];
      focusedJobId := None;
      eventSources := map[];
      sourceFiles := [];
      closed := {};
      uploads := [];
      alerts := [];
    }

    /** `startSSE`: nothing happens when the file already has a registered stream;
        otherwise exactly one new EventSource is opened for it and registered. */
    method StartSSE(fileId: string)
      requires Valid()
      modifies this`eventSources, this`sourceFiles
      ensures Valid()
      ensures fileId in eventSources
      ensures fileId in old(eventSources) ==>
                eventSources == old(eventSources) && sourceFiles == old(sourceFiles)
      ensures fileId !in old(eventSources) ==>
                && sourceFiles == old(sourceFiles) + [fileId]
                && eventSources == old(eventSources)[fileId := |old(sourceFiles)|]
    {
      if fileId in eventSources {
        return;
      }
      var source := |sourceFiles|;
      sourceFiles := sourceFiles + [fileId];
      eventSources := eventSources[fileId := source];
    }

    /** The "update" listener of EventSource `source`. A closed EventSource delivers
        nothing. Otherwise the jobs of its file get the update, and when the update is
        terminal and some job of that file exists, the stream is closed and its
        registry entry removed. */
    method OnUpdate(source: nat, data: StatusUpdate)
      requires Valid() && source < |sourceFiles|
      modifies this`jobs, this`eventSources, this`closed
      ensures Valid()
      ensures source in old(closed) ==>
                jobs == old(jobs) && eventSources == old(eventSources) && closed == old(closed)
      ensures source !in old(closed) ==> jobs == ApplyUpdate(old(jobs), sourceFiles[source], data)
      ensures source !in old(closed) && IsTerminal(data.status) && FindJob(old(jobs), sourceFiles[source]) >= 0 ==>
                && closed == old(closed) + {source}
                && eventSources == old(eventSources) - {sourceFiles[source]}
      ensures !IsTerminal(data.status) || FindJob(old(jobs), sourceFiles[source]) == -1 ==>
                eventSources == old(eventSources) && closed == old(closed)
    {
      if source in closed {
        return;
      }
      var fileId := sourceFiles[source];
      var matched := FindJob(jobs, fileId) >= 0;
      jobs := ApplyUpdate(jobs, fileId, data);
      if IsTerminal(data.status) && matched {
        closed := closed + {source};
        eventSources := eventSources - {fileId};
      }
    }

    /** `handleUpload`. `file` is the chosen file's name, if any; `ticket` is what the
        upload-URL mutation resolved to (`None` when it threw); `uploadOk` says whether
        the POST to the upload URL resolved. A job is added and focused as soon as the
        ticket arrives; the stream is opened only after the POST has returned; either
        failure shows one alert and opens no stream. */
    method HandleUpload(file: Option<string>, ticket: Option<DocumentRouter.UploadTicket>, uploadOk: bool)
      requires Valid()
      modifies this
      ensures Valid()
      ensures |old(sourceFiles)| <= |sourceFiles| && sourceFiles[..|old(sourceFiles)|] == old(sourceFiles)
      ensures file.None? ==>
                && jobs == old(jobs) && focusedJobId == old(focusedJobId) && alerts == old(alerts)
                && uploads == old(uploads) && eventSources == old(eventSources) && sourceFiles == old(sourceFiles)
      ensures file.Some? && ticket.None? ==>
                && jobs == old(jobs) && focusedJobId == old(focusedJobId) && alerts == old(alerts) + [UploadFailedAlert]
                && uploads == old(uploads) && eventSources == old(eventSources) && sourceFiles == old(sourceFiles)
      ensures file.Some? && ticket.Some? ==>
                && jobs == old(jobs) + [NewJob(ticket.value.fileId, file.value)]
                && focusedJobId == Some(ticket.value.fileId)
                && uploads == old(uploads) + [ticket.value.uploadUrl]
                && alerts == old(alerts) + (if uploadOk then [] else [UploadFailedAlert])
      ensures file.Some? && ticket.Some? && !uploadOk ==>
                eventSources == old(eventSources) && sourceFiles == old(sourceFiles)
      ensures file.Some? && ticket.Some? && uploadOk ==> ticket.value.fileId in eventSources
      ensures file.Some? && ticket.Some? && uploadOk && ticket.value.fileId in old(eventSources) ==>
                eventSources == old(eventSources) && sourceFiles == old(sourceFiles)
      ensures file.Some? && ticket.Some? && uploadOk && ticket.value.fileId !in old(eventSources) ==>
                && sourceFiles == old(sourceFiles) + [ticket.value.fileId]
                && eventSources == old(eventSources)[ticket.value.fileId := |old(sourceFiles)|]
      ensures closed == old(closed)
    {
      if file.None? {
        return;
      }
      if ticket.None? {
        alerts := alerts + [UploadFailedAlert];
        return;
      }
      var fileId := ticket.value.fileId;
      jobs := jobs + [NewJob(fileId, file.value)];
      focusedJobId := Some(fileId);
      uploads := uploads + [ticket.value.uploadUrl];
      if !uploadOk {
        alerts := alerts + [UploadFailedAlert];
        return;
      }
      StartSSE(fileId);
    }

    /** `toggleMinimize`: only the focus is cleared; the jobs keep running. */
    method ToggleMinimize()
      modifies this`focusedJobId
      ensures focusedJobId == None
      ensures FocusedJob(jobs, focusedJobId) == None
    {
      focusedJobId := None;
    }

    /** Clicking a job in the sidebar focuses it. */
    method FocusJob(fileId: string)
      modifies this`focusedJobId
      ensures focusedJobId == Some(fileId)
      ensures FindJob(jobs, fileId) >= 0 ==> FocusedJob(jobs, focusedJobId) == Some(jobs[FindJob(jobs, fileId)])
    {
      focusedJobId := Some(fileId);
    }

    /** The cleanup on unmount closes every registered stream and empties the registry:
        afterwards no stream the page ever opened is still open. */
    method Unmount()
      requires Valid()
      modifies this`eventSources, this`closed
      ensures Valid()
      ensures eventSources == map[]
      ensures closed == old(closed) + old(eventSources).Values
      ensures forall s :: 0 <= s < |sourceFiles| ==> s in closed
    {
      closed := closed + eventSources.Values;
      eventSources := map[];
    }
  }
}
