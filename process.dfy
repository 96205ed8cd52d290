/** The processing page of src/app/process/page.js: `handleProcess`, which
    checks its inputs, creates a group, asks for upload slots, uploads each
    file to its slot, finalizes the uploads, starts processing and then
    polls the job status on an interval until the server reports `done` or
    `error`.

    Every network call is replaced by its outcome, supplied as an input
    (`Replies` for the submission, one `PollReply` per interval tick); the
    requests the page issues are recorded, in order, in a ghost log. */
module Process {
  import opened Common

  /** A file chosen in the file picker. */
  datatype File = File(name: string, mimeType: string, bytes: seq<bv8>)

  /** One upload slot returned by the upload-URL request. */
  datatype Slot = Slot(uploadUrl: string, blobPath: string)

  /** A request the page issues. */
  datatype Request =
    | CreateGroup(userId: string)
    | GenerateUploadUrls(userId: string, filenames: seq<string>)
    | PutBlob(url: string, blobType: string, contentType: string, body: File)
    | UploadsComplete(blobPaths: seq<string>, userId: string, groupId: string)
    | StartProcessing(groupId: string, prompt: string, mode: string, generations: nat, heightIndexList: seq<int>)
    | PollStatus(requestIds: seq<string>)

  /** How each request of one submission ends. `Thrown` is a rejected
      request; `None` inside `Ok` is a response without the field read
      (`upload_urls`, `request_ids`). A direct upload only rejects on a
      transport failure: `rejectedPuts` holds the indices of those slots. */
  datatype Replies = Replies(
    createGroup: Result<string>,
    uploadUrls: Result<Option<seq<Slot>>>,
    rejectedPuts: set<nat>,
    finalize: Result<()>,
    startProcessing: Result<Option<seq<string>>>)

  /** One output of the status response. */
  datatype Output = Output(status: string, url: Option<string>)

  /** How one status request ends: rejected, or a response with an overall
      status and, possibly missing, outputs. */
  datatype PollReply = PollRejected | StatusReply(status: string, outputs: Option<seq<Output>>)

  const NoUserIdAlert: string := "Please enter your user ID first."
  const TooFewFilesAlert: string := "Please upload two images first."
  const BlobType: string := "BlockBlob"
  const Mode: string := "default"
  const GenerationCount: nat := 1
  const MinFiles: nat := 2

  /** The value of `progress`, one alternative per message the page sets. */
  datatype Message =
    | Blank
    | CreatingGroup
    | GroupCreated(groupId: string)
    | UploadingImages
    | FinalizingUploads
    | StartingProcessing
    | ProcessingImages
    | RetryMessage
    | ProcessingComplete
    | ProcessingError

  /** The text shown for a progress message; only the initial value is
      empty. */
  function Text(m: Message): (t: string)
    ensures t == "" <==> m == Blank
  {
    match m
    case Blank => ""
    case CreatingGroup => "Creating group..."
    case GroupCreated(groupId) => "Group created: " + groupId
    case UploadingImages => "Uploading images..."
    case FinalizingUploads => "Finalizing uploads..."
    case StartingProcessing => "Starting processing..."
    case ProcessingImages => "Processing images (may take a few minutes)..."
    case RetryMessage => "Something went wrong. Please retry."
    case ProcessingComplete => "Processing complete!"
    case ProcessingError => "Error during processing. Try again."
  }

  /** `files.map((f) => f.name)`. */
  function Filenames(files: seq<File>): (names: seq<string>)
    ensures |names| == |files| && forall i :: 0 <= i < |files| ==> names[i] == files[i].name
  {
    seq(|files|, i requires 0 <= i < |files| => files[i].name)
  }

  /** `uploads.map((u) => u.blob_path)`. */
  function BlobPaths(slots: seq<Slot>): seq<string>
  {
    seq(|slots|, i requires 0 <= i < |slots| => slots[i].blobPath)
  }

  function Min(a: nat, b: nat): nat
  {
    if a <= b then a else b
  }

  /** The direct uploads issued for `slots`: slot `i` receives `files[i]`.
      A slot without a file issues nothing (reading its file throws). */
  function Puts(slots: seq<Slot>, files: seq<File>): seq<Request>
  {
    seq(Min(|slots|, |files|), i requires 0 <= i < Min(|slots|, |files|) =>
      PutBlob(slots[i].uploadUrl, BlobType, files[i].mimeType, files[i]))
  }

  /** One upload per slot that has a file: upload `i` sends `files[i]`, as a
      block blob with the file's own content type, to slot `i`'s url. */
  lemma PutsPairing(slots: seq<Slot>, files: seq<File>)
    ensures |Puts(slots, files)| == Min(|slots|, |files|) <= |slots|
    ensures forall i :: 0 <= i < |Puts(slots, files)| ==>
      Puts(slots, files)[i] == PutBlob(slots[i].uploadUrl, BlobType, files[i].mimeType, files[i])
  {
  }

  /** The blob paths sent to finalize are the slots' paths, in slot order. */
  lemma BlobPathsOrder(slots: seq<Slot>)
    ensures |BlobPaths(slots)| == |slots|
    ensures forall i :: 0 <= i < |slots| ==> BlobPaths(slots)[i] == slots[i].blobPath
  {
  }

  /** Upload slot `i` fails: there is no file at its index (reading the
      file's type throws), or its upload failed in transport. */
  predicate SlotFails(i: nat, files: seq<File>, rejectedPuts: set<nat>)
  {
    i >= |files| || i in rejectedPuts
  }

  /** The joined upload step rejects: some slot has no file, or some upload
      failed in transport. More files than slots is no failure. */
  predicate UploadRejects(slots: seq<Slot>, files: seq<File>, rejectedPuts: set<nat>): (b: bool)
    ensures b <==> exists i :: 0 <= i < |slots| && SlotFails(i, files, rejectedPuts)
  {
    if |slots| > |files| then
      assert SlotFails(|files|, files, rejectedPuts);
      true
    else
      assert forall i :: 0 <= i < |slots| ==> (SlotFails(i, files, rejectedPuts) <==> i in rejectedPuts);
      exists i :: 0 <= i < |slots| && i in rejectedPuts
  }

  /** What one press of the button does: the alert it raises, the requests
      it issues in order, the values `progress` takes in order, and the
      request ids polled when polling starts. */
  datatype Run = Run(alert: Option<string>, requests: seq<Request>, progress: seq<Message>, pollIds: Option<seq<string>>)

  /** The `catch` block: the retry message, and no polling. */
  const Retry: Run := Run(None, [], [RetryMessage], None)

  /** One step that issues `requests` and shows `progress`, followed by
      `run`. */
  function Then(requests: seq<Request>, progress: seq<Message>, run: Run): (r: Run)
    ensures r.alert == run.alert && r.pollIds == run.pollIds
    ensures |r.requests| == |requests| + |run.requests| && |r.progress| == |progress| + |run.progress|
  {
    Run(run.alert, requests + run.requests, progress + run.progress, run.pollIds)
  }

  /** `handleProcess` up to the point where polling starts: the guard, then
      the steps of its `try` block. */
  function Submission(userId: string, files: seq<File>, prompt: string, height: int, r: Replies): (run: Run)
    ensures userId == "" || |files| < MinFiles ==>
      run.alert.Some? && run.requests == [] && run.progress == [] && run.pollIds.None?
    ensures userId != "" && |files| >= MinFiles ==>
      |run.requests| > 0 && run.requests[0] == CreateGroup(userId) && |run.progress| > 0 && run.progress[0] == CreatingGroup
  {
    if userId == "" then Run(Some(NoUserIdAlert), [], [], None)
    else if |files| < MinFiles then Run(Some(TooFewFilesAlert), [], [], None)
    else Then([CreateGroup(userId)], [CreatingGroup], From(AwaitGroup, userId, files, prompt, height, r))
  }

  /** The point the `try` block of `handleProcess` has reached: the request
      whose reply it awaits, with what it has learnt so far. */
  datatype Step =
    | AwaitGroup
    | AwaitUploadUrls(groupId: string)
    | AwaitUploads(groupId: string, slots: seq<Slot>)
    | AwaitFinalize(groupId: string)
    | AwaitStartProcessing

  function StepsLeft(step: Step): nat
  {
    match step
    case AwaitGroup => 4
    case AwaitUploadUrls(_) => 3
    case AwaitUploads(_, _) => 2
    case AwaitFinalize(_) => 1
    case AwaitStartProcessing => 0
  }

  /** The rest of the `try` block from `step` on: the reply settles, and
      either the `catch` block runs (the request rejected, or the reply
      lacks the field read next) or the next request is issued and the next
      message shown. */
  function From(step: Step, userId: string, files: seq<File>, prompt: string, height: int, r: Replies): Run
    decreases StepsLeft(step)
  {
    match step
    case AwaitGroup =>
      if r.createGroup.Thrown? then Retry
      else
        var groupId := r.createGroup.value;
        Then([GenerateUploadUrls(userId, Filenames(files))], [GroupCreated(groupId)],
             From(AwaitUploadUrls(groupId), userId, files, prompt, height, r))
    case AwaitUploadUrls(groupId) =>
      if r.uploadUrls.Thrown? || r.uploadUrls.value.None? then Retry
      else
        var slots := r.uploadUrls.value.value;
        Then(Puts(slots, files), [UploadingImages], From(AwaitUploads(groupId, slots), userId, files, prompt, height, r))
    case AwaitUploads(groupId, slots) =>
      if UploadRejects(slots, files, r.rejectedPuts) then Retry
      else Then([UploadsComplete(BlobPaths(slots), userId, groupId)], [FinalizingUploads],
                From(AwaitFinalize(groupId), userId, files, prompt, height, r))
    case AwaitFinalize(groupId) =>
      if r.finalize.Thrown? then Retry
      else Then([StartProcessing(groupId, prompt, Mode, GenerationCount, [height])], [StartingProcessing],
                From(AwaitStartProcessing, userId, files, prompt, height, r))
    case AwaitStartProcessing =>
      if r.startProcessing.Thrown? || r.startProcessing.value.None? || |r.startProcessing.value.value| == 0 then Retry
      else Run(None, [], [ProcessingImages], r.startProcessing.value)
  }

  /** The progress messages of a submission that reaches polling. */
  function SuccessProgress(groupId: string): seq<Message>
  {
    [CreatingGroup, GroupCreated(groupId), UploadingImages, FinalizingUploads, StartingProcessing, ProcessingImages]
  }

  /** The group id a submission reports, when the group was created. */
  function GroupIdOf(r: Replies): string
  {
    if r.createGroup.Ok? then r.createGroup.value else ""
  }

  /** Every step of the submission succeeds. */
  predicate AllStepsSucceed(files: seq<File>, r: Replies)
  {
    && r.createGroup.Ok?
    && r.uploadUrls.Ok? && r.uploadUrls.value.Some?
    && !UploadRejects(r.uploadUrls.value.value, files, r.rejectedPuts)
    && r.finalize.Ok?
    && r.startProcessing.Ok? && r.startProcessing.value.Some? && r.startProcessing.value.value != []
  }

  /** From any step, the rest of the `try` block raises no alert, shows at
      least one message, never issues a status request, and ends either
      polling non-empty request ids after "Processing images" or with the
      retry message. */
  lemma {:induction false} FromOutcome(step: Step, userId: string, files: seq<File>, prompt: string, height: int, r: Replies)
    ensures var run := From(step, userId, files, prompt, height, r);
      && run.alert == None
      && 1 <= |run.progress| <= StepsLeft(step) + 2
      && (run.pollIds.Some? ==> run.pollIds.value != [] && run.progress[|run.progress| - 1] == ProcessingImages)
      && (run.pollIds.None? ==> run.progress[|run.progress| - 1] == RetryMessage)
      && (forall q :: q in run.requests ==> !q.PollStatus?)
    decreases StepsLeft(step)
  {
    var run := From(step, userId, files, prompt, height, r);
    match step
    case AwaitGroup =>
      if r.createGroup.Ok? {
        var next := From(AwaitUploadUrls(r.createGroup.value), userId, files, prompt, height, r);
        FromOutcome(AwaitUploadUrls(r.createGroup.value), userId, files, prompt, height, r);
        assert run == Then([GenerateUploadUrls(userId, Filenames(files))], [GroupCreated(r.createGroup.value)], next);
        assert run.progress[|run.progress| - 1] == next.progress[|next.progress| - 1];
      }
    case AwaitUploadUrls(groupId) =>
      if r.uploadUrls.Ok? && r.uploadUrls.value.Some? {
        var slots := r.uploadUrls.value.value;
        var next := From(AwaitUploads(groupId, slots), userId, files, prompt, height, r);
        FromOutcome(AwaitUploads(groupId, slots), userId, files, prompt, height, r);
        assert run == Then(Puts(slots, files), [UploadingImages], next);
        assert run.progress[|run.progress| - 1] == next.progress[|next.progress| - 1];
        assert forall q :: q in Puts(slots, files) ==> q.PutBlob?;
      }
    case AwaitUploads(groupId, slots) =>
      if !UploadRejects(slots, files, r.rejectedPuts) {
        var next := From(AwaitFinalize(groupId), userId, files, prompt, height, r);
        FromOutcome(AwaitFinalize(groupId), userId, files, prompt, height, r);
        assert run == Then([UploadsComplete(BlobPaths(slots), userId, groupId)], [FinalizingUploads], next);
        assert run.progress[|run.progress| - 1] == next.progress[|next.progress| - 1];
      }
    case AwaitFinalize(groupId) =>
      if r.finalize.Ok? {
        var next := From(AwaitStartProcessing, userId, files, prompt, height, r);
        FromOutcome(AwaitStartProcessing, userId, files, prompt, height, r);
        assert run == Then([StartProcessing(groupId, prompt, Mode, GenerationCount, [height])], [StartingProcessing], next);
        assert run.progress[|run.progress| - 1] == next.progress[|next.progress| - 1];
      }
    case AwaitStartProcessing =>
  }

  /** An empty user id, or fewer than two files, raises an alert and does
      nothing else: no request, no progress, no polling. */
  lemma InputGuard(userId: string, files: seq<File>, prompt: string, height: int, r: Replies)
    requires userId == "" || |files| < 2
    ensures var run := Submission(userId, files, prompt, height, r);
      run.requests == [] && run.progress == [] && run.pollIds == None &&
      run.alert == Some(if userId == "" then NoUserIdAlert else TooFewFilesAlert)
  {
  }

  /** Accepted inputs raise no alert; the submission ends either polling
      with non-empty request ids after "Processing images", or with the
      retry message, and it never issues a status request itself. */
  lemma SubmissionOutcome(userId: string, files: seq<File>, prompt: string, height: int, r: Replies)
    requires userId != "" && |files| >= 2
    ensures var run := Submission(userId, files, prompt, height, r);
      && run.alert == None
      && run.requests[0] == CreateGroup(userId) && run.progress[0] == CreatingGroup
      && (run.pollIds.Some? ==> run.pollIds.value != [] && run.progress[|run.progress| - 1] == ProcessingImages)
      && (run.pollIds.None? ==> run.progress[|run.progress| - 1] == RetryMessage)
  {
    FromOutcome(AwaitGroup, userId, files, prompt, height, r);
  }

  /** Polling starts exactly when every step succeeds; then the requests are
      the group, the upload slots, one upload per slot with its own file,
      the finalize call with the slots' blob paths, and the processing call,
      in this order, and the progress messages are the six success
      messages. */
  lemma SuccessPath(userId: string, files: seq<File>, prompt: string, height: int, r: Replies)
    requires userId != "" && |files| >= 2
    ensures var run := Submission(userId, files, prompt, height, r);
      run.pollIds.Some? <==> AllStepsSucceed(files, r)
    ensures var run := Submission(userId, files, prompt, height, r);
      AllStepsSucceed(files, r) ==>
        var slots := r.uploadUrls.value.value;
        var groupId := r.createGroup.value;
        && run.pollIds == r.startProcessing.value
        && run.progress == SuccessProgress(groupId)
        && run.requests ==
          [CreateGroup(userId), GenerateUploadUrls(userId, Filenames(files))]
          + Puts(slots, files)
          + [UploadsComplete(BlobPaths(slots), userId, groupId),
             StartProcessing(groupId, prompt, Mode, GenerationCount, [height])]
  {
    var run := Submission(userId, files, prompt, height, r);
    if r.createGroup.Ok? {
      var groupId := r.createGroup.value;
      assert run.pollIds == From(AwaitUploadUrls(groupId), userId, files, prompt, height, r).pollIds;
      if r.uploadUrls.Ok? && r.uploadUrls.value.Some? {
        var slots := r.uploadUrls.value.value;
        var uploads := From(AwaitUploads(groupId, slots), userId, files, prompt, height, r);
        if !UploadRejects(slots, files, r.rejectedPuts) {
          var finalize := From(AwaitFinalize(groupId), userId, files, prompt, height, r);
          assert uploads == Then([UploadsComplete(BlobPaths(slots), userId, groupId)], [FinalizingUploads], finalize);
          if r.finalize.Ok? {
            var start := From(AwaitStartProcessing, userId, files, prompt, height, r);
            assert finalize == Then([StartProcessing(groupId, prompt, Mode, GenerationCount, [height])], [StartingProcessing], start);
            if AllStepsSucceed(files, r) {
              assert start == Run(None, [], [ProcessingImages], r.startProcessing.value);
              assert run.requests ==
                [CreateGroup(userId)] + ([GenerateUploadUrls(userId, Filenames(files))] + (Puts(slots, files) + uploads.requests));
            }
          }
        }
      }
    }
  }

  /** For valid inputs the progress messages are always a prefix of the
      success messages, ended by the retry message unless polling starts;
      the retry message is shown exactly when polling does not start. */
  lemma {:induction false} ProgressOrder(userId: string, files: seq<File>, prompt: string, height: int, r: Replies)
    requires userId != "" && |files| >= 2
    ensures var run := Submission(userId, files, prompt, height, r);
      && 2 <= |run.progress| <= 6
      && (run.pollIds.Some? ==> run.progress == SuccessProgress(GroupIdOf(r)))
      && (run.pollIds.None? ==>
            run.progress == SuccessProgress(GroupIdOf(r))[..|run.progress| - 1] + [RetryMessage])
  {
    var run := Submission(userId, files, prompt, height, r);
    var steps := SuccessProgress(GroupIdOf(r));
    if r.createGroup.Thrown? {
      assert run.progress == steps[..1] + [RetryMessage];
      return;
    }
    var groupId := r.createGroup.value;
    var urls := From(AwaitUploadUrls(groupId), userId, files, prompt, height, r);
    assert run.progress == steps[..2] + urls.progress;
    if r.uploadUrls.Thrown? || r.uploadUrls.value.None? {
      return;
    }
    var slots := r.uploadUrls.value.value;
    var uploads := From(AwaitUploads(groupId, slots), userId, files, prompt, height, r);
    assert run.progress == steps[..3] + uploads.progress;
    if UploadRejects(slots, files, r.rejectedPuts) {
      return;
    }
    var finalize := From(AwaitFinalize(groupId), userId, files, prompt, height, r);
    assert run.progress == steps[..4] + finalize.progress;
    if r.finalize.Thrown? {
      return;
    }
    var start := From(AwaitStartProcessing, userId, files, prompt, height, r);
    assert run.progress == steps[..5] + start.progress;
  }

  /** Upload `i` sends `files[i]`, with its content type, to slot `i`; the
      finalize call sends the slots' blob paths in slot order. */
  lemma UploadPairing(userId: string, files: seq<File>, prompt: string, height: int, r: Replies)
    requires userId != "" && |files| >= 2
    requires r.createGroup.Ok? && r.uploadUrls.Ok? && r.uploadUrls.value.Some?
    ensures var run := Submission(userId, files, prompt, height, r);
      var slots := r.uploadUrls.value.value;
      var n := Min(|slots|, |files|);
      && |run.requests| >= 2 + n
      && (forall i :: 0 <= i < n ==>
            run.requests[2 + i] == PutBlob(slots[i].uploadUrl, BlobType, files[i].mimeType, files[i]))
      && (!UploadRejects(slots, files, r.rejectedPuts) ==>
            n == |slots| && |run.requests| > 2 + n && run.requests[2 + n] == UploadsComplete(BlobPaths(slots), userId, r.createGroup.value))
  {
    var run := Submission(userId, files, prompt, height, r);
    var groupId := r.createGroup.value;
    var slots := r.uploadUrls.value.value;
    var uploads := From(AwaitUploads(groupId, slots), userId, files, prompt, height, r);
    var urls := From(AwaitUploadUrls(groupId), userId, files, prompt, height, r);
    var group := From(AwaitGroup, userId, files, prompt, height, r);
    assert urls == Then(Puts(slots, files), [UploadingImages], uploads);
    assert group == Then([GenerateUploadUrls(userId, Filenames(files))], [GroupCreated(groupId)], urls);
    assert run == Then([CreateGroup(userId)], [CreatingGroup], group);
    var puts := Puts(slots, files);
    assert run.requests == [CreateGroup(userId), GenerateUploadUrls(userId, Filenames(files))] + puts + uploads.requests;
    if !UploadRejects(slots, files, r.rejectedPuts) {
      var finalize := From(AwaitFinalize(groupId), userId, files, prompt, height, r);
      assert uploads.requests == [UploadsComplete(BlobPaths(slots), userId, groupId)] + finalize.requests;
    }
  }

  /** A missing or empty `request_ids` takes the failure path: the retry
      message, and polling never starts. */
  lemma MissingRequestIdsFail(userId: string, files: seq<File>, prompt: string, height: int, r: Replies)
    requires r.startProcessing == Ok(None) || r.startProcessing == Ok(Some([]))
    ensures var run := Submission(userId, files, prompt, height, r);
      run.pollIds == None && (run.alert.None? ==> run.progress[|run.progress| - 1] == RetryMessage)
  {
    if userId != "" && |files| >= 2 {
      SuccessPath(userId, files, prompt, height, r);
      SubmissionOutcome(userId, files, prompt, height, r);
    }
  }

  /** The submission itself never polls: status requests come only from the
      interval. */
  lemma NoPollDuringSubmission(userId: string, files: seq<File>, prompt: string, height: int, r: Replies)
    ensures forall q :: q in Submission(userId, files, prompt, height, r).requests ==> !q.PollStatus?
  {
    FromOutcome(AwaitGroup, userId, files, prompt, height, r);
  }

  /** An output counts when its own status is "done" and its url is a
      non-empty string. */
  predicate Delivered(o: Output): (b: bool)
    ensures b <==> o.status == "done" && o.url.Some? && |o.url.value| > 0
  {
    o.status == "done" && Truthy(o.url)
  }

  /** `outputs.filter((o) => o.status === "done" && o.url).map((o) => o.url)`. */
  function DoneUrls(outputs: seq<Output>): (urls: seq<string>)
    ensures |urls| <= |outputs|
    ensures forall u :: u in urls ==> u != ""
  {
    if outputs == [] then []
    else (if Delivered(outputs[0]) then [outputs[0].url.value] else []) + DoneUrls(outputs[1..])
  }

  /** Filtering keeps server order: it distributes over concatenation. */
  lemma {:induction false} DoneUrlsAppend(a: seq<Output>, b: seq<Output>)
    ensures DoneUrls(a + b) == DoneUrls(a) + DoneUrls(b)
  {
    if a == [] {
      assert a + b == b;
    } else {
      var head := if Delivered(a[0]) then [a[0].url.value] else [];
      assert (a + b)[0] == a[0] && (a + b)[1..] == a[1..] + b;
      assert DoneUrls(a + b) == head + DoneUrls(a[1..] + b);
      DoneUrlsAppend(a[1..], b);
      assert DoneUrls(a) == head + DoneUrls(a[1..]);
    }
  }

  /** A url is kept exactly when some delivered output carries it. */
  lemma {:induction false} DoneUrlsMembers(outputs: seq<Output>, u: string)
    ensures u in DoneUrls(outputs) <==> exists i :: 0 <= i < |outputs| && Delivered(outputs[i]) && outputs[i].url == Some(u)
  {
    if outputs != [] {
      DoneUrlsMembers(outputs[1..], u);
      if exists i :: 0 <= i < |outputs[1..]| && Delivered(outputs[1..][i]) && outputs[1..][i].url == Some(u) {
        var i :| 0 <= i < |outputs[1..]| && Delivered(outputs[1..][i]) && outputs[1..][i].url == Some(u);
        assert outputs[i + 1] == outputs[1..][i];
      }
      if exists i :: 0 <= i < |outputs| && Delivered(outputs[i]) && outputs[i].url == Some(u) {
        var i :| 0 <= i < |outputs| && Delivered(outputs[i]) && outputs[i].url == Some(u);
        if i > 0 {
          assert outputs[1..][i - 1] == outputs[i];
        }
      }
    }
  }

  /** Outputs that are not done, or have no url, are dropped; the others keep
      their order. */
  lemma DoneUrlsExample()
    ensures DoneUrls([Output("done", Some("A")), Output("error", None), Output("done", Some("B"))]) == ["A", "B"]
    ensures DoneUrls([Output("done", Some("")), Output("pending", Some("C"))]) == []
  {
    var a := [Output("done", Some("A")), Output("error", None), Output("done", Some("B"))];
    assert a[1..] == [Output("error", None), Output("done", Some("B"))];
    assert a[1..][1..] == [Output("done", Some("B"))];
    assert DoneUrls([Output("done", Some("B"))]) == ["B"] + DoneUrls([]);
    assert DoneUrls(a[1..]) == DoneUrls(a[1..][1..]);
    assert DoneUrls(a) == ["A"] + DoneUrls(a[1..]);
    var b := [Output("done", Some("")), Output("pending", Some("C"))];
    assert b[1..] == [Output("pending", Some("C"))];
    assert !Delivered(b[0]) && !Delivered(b[1]);
    assert DoneUrls(b[1..]) == DoneUrls([]);
  }

  /** A status reply that stops the interval. */
  predicate Terminal(reply: PollReply): (b: bool)
    ensures reply.PollRejected? ==> !b
    ensures reply.StatusReply? ==> (b <==> reply.status in {"done", "error"})
  {
    reply.StatusReply? && (reply.status == "done" || reply.status == "error")
  }

  /** How many ticks of `ticks` run: up to and including the first terminal
      reply, or all of them. */
  function TicksUntilStop(ticks: seq<PollReply>): (n: nat)
    ensures n <= |ticks|
    ensures forall k :: 0 <= k < n - 1 ==> !Terminal(ticks[k])
    ensures n < |ticks| ==> n > 0 && Terminal(ticks[n - 1])
    ensures n == |ticks| && n > 0 ==> Terminal(ticks[n - 1]) || forall k :: 0 <= k < n ==> !Terminal(ticks[k])
  {
    if ticks == [] then 0
    else if Terminal(ticks[0]) then 1
    else 1 + TicksUntilStop(ticks[1..])
  }

  /** Three in-progress replies and then `done` make four status requests;
      a rejected request in between does not stop the interval. */
  lemma PollingExamples()
    ensures TicksUntilStop([StatusReply("pending", None), StatusReply("pending", None),
                            StatusReply("pending", None), StatusReply("done", Some([])),
                            StatusReply("error", None)]) == 4
    ensures TicksUntilStop([PollRejected, PollRejected, StatusReply("done", Some([]))]) == 3
  {
  }

  function Polls(ids: seq<string>, n: nat): seq<Request>
  {
    seq(n, _ => PollStatus(ids))
  }

  /** The processing page's state: the fields of the component, whether the
      polling interval is registered, and ghost logs of what it did. */
  class ProcessPage {
    var prompt: string
    var height: int
    var files: seq<File>
    var outputImages: seq<string>
    var loading: bool
    var progress: Message
    var userId: string
    /** The interval is registered and not yet cleared. */
    var polling: bool
    /** The request ids the interval polls with. */
    var pollIds: seq<string>
    /** Every request issued, in order. */
    ghost var requests: seq<Request>
    /** Every value `progress` has held, in order, from its initial one. */
    ghost var progressLog: seq<Message>
    /** Every alert raised, in order. */
    ghost var alerts: seq<string>

    /** An active interval implies `loading` (so the button is disabled and
        no second submission can start), and `progress` is the last message
        set. */
    /** The progress paragraph under the button: shown, with the message's
        text, exactly when `progress` is a non-empty string. */
    function ProgressLine(): (line: Option<string>)
      reads this`progress
      ensures line.Some? <==> progress != Blank
      ensures line.Some? ==> line.value == Text(progress) && line.value != ""
    {
      if Text(progress) != "" then Some(Text(progress)) else None
    }

    ghost predicate Valid()
      reads this
    {
      && (polling ==> loading && pollIds != [])
      && |progressLog| > 0 && progress == progressLog[|progressLog| - 1]
    }

    constructor ()
      ensures Valid()
      ensures prompt == "" && height == 512 && files == [] && outputImages == []
      ensures !loading && progress == Blank && userId == "" && !polling
      ensures requests == [] && progressLog == [Blank] && alerts == []
    {
      prompt, height, files, outputImages := "", 512, [], [];
      loading, progress, userId := false, Blank, "";
      polling, pollIds := false, [];
      requests, progressLog, alerts := [], [Blank], [];
    }

    method SetUserId(s: string)
      modifies this`userId
      ensures userId == s
    {
      userId := s;
    }

    method SetPrompt(s: string)
      modifies this`prompt
      ensures prompt == s
    {
      prompt := s;
    }

    method SetHeight(h: int)
      modifies this`height
      ensures height == h
    {
      height := h;
    }

    method SetFiles(fs: seq<File>)
      modifies this`files
      ensures files == fs
    {
      files := fs;
    }

    method SetProgress(message: Message)
      modifies this`progress, this`progressLog
      ensures progress == message && progressLog == old(progressLog) + [message]
    {
      progress := message;
      progressLog := progressLog + [message];
    }

    /** The upload step: the uploads are issued together and joined. Every
        slot that has a file issues its upload; the join rejects when an
        upload fails in transport or a slot has no file. */
    method IssueUploads(uploads: seq<Slot>, rejectedPuts: set<nat>) returns (rejected: bool)
      modifies this`requests
      ensures requests == old(requests) + Puts(uploads, files)
      ensures rejected == UploadRejects(uploads, files, rejectedPuts)
    {
      var i := 0;
      rejected := false;
      while i < |uploads|
        invariant 0 <= i <= |uploads|
        invariant requests == old(requests) + Puts(uploads[..i], files)
        invariant rejected <==> i > |files| || exists j :: 0 <= j < i && j in rejectedPuts
      {
        assert uploads[..i + 1][..i] == uploads[..i];
        if i < |files| {
          requests := requests + [PutBlob(uploads[i].uploadUrl, BlobType, files[i].mimeType, files[i])];
          if i in rejectedPuts {
            rejected := true;
          }
        } else {
          rejected := true;
        }
        i := i + 1;
      }
      assert uploads[..i] == uploads;
    }

    /** Since the logs stood at `requests0` and `progressLog0`, the page did
        what `run` describes, and polls exactly when `run` starts polling. */
    ghost predicate Performed(run: Run, requests0: seq<Request>, progressLog0: seq<Message>)
      reads this
    {
      && requests == requests0 + run.requests
      && progressLog == progressLog0 + run.progress
      && loading == run.pollIds.Some?
      && polling == run.pollIds.Some?
      && (run.pollIds.Some? ==> pollIds == run.pollIds.value)
    }

    /** `handleProcess`, up to registering the interval. The button is
        disabled while `loading`, so it only runs when `loading` is false. */
    method HandleProcess(replies: Replies)
      requires Valid() && !loading
      modifies this`loading, this`progress, this`polling, this`pollIds, this`requests, this`progressLog, this`alerts
      ensures Valid()
      ensures var run := Submission(userId, files, prompt, height, replies);
        && Performed(run, old(requests), old(progressLog))
        && alerts == old(alerts) + (if run.alert.Some? then [run.alert.value] else [])
      ensures userId == "" || |files| < 2 ==> progress == old(progress)
    {
      if userId == "" {
        alerts := alerts + [NoUserIdAlert];
        return;
      }
      if |files| < MinFiles {
        alerts := alerts + [TooFewFilesAlert];
        return;
      }
      Submit(replies);
      FromOutcome(AwaitGroup, userId, files, prompt, height, replies);
    }

    /** The `try` block of `handleProcess`, once the inputs are accepted. */
    method Submit(replies: Replies)
      requires Valid() && !loading && !polling
      modifies this`loading, this`progress, this`polling, this`pollIds, this`requests, this`progressLog
      ensures Valid()
      ensures Performed(From(AwaitGroup, userId, files, prompt, height, replies),
                        old(requests) + [CreateGroup(userId)], old(progressLog) + [CreatingGroup])
    {
      loading := true;
      SetProgress(CreatingGroup);
      requests := requests + [CreateGroup(userId)];
      CreateGroupReplied(replies);
    }

    /** The `catch` block of `handleProcess`. */
    method Fail()
      requires Valid() && loading && !polling
      modifies this`progress, this`progressLog, this`loading
      ensures Valid() && Performed(Retry, old(requests), old(progressLog))
    {
      SetProgress(RetryMessage);
      loading := false;
    }

    /** The group request has settled. */
    method CreateGroupReplied(replies: Replies)
      requires Valid() && loading && !polling
      modifies this`loading, this`progress, this`polling, this`pollIds, this`requests, this`progressLog
      ensures Valid() && Performed(From(AwaitGroup, userId, files, prompt, height, replies), old(requests), old(progressLog))
    {
      if replies.createGroup.Thrown? {
        Fail();
        return;
      }
      var groupId := replies.createGroup.value;
      ghost var request := GenerateUploadUrls(userId, Filenames(files));
      SetProgress(GroupCreated(groupId));
      requests := requests + [request];
      UploadUrlsReplied(groupId, replies);
      ghost var next := From(AwaitUploadUrls(groupId), userId, files, prompt, height, replies);
      assert From(AwaitGroup, userId, files, prompt, height, replies) == Then([request], [GroupCreated(groupId)], next);
    }

    /** The upload-slot request has settled. */
    method UploadUrlsReplied(groupId: string, replies: Replies)
      requires Valid() && loading && !polling
      modifies this`loading, this`progress, this`polling, this`pollIds, this`requests, this`progressLog
      ensures Valid() && Performed(From(AwaitUploadUrls(groupId), userId, files, prompt, height, replies), old(requests), old(progressLog))
    {
      if replies.uploadUrls.Thrown? || replies.uploadUrls.value.None? {
        Fail();
        return;
      }
      var uploads := replies.uploadUrls.value.value;
      SetProgress(UploadingImages);
      var rejected := IssueUploads(uploads, replies.rejectedPuts);
      UploadsJoined(groupId, uploads, rejected, replies);
    }

    /** The uploads have been joined; `rejected` says whether the join
        rejected. */
    method UploadsJoined(groupId: string, uploads: seq<Slot>, rejected: bool, replies: Replies)
      requires Valid() && loading && !polling
      requires rejected == UploadRejects(uploads, files, replies.rejectedPuts)
      modifies this`loading, this`progress, this`polling, this`pollIds, this`requests, this`progressLog
      ensures Valid() && Performed(From(AwaitUploads(groupId, uploads), userId, files, prompt, height, replies), old(requests), old(progressLog))
    {
      if rejected {
        Fail();
        return;
      }
      SetProgress(FinalizingUploads);
      requests := requests + [UploadsComplete(BlobPaths(uploads), userId, groupId)];
      FinalizeReplied(groupId, replies);
    }

    /** The finalize request has settled. */
    method FinalizeReplied(groupId: string, replies: Replies)
      requires Valid() && loading && !polling
      modifies this`loading, this`progress, this`polling, this`pollIds, this`requests, this`progressLog
      ensures Valid() && Performed(From(AwaitFinalize(groupId), userId, files, prompt, height, replies), old(requests), old(progressLog))
    {
      if replies.finalize.Thrown? {
        Fail();
        return;
      }
      SetProgress(StartingProcessing);
      requests := requests + [StartProcessing(groupId, prompt, Mode, GenerationCount, [height])];
      StartProcessingReplied(replies);
    }

    /** The processing request has settled: polling starts on its request
        ids, or the `catch` block runs when there are none. */
    method StartProcessingReplied(replies: Replies)
      requires Valid() && loading && !polling
      modifies this`loading, this`progress, this`polling, this`pollIds, this`progressLog
      ensures Valid() && Performed(From(AwaitStartProcessing, userId, files, prompt, height, replies), old(requests), old(progressLog))
    {
      if replies.startProcessing.Thrown? || replies.startProcessing.value.None? || |replies.startProcessing.value.value| == 0 {
        Fail();
        return;
      }
      SetProgress(ProcessingImages);
      polling, pollIds := true, replies.startProcessing.value.value;
    }

    /** One tick of the interval: a status request and its handling. */
    method PollTick(reply: PollReply)
      requires Valid() && polling
      modifies this`polling, this`outputImages, this`progress, this`loading, this`requests, this`progressLog
      ensures Valid()
      ensures requests == old(requests) + [PollStatus(pollIds)]
      ensures polling <==> !Terminal(reply)
      ensures !Terminal(reply) ==>
        outputImages == old(outputImages) && progressLog == old(progressLog) && loading
      ensures reply.StatusReply? && reply.status == "done" && reply.outputs.Some? ==>
        outputImages == DoneUrls(reply.outputs.value) && !loading &&
        progressLog == old(progressLog) + [ProcessingComplete]
      ensures reply == StatusReply("done", None) ==>
        outputImages == old(outputImages) && progressLog == old(progressLog) && loading
      ensures reply.StatusReply? && reply.status == "error" ==>
        outputImages == old(outputImages) && !loading &&
        progressLog == old(progressLog) + [ProcessingError]
    {
      requests := requests + [PollStatus(pollIds)];
      match reply {
        case PollRejected =>
          // The `catch` inside the callback only logs.
        case StatusReply(status, outputs) =>
          if status == "done" {
            polling := false;
            // `outputs.filter` on a missing `outputs` throws after the
            // interval was cleared; the `catch` only logs.
            if outputs.Some? {
              outputImages := DoneUrls(outputs.value);
              SetProgress(ProcessingComplete);
              loading := false;
            }
          } else if status == "error" {
            polling := false;
            SetProgress(ProcessingError);
            loading := false;
          }
      }
    }

    /** The interval driven by a sequence of replies: it ticks until a
        terminal reply clears it or the replies run out. */
    method RunInterval(ticks: seq<PollReply>) returns (used: nat)
      requires Valid() && polling
      modifies this`polling, this`outputImages, this`progress, this`loading, this`requests, this`progressLog
      ensures Valid()
      ensures used == TicksUntilStop(ticks)
      ensures requests == old(requests) + Polls(pollIds, used)
      ensures polling <==> forall k :: 0 <= k < |ticks| ==> !Terminal(ticks[k])
      ensures polling ==> outputImages == old(outputImages) && progressLog == old(progressLog) && loading
      ensures !polling ==> used > 0 && Terminal(ticks[used - 1])
      ensures !polling && ticks[used - 1].status == "done" && ticks[used - 1].outputs.Some? ==>
        outputImages == DoneUrls(ticks[used - 1].outputs.value) && !loading &&
        progressLog == old(progressLog) + [ProcessingComplete]
      ensures !polling && ticks[used - 1] == StatusReply("done", None) ==>
        outputImages == old(outputImages) && progressLog == old(progressLog) && loading
      ensures !polling && ticks[used - 1].status == "error" ==>
        outputImages == old(outputImages) && !loading &&
        progressLog == old(progressLog) + [ProcessingError]
    {
      used := 0;
      while polling && used < |ticks|
        invariant Valid() && used <= |ticks|
        invariant pollIds == old(pollIds)
        invariant requests == old(requests) + Polls(pollIds, used)
        invariant polling <==> forall k :: 0 <= k < used ==> !Terminal(ticks[k])
        invariant forall k :: 0 <= k < used - 1 ==> !Terminal(ticks[k])
        invariant polling ==> outputImages == old(outputImages) && progressLog == old(progressLog) && loading
        invariant !polling ==> used > 0 && Terminal(ticks[used - 1])
        invariant !polling && ticks[used - 1].status == "done" && ticks[used - 1].outputs.Some? ==>
          outputImages == DoneUrls(ticks[used - 1].outputs.value) && !loading &&
          progressLog == old(progressLog) + [ProcessingComplete]
        invariant !polling && ticks[used - 1] == StatusReply("done", None) ==>
          outputImages == old(outputImages) && progressLog == old(progressLog) && loading
        invariant !polling && ticks[used - 1].status == "error" ==>
          outputImages == old(outputImages) && !loading &&
          progressLog == old(progressLog) + [ProcessingError]
      {
        PollTick(ticks[used]);
        used := used + 1;
      }
      TicksUntilStopIsFirstTerminal(ticks, used);
    }
  }

  /** A count of ticks that ran with no terminal reply before its last
      one, and that ended on a terminal reply or used every reply, is
      `TicksUntilStop`. */
  lemma {:induction false} TicksUntilStopIsFirstTerminal(ticks: seq<PollReply>, n: nat)
    requires n <= |ticks|
    requires forall k :: 0 <= k < n - 1 ==> !Terminal(ticks[k])
    requires n == |ticks| || (n > 0 && Terminal(ticks[n - 1]))
    ensures n == TicksUntilStop(ticks)
  {
    if n > 1 {
      assert !Terminal(ticks[0]);
      assert forall k :: 0 <= k < n - 2 ==> ticks[1..][k] == ticks[k + 1];
      TicksUntilStopIsFirstTerminal(ticks[1..], n - 1);
    }
  }
}
