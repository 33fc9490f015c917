/**
 * The generation workflow: a credit-gated image phase that creates a
 * project, a credit-gated video phase that animates its image through a
 * polled long-running job, and owner-checked deletion.  Every external
 * service (blob store, image model, video model, file download) is an input
 * value standing for what that service hands back.
 */
module ProjectController {
  import opened Schema
  import opened DailyCredits

  const IMAGE_COST := 5
  const VIDEO_COST := 10

  const MSG_TOO_FEW_IMAGES := "please upload at least 2 images"
  const MSG_UNEXPECTED_RESPONSE := "Unexpected response"
  const MSG_NO_INLINE_DATA := "Failed to generate image - no inlineData returned"
  const MSG_BUSY_OR_MISSING := "Generation in progress or project not found"
  const MSG_VIDEO_EXISTS := "Video already generated"
  const MSG_NO_IMAGE := "Generated image not found"
  const MSG_VIDEO_FAILED := "Video generation failed"
  const MSG_NO_OUTPUT := "Video generation failed - no output"
  const MSG_NOT_FOUND := "Project not found "
  const MSG_NO_CREDITS := "Not enough credits or daily limit reached"

  /** What a handler sends back: 200 with a body, 400, 401, 404 or 500. */
  datatype Body = ProjectCreated(projectId: ProjectId) | VideoCompleted(videoUrl: Url) | ProjectDeleted
  datatype Reply =
    | Ok(body: Body)
    | BadRequest(message: string)
    | NoCredits(message: string)
    | NotFound(message: string)
    | Failed(message: string)

  // ---------------------------------------------------------------------
  // Stand-ins for the external services

  /** What the blob store answers to one upload. */
  datatype Upload = Stored(secureUrl: Url) | UploadFailed(message: string)

  /** One uploaded request file. */
  datatype SourceFile = SourceFile(path: string, mimeType: string)

  datatype InlineData = InlineData(data: string, mimeType: string)
  /** One part of the image model's first candidate. */
  datatype Part = Part(inlineData: Option<InlineData>)
  /** The image model either throws, or answers with a candidate whose parts
      list may be missing. */
  datatype ComposeReply = ComposeThrew(message: string) | Composed(parts: Option<seq<Part>>)

  /** The image request's form fields and files. */
  datatype ImageRequest = ImageRequest(
    name: Option<string>,
    productName: Option<string>,
    productDescription: Option<string>,
    userPrompt: Option<string>,
    aspectRatio: Option<string>,
    images: seq<SourceFile>)

  /** Outcomes of the image phase's store writes and model call; None is success. */
  datatype ImageServices = ImageServices(
    createError: Option<string>,
    compose: ComposeReply,
    saveError: Option<string>)

  type VideoFile = string
  /** One view of the video job: still running, finished (with an error or
      with the produced videos), or the call producing it threw. */
  datatype Poll = Pending | Done(error: Option<string>, videos: seq<VideoFile>) | PollThrew(message: string)

  /** Outcomes of the video phase's steps.  `initial` is what starting the job
      returns, `polls` what the successive status queries return,
      `tempPath` the temporary file the video is downloaded to, and
      `unlinkError` the outcome of removing that file after the save. */
  datatype VideoServices = VideoServices(
    markError: Option<string>,
    fetchError: Option<string>,
    initial: Poll,
    polls: seq<Poll>,
    downloadError: Option<string>,
    tempPath: string,
    saveError: Option<string>,
    unlinkError: Option<string>)

  /** How the external part of a phase ends: with the stored output URL, or
      with the message of the first failing step. */
  datatype Run = Succeeded(url: Url) | Aborted(message: string)

  // ---------------------------------------------------------------------
  // The credit ledger

  function Debit(u: User, cost: int): (r: User)
    ensures r.profile == u.profile && r.lastCreditReset == u.lastCreditReset
  {
    u.(credits := u.credits - cost, dailyCredits := u.dailyCredits - cost)
  }

  function Refund(u: User, cost: int): (r: User)
    ensures r.profile == u.profile && r.lastCreditReset == u.lastCreditReset
    ensures Debit(r, cost) == u
  {
    u.(credits := u.credits + cost, dailyCredits := u.dailyCredits + cost)
  }

  /** The compensation both phases run when a step after the debit fails:
      the project, if it was created, stops generating and records the
      message, and the phase's cost goes back onto both balances. */
  method RecordFailure(db: Db, uid: UserId, pid: ProjectId, created: bool, message: string, cost: int)
    requires uid in db.users
    requires created ==> pid in db.projects
    modifies db`users, db`projects
    ensures db.users == old(db.users)[uid := Refund(old(db.users)[uid], cost)]
    ensures db.projects == if created then old(db.projects)[pid := old(db.projects)[pid].(isGenerating := false, error := Some(message))]
                           else old(db.projects)
  {
    if created {
      db.projects := db.projects[pid := db.projects[pid].(isGenerating := false, error := Some(message))];
    }
    db.users := db.users[uid := Refund(db.users[uid], cost)];
  }

  /** A phase that ends by rewriting one user and one project row keeps the
      store's invariants, given that both rows satisfy them. */
  lemma KeepInvariants(db: Db, uid: UserId, pid: ProjectId, users: map<UserId, User>,
                       projects: map<ProjectId, Project>, oldNext: ProjectId)
    requires ValidProjects(projects, oldNext) && oldNext <= db.nextProjectId && pid < db.nextProjectId
    requires uid in db.users && pid in db.projects
    requires db.users == users[uid := db.users[uid]] && db.projects == projects[pid := db.projects[pid]]
    requires VideoNeedsImage(db.projects[pid]) && !db.projects[pid].isGenerating && SolventUser(db.users[uid])
    ensures db.Valid()
    ensures IdleProjects(projects) ==> db.Idle()
    ensures SolventUsers(users) ==> db.Solvent()
  {
    StoreProjectKeeps(projects, oldNext, db.nextProjectId, pid, db.projects[pid]);
    StoreUserKeeps(users, uid, db.users[uid]);
  }

  /** The user exists and, after the daily reset, both balances cover `cost`. */
  predicate PassesCreditGate(users: map<UserId, User>, uid: UserId, now: Instant, cost: int) {
    uid in users &&
    var u := ResetIfNewDay(users[uid], now);
    u.credits >= cost && u.dailyCredits >= cost
  }

  /** A refund of the phase's own cost undoes its debit exactly, so a failed
      phase leaves both balances where the gate found them. */
  lemma RefundRestoresBalances(u: User, cost: int)
    ensures Refund(Debit(u, cost), cost) == u
    ensures Debit(u, cost).credits == u.credits - cost && Debit(u, cost).dailyCredits == u.dailyCredits - cost
  {
  }

  /** A debit allowed by the gate leaves both balances non-negative. */
  lemma GatedDebitStaysSolvent(users: map<UserId, User>, uid: UserId, now: Instant, cost: int)
    requires PassesCreditGate(users, uid, now, cost)
    ensures Debit(ResetIfNewDay(users[uid], now), cost).credits >= 0
    ensures Debit(ResetIfNewDay(users[uid], now), cost).dailyCredits >= 0
  {
  }

  // ---------------------------------------------------------------------
  // Image phase: uploads and part selection

  datatype Uploads = AllStored(urls: seq<Url>) | SomeFailed(message: string)

  /** Uploads every source file; fails with the first failing file's message. */
  function UploadAll(files: seq<SourceFile>, cdn: string -> Upload): (r: Uploads)
    ensures r.AllStored? <==> forall i :: 0 <= i < |files| ==> cdn(files[i].path).Stored?
    ensures r.AllStored? ==>
              |r.urls| == |files| && forall i :: 0 <= i < |files| ==> r.urls[i] == cdn(files[i].path).secureUrl
    ensures r.SomeFailed? ==>
              exists i :: 0 <= i < |files| && cdn(files[i].path) == UploadFailed(r.message)
  {
    if files == [] then AllStored([])
    else
      match cdn(files[0].path)
      case UploadFailed(m) => SomeFailed(m)
      case Stored(u) =>
        match UploadAll(files[1..], cdn)
        case SomeFailed(m) => SomeFailed(m)
        case AllStored(us) => AllStored([u] + us)
  }

  /** A part carries an image when its inline data is present and non-empty. */
  predicate CarriesImage(p: Part) {
    p.inlineData.Some? && p.inlineData.value.data != ""
  }

  /** The index of the first part at or after `i` that carries an image, or
      |parts| when none does. */
  function FirstCarrierFrom(parts: seq<Part>, i: nat): (k: nat)
    requires i <= |parts|
    ensures i <= k <= |parts|
    ensures forall j :: i <= j < k ==> !CarriesImage(parts[j])
    ensures k < |parts| ==> CarriesImage(parts[k])
    decreases |parts| - i
  {
    if i == |parts| then i
    else if CarriesImage(parts[i]) then i
    else FirstCarrierFrom(parts, i + 1)
  }

  /** The image payload the phase keeps: that of the first carrying part. */
  function SelectImage(parts: seq<Part>): (r: Option<string>)
    ensures r.None? <==> forall j :: 0 <= j < |parts| ==> !CarriesImage(parts[j])
    ensures r.Some? ==>
              exists k :: 0 <= k < |parts| && CarriesImage(parts[k]) && parts[k].inlineData.value.data == r.value &&
                          forall j :: 0 <= j < k ==> !CarriesImage(parts[j])
  {
    var k := FirstCarrierFrom(parts, 0);
    if k < |parts| then Some(parts[k].inlineData.value.data) else None
  }

  /** The scan over the response parts that stops at the first one with data. */
  method FirstInlinePart(parts: seq<Part>) returns (found: Option<string>)
    ensures found == SelectImage(parts)
  {
    found := None;
    for i := 0 to |parts|
      invariant found == None
      invariant forall j :: 0 <= j < i ==> !CarriesImage(parts[j])
    {
      if CarriesImage(parts[i]) {
        found := Some(parts[i].inlineData.value.data);
        assert FirstCarrierFrom(parts, 0) == i;
        return;
      }
    }
  }

  /** The data URI the chosen payload is uploaded as (the payload is already base64). */
  function DataUri(payload: string): string {
    "data:image/png;base64," + payload
  }

  /** The URLs the source uploads produced; empty when one of them failed. */
  function UploadedUrls(files: seq<SourceFile>, cdn: string -> Upload): seq<Url> {
    match UploadAll(files, cdn)
    case AllStored(urls) => urls
    case SomeFailed(_) => []
  }

  /** The request passes validation: two or more files and a product name. */
  predicate ValidImageRequest(req: ImageRequest) {
    |req.images| >= 2 && Truthy(req.productName)
  }

  /** The project row is created once the source uploads succeed and the
      create itself does not fail. */
  predicate ProjectCreatedIn(req: ImageRequest, svc: ImageServices, cdn: string -> Upload) {
    UploadAll(req.images, cdn).AllStored? && svc.createError.None?
  }

  /** How the steps after the debit end: source uploads, project creation,
      the model call, part selection, result upload and the final save. */
  function ImageRun(req: ImageRequest, svc: ImageServices, cdn: string -> Upload): Run {
    match UploadAll(req.images, cdn)
    case SomeFailed(m) => Aborted(m)
    case AllStored(_) =>
      if svc.createError.Some? then Aborted(svc.createError.value)
      else
        match svc.compose
        case ComposeThrew(m) => Aborted(m)
        case Composed(None) => Aborted(MSG_UNEXPECTED_RESPONSE)
        case Composed(Some(parts)) =>
          match SelectImage(parts)
          case None => Aborted(MSG_NO_INLINE_DATA)
          case Some(payload) =>
            match cdn(DataUri(payload))
            case UploadFailed(m) => Aborted(m)
            case Stored(url) =>
              if svc.saveError.Some? then Aborted(svc.saveError.value) else Succeeded(url)
  }

  /** The row the image phase inserts, before the model is called. */
  function NewProject(uid: UserId, req: ImageRequest, urls: seq<Url>): (r: Project)
    requires req.productName.Some?
    ensures r.owner == uid && r.uploadedImages == urls && r.isGenerating && !r.isPublished
    ensures r.generatedImage.None? && r.generatedVideo.None? && r.error.None? && VideoNeedsImage(r)
  {
    Project(
      owner := uid,
      name := if req.name.Some? then req.name.value else "New Project",
      productName := req.productName.value,
      productDescription := req.productDescription,
      userPrompt := req.userPrompt,
      aspectRatio := req.aspectRatio,
      uploadedImages := urls,
      generatedImage := None,
      generatedVideo := None,
      isGenerating := true,
      isPublished := false,
      error := None)
  }

  /** A response whose parts carry no image data fails the phase with the
      "no inlineData" message, after the project row exists. */
  lemma NoInlineDataFailsImagePhase(req: ImageRequest, svc: ImageServices, cdn: string -> Upload, parts: seq<Part>)
    requires ProjectCreatedIn(req, svc, cdn)
    requires svc.compose == Composed(Some(parts))
    requires forall j :: 0 <= j < |parts| ==> !CarriesImage(parts[j])
    ensures ImageRun(req, svc, cdn) == Aborted(MSG_NO_INLINE_DATA)
  {
  }

  /** The image phase succeeds exactly when every step succeeds, and then
      stores the URL of the first carrying part's upload. */
  lemma ImageRunSucceedsIff(req: ImageRequest, svc: ImageServices, cdn: string -> Upload)
    ensures ImageRun(req, svc, cdn).Succeeded? <==>
              && ProjectCreatedIn(req, svc, cdn)
              && svc.compose.Composed? && svc.compose.parts.Some?
              && SelectImage(svc.compose.parts.value).Some?
              && cdn(DataUri(SelectImage(svc.compose.parts.value).value)).Stored?
              && svc.saveError.None?
    ensures ImageRun(req, svc, cdn).Succeeded? ==>
              ImageRun(req, svc, cdn).url == cdn(DataUri(SelectImage(svc.compose.parts.value).value)).secureUrl
    ensures !ProjectCreatedIn(req, svc, cdn) ==> ImageRun(req, svc, cdn).Aborted?
  {
  }

  // ---------------------------------------------------------------------
  // Image phase

  /** The steps of the image phase that follow the debit, up to the point
      where the source would throw: reports the failure message, if any, and
      whether the project row was created. */
  method ImageSteps(db: Db, uid: UserId, req: ImageRequest, svc: ImageServices, cdn: string -> Upload)
    returns (error: Option<string>, created: bool)
    requires db.Valid()
    requires req.productName.Some?
    modifies db`projects, db`nextProjectId
    ensures var run := ImageRun(req, svc, cdn);
            var id := old(db.nextProjectId);
            var row := NewProject(uid, req, UploadedUrls(req.images, cdn));
            && created == ProjectCreatedIn(req, svc, cdn)
            && error == (if run.Aborted? then Some(run.message) else None)
            && db.nextProjectId == (if created then id + 1 else id)
            && db.projects == if !created then old(db.projects)
                              else if run.Succeeded? then old(db.projects)[id := row.(generatedImage := Some(run.url), isGenerating := false)]
                              else old(db.projects)[id := row]
  {
    var id := db.nextProjectId;
    var uploaded := UploadAll(req.images, cdn);
    if uploaded.SomeFailed? {
      return Some(uploaded.message), false;
    }
    if svc.createError.Some? {
      return svc.createError, false;
    }
    db.projects := db.projects[id := NewProject(uid, req, uploaded.urls)];
    db.nextProjectId := id + 1;
    created := true;
    match svc.compose {
      case ComposeThrew(m) =>
        return Some(m), true;
      case Composed(None) =>
        return Some(MSG_UNEXPECTED_RESPONSE), true;
      case Composed(Some(parts)) =>
        var finalBuffer := FirstInlinePart(parts);
        if finalBuffer.None? {
          return Some(MSG_NO_INLINE_DATA), true;
        }
        match cdn(DataUri(finalBuffer.value)) {
          case UploadFailed(m) =>
            return Some(m), true;
          case Stored(url) =>
            if svc.saveError.Some? {
              return svc.saveError, true;
            }
            db.projects := db.projects[id := db.projects[id].(generatedImage := Some(url), isGenerating := false)];
            return None, true;
        }
    }
  }

  /** The image phase from the debit on, for a caller the gate admitted:
      debits, runs the steps, and on failure marks the project failed (when
      it exists) and refunds. */
  method DebitAndGenerateImage(db: Db, uid: UserId, req: ImageRequest, svc: ImageServices, cdn: string -> Upload)
    returns (reply: Reply)
    requires db.Valid()
    requires req.productName.Some?
    requires uid in db.users && db.users[uid].credits >= IMAGE_COST && db.users[uid].dailyCredits >= IMAGE_COST
    modifies db
    ensures db.Valid()
    ensures old(db.Idle()) ==> db.Idle()
    ensures old(db.Solvent()) ==> db.Solvent()
    ensures var pre := old(db.users)[uid];
            var run := ImageRun(req, svc, cdn);
            var id := old(db.nextProjectId);
            var created := ProjectCreatedIn(req, svc, cdn);
            var row := NewProject(uid, req, UploadedUrls(req.images, cdn));
            && db.nextProjectId == (if created then id + 1 else id)
            && (run.Succeeded? ==>
                  && reply == Ok(ProjectCreated(id))
                  && db.users == old(db.users)[uid := Debit(pre, IMAGE_COST)]
                  && db.projects == old(db.projects)[id := row.(generatedImage := Some(run.url), isGenerating := false)])
            && (run.Aborted? ==>
                  && reply == Failed(run.message)
                  && db.users == old(db.users)[uid := pre]
                  && db.projects == if created then old(db.projects)[id := row.(isGenerating := false, error := Some(run.message))]
                                    else old(db.projects))
  {
    // the debit is modelled as always succeeding, so a failure always refunds
    db.users := db.users[uid := Debit(db.users[uid], IMAGE_COST)];

    var id := db.nextProjectId;
    var error, created := ImageSteps(db, uid, req, svc, cdn);
    if error.None? {
      KeepInvariants(db, uid, id, old(db.users), old(db.projects), old(db.nextProjectId));
      return Ok(ProjectCreated(id));
    }
    RecordFailure(db, uid, id, created, error.value, IMAGE_COST);
    RefundRestoresBalances(old(db.users)[uid], IMAGE_COST);
    if created {
      KeepInvariants(db, uid, id, old(db.users), old(db.projects), old(db.nextProjectId));
    } else {
      StoreUserKeeps(old(db.users), uid, db.users[uid]);
    }
    reply := Failed(error.value);
  }

  /** Validates the request, passes the credit gate, debits, creates the
      project, asks the model for a composite, keeps the first part with image
      data and stores it; on any failure after the debit, marks the project
      failed (when it exists) and refunds. */
  method CreateProject(db: Db, uid: UserId, req: ImageRequest, svc: ImageServices, cdn: string -> Upload, now: Instant)
    returns (reply: Reply)
    requires db.Valid()
    modifies db
    ensures db.Valid()
    ensures old(db.Idle()) ==> db.Idle()
    ensures old(db.Solvent()) ==> db.Solvent()
    // too few files or no product name: refused before anything is touched
    ensures !ValidImageRequest(req) ==>
              reply == BadRequest(MSG_TOO_FEW_IMAGES) &&
              db.users == old(db.users) && db.projects == old(db.projects) && db.nextProjectId == old(db.nextProjectId)
    // unknown user or a balance below the cost: no debit and no project
    ensures ValidImageRequest(req) && !PassesCreditGate(old(db.users), uid, now, IMAGE_COST) ==>
              reply == NoCredits(MSG_NO_CREDITS) &&
              db.users == ResetStored(old(db.users), uid, now) &&
              db.projects == old(db.projects) && db.nextProjectId == old(db.nextProjectId)
    // past the gate: debited once, refunded on failure, project settled
    ensures ValidImageRequest(req) && PassesCreditGate(old(db.users), uid, now, IMAGE_COST) ==>
              var pre := ResetIfNewDay(old(db.users)[uid], now);
              var run := ImageRun(req, svc, cdn);
              var id := old(db.nextProjectId);
              var created := ProjectCreatedIn(req, svc, cdn);
              var row := NewProject(uid, req, UploadedUrls(req.images, cdn));
              && db.nextProjectId == (if created then id + 1 else id)
              && (run.Succeeded? ==>
                    && reply == Ok(ProjectCreated(id))
                    && db.users == old(db.users)[uid := Debit(pre, IMAGE_COST)]
                    && db.projects == old(db.projects)[id := row.(generatedImage := Some(run.url), isGenerating := false)])
              && (run.Aborted? ==>
                    && reply == Failed(run.message)
                    && db.users == old(db.users)[uid := pre]
                    && db.projects == if created then old(db.projects)[id := row.(isGenerating := false, error := Some(run.message))]
                                      else old(db.projects))
  {
    if |req.images| < 2 || !Truthy(req.productName) {
      return BadRequest(MSG_TOO_FEW_IMAGES);
    }

    var user := CheckAndResetDailyCredits(db, uid, now);
    if user.Some? {
      StoreUserKeeps(old(db.users), uid, user.value);
    }
    if user.None? || user.value.credits < IMAGE_COST || user.value.dailyCredits < IMAGE_COST {
      return NoCredits(MSG_NO_CREDITS);
    }
    reply := DebitAndGenerateImage(db, uid, req, svc, cdn);
  }

  // ---------------------------------------------------------------------
  // Video phase: polling

  /** The job has stopped: it finished or a call threw. */
  predicate Settled(p: Poll) {
    !p.Pending?
  }

  /** The job eventually stops: the start already did, or some poll does. */
  predicate Settles(initial: Poll, polls: seq<Poll>) {
    Settled(initial) || exists j :: 0 <= j < |polls| && Settled(polls[j])
  }

  /** The index of the first settled poll at or after `i`. */
  function FirstSettledFrom(polls: seq<Poll>, i: nat): (k: nat)
    requires i <= |polls|
    requires exists j :: i <= j < |polls| && Settled(polls[j])
    ensures i <= k < |polls| && Settled(polls[k])
    ensures forall j :: i <= j < k ==> polls[j].Pending?
    decreases |polls| - i
  {
    if Settled(polls[i]) then i else FirstSettledFrom(polls, i + 1)
  }

  /** How many status queries the loop makes: none when the job started
      settled, otherwise one per poll up to and including the first settled one. */
  function PollCount(initial: Poll, polls: seq<Poll>): (n: nat)
    requires Settles(initial, polls)
    ensures n <= |polls|
  {
    if Settled(initial) then 0 else FirstSettledFrom(polls, 0) + 1
  }

  /** The operation the loop ends with. */
  function FinalOperation(initial: Poll, polls: seq<Poll>): (op: Poll)
    requires Settles(initial, polls)
    ensures Settled(op)
  {
    var n := PollCount(initial, polls);
    if n == 0 then initial else polls[n - 1]
  }

  /** Re-queries the job until it reports done. */
  method AwaitOperation(initial: Poll, polls: seq<Poll>) returns (operation: Poll, count: nat)
    requires Settles(initial, polls)
    ensures count == PollCount(initial, polls)
    ensures operation == FinalOperation(initial, polls)
  {
    operation := initial;
    count := 0;
    while operation.Pending?
      invariant count <= |polls|
      invariant count == 0 ==> operation == initial
      invariant count > 0 ==> operation == polls[count - 1] && initial.Pending?
      invariant forall j :: 0 <= j < count - 1 ==> polls[j].Pending?
      decreases |polls| - count
    {
      operation := polls[count];
      count := count + 1;
    }
    if count > 0 {
      assert FirstSettledFrom(polls, 0) == count - 1;
    }
  }

  /** A job that starts pending and then answers `k` pending polls before a
      settled one is queried exactly k + 1 times and ends with that answer. */
  lemma {:induction false} PollsKPlusOne(initial: Poll, polls: seq<Poll>, k: nat)
    requires initial.Pending?
    requires k < |polls| && Settled(polls[k])
    requires forall j :: 0 <= j < k ==> polls[j].Pending?
    ensures Settles(initial, polls)
    ensures PollCount(initial, polls) == k + 1
    ensures FinalOperation(initial, polls) == polls[k]
  {
  }

  /** The message a settled operation fails the phase with, or None when it
      produced at least one video. */
  function JobFailure(op: Poll): (r: Option<string>)
    requires Settled(op)
    ensures r.None? <==> op.Done? && op.error.None? && op.videos != []
  {
    match op
    case PollThrew(m) => Some(m)
    case Done(Some(e), _) => Some(if e != "" then e else MSG_VIDEO_FAILED)
    case Done(None, videos) => if videos == [] then Some(MSG_NO_OUTPUT) else None
  }

  /** How the steps after the debit end: marking the project, fetching the
      image, the job and its polls, the download, the upload, the save and
      the removal of the temporary file. */
  function VideoRun(svc: VideoServices, cdn: string -> Upload): Run
    requires Settles(svc.initial, svc.polls)
  {
    if svc.markError.Some? then Aborted(svc.markError.value)
    else if svc.fetchError.Some? then Aborted(svc.fetchError.value)
    else
      var failure := JobFailure(FinalOperation(svc.initial, svc.polls));
      if failure.Some? then Aborted(failure.value)
      else if svc.downloadError.Some? then Aborted(svc.downloadError.value)
      else
        match cdn(svc.tempPath)
        case UploadFailed(m) => Aborted(m)
        case Stored(url) =>
          if svc.saveError.Some? then Aborted(svc.saveError.value)
          else if svc.unlinkError.Some? then Aborted(svc.unlinkError.value)
          else Succeeded(url)
  }

  /** The project with the saved video, if any, written onto it. */
  function StoredOrKept(p: Project, video: Option<Url>): Project {
    if video.Some? then p.(generatedVideo := video) else p
  }

  /** The video URL the final save writes onto the project, when every step
      up to and including that save succeeds. */
  function StoredVideo(svc: VideoServices, cdn: string -> Upload): Option<Url>
    requires Settles(svc.initial, svc.polls)
  {
    if svc.markError.Some? || svc.fetchError.Some? || svc.downloadError.Some? then None
    else if JobFailure(FinalOperation(svc.initial, svc.polls)).Some? then None
    else
      match cdn(svc.tempPath)
      case UploadFailed(_) => None
      case Stored(url) => if svc.saveError.Some? then None else Some(url)
  }

  /** Once the video is saved, only the removal of the temporary file decides
      the outcome: when it fails, the phase aborts with its message although
      the project already holds the video; a run that stores nothing aborts. */
  lemma StoredVideoDecidesRun(svc: VideoServices, cdn: string -> Upload)
    requires Settles(svc.initial, svc.polls)
    ensures StoredVideo(svc, cdn).None? ==> VideoRun(svc, cdn).Aborted?
    ensures StoredVideo(svc, cdn).Some? && svc.unlinkError.None? ==>
              VideoRun(svc, cdn) == Succeeded(StoredVideo(svc, cdn).value)
    ensures StoredVideo(svc, cdn).Some? && svc.unlinkError.Some? ==>
              VideoRun(svc, cdn) == Aborted(svc.unlinkError.value)
  {
  }

  /** The job's error, or a finished job with no videos, fails the phase
      with the job's message or the "no output" message. */
  lemma JobFailuresAbortVideoPhase(svc: VideoServices, cdn: string -> Upload)
    requires Settles(svc.initial, svc.polls)
    requires svc.markError.None? && svc.fetchError.None?
    ensures var op := FinalOperation(svc.initial, svc.polls);
            && (op.Done? && op.error.Some? && op.error.value != "" ==> VideoRun(svc, cdn) == Aborted(op.error.value))
            && (op.Done? && op.error == Some("") ==> VideoRun(svc, cdn) == Aborted(MSG_VIDEO_FAILED))
            && (op.Done? && op.error.None? && op.videos == [] ==> VideoRun(svc, cdn) == Aborted(MSG_NO_OUTPUT))
            && (op.PollThrew? ==> VideoRun(svc, cdn) == Aborted(op.message))
  {
  }

  /** The video phase succeeds exactly when every step succeeds and the
      job finishes without an error and with at least one video; it then
      stores the URL the blob store gave for the downloaded file. */
  lemma VideoRunSucceedsIff(svc: VideoServices, cdn: string -> Upload)
    requires Settles(svc.initial, svc.polls)
    ensures var op := FinalOperation(svc.initial, svc.polls);
            VideoRun(svc, cdn).Succeeded? <==>
              && svc.markError.None? && svc.fetchError.None?
              && op.Done? && op.error.None? && op.videos != []
              && svc.downloadError.None? && cdn(svc.tempPath).Stored? && svc.saveError.None?
              && svc.unlinkError.None?
    ensures VideoRun(svc, cdn).Succeeded? ==> VideoRun(svc, cdn).url == cdn(svc.tempPath).secureUrl
  {
  }

  /** Why the video phase refuses a project, checked in the source's order;
      None when it may go ahead. */
  function VideoRejection(projects: map<ProjectId, Project>, uid: UserId, pid: ProjectId): (r: Option<Reply>)
    ensures r.Some? ==> r.value.NotFound? || r.value.BadRequest?
  {
    if pid !in projects || projects[pid].owner != uid || projects[pid].isGenerating then Some(NotFound(MSG_BUSY_OR_MISSING))
    else if Truthy(projects[pid].generatedVideo) then Some(BadRequest(MSG_VIDEO_EXISTS))
    else if !Truthy(projects[pid].generatedImage) then Some(BadRequest(MSG_NO_IMAGE))
    else None
  }

  /** A project the video phase accepts is the caller's, idle, without a
      video and with an image; every other project is refused. */
  lemma VideoRejectionIff(projects: map<ProjectId, Project>, uid: UserId, pid: ProjectId)
    ensures VideoRejection(projects, uid, pid).None? <==>
              && pid in projects && projects[pid].owner == uid && !projects[pid].isGenerating
              && !Truthy(projects[pid].generatedVideo) && Truthy(projects[pid].generatedImage)
  {
  }

  // ---------------------------------------------------------------------
  // Video phase

  /** The steps of the video phase that follow the debit, up to the point
      where the source would throw: reports the failure message, if any, and
      the number of status queries made. */
  method VideoSteps(db: Db, pid: ProjectId, svc: VideoServices, cdn: string -> Upload)
    returns (error: Option<string>, polled: nat)
    requires pid in db.projects
    requires Settles(svc.initial, svc.polls)
    modifies db`projects
    ensures var run := VideoRun(svc, cdn);
            var p := old(db.projects)[pid];
            && error == (if run.Aborted? then Some(run.message) else None)
            && polled == (if svc.markError.None? && svc.fetchError.None? then PollCount(svc.initial, svc.polls) else 0)
            && db.projects == old(db.projects)[pid := if svc.markError.Some? then p
                                                      else if StoredVideo(svc, cdn).Some? then p.(generatedVideo := StoredVideo(svc, cdn), isGenerating := false)
                                                      else p.(isGenerating := true)]
  {
    polled := 0;
    if svc.markError.Some? {
      return svc.markError, 0;
    }
    db.projects := db.projects[pid := db.projects[pid].(isGenerating := true)];
    if svc.fetchError.Some? {
      return svc.fetchError, 0;
    }
    var operation;
    operation, polled := AwaitOperation(svc.initial, svc.polls);
    if operation.PollThrew? {
      return Some(operation.message), polled;
    }
    if operation.error.Some? {
      return Some(if operation.error.value != "" then operation.error.value else MSG_VIDEO_FAILED), polled;
    }
    if operation.videos == [] {
      return Some(MSG_NO_OUTPUT), polled;
    }
    if svc.downloadError.Some? {
      return svc.downloadError, polled;
    }
    match cdn(svc.tempPath) {
      case UploadFailed(m) =>
        return Some(m), polled;
      case Stored(url) =>
        if svc.saveError.Some? {
          return svc.saveError, polled;
        }
        db.projects := db.projects[pid := db.projects[pid].(generatedVideo := Some(url), isGenerating := false)];
        if svc.unlinkError.Some? {
          return svc.unlinkError, polled;
        }
        return None, polled;
    }
  }

  /** The video phase from the debit on, for a caller the gate admitted and
      a project the checks accepted: debits, runs the steps, and on failure
      clears the flag, records the error and refunds. */
  method DebitAndGenerateVideo(db: Db, uid: UserId, pid: ProjectId, svc: VideoServices, cdn: string -> Upload)
    returns (reply: Reply, polled: nat)
    requires db.Valid()
    requires Settles(svc.initial, svc.polls)
    requires uid in db.users && db.users[uid].credits >= VIDEO_COST && db.users[uid].dailyCredits >= VIDEO_COST
    requires VideoRejection(db.projects, uid, pid).None?
    modifies db
    ensures db.Valid()
    ensures old(db.Idle()) ==> db.Idle()
    ensures old(db.Solvent()) ==> db.Solvent()
    ensures db.nextProjectId == old(db.nextProjectId)
    ensures var pre := old(db.users)[uid];
            var p := old(db.projects)[pid];
            var run := VideoRun(svc, cdn);
            && polled == (if svc.markError.None? && svc.fetchError.None? then PollCount(svc.initial, svc.polls) else 0)
            && (run.Succeeded? ==>
                  && reply == Ok(VideoCompleted(run.url))
                  && db.users == old(db.users)[uid := Debit(pre, VIDEO_COST)]
                  && db.projects == old(db.projects)[pid := p.(generatedVideo := Some(run.url), isGenerating := false)])
            && (run.Aborted? ==>
                  && reply == Failed(run.message)
                  && db.users == old(db.users)[uid := pre]
                  && db.projects == old(db.projects)[pid := StoredOrKept(p, StoredVideo(svc, cdn)).(isGenerating := false, error := Some(run.message))])
  {
    // the debit is modelled as always succeeding, so a failure always refunds
    db.users := db.users[uid := Debit(db.users[uid], VIDEO_COST)];

    var error;
    error, polled := VideoSteps(db, pid, svc, cdn);
    if error.None? {
      KeepInvariants(db, uid, pid, old(db.users), old(db.projects), old(db.nextProjectId));
      return Ok(VideoCompleted(db.projects[pid].generatedVideo.value)), polled;
    }
    RecordFailure(db, uid, pid, true, error.value, VIDEO_COST);
    RefundRestoresBalances(old(db.users)[uid], VIDEO_COST);
    KeepInvariants(db, uid, pid, old(db.users), old(db.projects), old(db.nextProjectId));
    reply := Failed(error.value);
  }

  /** Passes the credit gate, checks the project, debits, marks the project
      generating, runs and polls the job and stores the video; on any failure
      after the debit, clears the flag, records the error and refunds.
      `polled` is the number of status queries made. */
  method CreateVideo(db: Db, uid: UserId, pid: ProjectId, svc: VideoServices, cdn: string -> Upload, now: Instant)
    returns (reply: Reply, polled: nat)
    requires db.Valid()
    requires Settles(svc.initial, svc.polls)
    modifies db
    ensures db.Valid()
    ensures old(db.Idle()) ==> db.Idle()
    ensures old(db.Solvent()) ==> db.Solvent()
    ensures db.nextProjectId == old(db.nextProjectId)
    // unknown user or a balance below the cost: no debit, no project change
    ensures !PassesCreditGate(old(db.users), uid, now, VIDEO_COST) ==>
              reply == NoCredits(MSG_NO_CREDITS) && polled == 0 &&
              db.users == ResetStored(old(db.users), uid, now) && db.projects == old(db.projects)
    // a refused project: no debit, no project change
    ensures PassesCreditGate(old(db.users), uid, now, VIDEO_COST) && VideoRejection(old(db.projects), uid, pid).Some? ==>
              reply == VideoRejection(old(db.projects), uid, pid).value && polled == 0 &&
              db.users == ResetStored(old(db.users), uid, now) && db.projects == old(db.projects)
    // past both checks: debited once whatever the number of polls, refunded on failure
    ensures PassesCreditGate(old(db.users), uid, now, VIDEO_COST) && VideoRejection(old(db.projects), uid, pid).None? ==>
              var pre := ResetIfNewDay(old(db.users)[uid], now);
              var p := old(db.projects)[pid];
              var run := VideoRun(svc, cdn);
              && polled == (if svc.markError.None? && svc.fetchError.None? then PollCount(svc.initial, svc.polls) else 0)
              && (run.Succeeded? ==>
                    && reply == Ok(VideoCompleted(run.url))
                    && db.users == old(db.users)[uid := Debit(pre, VIDEO_COST)]
                    && db.projects == old(db.projects)[pid := p.(generatedVideo := Some(run.url), isGenerating := false)])
              && (run.Aborted? ==>
                    && reply == Failed(run.message)
                    && db.users == old(db.users)[uid := pre]
                    && db.projects == old(db.projects)[pid := StoredOrKept(p, StoredVideo(svc, cdn)).(isGenerating := false, error := Some(run.message))])
  {
    var user := CheckAndResetDailyCredits(db, uid, now);
    if user.Some? {
      StoreUserKeeps(old(db.users), uid, user.value);
    }
    if user.None? || user.value.credits < VIDEO_COST || user.value.dailyCredits < VIDEO_COST {
      return NoCredits(MSG_NO_CREDITS), 0;
    }

    if pid !in db.projects || db.projects[pid].owner != uid || db.projects[pid].isGenerating {
      return NotFound(MSG_BUSY_OR_MISSING), 0;
    }
    var project := db.projects[pid];
    if Truthy(project.generatedVideo) {
      return BadRequest(MSG_VIDEO_EXISTS), 0;
    }
    if !Truthy(project.generatedImage) {
      return BadRequest(MSG_NO_IMAGE), 0;
    }

    reply, polled := DebitAndGenerateVideo(db, uid, pid, svc, cdn);
  }

  // ---------------------------------------------------------------------
  // Deletion

  /** Deletes the project when it exists and belongs to the caller;
      `deleteError` is the outcome of the store's delete. */
  method DeleteProject(db: Db, uid: UserId, pid: ProjectId, deleteError: Option<string>) returns (reply: Reply)
    requires db.Valid()
    modifies db`projects
    ensures db.Valid()
    ensures old(db.Idle()) ==> db.Idle()
    ensures pid in old(db.projects) && old(db.projects)[pid].owner == uid && deleteError.None? ==>
              reply == Ok(ProjectDeleted) && db.projects == old(db.projects) - {pid}
    ensures pid in old(db.projects) && old(db.projects)[pid].owner == uid && deleteError.Some? ==>
              reply == Failed(deleteError.value) && db.projects == old(db.projects)
    ensures !(pid in old(db.projects) && old(db.projects)[pid].owner == uid) ==>
              reply == NotFound(MSG_NOT_FOUND) && db.projects == old(db.projects)
    // every other project keeps its row
    ensures forall id :: id in old(db.projects) && id != pid ==> id in db.projects && db.projects[id] == old(db.projects)[id]
  {
    if pid !in db.projects || db.projects[pid].owner != uid {
      return NotFound(MSG_NOT_FOUND);
    }
    if deleteError.Some? {
      return Failed(deleteError.value);
    }
    db.projects := db.projects - {pid};
    reply := Ok(ProjectDeleted);
  }
}
