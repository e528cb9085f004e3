/** The second, requests-based solver client: log in, upload an image, wait
    for the submission to finish, take its first job, wait for that job to
    succeed or fail, and fetch its calibration; and the per-image driver
    that keeps going when one image fails. */
module Solver {
  import opened PyValues
  import NovaClient

  const BASE_URL := "http://nova.astrometry.net/api"

  /** What a requests call returned: the HTTP status code, and the body as
      JSON (None when the body is not JSON, where response.json() raises). */
  datatype HttpResponse = HttpResponse(statusCode: int, body: Option<Json>)

  /** A POST carrying a 'request-json' form field (the dict json.dumps turns
      into text) and, for an upload, the path of the attached file. */
  datatype Post = Post(url: string, requestJson: Dict, file: Option<string>)

  /** response.json() */
  function Body(r: HttpResponse): (v: Result<Json, PyError>)
    ensures v.Ok? <==> r.body.Some?
    ensures v.Ok? ==> v.value == r.body.value
    ensures v.Err? ==> v.error == JsonDecodeError
  {
    if r.body.Some? then Ok(r.body.value) else Err(JsonDecodeError)
  }

  /** The session login stores (possibly None, when a successful reply has no
      'session'), or the exception it raises. */
  function LoginResult(r: HttpResponse): (s: Result<Json, PyError>)
    ensures s.Ok? <==> r.body.Some? && r.body.value.Object?
                       && Lookup(r.body.value.fields, "status") == Some(Str("success"))
    ensures s.Ok? ==> s.value == Lookup(r.body.value.fields, "session").GetOr(Null)
    ensures r.body.Some? && r.body.value.Object? && !s.Ok? ==> s == Err(LoginFailed(r.body.value))
  {
    match Body(r)
    case Err(e) => Err(e)
    case Ok(result) =>
      match DictGet(result, "status", Null)
      case Err(e) => Err(e)
      case Ok(status) =>
        if status == Str("success") then Ok(Lookup(result.fields, "session").GetOr(Null))
        else Err(LoginFailed(result))
  }

  /** The submission id an upload reply yields (None when a successful reply
      has no 'subid'), or the exception upload_image raises. */
  function UploadResult(r: HttpResponse): (s: Result<Json, PyError>)
    ensures s.Ok? <==> r.body.Some? && r.body.value.Object?
                       && Lookup(r.body.value.fields, "status") == Some(Str("success"))
    ensures s.Ok? ==> s.value == Lookup(r.body.value.fields, "subid").GetOr(Null)
    ensures r.body.Some? && r.body.value.Object? && !s.Ok? ==> s == Err(UploadFailed(r.body.value))
  {
    match Body(r)
    case Err(e) => Err(e)
    case Ok(result) =>
      match DictGet(result, "status", Null)
      case Err(e) => Err(e)
      case Ok(status) =>
        if status == Str("success") then Ok(Lookup(result.fields, "subid").GetOr(Null))
        else Err(UploadFailed(result))
  }

  /** The request JSON of an upload: the session and the three permissions. */
  function UploadFields(session: Json): (d: Dict)
    ensures Lookup(d, "session") == Some(session)
    ensures Lookup(d, "allow_commercial_use") == Some(Str("d"))
    ensures Lookup(d, "allow_modifications") == Some(Str("d"))
    ensures Lookup(d, "publicly_visible") == Some(Str("y"))
    ensures |d| == 4
  {
    var d := [("session", session), ("allow_commercial_use", Str("d")),
              ("allow_modifications", Str("d")), ("publicly_visible", Str("y"))];
    assert Lookup(d[3..], "publicly_visible") == Some(Str("y"));
    assert Lookup(d[2..], "publicly_visible") == Some(Str("y"));
    assert Lookup(d[2..], "allow_modifications") == Some(Str("d"));
    assert d[1..][1..] == d[2..] && d[2..][1..] == d[3..];
    d
  }

  /** One pass of wait_for_submission: nothing happens until the reply says
      processing has finished; then the job list if its first entry is a
      job, and the empty list otherwise. */
  function SubmissionStep(r: HttpResponse): (s: Step<Json>)
    ensures r.body.None? ==> s == Failed(JsonDecodeError)
    ensures r.body.Some? && !r.body.value.Object? ==> s == Failed(AttributeError)
    ensures r.body.Some? && r.body.value.Object? ==>
              var fields := r.body.value.fields;
              (s.Pending? <==> !Truthy(Lookup(fields, "processing_finished").GetOr(Null)))
              && (s.Done? && s.value != Array([]) ==>
                    Lookup(fields, "jobs") == Some(s.value) && Truthy(s.value))
              && (Truthy(Lookup(fields, "processing_finished").GetOr(Null)) ==>
                    match Lookup(fields, "jobs").GetOr(Array([]))
                    case Array(items) =>
                      s == if items != [] && items[0] != Null then Done(Array(items)) else Done(Array([]))
                    case _ => true)
  {
    match Body(r)
    case Err(e) => Failed(e)
    case Ok(result) =>
      match DictGet(result, "processing_finished", Null)
      case Err(e) => Failed(e)
      case Ok(finished) =>
        if !Truthy(finished) then Pending
        else
          var jobIds := Lookup(result.fields, "jobs").GetOr(Array([]));
          if !Truthy(jobIds) then Done(Array([]))
          else
            match Index0(jobIds)
            case Err(e) => Failed(e)
            case Ok(first) => if first != Null then Done(jobIds) else Done(Array([]))
  }

  function SubmissionSteps(rs: seq<HttpResponse>): (steps: seq<Step<Json>>)
    ensures |steps| == |rs|
    ensures forall i :: 0 <= i < |rs| ==> steps[i] == SubmissionStep(rs[i])
  {
    seq(|rs|, i requires 0 <= i < |rs| => SubmissionStep(rs[i]))
  }

  /** One pass of wait_for_job: True on 'success', False on 'failure',
      another poll on anything else. */
  function JobStep(r: HttpResponse): (s: Step<bool>)
    ensures r.body.None? ==> s == Failed(JsonDecodeError)
    ensures r.body.Some? && !r.body.value.Object? ==> s == Failed(AttributeError)
    ensures r.body.Some? && r.body.value.Object? ==>
              var status := Lookup(r.body.value.fields, "status");
              (s == Done(true) <==> status == Some(Str("success")))
              && (s == Done(false) <==> status == Some(Str("failure")))
              && (s.Pending? <==> status != Some(Str("success")) && status != Some(Str("failure")))
  {
    match Body(r)
    case Err(e) => Failed(e)
    case Ok(result) =>
      match DictGet(result, "status", Null)
      case Err(e) => Failed(e)
      case Ok(status) =>
        if status == Str("success") then Done(true)
        else if status == Str("failure") then Done(false)
        else Pending
  }

  function JobSteps(rs: seq<HttpResponse>): (steps: seq<Step<bool>>)
    ensures |steps| == |rs|
    ensures forall i :: 0 <= i < |rs| ==> steps[i] == JobStep(rs[i])
  {
    seq(|rs|, i requires 0 <= i < |rs| => JobStep(rs[i]))
  }

  /** get_job_info and get_annotations: the parsed body of a 200 reply, None
      for any other status. */
  function FetchIfOk(r: HttpResponse): (v: Result<Json, PyError>)
    ensures r.statusCode != 200 ==> v == Ok(Null)
    ensures r.statusCode == 200 ==> v == Body(r)
  {
    if r.statusCode == 200 then Body(r) else Ok(Null)
  }

  /** What upload_image does: the session afterwards, the POSTs it sent, and
      the submission id or the exception. */
  datatype UploadRun = UploadRun(session: Json, posts: seq<Post>, result: Result<Json, PyError>)

  function LoginPost(baseUrl: string, apiKey: string): Post {
    Post(baseUrl + "/login", [("apikey", Str(apiKey))], None)
  }

  function UploadPost(baseUrl: string, session: Json, path: string): Post {
    Post(baseUrl + "/upload", UploadFields(session), Some(path))
  }

  function UploadFlow(session: Json, baseUrl: string, apiKey: string, path: string, readable: bool,
                      loginResponse: HttpResponse, uploadResponse: HttpResponse): (u: UploadRun)
    ensures |u.posts| <= 2
    ensures Truthy(session) ==> u.session == session
    ensures u.result.Ok? ==> readable && u.result == UploadResult(uploadResponse)
    ensures !Truthy(session) && LoginResult(loginResponse).Err? ==>
              u.session == session && u.result == LoginResult(loginResponse)
  {
    var loginPosts := if Truthy(session) then [] else [LoginPost(baseUrl, apiKey)];
    var login := if Truthy(session) then Ok(session) else LoginResult(loginResponse);
    match login
    case Err(e) => UploadRun(session, loginPosts, Err(e))
    case Ok(s) =>
      if !readable then UploadRun(s, loginPosts, Err(IOError))
      else UploadRun(s, loginPosts + [UploadPost(baseUrl, s, path)], UploadResult(uploadResponse))
  }

  /** upload_image logs in first exactly when there is no session, and the
      upload carries the session then in effect and the three permissions. */
  lemma UploadLogsInFirst(session: Json, baseUrl: string, apiKey: string, path: string, readable: bool,
                          loginResponse: HttpResponse, uploadResponse: HttpResponse)
    ensures var u := UploadFlow(session, baseUrl, apiKey, path, readable, loginResponse, uploadResponse);
            (|u.posts| > 0 && u.posts[0] == LoginPost(baseUrl, apiKey)) <==> !Truthy(session)
    ensures var u := UploadFlow(session, baseUrl, apiKey, path, readable, loginResponse, uploadResponse);
            u.result.Ok? ==>
              var upload := u.posts[|u.posts| - 1];
              upload.url == baseUrl + "/upload" && upload.file == Some(path)
              && Lookup(upload.requestJson, "session") == Some(u.session)
              && Lookup(upload.requestJson, "allow_commercial_use") == Some(Str("d"))
              && Lookup(upload.requestJson, "allow_modifications") == Some(Str("d"))
              && Lookup(upload.requestJson, "publicly_visible") == Some(Str("y"))
              && (Truthy(session) ==> u.session == session)
              && (!Truthy(session) ==> u.session == LoginResult(loginResponse).value)
    ensures var u := UploadFlow(session, baseUrl, apiKey, path, readable, loginResponse, uploadResponse);
            u.result.Ok? <==> (Truthy(session) || LoginResult(loginResponse).Ok?) && readable
                              && UploadResult(uploadResponse).Ok?
  {
  }

  /** How one image of the driver loop ended. */
  datatype ImageOutcome =
    | Errored(error: PyError)                   // caught by the loop's except clause
    | NoJobs                                    // the submission produced no job: skipped
    | StillWaiting                              // a polling loop has not ended
    | Unsolved(jobId: Json)                     // the first job failed
    | Solved(jobId: Json, calibration: Json)    // the first job succeeded

  /** The replies the server gives while one image is processed. */
  datatype ImageRun = ImageRun(path: string, readable: bool,
                               loginResponse: HttpResponse, uploadResponse: HttpResponse,
                               submissionResponses: seq<HttpResponse>, jobResponses: seq<HttpResponse>,
                               calibrationResponse: HttpResponse)

  /** One image, given the session it starts with: the session afterwards and
      how the image ended. */
  function ImageSpec(session: Json, baseUrl: string, apiKey: string, run: ImageRun): (r: (Json, ImageOutcome))
    ensures Truthy(session) ==> r.0 == session
    ensures !Truthy(session) && LoginResult(run.loginResponse).Err? ==>
              r == (session, Errored(LoginResult(run.loginResponse).error))
    ensures (r.1.Solved? || r.1.Unsolved? || r.1.NoJobs?) ==> run.readable && UploadResult(run.uploadResponse).Ok?
  {
    var up := UploadFlow(session, baseUrl, apiKey, run.path, run.readable, run.loginResponse, run.uploadResponse);
    match up.result
    case Err(e) => (up.session, Errored(e))
    case Ok(_) =>
      match FirstOutcome(SubmissionSteps(run.submissionResponses))
      case StillPending => (up.session, StillWaiting)
      case Aborted(e, _) => (up.session, Errored(e))
      case Finished(jobIds, _) =>
        if !Truthy(jobIds) then (up.session, NoJobs)
        else
          match Index0(jobIds)
          case Err(e) => (up.session, Errored(e))
          case Ok(jobId) =>
            match FirstOutcome(JobSteps(run.jobResponses))
            case StillPending => (up.session, StillWaiting)
            case Aborted(e, _) => (up.session, Errored(e))
            case Finished(success, _) =>
              if !success then (up.session, Unsolved(jobId))
              else
                match FetchIfOk(run.calibrationResponse)
                case Err(e) => (up.session, Errored(e))
                case Ok(calibration) => (up.session, Solved(jobId, calibration))
  }

  /** The driver loop over the images, from a starting session: an error ends
      only its own image; a polling loop that never ends stops the driver. */
  function RunAll(session: Json, baseUrl: string, apiKey: string, runs: seq<ImageRun>): (Json, seq<ImageOutcome>)
    decreases |runs|
  {
    if runs == [] then (session, [])
    else
      var (s1, o) := ImageSpec(session, baseUrl, apiKey, runs[0]);
      if o.StillWaiting? then (s1, [o])
      else
        var (s2, os) := RunAll(s1, baseUrl, apiKey, runs[1..]);
        (s2, [o] + os)
  }

  /** Only the first job is tracked, and a calibration is fetched only after
      that job succeeded. */
  lemma OnlyFirstJobTracked(session: Json, baseUrl: string, apiKey: string, run: ImageRun)
    ensures var o := ImageSpec(session, baseUrl, apiKey, run).1;
            (o.Solved? || o.Unsolved?) ==>
              var sub := FirstOutcome(SubmissionSteps(run.submissionResponses));
              sub.Finished? && Truthy(sub.value) && Index0(sub.value) == Ok(o.jobId)
    ensures var o := ImageSpec(session, baseUrl, apiKey, run).1;
            o.Solved? ==>
              (exists n :: FirstOutcome(JobSteps(run.jobResponses)) == Finished(true, n))
              && FetchIfOk(run.calibrationResponse) == Ok(o.calibration)
    ensures var o := ImageSpec(session, baseUrl, apiKey, run).1;
            o.Unsolved? ==> exists n :: FirstOutcome(JobSteps(run.jobResponses)) == Finished(false, n)
    ensures var o := ImageSpec(session, baseUrl, apiKey, run).1;
            o.NoJobs? ==> var sub := FirstOutcome(SubmissionSteps(run.submissionResponses));
                          sub.Finished? && !Truthy(sub.value)
    ensures var sub := FirstOutcome(SubmissionSteps(run.submissionResponses));
            UploadFlow(session, baseUrl, apiKey, run.path, run.readable, run.loginResponse, run.uploadResponse).result.Ok?
            && sub.Finished? && !Truthy(sub.value) ==>
              ImageSpec(session, baseUrl, apiKey, run).1 == NoJobs
    ensures var sub := FirstOutcome(SubmissionSteps(run.submissionResponses));
            var job := FirstOutcome(JobSteps(run.jobResponses));
            UploadFlow(session, baseUrl, apiKey, run.path, run.readable, run.loginResponse, run.uploadResponse).result.Ok?
            && sub.Finished? && Truthy(sub.value) && Index0(sub.value).Ok?
            && job.Finished? && job.value && FetchIfOk(run.calibrationResponse).Ok? ==>
              ImageSpec(session, baseUrl, apiKey, run).1
                == Solved(Index0(sub.value).value, FetchIfOk(run.calibrationResponse).value)
  {
    var o := ImageSpec(session, baseUrl, apiKey, run).1;
    var jobs := FirstOutcome(JobSteps(run.jobResponses));
    if o.Solved? || o.Unsolved? {
      assert jobs.Finished?;
      assert jobs == Finished(jobs.value, jobs.polls);
    }
  }

  /** An error in one image does not stop the loop: every image is processed
      unless a polling loop is still waiting, and then that image is the last. */
  lemma {:induction false} ErrorsDoNotStop(session: Json, baseUrl: string, apiKey: string, runs: seq<ImageRun>)
    ensures var os := RunAll(session, baseUrl, apiKey, runs).1;
            |os| <= |runs|
            && (forall i :: 0 <= i < |os| - 1 ==> !os[i].StillWaiting?)
            && (|os| < |runs| ==> |os| > 0 && os[|os| - 1].StillWaiting?)
    decreases |runs|
  {
    if runs != [] {
      var (s1, o) := ImageSpec(session, baseUrl, apiKey, runs[0]);
      if !o.StillWaiting? {
        ErrorsDoNotStop(s1, baseUrl, apiKey, runs[1..]);
        var os := RunAll(session, baseUrl, apiKey, runs).1;
        var rest := RunAll(s1, baseUrl, apiKey, runs[1..]).1;
        assert os == [o] + rest;
        forall i | 0 <= i < |os| - 1 ensures !os[i].StillWaiting? {
          if i > 0 {
            assert os[i] == rest[i - 1];
          }
        }
      }
    }
  }

  /** The two clients disagree on a finished submission whose job list starts
      with null: the command-line client takes the first non-null job, this
      solver reports no jobs. */
  lemma NullFirstJobDiffers(result: Dict, job: Json, code: int)
    requires job != Null
    requires Lookup(result, "jobs") == Some(Array([Null, job]))
    requires Lookup(result, "status") != Some(Str("error"))
    requires Truthy(Lookup(result, "processing_finished").GetOr(Null))
    ensures NovaClient.DiscoveryStep(NovaClient.Delivered(Object(result))) == Done(job)
    ensures SubmissionStep(HttpResponse(code, Some(Object(result)))) == Done(Array([]))
  {
    var items := [Null, job];
    assert NovaClient.FirstNonNull(items[1..]) == 0;
    assert NovaClient.FirstNonNull(items) == 1;
  }

  /** The solver client of the Astrometry.net web API. */
  class AstrometrySolver {
    const apiKey: string
    const baseUrl: string
    var session: Json

    constructor (apiKey: string)
      ensures this.apiKey == apiKey && baseUrl == BASE_URL && session == Null
    {
      this.apiKey := apiKey;
      baseUrl := BASE_URL;
      session := Null;
    }

    /** login: posts the API key; stores the session on 'success', raises otherwise. */
    method Login(response: HttpResponse) returns (post: Post, outcome: Result<(), PyError>)
      modifies this
      ensures post == LoginPost(baseUrl, apiKey)
      ensures LoginResult(response).Ok? ==> session == LoginResult(response).value && outcome == Ok(())
      ensures LoginResult(response).Err? ==> session == old(session) && outcome == Err(LoginResult(response).error)
    {
      post := LoginPost(baseUrl, apiKey);
      var result := Body(response);
      if result.Err? {
        return post, Err(result.error);
      }
      var status := DictGet(result.value, "status", Null);
      if status.Err? {
        return post, Err(status.error);
      }
      if status.value == Str("success") {
        session := Lookup(result.value.fields, "session").GetOr(Null);
        outcome := Ok(());
      } else {
        outcome := Err(LoginFailed(result.value));
      }
    }

    /** upload_image: logs in when there is no session, opens the file
        (`readable` is whether that succeeds) and posts it. */
    method UploadImage(path: string, readable: bool, loginResponse: HttpResponse, uploadResponse: HttpResponse)
      returns (posts: seq<Post>, result: Result<Json, PyError>)
      modifies this
      ensures var u := UploadFlow(old(session), baseUrl, apiKey, path, readable, loginResponse, uploadResponse);
              session == u.session && posts == u.posts && result == u.result
    {
      posts := [];
      if !Truthy(session) {
        var post, outcome := Login(loginResponse);
        posts := [post];
        if outcome.Err? {
          return posts, Err(outcome.error);
        }
      }
      if !readable {
        return posts, Err(IOError);
      }
      posts := posts + [UploadPost(baseUrl, session, path)];
      var response := Body(uploadResponse);
      if response.Err? {
        return posts, Err(response.error);
      }
      var status := DictGet(response.value, "status", Null);
      if status.Err? {
        return posts, Err(status.error);
      }
      if status.value == Str("success") {
        result := Ok(Lookup(response.value.fields, "subid").GetOr(Null));
      } else {
        result := Err(UploadFailed(response.value));
      }
    }

    /** wait_for_submission over successive replies. */
    method WaitForSubmission(responses: seq<HttpResponse>) returns (p: Poll<Json>)
      ensures FirstDecisive(SubmissionSteps(responses), p)
    {
      var n := 0;
      while n < |responses|
        invariant 0 <= n <= |responses|
        invariant AllPending(SubmissionSteps(responses)[..n])
      {
        var step := SubmissionStep(responses[n]);
        var result := Body(responses[n]);
        if result.Err? {
          return Aborted(result.error, n + 1);
        }
        var finished := DictGet(result.value, "processing_finished", Null);
        if finished.Err? {
          return Aborted(finished.error, n + 1);
        }
        if Truthy(finished.value) {
          var jobIds := Lookup(result.value.fields, "jobs").GetOr(Array([]));
          if Truthy(jobIds) {
            var first := Index0(jobIds);
            if first.Err? {
              return Aborted(first.error, n + 1);
            }
            if first.value != Null {
              return Finished(jobIds, n + 1);
            }
          }
          return Finished(Array([]), n + 1);
        }
        assert SubmissionSteps(responses)[..n + 1] == SubmissionSteps(responses)[..n] + [step];
        n := n + 1;
      }
      assert SubmissionSteps(responses)[..n] == SubmissionSteps(responses);
      p := StillPending;
    }

    /** wait_for_job over successive replies. */
    method WaitForJob(responses: seq<HttpResponse>) returns (p: Poll<bool>)
      ensures FirstDecisive(JobSteps(responses), p)
    {
      var n := 0;
      while n < |responses|
        invariant 0 <= n <= |responses|
        invariant AllPending(JobSteps(responses)[..n])
      {
        var step := JobStep(responses[n]);
        var result := Body(responses[n]);
        if result.Err? {
          return Aborted(result.error, n + 1);
        }
        var status := DictGet(result.value, "status", Null);
        if status.Err? {
          return Aborted(status.error, n + 1);
        }
        if status.value == Str("success") {
          return Finished(true, n + 1);
        } else if status.value == Str("failure") {
          return Finished(false, n + 1);
        }
        assert JobSteps(responses)[..n + 1] == JobSteps(responses)[..n] + [step];
        n := n + 1;
      }
      assert JobSteps(responses)[..n] == JobSteps(responses);
      p := StillPending;
    }

    /** One iteration of main's loop, with its exceptions caught. */
    method SolveImage(run: ImageRun) returns (outcome: ImageOutcome)
      modifies this
      ensures (session, outcome) == ImageSpec(old(session), baseUrl, apiKey, run)
    {
      var posts, subId := UploadImage(run.path, run.readable, run.loginResponse, run.uploadResponse);
      if subId.Err? {
        return Errored(subId.error);
      }
      var submission := WaitForSubmission(run.submissionResponses);
      FirstDecisiveUnique(SubmissionSteps(run.submissionResponses), submission,
                          FirstOutcome(SubmissionSteps(run.submissionResponses)));
      if !submission.Finished? {
        return if submission.StillPending? then StillWaiting else Errored(submission.error);
      }
      var jobIds := submission.value;
      if !Truthy(jobIds) {
        return NoJobs;
      }
      var first := Index0(jobIds);
      if first.Err? {
        return Errored(first.error);
      }
      var jobId := first.value;
      var success := WaitForJob(run.jobResponses);
      FirstDecisiveUnique(JobSteps(run.jobResponses), success, FirstOutcome(JobSteps(run.jobResponses)));
      if !success.Finished? {
        return if success.StillPending? then StillWaiting else Errored(success.error);
      }
      if !success.value {
        return Unsolved(jobId);
      }
      var calibration := FetchIfOk(run.calibrationResponse);
      if calibration.Err? {
        return Errored(calibration.error);
      }
      outcome := Solved(jobId, calibration.value);
    }

    /** main's loop over the images. */
    method SolveImages(runs: seq<ImageRun>) returns (outcomes: seq<ImageOutcome>)
      modifies this
      ensures (session, outcomes) == RunAll(old(session), baseUrl, apiKey, runs)
    {
      outcomes := [];
      var i := 0;
      assert runs[i..] == runs;
      assert outcomes + RunAll(session, baseUrl, apiKey, runs).1 == RunAll(session, baseUrl, apiKey, runs).1;
      while i < |runs|
        invariant 0 <= i <= |runs|
        invariant (forall j :: 0 <= j < |outcomes| ==> !outcomes[j].StillWaiting?)
        invariant RunAll(old(session), baseUrl, apiKey, runs)
                  == (RunAll(session, baseUrl, apiKey, runs[i..]).0, outcomes + RunAll(session, baseUrl, apiKey, runs[i..]).1)
      {
        assert runs[i..][0] == runs[i] && runs[i..][1..] == runs[i + 1..];
        ghost var before := session;
        ghost var prefix := outcomes;
        var outcome := SolveImage(runs[i]);
        outcomes := outcomes + [outcome];
        if outcome.StillWaiting? {
          return;
        }
        ghost var rest := RunAll(session, baseUrl, apiKey, runs[i + 1..]);
        assert RunAll(before, baseUrl, apiKey, runs[i..]) == (rest.0, [outcome] + rest.1);
        assert prefix + ([outcome] + rest.1) == outcomes + rest.1;
        i := i + 1;
      }
      assert outcomes + [] == outcomes;
    }
  }
}
