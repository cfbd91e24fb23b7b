/**
 * The video-generation client (`AIVideoGenerator`): it submits one job,
 * polls the job's status until the service reports a terminal status, and
 * then either saves the first generation's video or reports why there is
 * none. The HTTP exchanges are replaced by a script of the service's
 * answers, and the client returns the requests it made.
 */
module VideoJobs {
  import opened Common
  import opened Text

  const BasePath: string := "/openai/v1/video/generations/"
  const VersionQuery: string := "?api-version="
  /** The model every job asks for. */
  const Model: string := "sora"

  const Succeeded: string := "succeeded"
  const Failed: string := "failed"
  const Cancelled: string := "cancelled"

  /** The statuses that end the polling loop; any other string keeps it going. */
  predicate IsTerminal(status: string) {
    status == Succeeded || status == Failed || status == Cancelled
  }

  /** One answer to a status request: the status and, if present, the generation ids. */
  datatype PollReply = PollReply(status: string, generations: Option<seq<string>>)

  /**
   * What the service does for one call: the id it gives the new job, its
   * answers to the successive status requests, whether the video download
   * succeeds, and the temporary directory the file is written to.
   */
  datatype ServiceScript = ServiceScript(jobId: string, polls: seq<PollReply>, fetchOk: bool, tempDir: string)

  /** The JSON body of the job-creation request. */
  datatype JobBody = JobBody(prompt: string, nSeconds: int, width: int, height: int, model: string)

  datatype HttpRequest = Post(url: string, body: JobBody) | Get(url: string)

  datatype VideoError = InvalidPrompt | NoGenerations | NotSucceeded(status: string)

  /**
   * How a call ends: it returns a path (empty when the download failed),
   * throws, or is still polling when the scripted answers run out (the
   * client itself never stops polling a job that stays non-terminal).
   */
  datatype VideoOutcome = Returned(path: string) | Thrown(error: VideoError) | StillPolling

  /** The exception's message; a failed job's message names its status. */
  function ErrorMessage(e: VideoError): (m: string)
    ensures e.NotSucceeded? ==> |e.status| <= |m| && m[|m| - |e.status|..] == e.status
  {
    match e
    case InvalidPrompt => "Prompt cannot be null or empty. (Parameter 'prompt')"
    case NoGenerations => "No generations found in job result."
    case NotSucceeded(status) =>
      var head := "Job didn't succeed. Status: ";
      assert (head + status)[|head|..] == status;
      head + status
  }

  /** Index of the first terminal status among the answers, if any. */
  function FirstTerminal(polls: seq<PollReply>): (r: Option<nat>)
    ensures r.Some? ==> r.value < |polls| && IsTerminal(polls[r.value].status)
    ensures forall k :: 0 <= k < |polls| && (r.None? || k < r.value) ==> !IsTerminal(polls[k].status)
  {
    if polls == [] then None
    else if IsTerminal(polls[0].status) then Some(0)
    else
      match FirstTerminal(polls[1..])
      case None => None
      case Some(k) => Some(k + 1)
  }

  /** `Path.Combine` of a directory and a relative file name. */
  function PathCombine(dir: string, name: string): (r: string)
    ensures |r| >= |name| && r[|r| - |name|..] == name
    ensures r[..|r| - |name|] == dir || r[..|r| - |name|] == dir + "\\"
    ensures r[..|r| - |name|] == dir <==> (dir == [] || dir[|dir| - 1] == '\\' || dir[|dir| - 1] == '/')
  {
    var joined := if dir == [] || dir[|dir| - 1] == '\\' || dir[|dir| - 1] == '/' then dir else dir + "\\";
    assert (joined + name)[|joined|..] == name;
    assert (joined + name)[..|joined|] == joined;
    joined + name
  }

  function Repeat<T>(x: T, n: nat): (r: seq<T>)
    ensures |r| == n && forall i :: 0 <= i < n ==> r[i] == x
  {
    seq(n, _ => x)
  }

  lemma Regroup(a: string, b: string, c: string, d: string)
    ensures a + b + c + d == a + (b + c) + d == (a + b) + (c + d)
  {
  }

  class VideoGenerator {
    const endpointUrl: string
    const apiVersionUrl: string
    const apiKey: string
    ghost const endpoint: string
    ghost const apiVersion: string

    /** The URL parts derive from the endpoint and the API version. */
    ghost predicate Valid() {
      endpointUrl == endpoint + BasePath && apiVersionUrl == VersionQuery + apiVersion
    }

    constructor (endpoint: string, apiKey: string, apiVersion: string)
      ensures Valid()
      ensures this.endpoint == endpoint && this.apiVersion == apiVersion && this.apiKey == apiKey
    {
      this.endpoint := endpoint;
      this.apiVersion := apiVersion;
      endpointUrl := endpoint + BasePath;
      apiVersionUrl := VersionQuery + apiVersion;
      this.apiKey := apiKey;
    }

    function CreateUrl(): string {
      endpointUrl + "jobs" + apiVersionUrl
    }

    function StatusUrl(jobId: string): string {
      endpointUrl + "jobs/" + jobId + apiVersionUrl
    }

    function ContentUrl(generationId: string): string {
      endpointUrl + "/" + generationId + "/content/video" + apiVersionUrl
    }

    /** The job-creation URL spelled out from the endpoint and the version. */
    lemma CreateUrlSpelledOut()
      requires Valid()
      ensures CreateUrl() == endpoint + "/openai/v1/video/generations/jobs?api-version=" + apiVersion
    {
      var middle := "/openai/v1/video/generations/jobs?api-version=";
      assert BasePath + "jobs" + VersionQuery == middle;
      Regroup(endpoint, BasePath + "jobs", VersionQuery, apiVersion);
    }

    /** The status URL spelled out from the endpoint, the job and the version. */
    lemma StatusUrlSpelledOut(jobId: string)
      requires Valid()
      ensures StatusUrl(jobId) == endpoint + "/openai/v1/video/generations/jobs/" + jobId + "?api-version=" + apiVersion
    {
      assert BasePath + "jobs/" == "/openai/v1/video/generations/jobs/";
      Regroup(endpoint, BasePath + "jobs/" + jobId, VersionQuery, apiVersion);
      Regroup(endpoint, BasePath, "jobs/", jobId);
    }

    /** The content URL spelled out; it has two slashes after `generations`. */
    lemma ContentUrlSpelledOut(generationId: string)
      requires Valid()
      ensures ContentUrl(generationId)
        == endpoint + "/openai/v1/video/generations//" + generationId + "/content/video?api-version=" + apiVersion
    {
      assert BasePath + "/" == "/openai/v1/video/generations//";
      assert "/content/video" + VersionQuery == "/content/video?api-version=";
      Regroup(endpoint, BasePath + "/" + generationId + "/content/video", VersionQuery, apiVersion);
      Regroup(endpoint, BasePath, "/", generationId);
    }

    /** Different jobs are polled at different URLs. */
    lemma StatusUrlInjective(a: string, b: string)
      requires StatusUrl(a) == StatusUrl(b)
      ensures a == b
    {
      var head := endpointUrl + "jobs/";
      assert StatusUrl(a) == (head + a) + apiVersionUrl;
      assert StatusUrl(b) == (head + b) + apiVersionUrl;
      CancelSuffix(head + a, head + b, apiVersionUrl);
      CancelPrefix(head, a, b);
    }

    /**
     * For a non-blank prompt: the job is created, its status is requested up
     * to the first terminal status the script gives (or every scripted
     * status, when none is terminal), and the outcome is the one that
     * status calls for; only a succeeded job with generations also fetches
     * the first generation's video.
     */
    predicate FollowsScript(script: ServiceScript, prompt: string, filename: string, duration: int, width: int, height: int,
                            outcome: VideoOutcome, requests: seq<HttpRequest>)
    {
      var create := Post(CreateUrl(), JobBody(prompt, duration, width, height, Model));
      var poll := Get(StatusUrl(script.jobId));
      match FirstTerminal(script.polls)
      case None =>
        outcome == StillPolling && requests == [create] + Repeat(poll, |script.polls|)
      case Some(k) =>
        var polled := [create] + Repeat(poll, k + 1);
        var last := script.polls[k];
        if last.status != Succeeded then
          outcome == Thrown(NotSucceeded(last.status)) && requests == polled
        else if last.generations.None? || last.generations.value == [] then
          outcome == Thrown(NoGenerations) && requests == polled
        else
          requests == polled + [Get(ContentUrl(last.generations.value[0]))] &&
          outcome == Returned(if script.fetchOk then PathCombine(script.tempDir, filename + ".mp4") else "")
    }

    /**
     * `GenerateVideoAsync`. A blank prompt throws before any request. Otherwise
     * the job is created once with the prompt, the duration, the size and the
     * model; its status is requested at least once and exactly up to the first
     * terminal status. "failed" and "cancelled" throw with the status;
     * "succeeded" without generations throws; otherwise the first
     * generation's video is requested, and the call returns the file path in
     * the temporary directory, or the empty string when the download failed.
     */
    method GenerateVideo(script: ServiceScript, prompt: string, filename: string,
                         duration: int := 5, width: int := 1280, height: int := 720)
      returns (outcome: VideoOutcome, requests: seq<HttpRequest>)
      ensures IsBlank(prompt) <==> outcome == Thrown(InvalidPrompt)
      ensures IsBlank(prompt) ==> requests == []
      ensures !IsBlank(prompt) ==>
        |requests| > 0 && requests[0] == Post(CreateUrl(), JobBody(prompt, duration, width, height, Model))
      ensures outcome.Returned? && outcome.path != "" ==> outcome.path == PathCombine(script.tempDir, filename + ".mp4")
      ensures !IsBlank(prompt) ==> FollowsScript(script, prompt, filename, duration, width, height, outcome, requests)
    {
      if IsBlank(prompt) {
        return Thrown(InvalidPrompt), [];
      }
      var requestBody := JobBody(prompt, duration, width, height, Model);
      requests := [Post(CreateUrl(), requestBody)];
      var jobId := script.jobId;
      var statusUrl := StatusUrl(jobId);
      var status := "";
      var statusResponse := PollReply("", None);
      var polled := 0;
      // do { wait 5 seconds; request the status } while (status is not terminal)
      while polled == 0 || !IsTerminal(status)
        invariant 0 <= polled <= |script.polls|
        invariant requests == [Post(CreateUrl(), requestBody)] + Repeat(Get(statusUrl), polled)
        invariant polled > 0 ==> statusResponse == script.polls[polled - 1] && status == statusResponse.status
        invariant forall k :: 0 <= k < polled - 1 ==> !IsTerminal(script.polls[k].status)
        decreases |script.polls| - polled
      {
        if polled == |script.polls| {
          return StillPolling, requests;
        }
        requests := requests + [Get(statusUrl)];
        statusResponse := script.polls[polled];
        status := statusResponse.status;
        polled := polled + 1;
      }
      if status == Succeeded {
        if statusResponse.generations.Some? && |statusResponse.generations.value| > 0 {
          var generationId := statusResponse.generations.value[0];
          var videoUrl := ContentUrl(generationId);
          requests := requests + [Get(videoUrl)];
          if script.fetchOk {
            var fileNameWithExtension := filename + ".mp4";
            var filePath := PathCombine(script.tempDir, fileNameWithExtension);
            return Returned(filePath), requests;
          }
          return Returned(""), requests;
        } else {
          return Thrown(NoGenerations), requests;
        }
      } else {
        return Thrown(NotSucceeded(status)), requests;
      }
    }
  }
}
