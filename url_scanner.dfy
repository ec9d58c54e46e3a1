/** Screenshot acquisition (lib/urlScanner.ts): reuse a scan of the URL from the last
    24 hours, otherwise create one and poll it until it finishes, fails or the wait runs
    out, and hand back a proxy path for its screenshot. The provider's replies are
    parameters; time is the caller's clock reading and the polls' fixed spacing. */
module UrlScanner {
  import opened Wrappers

  const ONE_DAY_MS: int := 24 * 60 * 60 * 1000
  const POLL_INTERVAL_MS: nat := 2000
  /** The default of `waitForScan`'s `maxWaitMs`, the value `scanUrl` uses. */
  const MAX_WAIT_MS: int := 30000

  /** A task listed by the scan search; `time` is `None` when the date does not parse. */
  datatype Task = Task(uuid: string, time: Option<int>, status: string)

  /** The outcome of the scan search request. */
  datatype SearchReply = SearchThrew | SearchNotOk | SearchBody(success: bool, tasks: Option<seq<Task>>)

  /** `findExistingScan`: the first listed task's uuid when the search succeeded and
      that task is less than a day old at `now`; otherwise nothing. */
  function FindExistingScan(reply: SearchReply, now: int): (r: Option<string>)
    ensures r.Some? <==>
      && reply.SearchBody? && reply.success && reply.tasks.Some? && |reply.tasks.value| > 0
      && reply.tasks.value[0].time.Some? && now - reply.tasks.value[0].time.value < ONE_DAY_MS
    ensures r.Some? ==> r.value == reply.tasks.value[0].uuid
  {
    match reply
    case SearchBody(success, tasks) =>
      if success && tasks.Some? && |tasks.value| > 0 then
        var task := tasks.value[0];
        match task.time
        case Some(scanTime) => if now - scanTime < ONE_DAY_MS then Some(task.uuid) else None
        case None => None
      else None
    case _ => None
  }

  /** The list status of a task is not consulted: a failed scan from the last day is reused too. */
  lemma FailedRecentScanReused(uuid: string, time: int, now: int)
    requires now - time < ONE_DAY_MS
    ensures FindExistingScan(SearchBody(true, Some([Task(uuid, Some(time), "Failed")])), now) == Some(uuid)
  {
  }

  /** The outcome of the create-scan request: it threw, or a parsed body. */
  datatype CreateReply = CreateThrew | CreateBody(success: bool, uuid: Option<string>)

  /** `createScan`: the new scan's uuid exactly when the provider accepted it and gave one. */
  function CreateScan(reply: CreateReply): (r: Option<string>)
    ensures r.Some? <==> reply.CreateBody? && reply.success && reply.uuid.Some? && reply.uuid.value != ""
    ensures r.Some? ==> r.value == reply.uuid.value
  {
    match reply
    case CreateBody(success, uuid) => if success && uuid.Some? && uuid.value != "" then uuid else None
    case CreateThrew => None
  }

  /** The outcome of one status poll: it threw, the status was not ok, or a parsed body
      with the optional task status and success flag. */
  datatype PollReply = PollThrew | PollNotOk | PollBody(status: Option<string>, success: Option<bool>)

  /** A poll that ends the wait. */
  predicate Terminal(p: PollReply) {
    p.PollBody? && (p.status == Some("Finished") || p.status == Some("Failed"))
  }

  /** What a terminal poll makes `waitForScan` return. */
  function Verdict(p: PollReply): (ok: bool)
    requires Terminal(p)
    ensures ok <==> p.status == Some("Finished") && p.success == Some(true)
  {
    if p.status == Some("Finished") then p.success.GetOr(false) else false
  }

  /** How many polls fit in the wait: those starting before `maxWaitMs` has elapsed. */
  function PollBudget(maxWaitMs: int): (n: nat)
    ensures forall k: nat :: k < n <==> k * POLL_INTERVAL_MS < maxWaitMs
  {
    if maxWaitMs <= 0 then 0 else (maxWaitMs + POLL_INTERVAL_MS - 1) / POLL_INTERVAL_MS
  }

  /** `waitForScan`: poll `polls(0), polls(1), ...`, one every two seconds, while less than
      `maxWaitMs` has elapsed. `made` is the number of polls sent. The first terminal poll
      decides; if none comes in time the answer is the optimistic `true`. */
  method WaitForScan(polls: nat -> PollReply, maxWaitMs: int) returns (ok: bool, made: nat)
    ensures made <= PollBudget(maxWaitMs)
    ensures forall j :: 0 <= j < made - 1 ==> !Terminal(polls(j))
    ensures made > 0 && Terminal(polls(made - 1)) ==> ok == Verdict(polls(made - 1))
    ensures !(made > 0 && Terminal(polls(made - 1))) ==> made == PollBudget(maxWaitMs) && ok
  {
    var elapsed := 0;
    made := 0;
    while elapsed < maxWaitMs
      invariant elapsed == made * POLL_INTERVAL_MS
      invariant made <= PollBudget(maxWaitMs)
      invariant forall j :: 0 <= j < made ==> !Terminal(polls(j))
      decreases maxWaitMs - elapsed
    {
      var reply := polls(made);
      made := made + 1;
      if reply.PollBody? && reply.status == Some("Finished") {
        ok := reply.success.GetOr(false);
        return;
      }
      if reply.PollBody? && reply.status == Some("Failed") {
        ok := false;
        return;
      }
      elapsed := elapsed + POLL_INTERVAL_MS;
    }
    ok := true;
  }

  /** With the default wait, at most fifteen polls are sent. */
  lemma DefaultWaitPolls()
    ensures PollBudget(MAX_WAIT_MS) == 15
  {
  }

  datatype ScanResult = ScanResult(uuid: string, screenshotUrl: string)

  /** The requests `scanUrl` makes, in order. */
  datatype ScannerCall = SearchCall | CreateCall | PollCall

  /** The result for a scan: its uuid and the application's own screenshot route. */
  function Proxied(uuid: string): ScanResult
  {
    ScanResult(uuid, "/api/screenshot/" + uuid)
  }

  /** The search found a recent scan with a (truthy) uuid, so no new scan is made. */
  predicate Reused(search: SearchReply, now: int) {
    var found := FindExistingScan(search, now);
    found.Some? && found.value != ""
  }

  /** `scanUrl`. Returns the result and the requests it made. Without a token nothing is
      requested; a recent scan is reused without creating one; a refused creation gives
      nothing; otherwise the new scan's proxy path is returned whatever the wait said. */
  method ScanUrl(hasToken: bool, search: SearchReply, now: int, create: CreateReply, polls: nat -> PollReply)
    returns (r: Option<ScanResult>, calls: seq<ScannerCall>)
    ensures !hasToken ==> r == None && calls == []
    ensures hasToken && Reused(search, now) ==>
      r == Some(Proxied(FindExistingScan(search, now).value)) && calls == [SearchCall]
    ensures hasToken && !Reused(search, now) && CreateScan(create).None? ==>
      r == None && calls == [SearchCall, CreateCall]
    ensures hasToken && !Reused(search, now) && CreateScan(create).Some? ==>
      && r == Some(Proxied(CreateScan(create).value))
      && |calls| >= 2 && calls[..2] == [SearchCall, CreateCall]
      && |calls| - 2 <= PollBudget(MAX_WAIT_MS)
      && forall i :: 2 <= i < |calls| ==> calls[i] == PollCall
  {
    if !hasToken {
      return None, [];
    }
    var uuid := FindExistingScan(search, now);
    calls := [SearchCall];
    if uuid.Some? && uuid.value != "" {
      return Some(Proxied(uuid.value)), calls;
    }
    uuid := CreateScan(create);
    calls := calls + [CreateCall];
    if !(uuid.Some? && uuid.value != "") {
      return None, calls;
    }
    var finished, made := WaitForScan(polls, MAX_WAIT_MS);
    calls := calls + seq(made, _ => PollCall);
    r := Some(Proxied(uuid.value));
  }

  /** A second scan of a URL within a day of the first, when the search lists the first
      scan, returns the same screenshot without creating another scan. */
  method ScanTwiceWithinADay(create: CreateReply, polls: nat -> PollReply, firstAt: int, secondAt: int, status: string)
    returns (first: Option<ScanResult>, second: Option<ScanResult>, secondCalls: seq<ScannerCall>)
    requires CreateScan(create).Some?
    requires firstAt <= secondAt < firstAt + ONE_DAY_MS
    ensures first.Some? && second == first && CreateCall !in secondCalls
  {
    var firstCalls;
    first, firstCalls := ScanUrl(true, SearchBody(true, Some([])), firstAt, create, polls);
    var listed := Task(first.value.uuid, Some(firstAt), status);
    second, secondCalls := ScanUrl(true, SearchBody(true, Some([listed])), secondAt, create, polls);
  }
}
