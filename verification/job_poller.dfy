/**
 The preview page's job-status poll loop as a pure state machine.

 The page's effect issues a status request; a reply with status `completed`
 leads to exactly one results request, `failed` stops with an error, any
 other status re-polls after 2000 ms, and a failed status request retries
 after 5000 ms. Teardown sets a `cancelled` flag and clears the armed timer.

 Network replies, timer expiry and teardown are the machine's input events;
 the requests it issues and the timers it arms are recorded in a log of
 effects. The observable page state is the `View`.
 */
module JobPoller {
  import opened Wrappers
  import opened Assets

  const NoJobIdError: string := "No job ID provided"
  const JobFailedError: string := "Generation job failed"
  const ResultsError: string := "Failed to load generated assets"

  /** Re-poll delay after a non-terminal status, in milliseconds. */
  const PollDelay: nat := 2000
  /** Retry delay after a failed status request, in milliseconds. */
  const RetryDelay: nat := 5000

  /** A status reply body; either field may be missing. */
  datatype StatusBody = StatusBody(status: Option<string>, progress: Option<int>)

  /** What can happen to the poller. */
  datatype Event =
    | StatusReply(body: Option<StatusBody>)     // the status request resolved
    | StatusThrows                              // the status request rejected
    | ResultsReply(results: Option<JobResults>) // the results request resolved
    | ResultsThrows                             // the results request rejected
    | TimerFires                                // the armed timeout expired
    | Teardown                                  // the effect's cleanup ran

  /** What the poller does to the outside world. */
  datatype Effect = GetStatus | GetResults | SetTimer(ms: nat)

  /** What the poller is waiting for. */
  datatype Pending = Nothing | StatusCall | Timer | ResultsCall

  /** The page state the poller writes. */
  datatype View = View(
    jobStatus: string,
    jobProgress: int,
    jobResults: JobResults,
    error: string,
    loading: bool,
    openPlatforms: seq<string>)

  datatype Poller = Poller(view: View, cancelled: bool, pending: Pending, log: seq<Effect>)

  /** `statusResponse?.status || 'running'`. */
  function StatusOf(body: Option<StatusBody>): (r: string)
    ensures body.None? || body.value.status.None? || body.value.status.value == "" ==> r == "running"
    ensures body.Some? && body.value.status.Some? && body.value.status.value != "" ==> r == body.value.status.value
    ensures r != "running" ==> body.Some? && body.value.status == Some(r)
    ensures r != ""
  {
    if body.Some? && body.value.status.Some? && body.value.status.value != "" then body.value.status.value
    else "running"
  }

  /** `statusResponse?.progress || 0`. */
  function ProgressOf(body: Option<StatusBody>): (r: int)
    ensures body.None? || body.value.progress.None? ==> r == 0
    ensures body.Some? && body.value.progress.Some? ==> r == body.value.progress.value
  {
    if body.Some? && body.value.progress.Some? then body.value.progress.value else 0
  }

  /** A cancelled poller has no armed timer: teardown clears it. */
  predicate Consistent(p: Poller) {
    p.cancelled ==> !p.pending.Timer?
  }

  /** The effect body: with no job id it reports the error and stops; else it
      sets `loading` and issues the first status request. */
  function Start(jobId: string, v: View): (p: Poller)
    ensures Consistent(p) && !p.cancelled
    ensures jobId == "" ==> p.pending == Nothing && p.log == []
    ensures jobId != "" ==> p.pending == StatusCall && p.log == [GetStatus] && p.view.loading
  {
    if jobId == "" then Poller(v.(error := NoJobIdError, loading := false), false, Nothing, [])
    else Poller(v.(loading := true), false, StatusCall, [GetStatus])
  }

  /** The status-reply branch of `pollJobStatus`, not cancelled. */
  function OnStatus(p: Poller, body: Option<StatusBody>): Poller {
    var status := StatusOf(body);
    var v := p.view.(jobStatus := status, jobProgress := ProgressOf(body));
    if status == "completed" then
      Poller(v, p.cancelled, ResultsCall, p.log + [GetResults])
    else if status == "failed" then
      Poller(v.(error := JobFailedError, loading := false), p.cancelled, Nothing, p.log)
    else
      Poller(v, p.cancelled, Timer, p.log + [SetTimer(PollDelay)])
  }

  /** The results-reply branch, not cancelled: store the results (an empty
      object for a null reply), stop loading, expand the first platform. */
  function OnResults(v: View, results: Option<JobResults>): View {
    var stored := results.GetOr([]);
    var first := FirstPlatform(stored);
    v.(jobResults := stored,
       loading := false,
       openPlatforms := if first.Some? then [first.value] else v.openPlatforms)
  }

  /** One event. An event the poller is not waiting for changes nothing. */
  function Step(p: Poller, e: Event): (r: Poller)
    ensures p.cancelled ==> r.cancelled
    ensures e.Teardown? ==> r.cancelled
    ensures p.pending.Nothing? ==> r.view == p.view && r.log == p.log && r.pending.Nothing?
    ensures |p.log| <= |r.log| <= |p.log| + 1 && r.log[..|p.log|] == p.log
    ensures Consistent(p) ==> Consistent(r)
  {
    match e
    case Teardown =>
      p.(cancelled := true, pending := if p.pending.Timer? then Nothing else p.pending)
    case TimerFires =>
      if p.pending.Timer? then p.(pending := StatusCall, log := p.log + [GetStatus]) else p
    case StatusReply(body) =>
      if !p.pending.StatusCall? then p
      else if p.cancelled then p.(pending := Nothing)
      else OnStatus(p, body)
    case StatusThrows =>
      if !p.pending.StatusCall? then p
      else if p.cancelled then p.(pending := Nothing)
      else p.(pending := Timer, log := p.log + [SetTimer(RetryDelay)])
    case ResultsReply(results) =>
      if !p.pending.ResultsCall? then p
      else if p.cancelled then p.(pending := Nothing)
      else p.(view := OnResults(p.view, results), pending := Nothing)
    case ResultsThrows =>
      // the page sets this error without looking at `cancelled`
      if !p.pending.ResultsCall? then p
      else p.(view := p.view.(error := ResultsError, loading := false), pending := Nothing)
  }

  /** A sequence of events, in order. */
  function Run(p: Poller, es: seq<Event>): Poller
    decreases |es|
  {
    if |es| == 0 then p else Run(Step(p, es[0]), es[1..])
  }

  /** Running `a` then `b` is running `a + b`. */
  lemma {:induction false} RunConcat(p: Poller, a: seq<Event>, b: seq<Event>)
    ensures Run(p, a + b) == Run(Run(p, a), b)
    decreases |a|
  {
    if |a| == 0 {
      assert a + b == b;
    } else {
      assert (a + b)[0] == a[0] && (a + b)[1..] == a[1..] + b;
      RunConcat(Step(p, a[0]), a[1..], b);
    }
  }

  // ---------------------------------------------------------------------
  // Counting what was done
  // ---------------------------------------------------------------------

  /** How often `e` occurs in the log. */
  function Count(log: seq<Effect>, e: Effect): nat {
    if |log| == 0 then 0 else (if log[0] == e then 1 else 0) + Count(log[1..], e)
  }

  lemma {:induction false} CountConcat(a: seq<Effect>, b: seq<Effect>, e: Effect)
    ensures Count(a + b, e) == Count(a, e) + Count(b, e)
  {
    if |a| == 0 {
      assert a + b == b;
    } else {
      assert (a + b)[1..] == a[1..] + b;
      CountConcat(a[1..], b, e);
    }
  }

  /** The delays of the timers armed, in order. */
  function Delays(log: seq<Effect>): seq<nat> {
    if |log| == 0 then []
    else (if log[0].SetTimer? then [log[0].ms] else []) + Delays(log[1..])
  }

  lemma {:induction false} DelaysConcat(a: seq<Effect>, b: seq<Effect>)
    ensures Delays(a + b) == Delays(a) + Delays(b)
  {
    if |a| == 0 {
      assert a + b == b;
    } else {
      assert (a + b)[1..] == a[1..] + b;
      DelaysConcat(a[1..], b);
    }
  }

  // ---------------------------------------------------------------------
  // Properties
  // ---------------------------------------------------------------------

  /** A poller waiting for nothing stays as it is, whatever happens. */
  lemma {:induction false} QuiescentStaysQuiet(p: Poller, es: seq<Event>)
    requires p.pending.Nothing?
    ensures Run(p, es).view == p.view
    ensures Run(p, es).log == p.log
    ensures Run(p, es).pending.Nothing?
    decreases |es|
  {
    if |es| > 0 {
      QuiescentStaysQuiet(Step(p, es[0]), es[1..]);
    }
  }

  /** With no job id the page shows "No job ID provided", stops loading and
      never issues a request or arms a timer. */
  lemma NoJobIdNeverPolls(v: View, es: seq<Event>)
    ensures Run(Start("", v), es).view.error == NoJobIdError
    ensures !Run(Start("", v), es).view.loading
    ensures Run(Start("", v), es).log == []
  {
    QuiescentStaysQuiet(Start("", v), es);
  }

  /** A reply without `status` counts as `running`, one without `progress` as
      0, and the poller re-polls after 2000 ms. */
  lemma MissingFieldsMeanRunning(p: Poller, body: Option<StatusBody>)
    requires p.pending.StatusCall? && !p.cancelled
    requires body.None? || body.value.status.None?
    ensures Step(p, StatusReply(body)).view.jobStatus == "running"
    ensures body.None? || body.value.progress.None? ==> Step(p, StatusReply(body)).view.jobProgress == 0
    ensures Step(p, StatusReply(body)).pending.Timer?
    ensures Step(p, StatusReply(body)).log == p.log + [SetTimer(PollDelay)]
    ensures Step(Step(p, StatusReply(body)), TimerFires).log == p.log + [SetTimer(PollDelay), GetStatus]
  {
  }

  /** A status that is neither `completed` nor `failed`. */
  predicate NonTerminal(body: Option<StatusBody>) {
    StatusOf(body) != "completed" && StatusOf(body) != "failed"
  }

  /** One polling round that does not end the loop: a non-terminal reply or a
      failed status request, then the timer that it armed fires. */
  datatype Round = Replied(body: Option<StatusBody>) | Threw

  predicate RoundOk(r: Round) {
    r.Replied? ==> NonTerminal(r.body)
  }

  /** The events of one round. */
  function EventsOf(round: Round): seq<Event> {
    if round.Replied? then [StatusReply(round.body), TimerFires] else [StatusThrows, TimerFires]
  }

  /** The delay a round waits: 2000 ms after a reply, 5000 ms after an
      error. */
  function DelayOf(round: Round): nat {
    if round.Replied? then PollDelay else RetryDelay
  }

  function RoundEvents(rounds: seq<Round>): seq<Event> {
    if |rounds| == 0 then [] else EventsOf(rounds[0]) + RoundEvents(rounds[1..])
  }

  function RoundDelays(rounds: seq<Round>): seq<nat> {
    if |rounds| == 0 then [] else [DelayOf(rounds[0])] + RoundDelays(rounds[1..])
  }

  /** What the rounds add to the log: per round, a timer and then a status
      request. */
  function RoundsLog(rounds: seq<Round>): seq<Effect> {
    if |rounds| == 0 then [] else [SetTimer(DelayOf(rounds[0])), GetStatus] + RoundsLog(rounds[1..])
  }

  /** The rounds' log holds one status request per round, no results request,
      and the rounds' delays in order. */
  lemma {:induction false} RoundsLogCounts(rounds: seq<Round>)
    ensures Count(RoundsLog(rounds), GetStatus) == |rounds|
    ensures Count(RoundsLog(rounds), GetResults) == 0
    ensures Delays(RoundsLog(rounds)) == RoundDelays(rounds)
  {
    if |rounds| > 0 {
      RoundsLogCounts(rounds[1..]);
      var added := [SetTimer(DelayOf(rounds[0])), GetStatus];
      CountConcat(added, RoundsLog(rounds[1..]), GetStatus);
      CountConcat(added, RoundsLog(rounds[1..]), GetResults);
      DelaysConcat(added, RoundsLog(rounds[1..]));
      assert added[1..] == [GetStatus] && added[1..][1..] == [];
      assert Delays(added[1..]) == [];
      assert Count(added[1..], GetStatus) == 1 && Count(added[1..], GetResults) == 0;
    }
  }

  /** One non-terminal round arms one timer and issues one status request. */
  lemma OneRound(p: Poller, round: Round)
    requires p.pending.StatusCall? && !p.cancelled
    requires RoundOk(round)
    ensures var q := Run(p, EventsOf(round));
      && q.pending.StatusCall? && !q.cancelled
      && q.view.error == p.view.error
      && q.view.loading == p.view.loading
      && q.view.jobResults == p.view.jobResults
      && q.view.openPlatforms == p.view.openPlatforms
      && q.log == p.log + [SetTimer(DelayOf(round)), GetStatus]
  {
    var es := EventsOf(round);
    assert es[1..] == [TimerFires];
    var p1 := Step(p, es[0]);
    assert Run(p, es) == Run(p1, [TimerFires]) == Step(p1, TimerFires);
    assert p1.log == p.log + [SetTimer(DelayOf(round))];
  }

  /** Non-terminal rounds keep the poller polling: each adds one timer and
      one status request, and leaves the error, results, loading flag and
      open platforms alone. */
  lemma {:induction false} RoundsKeepPolling(p: Poller, rounds: seq<Round>)
    requires p.pending.StatusCall? && !p.cancelled
    requires forall k :: 0 <= k < |rounds| ==> RoundOk(rounds[k])
    ensures var q := Run(p, RoundEvents(rounds));
      && q.pending.StatusCall? && !q.cancelled
      && q.view.error == p.view.error
      && q.view.loading == p.view.loading
      && q.view.jobResults == p.view.jobResults
      && q.view.openPlatforms == p.view.openPlatforms
      && q.log == p.log + RoundsLog(rounds)
    decreases |rounds|
  {
    if |rounds| > 0 {
      OneRound(p, rounds[0]);
      var p1 := Run(p, EventsOf(rounds[0]));
      assert p.log + RoundsLog(rounds) == p1.log + RoundsLog(rounds[1..]);
      RunConcat(p, EventsOf(rounds[0]), RoundEvents(rounds[1..]));
      assert forall k :: 0 <= k < |rounds| - 1 ==> RoundOk(rounds[1..][k]) by {
        forall k | 0 <= k < |rounds| - 1 ensures RoundOk(rounds[1..][k]) {
          assert rounds[1..][k] == rounds[k + 1];
        }
      }
      RoundsKeepPolling(p1, rounds[1..]);
    }
  }

  /** A `completed` reply then the results reply: one results request and
      the results stored. */
  lemma Completion(p: Poller, done: Option<StatusBody>, results: Option<JobResults>)
    requires p.pending.StatusCall? && !p.cancelled
    requires StatusOf(done) == "completed"
    ensures var q := Run(p, [StatusReply(done), ResultsReply(results)]);
      && q.log == p.log + [GetResults]
      && q.view.jobStatus == "completed"
      && q.view.jobResults == results.GetOr([])
      && !q.view.loading
      && q.view.error == p.view.error
      && q.pending.Nothing?
  {
    var es := [StatusReply(done), ResultsReply(results)];
    assert es[1..] == [ResultsReply(results)];
    var p1 := Step(p, es[0]);
    assert Run(p, es) == Run(p1, [ResultsReply(results)]) == Step(p1, ResultsReply(results));
  }

  /** The log of a loop that polled through `rounds` and then completed. */
  function CompletedLog(rounds: seq<Round>): seq<Effect> {
    [GetStatus] + RoundsLog(rounds) + [GetResults]
  }

  /** Such a log holds N + 1 status requests, one results request, and the
      rounds' delays. */
  lemma CompletedLogCounts(rounds: seq<Round>)
    ensures Count(CompletedLog(rounds), GetStatus) == |rounds| + 1
    ensures Count(CompletedLog(rounds), GetResults) == 1
    ensures Delays(CompletedLog(rounds)) == RoundDelays(rounds)
  {
    RoundsLogCounts(rounds);
    CountConcat([GetStatus] + RoundsLog(rounds), [GetResults], GetStatus);
    CountConcat([GetStatus] + RoundsLog(rounds), [GetResults], GetResults);
    CountConcat([GetStatus], RoundsLog(rounds), GetStatus);
    CountConcat([GetStatus], RoundsLog(rounds), GetResults);
    DelaysConcat([GetStatus] + RoundsLog(rounds), [GetResults]);
    DelaysConcat([GetStatus], RoundsLog(rounds));
    assert [GetResults][1..] == [] && [GetStatus][1..] == [];
    assert Delays([GetResults]) == [] && Delays([GetStatus]) == [];
  }

  /** The page's loop through N non-terminal rounds and a `completed` reply:
      the log and the final page state. */
  lemma {:induction false} RoundsThenCompleted(jobId: string, v: View, rounds: seq<Round>, done: Option<StatusBody>, results: Option<JobResults>)
    requires jobId != ""
    requires forall k :: 0 <= k < |rounds| ==> RoundOk(rounds[k])
    requires StatusOf(done) == "completed"
    ensures var q := Run(Start(jobId, v), RoundEvents(rounds) + [StatusReply(done), ResultsReply(results)]);
      && q.log == CompletedLog(rounds)
      && q.view.jobStatus == "completed"
      && q.view.jobResults == results.GetOr([])
      && !q.view.loading
      && q.view.error == v.error
      && q.pending.Nothing?
  {
    var p := Start(jobId, v);
    RoundsKeepPolling(p, rounds);
    var p1 := Run(p, RoundEvents(rounds));
    RunConcat(p, RoundEvents(rounds), [StatusReply(done), ResultsReply(results)]);
    Completion(p1, done, results);
  }

  /** N non-terminal rounds then `completed`: exactly N + 1 status requests,
      exactly one results request, the stored results are the reply (or an
      empty object for null), and loading is over. */
  lemma {:induction false} CompletesAfterRounds(jobId: string, v: View, rounds: seq<Round>, done: Option<StatusBody>, results: Option<JobResults>)
    requires jobId != ""
    requires forall k :: 0 <= k < |rounds| ==> RoundOk(rounds[k])
    requires StatusOf(done) == "completed"
    ensures var q := Run(Start(jobId, v), RoundEvents(rounds) + [StatusReply(done), ResultsReply(results)]);
      && Count(q.log, GetStatus) == |rounds| + 1
      && Count(q.log, GetResults) == 1
      && Delays(q.log) == RoundDelays(rounds)
      && q.view.jobStatus == "completed"
      && q.view.jobResults == results.GetOr([])
      && !q.view.loading
      && q.view.error == v.error
      && q.pending.Nothing?
  {
    RoundsThenCompleted(jobId, v, rounds, done, results);
    CompletedLogCounts(rounds);
  }

  /** After the results load, the first platform is the only open one when
      its key is a non-empty string; otherwise the open platforms stay. */
  lemma ResultsExpandFirstPlatform(p: Poller, results: Option<JobResults>)
    requires p.pending.ResultsCall? && !p.cancelled
    ensures var r := Step(p, ResultsReply(results)).view;
      && (|results.GetOr([])| > 0 && results.GetOr([])[0].platform != "" ==> r.openPlatforms == [results.GetOr([])[0].platform])
      && (|results.GetOr([])| == 0 || results.GetOr([])[0].platform == "" ==> r.openPlatforms == p.view.openPlatforms)
  {
  }

  /** `failed` ends the loop with "Generation job failed": no results request
      and no further status request or timer, whatever happens next. */
  lemma FailedIsTerminal(p: Poller, body: Option<StatusBody>, es: seq<Event>)
    requires p.pending.StatusCall? && !p.cancelled
    requires StatusOf(body) == "failed"
    ensures var q := Run(Step(p, StatusReply(body)), es);
      && q.view.error == JobFailedError
      && !q.view.loading
      && q.log == p.log
  {
    QuiescentStaysQuiet(Step(p, StatusReply(body)), es);
  }

  /** A failed status request is never terminal: it schedules a retry after
      5000 ms, which then re-polls; once cancelled it schedules nothing. The
      page state is untouched either way. */
  lemma StatusErrorRetries(p: Poller)
    requires p.pending.StatusCall?
    ensures Step(p, StatusThrows).view == p.view
    ensures !p.cancelled ==> Step(p, StatusThrows).log == p.log + [SetTimer(RetryDelay)]
    ensures !p.cancelled ==> Step(Step(p, StatusThrows), TimerFires).pending.StatusCall?
    ensures p.cancelled ==> Step(p, StatusThrows).log == p.log && Step(p, StatusThrows).pending.Nothing?
  {
  }

  /** The only page-state change a cancelled poller can still make: the
      results-error branch. */
  predicate OnlyResultsError(before: View, after: View) {
    after == before || after == before.(error := ResultsError, loading := false)
  }

  /** After teardown the poller issues no request and arms no timer, and the
      page state changes at most by the results error. */
  lemma {:induction false} CancelledStaysQuiet(p: Poller, es: seq<Event>)
    requires p.cancelled && Consistent(p)
    ensures Run(p, es).log == p.log
    ensures OnlyResultsError(p.view, Run(p, es).view)
    decreases |es|
  {
    if |es| > 0 {
      var p1 := Step(p, es[0]);
      CancelledStaysQuiet(p1, es[1..]);
    }
  }

  /** Teardown from any consistent state: nothing further is requested, and
      a status reply still in flight is ignored. */
  lemma TeardownStopsPolling(p: Poller, es: seq<Event>)
    requires Consistent(p)
    ensures Run(p, [Teardown] + es).log == p.log
    ensures OnlyResultsError(p.view, Run(p, [Teardown] + es).view)
  {
    assert ([Teardown] + es)[1..] == es;
    CancelledStaysQuiet(Step(p, Teardown), es);
  }

  /** The results-error branch sets its error even after teardown. */
  lemma ResultsErrorIgnoresTeardown(p: Poller)
    requires p.pending.ResultsCall?
    ensures Run(p, [Teardown, ResultsThrows]).view.error == ResultsError
    ensures !Run(p, [Teardown, ResultsThrows]).view.loading
  {
  }
}
