/** The client's scan poller (`WebsiteManager`): `handleScan` starts a scan,
    `poll`/`tick` follow it until the backend reports it done, it fails, or
    the attempts run out, and `resumeActiveScans` picks up the scans the
    session store still lists after a remount.

    A tick is asynchronous: it shows progress and sends the status request,
    and what follows runs when the reply arrives, by which time the component
    may have been unmounted. The model therefore splits it in two: `Poll` is
    the part before the request and `SettleMeta` the part after the reply,
    with the requests in flight held in `inflight`. Pending `setTimeout`
    callbacks are held in `timers` by handle. Wall-clock time, the replies
    and the thrown messages are parameters. */
module PollController {
  import opened Wrappers
  import opened ActiveScansStore

  const MaxScanMinutes: nat := 10
  const PollEveryMs: nat := 2000
  const RetryDelayMs: nat := 3000
  const FollowUpDelayMs: nat := 1200

  /** `Math.ceil(a / b)` for natural numbers. */
  function CeilDiv(a: nat, b: nat): (q: nat)
    requires b > 0
    ensures q * b >= a
    ensures q == 0 || (q - 1) * b < a
  {
    (a + b - 1) / b
  }

  /** `maxAttempts`: ten minutes of polls every two seconds. */
  const MaxAttempts: nat := 300

  lemma MaxAttemptsIsCeiling()
    ensures MaxAttempts == CeilDiv(MaxScanMinutes * 60 * 1000, PollEveryMs)
  {
  }

  // ---- progress shown per website ----------------------------------------

  datatype ProgressStatus = Starting | Scanning | Completed | TimedOut | Retrying | Errored

  /** One entry of `scanProgress`; the message texts are not modelled. */
  datatype Progress = Progress(status: ProgressStatus, pct: real)

  const StartingPct: real := 10.0
  const ResumingPct: real := 12.0
  const ScanningCapPct: real := 94.0
  const TimeoutPct: real := 95.0
  const CompletedPct: real := 100.0
  const ErrorPct: real := 0.0

  /** `pct`: the optimistic progress of the tick numbered `nextAttempt`,
      `min(nextAttempt / maxAttempts * 94, 94)`, as an exact rational. */
  function Pct(nextAttempt: nat): (p: real)
    ensures 0.0 <= p <= ScanningCapPct
    ensures p == ScanningCapPct <==> nextAttempt >= MaxAttempts
    ensures nextAttempt > 0 ==> p > 0.0
  {
    var raw := (nextAttempt as real) / (MaxAttempts as real) * ScanningCapPct;
    if raw < ScanningCapPct then raw else ScanningCapPct
  }

  /** Progress never goes back from one tick to the next. */
  lemma PctMonotone(a: nat, b: nat)
    requires a <= b
    ensures Pct(a) <= Pct(b)
  {
  }

  /** The first tick of a resumed scan shows less than the 12 % baseline it
      overwrites. */
  lemma FirstTickBelowResumeBaseline()
    ensures Pct(1) < ResumingPct
  {
  }

  /** Every entry a controller can show: within 0..100, and at most 94 while
      scanning. */
  predicate ProgressInRange(p: Progress) {
    0.0 <= p.pct <= 100.0 && (p.status == Scanning ==> p.pct <= ScanningCapPct)
  }

  // ---- which errors are retried ------------------------------------------

  /** ASCII case folding, which is what a case-insensitive JavaScript regular
      expression of ASCII letters (without the `u` flag) amounts to. */
  function Lower(c: char): char {
    if 'A' <= c <= 'Z' then ((c as int) + 32) as char else c
  }

  function Fold(s: string): (r: string)
    ensures |r| == |s|
    ensures forall i :: 0 <= i < |s| ==> r[i] == Lower(s[i])
  {
    seq(|s|, i requires 0 <= i < |s| => Lower(s[i]))
  }

  /** `p` occurs in `s` at index `i`. */
  predicate OccursAt(s: string, p: string, i: int) {
    0 <= i <= |s| - |p| && s[i..i + |p|] == p
  }

  /** `p` occurs in `s`, found by trying each start in turn. */
  predicate HasInfix(s: string, p: string)
    decreases |s|
  {
    |p| <= |s| && (s[..|p|] == p || HasInfix(s[1..], p))
  }

  /** The search agrees with the plain definition of an occurrence. */
  lemma {:induction false} HasInfixIffOccurs(s: string, p: string)
    ensures HasInfix(s, p) <==> exists i :: OccursAt(s, p, i)
  {
    if |p| <= |s| && s[..|p|] != p {
      HasInfixIffOccurs(s[1..], p);
      if exists i :: OccursAt(s, p, i) {
        var i :| OccursAt(s, p, i);
        assert i > 0;
        assert OccursAt(s[1..], p, i - 1) by {
          assert s[1..][i - 1..i - 1 + |p|] == s[i..i + |p|];
        }
      }
      if HasInfix(s[1..], p) {
        var j :| OccursAt(s[1..], p, j);
        assert OccursAt(s, p, j + 1) by {
          assert s[1..][j..j + |p|] == s[j + 1..j + 1 + |p|];
        }
      }
    } else if |p| <= |s| {
      assert OccursAt(s, p, 0);
    }
  }

  /** Every character of a pattern that occurs in `s` is a character of `s`. */
  lemma OccurrenceCharsInText(s: string, p: string, c: char)
    requires HasInfix(s, p) && c in p
    ensures c in s
  {
    HasInfixIffOccurs(s, p);
    var i :| OccursAt(s, p, i);
    var k :| 0 <= k < |p| && p[k] == c;
    assert s[i + k] == s[i..i + |p|][k];
  }

  /** The alternatives of `/502|503|429|network|fetch|timeout/i`. */
  const RetryPatterns: seq<string> := ["502", "503", "429", "network", "fetch", "timeout"]

  predicate AnyInfix(s: string, ps: seq<string>)
    decreases |ps|
  {
    |ps| > 0 && (HasInfix(s, ps[0]) || AnyInfix(s, ps[1..]))
  }

  /** The alternation matches exactly when one of its alternatives does. */
  lemma {:induction false} AnyInfixIffSome(s: string, ps: seq<string>)
    ensures AnyInfix(s, ps) <==> exists i :: 0 <= i < |ps| && HasInfix(s, ps[i])
  {
    if ps != [] {
      AnyInfixIffSome(s, ps[1..]);
      if exists i :: 0 <= i < |ps| && HasInfix(s, ps[i]) {
        var i :| 0 <= i < |ps| && HasInfix(s, ps[i]);
        if i > 0 {
          assert ps[1..][i - 1] == ps[i];
        }
      }
      if AnyInfix(s, ps[1..]) {
        var j :| 0 <= j < |ps| - 1 && HasInfix(s, ps[1..][j]);
        assert ps[j + 1] == ps[1..][j];
      }
    }
  }

  /** The retry test on the error's message (empty when it has none): one of
      the alternatives is a substring of the lower-cased message. */
  predicate Retryable(message: string): (r: bool)
    ensures r <==> exists i :: 0 <= i < |RetryPatterns| && HasInfix(Fold(message), RetryPatterns[i])
  {
    AnyInfixIffSome(Fold(message), RetryPatterns);
    AnyInfix(Fold(message), RetryPatterns)
  }

  /** A message is retried when one alternative occurs in it, ignoring case. */
  lemma RetryableIffAlternativeOccurs(message: string)
    ensures Retryable(message) <==>
      exists i, j :: 0 <= i < |RetryPatterns| && OccursAt(Fold(message), RetryPatterns[i], j)
  {
    AnyInfixIffSome(Fold(message), RetryPatterns);
    forall i | 0 <= i < |RetryPatterns| {
      HasInfixIffOccurs(Fold(message), RetryPatterns[i]);
    }
  }

  /** The error a tick throws itself when the backend reports `'error'`. */
  const BackendFailure: string := "Scan failed on backend"
  const ScanFailedDefault: string := "Scan failed"
  const StartFailedDefault: string := "Failed to start scan"
  const LoadFailedDefault: string := "Failed to load websites"
  const TimeoutMessage: string := "Scan timed out after 10 minutes. It may still be running."

  /** The backend's own failure is not retried: each alternative has a
      character its folded text lacks. */
  lemma BackendFailureNotRetryable()
    ensures !Retryable(BackendFailure)
  {
    var folded := Fold(BackendFailure);
    // its characters are spaces and the letters a to s
    assert forall k :: 0 <= k < |folded| ==> folded[k] == ' ' || 'a' <= folded[k] <= 's';
    AnyInfixIffSome(folded, RetryPatterns);
    if Retryable(BackendFailure) {
      var i :| 0 <= i < |RetryPatterns| && HasInfix(folded, RetryPatterns[i]);
      var c := if i == 0 || i == 1 then '5' else if i == 2 then '4' else if i == 3 then 'w' else 't';
      assert c in RetryPatterns[i];
      OccurrenceCharsInText(folded, RetryPatterns[i], c);
      assert false;
    }
  }

  /** An alternative found at a given index makes the message retried. */
  lemma RetryableWitness(message: string, i: nat, j: nat)
    requires i < |RetryPatterns| && OccursAt(Fold(message), RetryPatterns[i], j)
    ensures Retryable(message)
  {
    RetryableIffAlternativeOccurs(message);
  }

  /** Gateway errors, rate limiting and a browser's failed fetch are retried,
      whatever their case. */
  lemma TransientErrorsRetryable()
    ensures Retryable("HTTP 502") && Retryable("HTTP 503") && Retryable("HTTP 429")
    ensures Retryable("Failed to fetch") && Retryable("Request TIMEOUT")
  {
    assert Fold("HTTP 502")[5..8] == "502";
    RetryableWitness("HTTP 502", 0, 5);
    assert Fold("HTTP 503")[5..8] == "503";
    RetryableWitness("HTTP 503", 1, 5);
    assert Fold("HTTP 429")[5..8] == "429";
    RetryableWitness("HTTP 429", 2, 5);
    assert Fold("Failed to fetch")[10..15] == "fetch";
    RetryableWitness("Failed to fetch", 4, 10);
    assert Fold("Request TIMEOUT")[8..15] == "timeout";
    RetryableWitness("Request TIMEOUT", 5, 8);
  }

  /** `e?.message || fallback`. */
  function OrDefault(message: string, fallback: string): (m: string)
    ensures m != "" <== fallback != ""
    ensures message != "" ==> m == message
    ensures message == "" ==> m == fallback
  {
    if message == "" then fallback else message
  }

  // ---- one tick, as a decision -------------------------------------------

  /** What a status request gives: the reply's `status` (None when the reply
      or its status is missing or not a string), or an error with its
      message. */
  datatype MetaOutcome = Meta(status: Option<string>) | Threw(message: string)

  /** How a tick ends. `Reschedule` carries the attempt of the next tick, the
      delay and whether it is the retry branch. */
  datatype Decision =
    | Complete
    | Fail(error: string)
    | TimeOut
    | Reschedule(next: nat, delayMs: nat, retrying: bool)

  /** The `catch` branch of a tick. */
  function Caught(attempt: nat, message: string): (d: Decision)
    ensures d.Reschedule? <==> Retryable(message) && attempt < MaxAttempts
    ensures d.Reschedule? ==> d == Reschedule(attempt + 1, RetryDelayMs, true)
    ensures d.Fail? ==> d.error == OrDefault(message, ScanFailedDefault)
    ensures d.Reschedule? || d.Fail?
  {
    if Retryable(message) && attempt < MaxAttempts then Reschedule(attempt + 1, RetryDelayMs, true)
    else Fail(OrDefault(message, ScanFailedDefault))
  }

  /** The tick of attempt `attempt`, once its request has an outcome. */
  function Step(attempt: nat, outcome: MetaOutcome): (d: Decision)
    ensures d.Reschedule? ==> d.next == attempt + 1 && d.next <= MaxAttempts
    ensures attempt >= MaxAttempts ==> !d.Reschedule?
    ensures outcome == Meta(Some("done")) ==> d == Complete
    ensures d == Complete ==> outcome == Meta(Some("done"))
    ensures d == TimeOut ==> outcome.Meta? && attempt + 1 >= MaxAttempts
    ensures outcome.Threw? ==> d == Caught(attempt, outcome.message)
  {
    match outcome
    case Meta(status) =>
      if status == Some("done") then Complete
      else if status == Some("error") then Caught(attempt, BackendFailure)
      else if attempt + 1 >= MaxAttempts then TimeOut
      else Reschedule(attempt + 1, PollEveryMs, false)
    case Threw(message) => Caught(attempt, message)
  }

  /** A backend `'error'` ends polling at once, on any attempt. */
  lemma ErrorStatusFailsPermanently(attempt: nat)
    ensures Step(attempt, Meta(Some("error"))) == Fail(BackendFailure)
  {
    BackendFailureNotRetryable();
  }

  /** A retried error moves on to the next attempt, as a normal poll does:
      the retry uses up an attempt. */
  lemma RetryConsumesAnAttempt(attempt: nat, message: string)
    requires Retryable(message) && attempt < MaxAttempts
    ensures Step(attempt, Threw(message)) == Reschedule(attempt + 1, RetryDelayMs, true)
  {
  }

  /** A pending status on the last attempt times out instead of polling
      again. */
  lemma PendingStatusTimesOutAtCeiling(attempt: nat, status: Option<string>)
    requires status != Some("done") && status != Some("error")
    ensures Step(attempt, Meta(status)) == (if attempt + 1 >= MaxAttempts then TimeOut
                                           else Reschedule(attempt + 1, PollEveryMs, false))
  {
  }

  /** How many ticks run when successive ticks see `outcomes`, starting at
      `attempt`. */
  function Ticks(attempt: nat, outcomes: seq<MetaOutcome>): nat
    decreases |outcomes|
  {
    if outcomes == [] then 0
    else match Step(attempt, outcomes[0])
      case Reschedule(next, _, _) => 1 + Ticks(next, outcomes[1..])
      case _ => 1
  }

  /** Polling ends: from attempt 0, at most 301 ticks run, whatever the
      replies. */
  lemma {:induction false} TicksBounded(attempt: nat, outcomes: seq<MetaOutcome>)
    requires attempt <= MaxAttempts
    decreases |outcomes|
    ensures Ticks(attempt, outcomes) <= MaxAttempts + 1 - attempt
  {
    if outcomes != [] {
      match Step(attempt, outcomes[0])
      case Reschedule(next, _, _) => TicksBounded(next, outcomes[1..]);
      case _ =>
    }
  }

  /** A reply (as opposed to an error) reschedules only before the last
      attempt. */
  lemma ReplyReschedulesBeforeLast(attempt: nat, outcome: MetaOutcome)
    requires outcome.Meta? && Step(attempt, outcome).Reschedule?
    ensures Step(attempt, outcome).next < MaxAttempts
  {
    if outcome.status == Some("error") {
      ErrorStatusFailsPermanently(attempt);
    }
  }

  /** Without errors, from attempt 0 at most 300 ticks run. */
  lemma {:induction false} TicksWithoutErrorsBounded(attempt: nat, outcomes: seq<MetaOutcome>)
    requires attempt < MaxAttempts
    requires forall i :: 0 <= i < |outcomes| ==> outcomes[i].Meta?
    ensures Ticks(attempt, outcomes) <= MaxAttempts - attempt
    decreases |outcomes|
  {
    if outcomes != [] {
      match Step(attempt, outcomes[0])
      case Reschedule(next, _, _) =>
        ReplyReschedulesBeforeLast(attempt, outcomes[0]);
        TicksWithoutErrorsBounded(next, outcomes[1..]);
      case _ =>
    }
  }

  /** `n` replies with a status that is still pending. */
  function Pending(n: nat): (r: seq<MetaOutcome>)
    ensures |r| == n && forall i :: 0 <= i < n ==> r[i] == Meta(None)
  {
    if n == 0 then [] else [Meta(None)] + Pending(n - 1)
  }

  /** The bound of 301 is reached: pending replies up to the last attempt, a
      gateway error on it, and one more tick. */
  lemma {:induction false} LastAttemptRetryRunsOneMore(attempt: nat)
    requires attempt < MaxAttempts
    ensures Ticks(attempt, Pending(MaxAttempts - 1 - attempt) + [Threw("HTTP 503"), Meta(None)])
         == MaxAttempts + 1 - attempt
    decreases MaxAttempts - attempt
  {
    var os := Pending(MaxAttempts - 1 - attempt) + [Threw("HTTP 503"), Meta(None)];
    if attempt + 1 < MaxAttempts {
      assert os[0] == Meta(None);
      assert os[1..] == Pending(MaxAttempts - 1 - (attempt + 1)) + [Threw("HTTP 503"), Meta(None)];
      LastAttemptRetryRunsOneMore(attempt + 1);
    } else {
      TransientErrorsRetryable();
      assert os == [Threw("HTTP 503"), Meta(None)];
      assert os[1..] == [Meta(None)];
    }
  }

  // ---- the component ------------------------------------------------------

  /** A pending `setTimeout` callback: the next tick of a scan, or the
      clean-up after a completed one. */
  datatype Callback =
    | TickCall(key: string, scanId: string, startedAt: int, attempt: nat)
    | FollowUp(key: string, scanId: string)

  datatype Timer = Timer(delayMs: nat, call: Callback)

  /** A request whose reply has not been handled yet. */
  datatype Request =
    | MetaFetch(key: string, scanId: string, startedAt: int, attempt: nat)
    | StartRequest(key: string)
    | Reload(key: string)

  /** What `startScan` gives: the new scan's id (empty when it has none), or
      an error with its message. */
  datatype StartOutcome = Started(scanId: string) | StartFailed(message: string)

  /** `startedAt || Date.now()`. */
  function StartOf(a: ActiveScan, now: int): (t: int)
    ensures a.startedAt != 0 ==> t == a.startedAt
    ensures a.startedAt == 0 ==> t == now
  {
    if a.startedAt != 0 then a.startedAt else now
  }

  /** The entries `resumeActiveScans` polls: those with a scan id. */
  predicate Resumable(entries: map<string, ActiveScan>, k: string) {
    k in entries && entries[k].scanId != ""
  }

  /** The first status requests of the resumed entries among `ks`. */
  function ResumedFetches(entries: map<string, ActiveScan>, ks: set<string>, now: int): set<Request> {
    set k | k in ks && Resumable(entries, k) :: MetaFetch(k, entries[k].scanId, StartOf(entries[k], now), 0)
  }

  /** The progress the resumed entries among `ks` show once their first tick
      has started. */
  function ResumedProgress(entries: map<string, ActiveScan>, ks: set<string>): map<string, Progress> {
    map k | k in ks && Resumable(entries, k) :: Progress(Scanning, Pct(1))
  }

  /** Adding one website to the resumed ones adds its request and its
      progress entry, when it has a scan id, and nothing otherwise. */
  lemma ResumeStep(entries: map<string, ActiveScan>, done: set<string>, id: string, now: int,
                   progress0: map<string, Progress>, inflight0: multiset<Request>)
    requires id !in done
    ensures Resumable(entries, id) ==>
      && progress0 + ResumedProgress(entries, done + {id})
         == (progress0 + ResumedProgress(entries, done))[id := Progress(Scanning, Pct(1))]
      && inflight0 + multiset(ResumedFetches(entries, done + {id}, now))
         == inflight0 + multiset(ResumedFetches(entries, done, now))
            + multiset{MetaFetch(id, entries[id].scanId, StartOf(entries[id], now), 0)}
    ensures !Resumable(entries, id) ==>
      && ResumedProgress(entries, done + {id}) == ResumedProgress(entries, done)
      && ResumedFetches(entries, done + {id}, now) == ResumedFetches(entries, done, now)
  {
    if Resumable(entries, id) {
      var f := MetaFetch(id, entries[id].scanId, StartOf(entries[id], now), 0);
      assert ResumedFetches(entries, done + {id}, now) == ResumedFetches(entries, done, now) + {f};
      assert f !in ResumedFetches(entries, done, now);
    }
  }

  class WebsiteManager {
    /** `mountedRef.current`. */
    var mounted: bool
    var scanningIds: set<string>
    var scanProgress: map<string, Progress>
    var error: string
    /** Pending timer callbacks by handle, and the next handle. */
    var timers: map<nat, Timer>
    var nextHandle: nat
    /** `timersRef`: the last poll timer handle set per website. */
    var timersRef: map<string, nat>
    var inflight: multiset<Request>
    /** `activeScansStore` over the session storage. */
    const store: SessionStore

    ghost predicate Valid()
      reads this
    {
      && (forall h :: h in timers ==> h < nextHandle)
      && (forall k :: k in timersRef ==> timersRef[k] < nextHandle)
      && (forall h :: h in timers && timers[h].call.TickCall? ==> timers[h].call.attempt <= MaxAttempts)
      && (forall r :: r in inflight && r.MetaFetch? ==> r.attempt <= MaxAttempts)
      && (forall k :: k in scanProgress ==> ProgressInRange(scanProgress[k]))
    }

    /** The component as its mount effect leaves it. */
    constructor (store: SessionStore)
      ensures Valid() && mounted && this.store == store
      ensures scanningIds == {} && scanProgress == map[] && error == ""
      ensures timers == map[] && timersRef == map[] && inflight == multiset{}
    {
      this.store := store;
      mounted := true;
      scanningIds := {};
      scanProgress := map[];
      error := "";
      timers := map[];
      nextHandle := 0;
      timersRef := map[];
      inflight := multiset{};
    }

    method SetTimeout(delayMs: nat, call: Callback) returns (h: nat)
      requires Valid()
      requires call.TickCall? ==> call.attempt <= MaxAttempts
      modifies this
      ensures Valid()
      ensures h == old(nextHandle) && h !in old(timers)
      ensures timers == old(timers)[h := Timer(delayMs, call)] && nextHandle == h + 1
      ensures mounted == old(mounted) && scanningIds == old(scanningIds)
      ensures scanProgress == old(scanProgress) && error == old(error)
      ensures timersRef == old(timersRef) && inflight == old(inflight)
    {
      h := nextHandle;
      timers := timers[h := Timer(delayMs, call)];
      nextHandle := nextHandle + 1;
    }

    /** `poll` up to the status request: nothing once unmounted; otherwise
        show the tick's progress and send the request. */
    method Poll(key: string, scanId: string, startedAt: int, attempt: nat)
      requires Valid() && attempt <= MaxAttempts
      modifies this
      ensures Valid()
      ensures !old(mounted) ==> unchanged(this)
      ensures old(mounted) ==>
        && scanProgress == old(scanProgress)[key := Progress(Scanning, Pct(attempt + 1))]
        && inflight == old(inflight) + multiset{MetaFetch(key, scanId, startedAt, attempt)}
      ensures mounted == old(mounted) && scanningIds == old(scanningIds) && error == old(error)
      ensures timers == old(timers) && nextHandle == old(nextHandle) && timersRef == old(timersRef)
    {
      if !mounted {
        return;
      }
      var nextAttempt := attempt + 1;
      var pct := Pct(nextAttempt);
      scanProgress := scanProgress[key := Progress(Scanning, pct)];
      inflight := inflight + multiset{MetaFetch(key, scanId, startedAt, attempt)};
    }

    /** The rest of a tick, when the status request's outcome arrives. The
        screen is updated only while mounted; the store entry is deleted and
        the next timer is set either way. */
    method SettleMeta(req: Request, outcome: MetaOutcome)
      requires Valid() && req in inflight && req.MetaFetch?
      modifies this, store
      ensures Valid()
      ensures inflight == old(inflight) - multiset{req}
      ensures mounted == old(mounted)
      ensures !mounted ==> scanningIds == old(scanningIds) && scanProgress == old(scanProgress) && error == old(error)
      ensures
        var key := req.key;
        match Step(req.attempt, outcome)
        case Complete =>
          && timers == old(timers)[old(nextHandle) := Timer(FollowUpDelayMs, FollowUp(key, req.scanId))]
          && nextHandle == old(nextHandle) + 1 && timersRef == old(timersRef)
          && store.stored == old(store.stored)
          && scanningIds == old(scanningIds) && error == old(error)
          && (mounted ==> scanProgress == old(scanProgress)[key := Progress(Completed, CompletedPct)])
        case Fail(message) =>
          && timers == old(timers) && nextHandle == old(nextHandle) && timersRef == old(timersRef)
          && store.stored == DeleteEntry(old(store.stored), key)
          && (mounted ==>
                && error == message
                && scanProgress == old(scanProgress)[key := Progress(Errored, ErrorPct)]
                && scanningIds == old(scanningIds) - {key})
        case TimeOut =>
          && timers == old(timers) && nextHandle == old(nextHandle) && timersRef == old(timersRef)
          && store.stored == DeleteEntry(old(store.stored), key)
          && (mounted ==>
                && error == TimeoutMessage
                && scanProgress == old(scanProgress)[key := Progress(TimedOut, TimeoutPct)]
                && scanningIds == old(scanningIds) - {key})
        case Reschedule(next, delayMs, retrying) =>
          && timers == old(timers)[old(nextHandle) := Timer(delayMs, TickCall(key, req.scanId, req.startedAt, next))]
          && nextHandle == old(nextHandle) + 1
          && timersRef == old(timersRef)[key := old(nextHandle)]
          && store.stored == old(store.stored)
          && scanningIds == old(scanningIds) && error == old(error)
          && (!retrying ==> scanProgress == old(scanProgress))
          && (retrying && mounted ==>
                scanProgress == old(scanProgress)[key := Progress(Retrying,
                  if key in old(scanProgress) then old(scanProgress)[key].pct else ResumingPct)])
    {
      inflight := inflight - multiset{req};
      var key := req.key;
      var d := Step(req.attempt, outcome);
      match d
      case Complete =>
        if mounted {
          scanProgress := scanProgress[key := Progress(Completed, CompletedPct)];
        }
        var _ := SetTimeout(FollowUpDelayMs, FollowUp(key, req.scanId));
      case Fail(message) =>
        EndPolling(key, message, Progress(Errored, ErrorPct));
      case TimeOut =>
        EndPolling(key, TimeoutMessage, Progress(TimedOut, TimeoutPct));
      case Reschedule(next, delayMs, retrying) =>
        ScheduleTick(TickCall(key, req.scanId, req.startedAt, next), delayMs, retrying);
    }

    /** A terminal tick: show the error and the final progress, unlock the
        website (while mounted), and drop its store entry (always). */
    method EndPolling(key: string, message: string, p: Progress)
      requires Valid() && ProgressInRange(p)
      modifies this, store
      ensures Valid()
      ensures store.stored == DeleteEntry(old(store.stored), key)
      ensures mounted == old(mounted) && inflight == old(inflight)
      ensures timers == old(timers) && nextHandle == old(nextHandle) && timersRef == old(timersRef)
      ensures !mounted ==> scanningIds == old(scanningIds) && scanProgress == old(scanProgress) && error == old(error)
      ensures mounted ==>
        && error == message
        && scanProgress == old(scanProgress)[key := p]
        && scanningIds == old(scanningIds) - {key}
    {
      if mounted {
        error := message;
        scanProgress := scanProgress[key := p];
        scanningIds := scanningIds - {key};
      }
      store.Delete(key);
    }

    /** Set the timer of the next tick and remember it in `timersRef`; on the
        retry branch also show `retrying`, keeping the progress (12 when
        there is none). */
    method ScheduleTick(call: Callback, delayMs: nat, retrying: bool)
      requires Valid() && call.TickCall? && call.attempt <= MaxAttempts
      modifies this
      ensures Valid()
      ensures timers == old(timers)[old(nextHandle) := Timer(delayMs, call)]
      ensures nextHandle == old(nextHandle) + 1
      ensures timersRef == old(timersRef)[call.key := old(nextHandle)]
      ensures mounted == old(mounted) && inflight == old(inflight)
      ensures scanningIds == old(scanningIds) && error == old(error)
      ensures !(retrying && mounted) ==> scanProgress == old(scanProgress)
      ensures retrying && mounted ==>
        scanProgress == old(scanProgress)[call.key := Progress(Retrying,
          if call.key in old(scanProgress) then old(scanProgress)[call.key].pct else ResumingPct)]
    {
      var h := SetTimeout(delayMs, call);
      timersRef := timersRef[call.key := h];
      if retrying && mounted {
        var cur := if call.key in scanProgress then scanProgress[call.key].pct else ResumingPct;
        scanProgress := scanProgress[call.key := Progress(Retrying, cur)];
      }
    }

    /** A timer fires: a poll timer runs `poll` with its attempt; the
        follow-up of a completed scan, while mounted, reloads the website
        list (and hands the scan to the results view, which is not
        modelled). */
    method FireTimer(h: nat)
      requires Valid() && h in timers
      modifies this
      ensures Valid()
      ensures mounted == old(mounted) && scanningIds == old(scanningIds)
      ensures nextHandle == old(nextHandle) && timersRef == old(timersRef)
      ensures timers == old(timers) - {h}
      ensures
        match old(timers)[h].call
        case TickCall(key, scanId, startedAt, attempt) =>
          && error == old(error)
          && (!mounted ==> scanProgress == old(scanProgress) && inflight == old(inflight))
          && (mounted ==>
                && scanProgress == old(scanProgress)[key := Progress(Scanning, Pct(attempt + 1))]
                && inflight == old(inflight) + multiset{MetaFetch(key, scanId, startedAt, attempt)})
        case FollowUp(key, _) =>
          && scanProgress == old(scanProgress)
          && (!mounted ==> error == old(error) && inflight == old(inflight))
          && (mounted ==> error == "" && inflight == old(inflight) + multiset{Reload(key)})
    {
      var call := timers[h].call;
      timers := timers - {h};
      match call
      case TickCall(key, scanId, startedAt, attempt) =>
        Poll(key, scanId, startedAt, attempt);
      case FollowUp(key, _) =>
        if mounted {
          error := "";
          inflight := inflight + multiset{Reload(key)};
        }
    }

    /** The follow-up of a completed scan, after the website list has loaded
        (or failed to): the store entry goes, and while mounted the website
        leaves the scanning set and the progress map. */
    method SettleReload(req: Request, loadError: Option<string>)
      requires Valid() && req in inflight && req.Reload?
      modifies this, store
      ensures Valid()
      ensures inflight == old(inflight) - multiset{req}
      ensures store.stored == DeleteEntry(old(store.stored), req.key)
      ensures mounted == old(mounted) && timers == old(timers)
      ensures nextHandle == old(nextHandle) && timersRef == old(timersRef)
      ensures !mounted ==> scanningIds == old(scanningIds) && scanProgress == old(scanProgress) && error == old(error)
      ensures mounted ==>
        && scanningIds == old(scanningIds) - {req.key}
        && scanProgress == old(scanProgress) - {req.key}
        && error == (if loadError.Some? then OrDefault(loadError.value, LoadFailedDefault) else old(error))
    {
      inflight := inflight - multiset{req};
      if mounted && loadError.Some? {
        error := OrDefault(loadError.value, LoadFailedDefault);
      }
      ForgetWebsite(req.key);
    }

    /** Drop a website's store entry, and while mounted its scanning mark
        and its progress. */
    method ForgetWebsite(key: string)
      requires Valid()
      modifies this, store
      ensures Valid()
      ensures store.stored == DeleteEntry(old(store.stored), key)
      ensures mounted == old(mounted) && inflight == old(inflight) && error == old(error)
      ensures timers == old(timers) && nextHandle == old(nextHandle) && timersRef == old(timersRef)
      ensures !mounted ==> scanningIds == old(scanningIds) && scanProgress == old(scanProgress)
      ensures mounted ==> scanningIds == old(scanningIds) - {key} && scanProgress == old(scanProgress) - {key}
    {
      store.Delete(key);
      if mounted {
        scanningIds := scanningIds - {key};
        scanProgress := scanProgress - {key};
      }
    }

    /** `handleScan` up to the start request: clear the error and lock the
        website's button. State updates of an unmounted component have no
        effect. */
    method HandleScan(site: WebsiteId)
      requires Valid()
      modifies this
      ensures Valid()
      ensures inflight == old(inflight) + multiset{StartRequest(KeyOf(site))}
      ensures mounted == old(mounted) && timers == old(timers)
      ensures nextHandle == old(nextHandle) && timersRef == old(timersRef)
      ensures !mounted ==> scanningIds == old(scanningIds) && scanProgress == old(scanProgress) && error == old(error)
      ensures mounted ==>
        && error == ""
        && scanningIds == old(scanningIds) + {KeyOf(site)}
        && scanProgress == old(scanProgress)[KeyOf(site) := Progress(Starting, StartingPct)]
    {
      var key := KeyOf(site);
      if mounted {
        error := "";
        scanningIds := scanningIds + {key};
        scanProgress := scanProgress[key := Progress(Starting, StartingPct)];
      }
      inflight := inflight + multiset{StartRequest(key)};
    }

    /** The rest of `handleScan`: on success persist the scan and start
        polling at attempt 0; on failure show the error, undo the lock and
        drop the store entry. */
    method SettleStart(req: Request, outcome: StartOutcome, now: int)
      requires Valid() && req in inflight && req.StartRequest?
      modifies this, store
      ensures Valid()
      ensures mounted == old(mounted) && timers == old(timers)
      ensures nextHandle == old(nextHandle) && timersRef == old(timersRef)
      ensures !mounted ==> scanningIds == old(scanningIds) && scanProgress == old(scanProgress) && error == old(error)
      ensures !mounted ==> inflight == old(inflight) - multiset{req}
      ensures outcome.Started? ==>
        && store.stored == SetEntry(old(store.stored), req.key, ActiveScan(outcome.scanId, now))
        && scanningIds == old(scanningIds) && error == old(error)
        && (mounted ==>
              && scanProgress == old(scanProgress)[req.key := Progress(Scanning, Pct(1))]
              && inflight == old(inflight) - multiset{req} + multiset{MetaFetch(req.key, outcome.scanId, now, 0)})
      ensures outcome.StartFailed? ==>
        && store.stored == DeleteEntry(old(store.stored), req.key)
        && inflight == old(inflight) - multiset{req}
        && (mounted ==>
              && error == OrDefault(outcome.message, StartFailedDefault)
              && scanningIds == old(scanningIds) - {req.key}
              && scanProgress == old(scanProgress) - {req.key})
    {
      inflight := inflight - multiset{req};
      var key := req.key;
      match outcome
      case Started(scanId) =>
        store.Set(key, ActiveScan(scanId, now));
        Poll(key, scanId, now, 0);
      case StartFailed(message) =>
        RevertLock(key, OrDefault(message, StartFailedDefault));
    }

    /** A failed start: show the error, undo the lock (while mounted) and
        drop the store entry (always). */
    method RevertLock(key: string, message: string)
      requires Valid()
      modifies this, store
      ensures Valid()
      ensures store.stored == DeleteEntry(old(store.stored), key)
      ensures mounted == old(mounted) && inflight == old(inflight)
      ensures timers == old(timers) && nextHandle == old(nextHandle) && timersRef == old(timersRef)
      ensures !mounted ==> scanningIds == old(scanningIds) && scanProgress == old(scanProgress) && error == old(error)
      ensures mounted ==>
        && error == message
        && scanningIds == old(scanningIds) - {key}
        && scanProgress == old(scanProgress) - {key}
    {
      if mounted {
        error := message;
      }
      ForgetWebsite(key);
    }

    /** `resumeActiveScans`: mark every stored website as scanning and poll
        each one that has a scan id, at attempt 0 and from its saved start
        time. Its 12 % baseline is overwritten at once by the first tick. */
    method ResumeActiveScans(now: int)
      requires Valid()
      modifies this
      ensures Valid()
      ensures mounted == old(mounted) && error == old(error) && timers == old(timers)
      ensures nextHandle == old(nextHandle) && timersRef == old(timersRef)
      ensures |ReadStored(store.stored)| == 0 || !mounted ==>
        scanningIds == old(scanningIds) && scanProgress == old(scanProgress) && inflight == old(inflight)
      ensures |ReadStored(store.stored)| > 0 && mounted ==>
        var entries := ReadStored(store.stored);
        && scanningIds == entries.Keys
        && scanProgress == old(scanProgress) + ResumedProgress(entries, entries.Keys)
        && inflight == old(inflight) + multiset(ResumedFetches(entries, entries.Keys, now))
    {
      var entries := store.Read();
      if |entries| == 0 {
        return;
      }
      if mounted {
        scanningIds := entries.Keys;
      }
      PollEach(entries, now);
    }

    /** The loop of `resumeActiveScans` over the stored websites, in any
        order. */
    method PollEach(entries: map<string, ActiveScan>, now: int)
      requires Valid()
      modifies this
      ensures Valid()
      ensures mounted == old(mounted) && error == old(error) && timers == old(timers)
      ensures nextHandle == old(nextHandle) && timersRef == old(timersRef) && scanningIds == old(scanningIds)
      ensures !mounted ==> scanProgress == old(scanProgress) && inflight == old(inflight)
      ensures mounted ==>
        && scanProgress == old(scanProgress) + ResumedProgress(entries, entries.Keys)
        && inflight == old(inflight) + multiset(ResumedFetches(entries, entries.Keys, now))
    {
      var remaining := entries.Keys;
      ghost var done: set<string> := {};
      while remaining != {}
        invariant Valid()
        invariant done + remaining == entries.Keys && done !! remaining
        invariant mounted == old(mounted) && error == old(error) && timers == old(timers)
        invariant nextHandle == old(nextHandle) && timersRef == old(timersRef) && scanningIds == old(scanningIds)
        invariant !mounted ==> scanProgress == old(scanProgress) && inflight == old(inflight)
        invariant mounted ==> scanProgress == old(scanProgress) + ResumedProgress(entries, done)
        invariant mounted ==> inflight == old(inflight) + multiset(ResumedFetches(entries, done, now))
        decreases remaining
      {
        var websiteId :| websiteId in remaining;
        ResumeStep(entries, done, websiteId, now, old(scanProgress), old(inflight));
        ResumeOne(websiteId, entries[websiteId], now);
        remaining := remaining - {websiteId};
        done := done + {websiteId};
      }
    }

    /** One website of `resumeActiveScans`: without a scan id nothing
        happens; otherwise the 12 % baseline (when it has no progress yet)
        and then the first tick. */
    method ResumeOne(websiteId: string, a: ActiveScan, now: int)
      requires Valid()
      modifies this
      ensures Valid()
      ensures mounted == old(mounted) && error == old(error) && timers == old(timers)
      ensures nextHandle == old(nextHandle) && timersRef == old(timersRef) && scanningIds == old(scanningIds)
      ensures a.scanId == "" || !mounted ==> scanProgress == old(scanProgress) && inflight == old(inflight)
      ensures a.scanId != "" && mounted ==>
        && scanProgress == old(scanProgress)[websiteId := Progress(Scanning, Pct(1))]
        && inflight == old(inflight) + multiset{MetaFetch(websiteId, a.scanId, StartOf(a, now), 0)}
    {
      if a.scanId == "" {
        return;
      }
      if mounted && websiteId !in scanProgress {
        scanProgress := scanProgress[websiteId := Progress(Scanning, ResumingPct)];
      }
      Poll(websiteId, a.scanId, StartOf(a, now), 0);
    }

    /** The unmount clean-up: clear every timer `timersRef` still names, and
        the map itself. The follow-up timers of completed scans are not in
        it; they stay pending and do nothing when they fire. */
    method Unmount()
      requires Valid()
      modifies this
      ensures Valid()
      ensures !mounted
      ensures timers == map h | h in old(timers) && h !in old(timersRef).Values :: old(timers)[h]
      ensures timersRef == map[]
      ensures scanningIds == old(scanningIds) && scanProgress == old(scanProgress) && error == old(error)
      ensures inflight == old(inflight) && nextHandle == old(nextHandle)
    {
      mounted := false;
      timers := map h | h in timers && h !in timersRef.Values :: timers[h];
      timersRef := map[];
    }
  }
}
