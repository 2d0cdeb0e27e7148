/** The readiness check of frontend/src/main.tsx: at most six timed requests, retried after
    a pause, each run cancelled by the next. The state holds the component's refs and what
    the browser holds for it: live timers and checks waiting for a promise. */
module Readiness {
  import opened Bytes

  const MAX_ATTEMPTS: nat := 6
  const RETRY_DELAY: nat := 2500
  const REQUEST_TIMEOUT: nat := 3000

  datatype View = Checking | Ready | Failed

  /** What a live timer will do: abort a controller, or try again. */
  datatype Purpose = Timeout(controller: nat) | Retry(run: nat, attempt: nat)

  datatype Timer = Timer(due: nat, purpose: Purpose)

  /** A call of check that awaits the response, or its body. */
  datatype Check = Check(run: nat, attempt: nat, reading: bool, aborted: bool)

  datatype Request = Request(run: nat, attempt: nat)

  datatype State = State(
    now: nat, mounted: bool, begun: bool, view: View,
    run: nat, abortRef: Option<nat>, requestRef: Option<nat>, retryRef: Option<nat>,
    timers: map<nat, Timer>, checks: map<nat, Check>, nextId: nat,
    started: nat, requests: seq<Request>)     // history: when the run began, what was sent

  function Initial(now: nat): State {
    State(now, true, false, Checking, 0, None, None, None, map[], map[], 0, now, [])
  }

  // ---------------------------------------------------------------- the functions

  function Cleared(timers: map<nat, Timer>, ref: Option<nat>): map<nat, Timer> {
    if ref.Some? then timers - {ref.value} else timers
  }

  /** clearReadinessTimers. */
  function ClearTimers(s: State): State {
    s.(timers := Cleared(Cleared(s.timers, s.requestRef), s.retryRef), requestRef := None, retryRef := None)
  }

  function Abort(checks: map<nat, Check>, ref: Option<nat>): map<nat, Check> {
    if ref.Some? && ref.value in checks then checks[ref.value := checks[ref.value].(aborted := true)] else checks
  }

  /** cancelReadinessCheck. */
  function Cancel(s: State): State {
    ClearTimers(s.(run := s.run + 1, checks := Abort(s.checks, s.abortRef), abortRef := None))
  }

  /** check, up to its first await. */
  function Begin(s: State, run: nat, attempt: nat): State {
    var controller, timer := s.nextId, s.nextId + 1;
    s.(abortRef := Some(controller),
       checks := s.checks[controller := Check(run, attempt, false, false)],
       timers := s.timers[timer := Timer(s.now + REQUEST_TIMEOUT, Timeout(controller))],
       requestRef := Some(timer),
       nextId := s.nextId + 2,
       requests := s.requests + [Request(run, attempt)])
  }

  /** startReadinessCheck. */
  function Start(s: State): State {
    var t := Cancel(s);
    Begin(t.(begun := true, view := Checking, started := t.now), t.run, 1)
  }

  /** The finally block of check: it clears whatever request timer is in the ref. */
  function Finally(s: State, controller: nat): State {
    s.(timers := Cleared(s.timers, s.requestRef),
       requestRef := None,
       abortRef := if s.abortRef == Some(controller) then None else s.abortRef,
       checks := s.checks - {controller})
  }

  /** The catch block and then the finally block. */
  function Rejected(s: State, controller: nat): State
    requires controller in s.checks
  {
    var c := s.checks[controller];
    var t :=
      if c.run != s.run then s
      else if c.attempt >= MAX_ATTEMPTS then s.(view := Failed)
      else s.(timers := s.timers[s.nextId := Timer(s.now + RETRY_DELAY, Retry(c.run, c.attempt + 1))],
              retryRef := Some(s.nextId), nextId := s.nextId + 1);
    Finally(t, controller)
  }

  /** The end of the try block and then the finally block. */
  function Succeeded(s: State, controller: nat): State
    requires controller in s.checks
  {
    Finally(if s.checks[controller].run != s.run then s else s.(view := Ready), controller)
  }

  /** A timer fires. Aborting settles whatever its check awaits. */
  function Fired(s: State, timer: nat): State
    requires timer in s.timers
  {
    var t := s.(timers := s.timers - {timer});
    match s.timers[timer].purpose
    case Timeout(controller) => if controller in s.checks then Rejected(t, controller) else t
    case Retry(run, attempt) => Begin(t.(retryRef := None), run, attempt)
  }

  // ---------------------------------------------------------------- events

  datatype Event = Click | Unmount | Respond(check: nat) | Complete(check: nat) | Reject(check: nat)
                 | Fire(timer: nat) | Tick(ms: nat)

  /** The check starts when the component mounts, and again from the "Try again" button,
      which is shown in the failed state only. */
  predicate Offered(s: State) {
    s.mounted && (!s.begun || s.view == Failed)
  }

  /** Timers fire when they are due, and an aborted check is settled at once. */
  predicate Enabled(s: State, e: Event) {
    match e
    case Click => Offered(s)
    case Unmount => s.mounted
    case Respond(c) => c in s.checks && !s.checks[c].aborted && !s.checks[c].reading
    case Complete(c) => c in s.checks && !s.checks[c].aborted && s.checks[c].reading
    case Reject(c) => c in s.checks
    case Fire(t) => t in s.timers && s.timers[t].due <= s.now
    case Tick(ms) =>
      && (forall t :: t in s.timers ==> s.now + ms <= s.timers[t].due)
      && (forall c :: c in s.checks ==> !s.checks[c].aborted)
  }

  function Step(s: State, e: Event): State
    requires Enabled(s, e)
  {
    match e
    case Click => Start(s)
    case Unmount => Cancel(s).(mounted := false)
    case Respond(c) => s.(checks := s.checks[c := s.checks[c].(reading := true)])
    case Complete(c) => Succeeded(s, c)
    case Reject(c) => Rejected(s, c)
    case Fire(t) => Fired(s, t)
    case Tick(ms) => s.(now := s.now + ms)
  }

  function Run(now: nat, events: seq<Event>): State {
    if events == [] then Initial(now)
    else
      var s := Run(now, events[..|events| - 1]);
      if Enabled(s, events[|events| - 1]) then Step(s, events[|events| - 1]) else s
  }

  predicate Possible(now: nat, events: seq<Event>) {
    events != [] ==>
      && Possible(now, events[..|events| - 1])
      && Enabled(Run(now, events[..|events| - 1]), events[|events| - 1])
  }

  // ---------------------------------------------------------------- the invariant

  /** The attempts of one run, in order. */
  function Attempts(requests: seq<Request>, run: nat): seq<nat> {
    if requests == [] then []
    else
      var n := |requests| - 1;
      Attempts(requests[..n], run) + if requests[n].run == run then [requests[n].attempt] else []
  }

  function UpTo(n: nat): (r: seq<nat>)
    ensures |r| == n
  {
    if n == 0 then [] else UpTo(n - 1) + [n]
  }

  /** When attempt k must be over, counted from the start of the run. */
  function Budget(k: nat): nat {
    if k == 0 then 0 else k * REQUEST_TIMEOUT + (k - 1) * RETRY_DELAY
  }

  /** Attempt k is on its way: one check, one timer, and the refs hold them. */
  predicate Flying(s: State, k: nat) {
    && s.abortRef.Some? && s.requestRef.Some? && s.retryRef.None?
    && s.requestRef.value != s.abortRef.value
    && s.abortRef.value < s.nextId && s.requestRef.value < s.nextId
    && s.checks.Keys == {s.abortRef.value} && s.timers.Keys == {s.requestRef.value}
    && var c, t := s.checks[s.abortRef.value], s.timers[s.requestRef.value];
    && c.run == s.run && c.attempt == k && !c.aborted
    && t.purpose == Timeout(s.abortRef.value)
    && s.now <= t.due <= s.started + Budget(k)
  }

  /** Attempt k has failed and the next one is due. */
  predicate Pausing(s: State, k: nat) {
    && s.abortRef.None? && s.requestRef.None? && s.retryRef.Some? && s.retryRef.value < s.nextId
    && s.checks == map[] && s.timers.Keys == {s.retryRef.value}
    && var t := s.timers[s.retryRef.value];
    && t.purpose == Retry(s.run, k + 1)
    && s.now <= t.due <= s.started + Budget(k) + RETRY_DELAY
  }

  /** Nothing is under way; a check that was cancelled may still be about to notice. */
  predicate Resting(s: State) {
    && s.abortRef.None? && s.requestRef.None? && s.retryRef.None? && s.timers == map[]
    && (forall c :: c in s.checks ==> s.checks[c].aborted && s.checks[c].run < s.run)
    && (s.mounted ==> s.checks == map[])
    && (s.mounted && s.begun ==> s.view != Checking)
  }

  predicate Busy(s: State) {
    s.abortRef.Some? || s.retryRef.Some?
  }

  predicate Counted(s: State, k: nat) {
    && 1 <= k <= MAX_ATTEMPTS
    && Attempts(s.requests, s.run) == UpTo(k)
  }

  predicate Inv(s: State) {
    var k := |Attempts(s.requests, s.run)|;
    && (forall i :: 0 <= i < |s.requests| ==> s.requests[i].run <= s.run)
    && (Busy(s) ==>
          && s.mounted && s.begun && s.view == Checking
          && Counted(s, k)
          && (if s.abortRef.Some? then Flying(s, k) else k < MAX_ATTEMPTS && Pausing(s, k)))
    && (!Busy(s) ==> Resting(s))
  }

  lemma {:induction false} NoAttempts(requests: seq<Request>, run: nat)
    requires forall i :: 0 <= i < |requests| ==> requests[i].run != run
    ensures Attempts(requests, run) == []
  {
    if requests != [] {
      NoAttempts(requests[..|requests| - 1], run);
    }
  }

  lemma AttemptsAppend(requests: seq<Request>, r: Request, run: nat)
    ensures Attempts(requests + [r], run) == Attempts(requests, run) + if r.run == run then [r.attempt] else []
  {
    assert (requests + [r])[..|requests|] == requests;
  }

  /** Wherever nothing is left to settle, a new run starts well. */
  lemma StartsWell(s: State)
    requires forall i :: 0 <= i < |s.requests| ==> s.requests[i].run <= s.run
    requires s.mounted && Cancel(s).timers == map[] && Cancel(s).checks == map[]
    ensures Inv(Start(s)) && Busy(Start(s))
  {
    var r := s.run + 1;
    NoAttempts(s.requests, r);
    AttemptsAppend(s.requests, Request(r, 1), r);
    assert UpTo(1) == UpTo(0) + [1];
  }

  lemma CancelKeeps(s: State)
    requires Inv(s)
    ensures Inv(Cancel(s).(mounted := false))
  {
    NoAttempts(s.requests, s.run + 1);
  }

  lemma RejectedKeeps(s: State, c: nat)
    requires Inv(s) && c in s.checks
    ensures Inv(Rejected(s, c))
  {
    if Busy(s) {
      assert c == s.abortRef.value;
    }
  }

  lemma FiredKeeps(s: State, t: nat)
    requires Inv(s) && t in s.timers && s.timers[t].due <= s.now
    ensures Inv(Fired(s, t))
  {
    var k := |Attempts(s.requests, s.run)|;
    assert Busy(s);
    if s.abortRef.Some? {
      assert s.timers - {t} == map[];
    } else {
      AttemptsAppend(s.requests, Request(s.run, k + 1), s.run);
      assert Budget(k + 1) == Budget(k) + RETRY_DELAY + REQUEST_TIMEOUT;
    }
  }

  lemma StepKeeps(s: State, e: Event)
    requires Inv(s) && Enabled(s, e)
    ensures Inv(Step(s, e))
  {
    match e
    case Click => StartsWell(s);
    case Unmount => CancelKeeps(s);
    case Reject(c) => RejectedKeeps(s, c);
    case Fire(t) => FiredKeeps(s, t);
    case _ =>
  }

  lemma {:induction false} EveryRun(now: nat, events: seq<Event>)
    requires Possible(now, events)
    ensures Inv(Run(now, events))
  {
    if events != [] {
      EveryRun(now, events[..|events| - 1]);
      StepKeeps(Run(now, events[..|events| - 1]), events[|events| - 1]);
    }
  }

  // ---------------------------------------------------------------- laws

  /** Every run that ever was has made its attempts in order, and no more than six. */
  ghost predicate AllCounted(s: State) {
    forall r: nat :: RunCounted(s, r)
  }

  predicate RunCounted(s: State, r: nat) {
    var n := |Attempts(s.requests, r)|;
    n <= MAX_ATTEMPTS && Attempts(s.requests, r) == UpTo(n)
  }

  lemma BeginCounts(s: State, run: nat, attempt: nat)
    requires AllCounted(s) && attempt == |Attempts(s.requests, run)| + 1 <= MAX_ATTEMPTS
    ensures AllCounted(Begin(s, run, attempt))
  {
    forall r: nat ensures RunCounted(Begin(s, run, attempt), r) {
      assert RunCounted(s, r);
      AttemptsAppend(s.requests, Request(run, attempt), r);
    }
  }

  lemma StepCounts(s: State, e: Event)
    requires Inv(s) && AllCounted(s) && Enabled(s, e)
    ensures AllCounted(Step(s, e))
  {
    if e.Click? {
      NoAttempts(s.requests, s.run + 1);
      var t := Cancel(s).(begun := true, view := Checking, started := s.now);
      assert AllCounted(t) by { forall r: nat ensures RunCounted(t, r) { assert RunCounted(s, r); } }
      BeginCounts(t, s.run + 1, 1);
    } else if e.Fire? && s.timers[e.timer].purpose.Retry? {
      var t := s.(timers := s.timers - {e.timer}, retryRef := None);
      assert AllCounted(t) by { forall r: nat ensures RunCounted(t, r) { assert RunCounted(s, r); } }
      BeginCounts(t, s.timers[e.timer].purpose.run, s.timers[e.timer].purpose.attempt);
    } else {
      forall r: nat ensures RunCounted(Step(s, e), r) {
        assert RunCounted(s, r);
      }
    }
  }

  lemma {:induction false} AtMostSixRequests(now: nat, events: seq<Event>)
    requires Possible(now, events)
    ensures AllCounted(Run(now, events))
  {
    if events == [] {
      forall r: nat ensures RunCounted(Initial(now), r) {}
    } else {
      EveryRun(now, events[..|events| - 1]);
      AtMostSixRequests(now, events[..|events| - 1]);
      StepCounts(Run(now, events[..|events| - 1]), events[|events| - 1]);
    }
  }

  /** At most one timer is live, and its id is in the ref it was stored in; at most one
      check is not cancelled. */
  lemma OneTimerIsLive(now: nat, events: seq<Event>)
    requires Possible(now, events)
    ensures var s := Run(now, events);
            && |s.timers| <= 1
            && (forall t :: t in s.timers ==> s.requestRef == Some(t) || s.retryRef == Some(t))
            && (forall c, d :: c in s.checks && d in s.checks && !s.checks[c].aborted && !s.checks[d].aborted
                  ==> c == d)
  {
    EveryRun(now, events);
    var s := Run(now, events);
    if Busy(s) {
      var t := if s.abortRef.Some? then s.requestRef.value else s.retryRef.value;
      assert s.timers.Keys == {t};
      assert |s.timers| == |s.timers.Keys|;
    }
  }

  /** A run is over, ready or failed, 6 * 3000 + 5 * 2500 ms after it began at the latest;
      until then a timer is live that will take it further. */
  lemma EndsInTime(now: nat, events: seq<Event>)
    requires Possible(now, events)
    requires var s := Run(now, events); s.mounted && s.begun && s.view == Checking
    ensures var s := Run(now, events);
            && s.now <= s.started + 30500
            && s.timers != map[]
            && forall t :: t in s.timers ==> s.now <= s.timers[t].due <= s.started + 30500
  {
    EveryRun(now, events);
    var s := Run(now, events);
    assert Busy(s);
    var t := if s.abortRef.Some? then s.requestRef.value else s.retryRef.value;
    assert t in s.timers;
  }

  /** In every run, a check of an earlier run is left over only when the component is gone,
      can only be rejected, and then changes nothing but its own entry: no view, no ref, no
      timer and no request. */
  lemma StaleChecksWriteNothing(now: nat, events: seq<Event>, e: Event)
    requires Possible(now, events) && Enabled(Run(now, events), e)
    requires e.Respond? || e.Complete? || e.Reject?
    requires Run(now, events).checks[e.check].run != Run(now, events).run
    ensures var s := Run(now, events);
            && e.Reject? && !s.mounted
            && Step(s, e) == s.(checks := s.checks - {e.check})
  {
    EveryRun(now, events);
  }

  /** After the component is gone nothing more is sent or shown. */
  lemma {:induction false} NothingAfterUnmount(now: nat, events: seq<Event>, more: seq<Event>)
    requires Possible(now, events + more) && !Run(now, events).mounted
    ensures var s, t := Run(now, events), Run(now, events + more);
            !t.mounted && t.view == s.view && t.requests == s.requests
  {
    if more == [] {
      assert events + more == events;
    } else {
      var all := events + more;
      assert all[..|all| - 1] == events + more[..|more| - 1];
      NothingAfterUnmount(now, events, more[..|more| - 1]);
      EveryRun(now, all[..|all| - 1]);
    }
  }

  // ---------------------------------------------------------------- what each event must do

  /** Exactly this timer is live. */
  ghost predicate OnlyTimer(s: State, timer: Timer) {
    exists id: nat :: s.timers == map[id := timer]
  }

  /** Nothing is under way or due any more. */
  predicate Idle(s: State) {
    s.timers == map[] && s.checks == map[]
  }

  /** Attempt k of a run has been sent: it has three seconds. */
  ghost predicate Sent(s: State, t: State, run: nat, k: nat) {
    && t.requests == s.requests + [Request(run, k)] && t.run == run && t.view == Checking
    && exists c: nat :: t.checks == map[c := Check(run, k, false, false)]
                        && OnlyTimer(t, Timer(s.now + 3000, Timeout(c)))
  }

  /** Attempt k has failed: the next one is due in 2.5 seconds, and after the sixth the page
      says so. */
  ghost predicate Missed(s: State, t: State, k: nat) {
    && t.requests == s.requests && t.run == s.run && t.checks == map[]
    && if k >= 6 then t.view == Failed && t.timers == map[]
       else t.view == Checking && OnlyTimer(t, Timer(s.now + 2500, Retry(s.run, k + 1)))
  }

  /** What an event must do in a mounted component whose run has made k attempts. */
  ghost predicate Outcome(s: State, e: Event, t: State, k: nat) {
    match e
    case Click => t.mounted && Sent(s, t, s.run + 1, 1)
    case Unmount => !t.mounted && t.timers == map[] && t.view == s.view && t.requests == s.requests
                    && forall c :: c in t.checks ==> t.checks[c].aborted
    case Respond(_) => t.view == s.view && t.timers == s.timers && t.requests == s.requests
                       && t.checks.Keys == s.checks.Keys
    case Complete(_) => t.mounted && t.view == Ready && Idle(t) && t.requests == s.requests
    case Reject(_) => t.mounted && Missed(s, t, k)
    case Fire(timer) =>
      t.mounted
      && if timer in s.timers && s.timers[timer].purpose.Retry? then Sent(s, t, s.run, k + 1) else Missed(s, t, k)
    case Tick(ms) => t == s.(now := s.now + ms)
  }

  lemma StartOutcome(s: State)
    requires Inv(s) && Offered(s)
    ensures Outcome(s, Click, Start(s), 0)
  {
    var t := Start(s);
    assert Cancel(s).timers == map[] && Cancel(s).checks == map[];
    assert t.checks == map[s.nextId := Check(s.run + 1, 1, false, false)];
    assert t.timers == map[s.nextId + 1 := Timer(s.now + 3000, Timeout(s.nextId))];
  }

  lemma RejectedOutcome(s: State, c: nat)
    requires Inv(s) && s.mounted && c in s.checks
    ensures Missed(s, Rejected(s, c), |Attempts(s.requests, s.run)|) && Rejected(s, c).mounted
  {
    assert Busy(s) && c == s.abortRef.value;
    var t := Rejected(s, c);
    assert t.checks == map[];
    if s.checks[c].attempt < MAX_ATTEMPTS {
      assert t.timers == map[s.nextId := Timer(s.now + 2500, Retry(s.run, s.checks[c].attempt + 1))];
    } else {
      assert t.timers == map[];
    }
  }

  lemma FiredOutcome(s: State, timer: nat)
    requires Inv(s) && s.mounted && timer in s.timers
    ensures Outcome(s, Fire(timer), Fired(s, timer), |Attempts(s.requests, s.run)|)
  {
    assert Busy(s);
    var k, t := |Attempts(s.requests, s.run)|, Fired(s, timer);
    if s.abortRef.Some? {
      var c := s.abortRef.value;
      assert timer == s.requestRef.value && s.timers - {timer} == map[] && t.checks == map[];
      if k < MAX_ATTEMPTS {
        assert t.timers == map[s.nextId := Timer(s.now + 2500, Retry(s.run, k + 1))];
      }
    } else {
      assert timer == s.retryRef.value && s.timers - {timer} == map[];
      assert t.checks == map[s.nextId := Check(s.run, k + 1, false, false)];
      assert t.timers == map[s.nextId + 1 := Timer(s.now + 3000, Timeout(s.nextId))];
    }
  }

  /** In every run of a mounted component: an answer makes the page ready and ends everything;
      a failed attempt is retried after 2.5 seconds or, after the sixth, shown as a failure;
      every attempt has three seconds; going away stops all timers and aborts what is sent. */
  lemma EveryEventCounts(now: nat, events: seq<Event>, e: Event)
    requires Possible(now, events) && Enabled(Run(now, events), e) && Run(now, events).mounted
    ensures var s := Run(now, events); Outcome(s, e, Step(s, e), |Attempts(s.requests, s.run)|)
  {
    var s := Run(now, events);
    EveryRun(now, events);
    match e
    case Click => StartOutcome(s);
    case Complete(c) => assert Busy(s) && c == s.abortRef.value;
    case Reject(c) => RejectedOutcome(s, c);
    case Fire(timer) => FiredOutcome(s, timer);
    case _ =>
  }

  lemma RestartWhileIdle(s: State)
    requires Inv(s) && s.mounted && s.abortRef.None?
    ensures Inv(Start(s))
  {
    assert Cancel(s).timers == map[];
    assert Cancel(s).checks == s.checks == map[];
    StartsWell(s);
  }

  lemma RestartInFlight(s: State)
    requires Inv(s) && s.abortRef.Some?
    ensures s.abortRef.value in Start(s).checks
    ensures var t := Rejected(Start(s), s.abortRef.value);
            t.view == Checking && t.timers == map[] && t.checks == map[s.nextId := Check(s.run + 1, 1, false, false)]
  {
    assert Cancel(s).timers == map[];
    assert Start(s).checks.Keys == {s.abortRef.value, s.nextId};
  }

  /** Why "Try again" must not be offered while a check is under way: a run started then is
      left without any timer to end it when the old check is settled; and a run started at
      any other time keeps its timer and the invariant. */
  lemma RestartIsSafeExactlyWhenIdle(s: State)
    requires Inv(s) && s.mounted
    ensures s.abortRef.None? <==>
            forall c :: c in Start(s).checks && Start(s).checks[c].run != Start(s).run
                        ==> Rejected(Start(s), c).timers != map[]
    ensures s.abortRef.None? ==> Inv(Start(s)) && Start(s).timers != map[]
  {
    if s.abortRef.None? {
      RestartWhileIdle(s);
      assert Start(s).requestRef.value in Start(s).timers;
    } else {
      RestartInFlight(s);
      assert Start(s).checks[s.abortRef.value].run != Start(s).run;
    }
  }

  // ---------------------------------------------------------------- in place

  /** The component and its browser; every method does what its function above says. */
  class Component {
    var now: nat
    var mounted: bool
    var begun: bool
    var view: View
    var run: nat
    var abortRef: Option<nat>
    var requestRef: Option<nat>
    var retryRef: Option<nat>
    var timers: map<nat, Timer>
    var checks: map<nat, Check>
    var nextId: nat
    ghost var started: nat
    ghost var requests: seq<Request>

    ghost function Abs(): State
      reads this
    {
      State(now, mounted, begun, view, run, abortRef, requestRef, retryRef, timers, checks, nextId, started, requests)
    }

    constructor (now: nat)
      ensures Abs() == Initial(now)
    {
      this.now, mounted, begun, view := now, true, false, Checking;
      run, abortRef, requestRef, retryRef := 0, None, None, None;
      timers, checks, nextId := map[], map[], 0;
      started, requests := now, [];
    }

    method ClearReadinessTimers()
      modifies this
      ensures Abs() == ClearTimers(old(Abs()))
    {
      if requestRef.Some? {
        timers := timers - {requestRef.value};
        requestRef := None;
      }
      if retryRef.Some? {
        timers := timers - {retryRef.value};
        retryRef := None;
      }
    }

    method CancelReadinessCheck()
      modifies this
      ensures Abs() == Cancel(old(Abs()))
    {
      run := run + 1;
      if abortRef.Some? && abortRef.value in checks {
        checks := checks[abortRef.value := checks[abortRef.value].(aborted := true)];
      }
      abortRef := None;
      ClearReadinessTimers();
    }

    method BeginCheck(forRun: nat, attempt: nat)
      modifies this
      ensures Abs() == Begin(old(Abs()), forRun, attempt)
    {
      var controller := nextId;
      abortRef := Some(controller);
      checks := checks[controller := Check(forRun, attempt, false, false)];
      requests := requests + [Request(forRun, attempt)];
      timers := timers[controller + 1 := Timer(now + REQUEST_TIMEOUT, Timeout(controller))];
      requestRef := Some(controller + 1);
      nextId := nextId + 2;
    }

    method StartReadinessCheck()
      modifies this
      ensures Abs() == Start(old(Abs()))
    {
      CancelReadinessCheck();
      begun, view := true, Checking;
      started := now;
      BeginCheck(run, 1);
    }

    method FinallyClear(controller: nat)
      modifies this
      ensures Abs() == Finally(old(Abs()), controller)
    {
      if requestRef.Some? {
        timers := timers - {requestRef.value};
        requestRef := None;
      }
      if abortRef == Some(controller) {
        abortRef := None;
      }
      checks := checks - {controller};
    }

    method OnSuccess(controller: nat)
      requires controller in checks
      modifies this
      ensures Abs() == Succeeded(old(Abs()), controller)
    {
      if checks[controller].run == run {
        view := Ready;
      }
      FinallyClear(controller);
    }

    method OnFailure(controller: nat)
      requires controller in checks
      modifies this
      ensures Abs() == Rejected(old(Abs()), controller)
    {
      var c := checks[controller];
      if c.run == run {
        if c.attempt >= MAX_ATTEMPTS {
          view := Failed;
        } else {
          timers := timers[nextId := Timer(now + RETRY_DELAY, Retry(c.run, c.attempt + 1))];
          retryRef := Some(nextId);
          nextId := nextId + 1;
        }
      }
      FinallyClear(controller);
    }

    method OnTimer(timer: nat)
      requires timer in timers
      modifies this
      ensures Abs() == Fired(old(Abs()), timer)
    {
      var purpose := timers[timer].purpose;
      timers := timers - {timer};
      match purpose {
        case Timeout(controller) =>
          if controller in checks {
            OnFailure(controller);
          }
        case Retry(forRun, attempt) =>
          retryRef := None;
          BeginCheck(forRun, attempt);
      }
    }

    /** One event, as the browser delivers it. */
    method Perform(e: Event)
      requires Enabled(Abs(), e)
      modifies this
      ensures Abs() == Step(old(Abs()), e)
    {
      match e {
        case Click => StartReadinessCheck();
        case Unmount =>
          CancelReadinessCheck();
          mounted := false;
        case Respond(c) => checks := checks[c := checks[c].(reading := true)];
        case Complete(c) => OnSuccess(c);
        case Reject(c) => OnFailure(c);
        case Fire(t) => OnTimer(t);
        case Tick(ms) => now := now + ms;
      }
    }
  }

  /** A component that lives through the given events ends in the state of their run. */
  method Live(now: nat, events: seq<Event>) returns (component: Component)
    requires Possible(now, events)
    ensures component.Abs() == Run(now, events) && Inv(component.Abs())
  {
    component := new Component(now);
    for k := 0 to |events|
      invariant fresh(component) && component.Abs() == Run(now, events[..k])
    {
      PossiblePrefix(now, events, k + 1);
      assert events[..k + 1][..k] == events[..k];
      component.Perform(events[k]);
    }
    assert events[..|events|] == events;
    EveryRun(now, events);
  }

  lemma {:induction false} PossiblePrefix(now: nat, events: seq<Event>, k: nat)
    requires Possible(now, events) && k <= |events|
    ensures Possible(now, events[..k])
  {
    if k < |events| {
      assert events[..|events| - 1][..k] == events[..k];
      PossiblePrefix(now, events[..|events| - 1], k);
    } else {
      assert events[..k] == events;
    }
  }
}
