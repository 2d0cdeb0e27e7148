/** The socket of frontend/src/main.tsx: connecting, reconnecting after a pause that
    doubles, signing in and signing out. The state holds the component's refs and what the
    browser holds for it: the sockets ever made and the live timers. */
module Reconnect {
  import opened Bytes

  const MAX_DELAY: nat := 10000

  datatype ReadyState = CONNECTING | OPEN | CLOSING | CLOSED

  datatype State = State(
    token: Bytes, allow: bool, attempt: nat, socketRef: Option<nat>, timerRef: Option<nat>,
    sockets: seq<ReadyState>, timers: map<nat, nat>, nextTimer: nat,     // timer -> delay
    online: bool)     // history: connect was let through since signing in

  function Initial(token: Bytes): State {
    State(token, token != [], 0, None, None, [], map[], 0, false)
  }

  /** The socket in socketRef is connecting or open. */
  predicate Busy(s: State) {
    s.socketRef.Some? && s.socketRef.value < |s.sockets| && s.sockets[s.socketRef.value] in {CONNECTING, OPEN}
  }

  // ---------------------------------------------------------------- the functions

  /** connect(tokenRef.current). */
  function Connect(s: State): State {
    if s.token == [] || !s.allow then s
    else if Busy(s) then s.(online := true)
    else s.(sockets := s.sockets + [CONNECTING], socketRef := Some(|s.sockets|), online := true)
  }

  function Opened(s: State, w: nat): State
    requires w < |s.sockets|
  {
    s.(sockets := s.sockets[w := OPEN], attempt := 0)
  }

  function Power(n: nat): (r: nat)
    ensures r >= 1
  {
    if n == 0 then 1 else 2 * Power(n - 1)
  }

  function Delay(attempt: nat): nat {
    if 1000 * Power(attempt) <= MAX_DELAY then 1000 * Power(attempt) else MAX_DELAY
  }

  /** ws.onclose. */
  function Closed(s: State, w: nat): State
    requires w < |s.sockets|
  {
    var t := s.(sockets := s.sockets[w := CLOSED], socketRef := if s.socketRef == Some(w) then None else s.socketRef);
    if !t.allow || t.token == [] then t
    else t.(timers := t.timers[t.nextTimer := Delay(t.attempt)], timerRef := Some(t.nextTimer),
            nextTimer := t.nextTimer + 1, attempt := t.attempt + 1)
  }

  /** WebSocket.close. */
  function Shut(sockets: seq<ReadyState>, ref: Option<nat>): seq<ReadyState> {
    if ref.Some? && ref.value < |sockets| && sockets[ref.value] in {CONNECTING, OPEN}
    then sockets[ref.value := CLOSING] else sockets
  }

  function Cleared(timers: map<nat, nat>, ref: Option<nat>): map<nat, nat> {
    if ref.Some? then timers - {ref.value} else timers
  }

  function SignIn(s: State, token: Bytes): State {
    s.(token := token, allow := true, attempt := 0)
  }

  /** logout. */
  function SignOut(s: State): State {
    s.(allow := false, token := [], timers := Cleared(s.timers, s.timerRef), timerRef := None,
       sockets := Shut(s.sockets, s.socketRef), socketRef := None, online := false)
  }

  /** The clean-up when the component goes away. */
  function Unmounted(s: State): State {
    s.(allow := false, timers := Cleared(s.timers, s.timerRef),
       sockets := Shut(s.sockets, s.socketRef), online := false)
  }

  // ---------------------------------------------------------------- events

  datatype Event = SigningIn(token: Bytes)      // startSession
                 | Connecting(token: Bytes)     // connect after signing in, if that session is still the current one
                 | SigningOut
                 | Unmounting
                 | Opening(w: nat) | Erring(w: nat) | Closing(w: nat)
                 | Firing(timer: nat)

  predicate Enabled(s: State, e: Event) {
    match e
    case SigningIn(token) => token != []
    case Connecting(_) => true
    case SigningOut => true
    case Unmounting => true
    case Opening(w) => w < |s.sockets| && s.sockets[w] == CONNECTING
    case Erring(w) => w < |s.sockets| && s.sockets[w] != CLOSED
    case Closing(w) => w < |s.sockets| && s.sockets[w] != CLOSED
    case Firing(t) => t in s.timers
  }

  function Step(s: State, e: Event): State
    requires Enabled(s, e)
  {
    match e
    case SigningIn(token) => SignIn(s, token)
    case Connecting(token) => if token == s.token then Connect(s) else s
    case SigningOut => SignOut(s)
    case Unmounting => Unmounted(s)
    case Opening(w) => Opened(s, w)
    case Erring(w) => s.(sockets := Shut(s.sockets, Some(w)))
    case Closing(w) => Closed(s, w)
    case Firing(t) => Connect(s.(timers := s.timers - {t}))
  }

  function Run(token: Bytes, events: seq<Event>): State {
    if events == [] then Initial(token)
    else
      var s := Run(token, events[..|events| - 1]);
      if Enabled(s, events[|events| - 1]) then Step(s, events[|events| - 1]) else s
  }

  predicate Possible(token: Bytes, events: seq<Event>) {
    events != [] ==>
      && Possible(token, events[..|events| - 1])
      && Enabled(Run(token, events[..|events| - 1]), events[|events| - 1])
  }

  // ---------------------------------------------------------------- the invariant

  /** Only the socket in socketRef is connecting or open. */
  predicate OneSocket(s: State) {
    && (forall w :: 0 <= w < |s.sockets| && s.sockets[w] in {CONNECTING, OPEN} ==> s.socketRef == Some(w))
    && (s.socketRef.Some? ==> s.socketRef.value < |s.sockets|)
  }

  /** Every delay is between one and ten seconds, and timers are numbered as they come. */
  predicate DelaysOk(s: State) {
    && (forall t :: t in s.timers ==> 1000 <= s.timers[t] <= MAX_DELAY && t < s.nextTimer)
    && (s.timerRef.Some? ==> s.timerRef.value < s.nextTimer)
  }

  /** A session that has once connected has a socket that is not closed yet, or a timer. */
  predicate KeepsTrying(s: State) {
    s.online ==>
      && s.allow && s.token != []
      && (s.timers != map[] || exists w :: 0 <= w < |s.sockets| && s.sockets[w] != CLOSED)
  }

  predicate Inv(s: State) {
    OneSocket(s) && DelaysOk(s) && KeepsTrying(s)
  }

  lemma ConnectKeeps(s: State)
    requires OneSocket(s) && DelaysOk(s) && (s.online ==> s.allow && s.token != [])
    ensures Inv(Connect(s))
  {
    var t := Connect(s);
    if t.online {
      assert t.sockets[t.socketRef.value] != CLOSED;
    }
  }

  lemma ClosedKeeps(s: State, w: nat)
    requires Inv(s) && w < |s.sockets| && s.sockets[w] != CLOSED
    ensures Inv(Closed(s, w))
  {
    var t := Closed(s, w);
    if s.online {
      assert s.nextTimer in t.timers;
    }
  }

  lemma OtherKeeps(s: State, e: Event)
    requires Inv(s) && Enabled(s, e) && (e.SigningIn? || e.SigningOut? || e.Unmounting? || e.Opening? || e.Erring?)
    ensures Inv(Step(s, e))
  {
    var t := Step(s, e);
    if s.online && t.online && s.timers == map[] {
      var w :| 0 <= w < |s.sockets| && s.sockets[w] != CLOSED;
      assert t.sockets[w] != CLOSED;
    }
  }

  lemma StepKeeps(s: State, e: Event)
    requires Inv(s) && Enabled(s, e)
    ensures Inv(Step(s, e))
  {
    match e
    case Connecting(token) => if token == s.token { ConnectKeeps(s); }
    case Firing(t) => ConnectKeeps(s.(timers := s.timers - {t}));
    case Closing(w) => ClosedKeeps(s, w);
    case _ => OtherKeeps(s, e);
  }

  lemma {:induction false} EveryRun(token: Bytes, events: seq<Event>)
    requires Possible(token, events)
    ensures Inv(Run(token, events))
  {
    if events != [] {
      EveryRun(token, events[..|events| - 1]);
      StepKeeps(Run(token, events[..|events| - 1]), events[|events| - 1]);
    }
  }

  // ---------------------------------------------------------------- laws

  /** In every run at most one socket is connecting or open, and it is the one in
      socketRef. */
  lemma AtMostOneSocket(token: Bytes, events: seq<Event>, v: nat, w: nat)
    requires Possible(token, events) && v < |Run(token, events).sockets| && w < |Run(token, events).sockets|
    requires Run(token, events).sockets[v] in {CONNECTING, OPEN} && Run(token, events).sockets[w] in {CONNECTING, OPEN}
    ensures v == w && Run(token, events).socketRef == Some(v)
  {
    EveryRun(token, events);
  }

  /** An event makes a socket only when none is connecting or open, and the new one is then
      the one in socketRef. */
  lemma NewSocketOnlyAlone(token: Bytes, events: seq<Event>, e: Event)
    requires Possible(token, events) && Enabled(Run(token, events), e)
    ensures var s, t := Run(token, events), Step(Run(token, events), e);
            |t.sockets| != |s.sockets| ==>
              && |t.sockets| == |s.sockets| + 1 && t.socketRef == Some(|s.sockets|)
              && s.allow && s.token != []
              && forall w :: 0 <= w < |s.sockets| ==> s.sockets[w] !in {CONNECTING, OPEN}
  {
    EveryRun(token, events);
  }

  predicate Quiet(events: seq<Event>) {
    forall k :: 0 <= k < |events| ==> !events[k].SigningIn?
  }

  /** After signing out, timers and late events make no socket until the next sign-in. */
  lemma {:induction false} NoSocketAfterSignOut(token: Bytes, events: seq<Event>, more: seq<Event>)
    requires Possible(token, events + [SigningOut] + more) && Quiet(more)
    ensures var s, t := Run(token, events + [SigningOut]), Run(token, events + [SigningOut] + more);
            && !t.allow && t.token == [] && |t.sockets| == |s.sockets|
            && forall w :: 0 <= w < |t.sockets| ==> t.sockets[w] !in {CONNECTING, OPEN}
  {
    var before := events + [SigningOut];
    if more == [] {
      assert before + more == before && before[..|before| - 1] == events;
      EveryRun(token, events);
      EveryRun(token, before);
    } else {
      var all := before + more;
      assert all[..|all| - 1] == before + more[..|more| - 1];
      NoSocketAfterSignOut(token, events, more[..|more| - 1]);
      assert !more[|more| - 1].SigningIn?;
      EveryRun(token, all);
      EveryRun(token, all[..|all| - 1]);
    }
  }

  /** Every pause is at least one second and at most ten. */
  lemma DelaysAreBounded(token: Bytes, events: seq<Event>, timer: nat)
    requires Possible(token, events) && timer in Run(token, events).timers
    ensures 1000 <= Run(token, events).timers[timer] <= 10000
  {
    EveryRun(token, events);
  }

  /** The pause doubles with every close since the last open until it is ten seconds. */
  lemma DelaysDouble(n: nat)
    ensures n <= 3 ==> Delay(n) == 1000 * Power(n)
    ensures n >= 4 ==> Delay(n) == MAX_DELAY
    ensures Delay(n) <= Delay(n + 1) <= 2 * Delay(n)
  {
    assert Power(1) == 2 && Power(2) == 4 && Power(3) == 8 && Power(4) == 16;
    if n >= 4 { PowerGrows(4, n); }
  }

  /** How often the connection was lost since it last opened or the user last signed in. */
  function Streak(token: Bytes, events: seq<Event>): nat {
    if events == [] then 0
    else
      var before, e := events[..|events| - 1], events[|events| - 1];
      if e.Opening? || e.SigningIn? then 0
      else if e.Closing? && Run(token, before).allow && Run(token, before).token != [] then Streak(token, before) + 1
      else Streak(token, before)
  }

  lemma {:induction false} AttemptIsTheStreak(token: Bytes, events: seq<Event>)
    requires Possible(token, events)
    ensures Run(token, events).attempt == Streak(token, events)
  {
    if events != [] {
      AttemptIsTheStreak(token, events[..|events| - 1]);
    }
  }

  /** A lost connection of a signed-in user sets exactly one timer, whose pause is given by
      the losses in a row before it; anybody else's sets none. */
  lemma PauseFollowsTheStreak(token: Bytes, events: seq<Event>, w: nat)
    requires Possible(token, events) && Enabled(Run(token, events), Closing(w))
    ensures var s, t := Run(token, events), Step(Run(token, events), Closing(w));
            t.timers ==
              if s.allow && s.token != [] then s.timers[s.nextTimer := Delay(Streak(token, events))] else s.timers
    ensures Run(token, events).nextTimer !in Run(token, events).timers
  {
    EveryRun(token, events);
    AttemptIsTheStreak(token, events);
  }

  lemma {:induction false} PowerGrows(m: nat, n: nat)
    requires m <= n
    ensures Power(m) <= Power(n)
  {
    if m < n { PowerGrows(m, n - 1); }
  }

  /** A signed-in session that has once connected never gives up: there is always a socket
      whose close is still to come, or a timer. */
  lemma NeverGivesUp(token: Bytes, events: seq<Event>)
    requires Possible(token, events) && Run(token, events).online
    ensures var s := Run(token, events);
            s.timers != map[] || exists w :: 0 <= w < |s.sockets| && s.sockets[w] != CLOSED
  {
    EveryRun(token, events);
  }

  // ---------------------------------------------------------------- what each event must do

  predicate Quitting(e: Event) {
    e.SigningOut? || e.Unmounting?
  }

  /** What becomes of a socket that is there. */
  function Fate(e: Event, w: nat, before: ReadyState): ReadyState {
    if e == Closing(w) then CLOSED
    else if e == Opening(w) then OPEN
    else if (Quitting(e) || e == Erring(w)) && before in {CONNECTING, OPEN} then CLOSING
    else before
  }

  predicate AllShut(s: State) {
    forall w :: 0 <= w < |s.sockets| ==> s.sockets[w] !in {CONNECTING, OPEN}
  }

  /** Whether the event makes a socket: connecting, or trying again, while a session may
      connect and no socket is connecting or open. */
  predicate Connects(s: State, e: Event) {
    && (e == Connecting(s.token) || e.Firing?)
    && s.allow && s.token != [] && AllShut(s)
  }

  predicate SocketsOutcome(s: State, e: Event, t: State) {
    && |t.sockets| == |s.sockets| + (if Connects(s, e) then 1 else 0)
    && (forall w :: 0 <= w < |s.sockets| ==> t.sockets[w] == Fate(e, w, s.sockets[w]))
    && (Connects(s, e) ==> t.sockets[|s.sockets|] == CONNECTING)
  }

  predicate TimersOutcome(s: State, e: Event, t: State) {
    match e
    case Firing(timer) => t.timers == s.timers - {timer}
    case Closing(_) =>
      if s.allow && s.token != [] then s.nextTimer in t.timers && t.timers - {s.nextTimer} == s.timers
      else t.timers == s.timers
    case SigningOut => t.timers == if s.timerRef.Some? then s.timers - {s.timerRef.value} else s.timers
    case Unmounting => t.timers == if s.timerRef.Some? then s.timers - {s.timerRef.value} else s.timers
    case _ => t.timers == s.timers
  }

  /** What an event must do to the sockets, the timers and the session. */
  predicate Outcome(s: State, e: Event, t: State) {
    && SocketsOutcome(s, e, t) && TimersOutcome(s, e, t)
    && t.token == (match e case SigningIn(token) => token case SigningOut => [] case _ => s.token)
    && t.allow == (e.SigningIn? || (s.allow && !Quitting(e)))
  }

  lemma BusyIsOpen(s: State)
    requires OneSocket(s)
    ensures Busy(s) <==> !AllShut(s)
  {
  }

  lemma ConnectOutcome(s: State, e: Event)
    requires Inv(s) && Enabled(s, e) && (e.Connecting? || e.Firing?)
    ensures SocketsOutcome(s, e, Step(s, e))
  {
    BusyIsOpen(s);
  }

  lemma SocketOutcome(s: State, e: Event)
    requires Inv(s) && Enabled(s, e) && !e.Connecting? && !e.Firing?
    ensures SocketsOutcome(s, e, Step(s, e))
  {
  }

  lemma TimerOutcome(s: State, e: Event)
    requires Inv(s) && Enabled(s, e)
    ensures TimersOutcome(s, e, Step(s, e))
  {
    if e.Closing? && s.allow && s.token != [] {
      assert s.nextTimer !in s.timers;
      assert Step(s, e).timers - {s.nextTimer} == s.timers;
    }
  }

  /** In every run each event does exactly that; in particular signing out and going away
      close the socket that is connecting or open, whichever it is. */
  lemma EveryEventCounts(token: Bytes, events: seq<Event>, e: Event)
    requires Possible(token, events) && Enabled(Run(token, events), e)
    ensures Outcome(Run(token, events), e, Step(Run(token, events), e))
  {
    var s := Run(token, events);
    EveryRun(token, events);
    TimerOutcome(s, e);
    if e.Connecting? || e.Firing? { ConnectOutcome(s, e); } else { SocketOutcome(s, e); }
  }

  lemma StaysShut(s: State, e: Event, t: State)
    requires Enabled(s, e) && Outcome(s, e, t) && !e.SigningIn? && !s.allow && AllShut(s)
    ensures !t.allow && AllShut(t) && |t.sockets| == |s.sockets|
  {
    assert !Connects(s, e);
  }

  lemma LastEvent(token: Bytes, events: seq<Event>)
    requires Possible(token, events) && events != []
    ensures var front, e := events[..|events| - 1], events[|events| - 1];
            && Possible(token, front) && Enabled(Run(token, front), e)
            && Outcome(Run(token, front), e, Run(token, events))
  {
    EveryEventCounts(token, events[..|events| - 1], events[|events| - 1]);
  }

  /** After the component is gone no socket is made or left open, whatever timers and late
      events come. */
  lemma {:induction false} NoSocketAfterUnmount(token: Bytes, events: seq<Event>, more: seq<Event>)
    requires Possible(token, events + [Unmounting] + more) && Quiet(more)
    ensures var s, t := Run(token, events + [Unmounting]), Run(token, events + [Unmounting] + more);
            !t.allow && |t.sockets| == |s.sockets| && AllShut(t)
  {
    var before := events + [Unmounting];
    var all := before + more;
    LastEvent(token, all);
    if more == [] {
      assert all == before && before[..|before| - 1] == events;
    } else {
      assert all[..|all| - 1] == before + more[..|more| - 1];
      NoSocketAfterUnmount(token, events, more[..|more| - 1]);
      assert !more[|more| - 1].SigningIn?;
      StaysShut(Run(token, all[..|all| - 1]), more[|more| - 1], Run(token, all));
    }
  }

  // ---------------------------------------------------------------- a limit

  lemma Then(token: Bytes, events: seq<Event>, e: Event, t: State)
    requires Possible(token, events) && Enabled(Run(token, events), e) && Step(Run(token, events), e) == t
    ensures Possible(token, events + [e]) && Run(token, events + [e]) == t
  {
    assert (events + [e])[..|events|] == events;
  }

  /** logout leaves no timer behind exactly when every live one is the last one set. */
  lemma SignOutClearsExactly(s: State)
    ensures SignOut(s).timers == map[] <==> forall t :: t in s.timers ==> s.timerRef == Some(t)
  {
    var left := SignOut(s).timers;
    assert left != map[] ==> exists t :: t in left;
    forall t | t in s.timers && s.timerRef != Some(t) ensures t in left {}
  }

  /** It does not always: a timer set by the late close of an earlier socket,
      while the user signed in again, outlives it; and then does nothing. */
  lemma ATimerOutlivesSignOut() returns (events: seq<Event>)
    ensures Possible([], events) && events != [] && events[|events| - 1] == SigningOut
    ensures Run([], events).timers != map[]
  {
    var t := [1];
    var s := Initial([]);
    Then([], [], SigningIn(t), s.(token := t, allow := true));
    events := [] + [SigningIn(t)];
    s := s.(token := t, allow := true, sockets := [CONNECTING], socketRef := Some(0), online := true);
    Then([], events, Connecting(t), s);
    events := events + [Connecting(t)];
    Then([], events, Erring(0), s.(sockets := [CLOSING]));
    events := events + [Erring(0)];
    Then([], events, SigningIn(t), s.(sockets := [CLOSING]));
    events := events + [SigningIn(t)];
    s := s.(sockets := [CLOSING, CONNECTING], socketRef := Some(1));
    Then([], events, Connecting(t), s);
    events := events + [Connecting(t)];
    assert Power(0) == 1 && Power(1) == 2;
    s := s.(sockets := [CLOSED, CONNECTING], timers := map[0 := 1000], timerRef := Some(0),
            nextTimer := 1, attempt := 1);
    Then([], events, Closing(0), s);
    events := events + [Closing(0)];
    s := s.(sockets := [CLOSED, CLOSED], socketRef := None, timers := map[0 := 1000, 1 := 2000],
            timerRef := Some(1), nextTimer := 2, attempt := 2);
    Then([], events, Closing(1), s);
    events := events + [Closing(1)];
    Then([], events, SigningOut, SignOut(s));
    events := events + [SigningOut];
    assert 0 in SignOut(s).timers;
  }

  // ---------------------------------------------------------------- in place

  /** The component and its browser; every method does what its function above says. */
  class Component {
    var token: Bytes
    var allow: bool
    var attempt: nat
    var socketRef: Option<nat>
    var timerRef: Option<nat>
    var sockets: seq<ReadyState>
    var timers: map<nat, nat>
    var nextTimer: nat
    ghost var online: bool

    ghost function Abs(): State
      reads this
    {
      State(token, allow, attempt, socketRef, timerRef, sockets, timers, nextTimer, online)
    }

    constructor (stored: Bytes)
      ensures Abs() == Initial(stored)
    {
      token, allow, attempt := stored, stored != [], 0;
      socketRef, timerRef, sockets := None, None, [];
      timers, nextTimer, online := map[], 0, false;
    }

    method ConnectNow()
      modifies this
      ensures Abs() == Connect(old(Abs()))
    {
      if token != [] && allow {
        online := true;
        var live := false;
        if socketRef.Some? && socketRef.value < |sockets| {
          live := sockets[socketRef.value] == OPEN || sockets[socketRef.value] == CONNECTING;
        }
        if !live {
          socketRef := Some(|sockets|);
          sockets := sockets + [CONNECTING];
        }
      }
    }

    method OnOpen(w: nat)
      requires w < |sockets|
      modifies this
      ensures Abs() == Opened(old(Abs()), w)
    {
      sockets := sockets[w := OPEN];
      attempt := 0;
    }

    method OnClose(w: nat)
      requires w < |sockets|
      modifies this
      ensures Abs() == Closed(old(Abs()), w)
    {
      sockets := sockets[w := CLOSED];
      if socketRef == Some(w) {
        socketRef := None;
      }
      if allow && token != [] {
        var delay := 1000 * Power(attempt);
        if delay > MAX_DELAY {
          delay := MAX_DELAY;
        }
        attempt := attempt + 1;
        timers := timers[nextTimer := delay];
        timerRef := Some(nextTimer);
        nextTimer := nextTimer + 1;
      }
    }

    method Close(ref: Option<nat>)
      modifies this`sockets
      ensures sockets == Shut(old(sockets), ref)
    {
      if ref.Some? && ref.value < |sockets| {
        if sockets[ref.value] == OPEN || sockets[ref.value] == CONNECTING {
          sockets := sockets[ref.value := CLOSING];
        }
      }
    }

    method StartSession(accessToken: Bytes)
      modifies this
      ensures Abs() == SignIn(old(Abs()), accessToken)
    {
      token := accessToken;
      allow := true;
      attempt := 0;
    }

    method Logout()
      modifies this
      ensures Abs() == SignOut(old(Abs()))
    {
      allow := false;
      online := false;
      token := [];
      if timerRef.Some? {
        timers := timers - {timerRef.value};
        timerRef := None;
      }
      Close(socketRef);
      socketRef := None;
    }

    method CleanUp()
      modifies this
      ensures Abs() == Unmounted(old(Abs()))
    {
      allow := false;
      online := false;
      if timerRef.Some? {
        timers := timers - {timerRef.value};
      }
      Close(socketRef);
    }

    method OnTimer(timer: nat)
      requires timer in timers
      modifies this
      ensures Abs() == Connect(old(Abs()).(timers := old(timers) - {timer}))
    {
      timers := timers - {timer};
      ConnectNow();
    }

    /** One event, as the browser or the user causes it. */
    method Perform(e: Event)
      requires Enabled(Abs(), e)
      modifies this
      ensures Abs() == Step(old(Abs()), e)
    {
      match e {
        case SigningIn(accessToken) => StartSession(accessToken);
        case Connecting(accessToken) =>
          if accessToken == token {
            ConnectNow();
          }
        case SigningOut => Logout();
        case Unmounting => CleanUp();
        case Opening(w) => OnOpen(w);
        case Erring(w) => Close(Some(w));
        case Closing(w) => OnClose(w);
        case Firing(t) => OnTimer(t);
      }
    }
  }

  /** A component that lives through the given events ends in the state of their run. */
  method Live(stored: Bytes, events: seq<Event>) returns (component: Component)
    requires Possible(stored, events)
    ensures component.Abs() == Run(stored, events) && Inv(component.Abs())
  {
    component := new Component(stored);
    for k := 0 to |events|
      invariant fresh(component) && component.Abs() == Run(stored, events[..k])
    {
      PossiblePrefix(stored, events, k + 1);
      assert events[..k + 1][..k] == events[..k];
      component.Perform(events[k]);
    }
    assert events[..|events|] == events;
    EveryRun(stored, events);
  }

  lemma {:induction false} PossiblePrefix(stored: Bytes, events: seq<Event>, k: nat)
    requires Possible(stored, events) && k <= |events|
    ensures Possible(stored, events[..k])
  {
    if k < |events| {
      assert events[..|events| - 1][..k] == events[..k];
      PossiblePrefix(stored, events[..|events| - 1], k);
    } else {
      assert events[..k] == events;
    }
  }
}
