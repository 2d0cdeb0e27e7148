/** Runs that show why the laws of the bridge need their conditions. */
module BridgeLimits {
  import opened Bytes
  import opened Bridge
  import opened BridgeInvariant
  import opened BridgeSaves
  import opened BridgePairing
  import opened BridgeLaws

  function Alice(): Bytes { [65] }
  function Bob(): Bytes { [66] }

  function Two(x: Session, y: Session, deliveries: seq<Delivery>, rows: seq<Row>, active: map<Bytes, nat>): World {
    World([x, y], active, deliveries, [], rows)
  }

  lemma Then(actions: seq<Action>, a: Action, v: World)
    requires Possible(actions) && Enabled(Run(actions), a) && Step(Run(actions), a) == v
    ensures Possible(actions + [a]) && Run(actions + [a]) == v
    ensures AllPaired(actions) && Paired(Run(actions), a) ==> AllPaired(actions + [a])
  {
    assert (actions + [a])[..|actions|] == actions;
  }

  function Entering(x: Session): Session { x.(started := true) }

  lemma FirstRegisters() returns (actions: seq<Action>)
    ensures Possible(actions) && AllPaired(actions)
    ensures Run(actions) == World([Opened(Alice(), true)], map[], [], [], [])
  {
    var x := Opened(Alice(), true);
    assert Step(Nothing(), Open(Alice(), true)).sessions == [x];
    Then([], Open(Alice(), true), World([x], map[], [], [], []));
    actions := [] + [Open(Alice(), true)];
  }

  /** Both register with the core. */
  lemma Registering() returns (actions: seq<Action>)
    ensures Possible(actions) && AllPaired(actions)
    ensures Run(actions) == Two(Opened(Alice(), true), Opened(Bob(), true), [], [], map[])
  {
    var x, y := Opened(Alice(), true), Opened(Bob(), true);
    actions := FirstRegisters();
    assert Alice()[0] != Bob()[0];
    Then(actions, Open(Bob(), true), Two(x, y, [], [], map[]));
    actions := actions + [Open(Bob(), true)];
  }

  /** Both endpoints are entered. */
  lemma Meeting() returns (actions: seq<Action>)
    ensures Possible(actions) && AllPaired(actions)
    ensures Run(actions) == Two(A([], [], [], []), B([], []), [], [], Both())
  {
    actions := Registering();
    assert Alice()[0] != Bob()[0];
    var x, y := Opened(Alice(), true), Opened(Bob(), true);
    assert Step(Run(actions), Start(0)).sessions == [Entering(x), y];
    Then(actions, Start(0), Two(Entering(x), y, [], [], map[Alice() := 1]));
    actions := actions + [Start(0)];
    assert Step(Run(actions), Start(1)).sessions == [Entering(x), Entering(y)];
    Then(actions, Start(1), Two(Entering(x), Entering(y), [], [], Both()));
    actions := actions + [Start(1)];
  }

  function Busy(x: Session, pending: seq<Pending>, toCore: seq<Command>,
    fromCore: seq<Event>, seen: seq<Event>): Session
  {
    x.(started := true, pending := pending, toCore := toCore, fromCore := fromCore, seen := seen)
  }

  function A(pending: seq<Pending>, toCore: seq<Command>, fromCore: seq<Event>, seen: seq<Event>): Session {
    Busy(Opened(Alice(), true), pending, toCore, fromCore, seen)
  }

  function B(fromCore: seq<Event>, seen: seq<Event>): Session {
    Busy(Opened(Bob(), true), [], [], fromCore, seen)
  }

  function Both(): map<Bytes, nat> { map[Alice() := 1, Bob() := 1] }

  function Hello(): Pending { Pending(Bob(), [1]) }

  function First(): Delivery { Delivery(0, 1, Alice(), Hello()) }

  lemma PlainNames()
    ensures Alice() != Bob() && CStr(Alice()) == Alice() && CStr(Bob()) == Bob() && CStr([1]) == [1] && CStr([2]) == [2]
  {
    assert Alice()[0] != Bob()[0];
    CStrOfNulFree(Alice());
    CStrOfNulFree(Bob());
    CStrOfNulFree([1]);
    CStrOfNulFree([2]);
  }

  // ---------------------------------------------------------------- worlds on the way

  function Got(): Event { DmEvent(0, Alice(), [1]) }

  function AliceSaved(): Row { Row(SavedDm(Alice(), Bob(), [1]), DmSent(0), 0) }

  function BobSaved(): Row { Row(SavedDm(Alice(), Bob(), [1]), Got(), 1) }

  function Note(): Pending { Pending(Alice(), [2]) }

  function NoteDelivery(): Delivery { Delivery(0, 0, Alice(), Note()) }

  function Met(): World { Two(A([], [], [], []), B([], []), [], [], Both()) }

  function Asked(): World { Two(A([Hello()], [DmCommand(Hello())], [], []), B([], []), [], [], Both()) }

  function Arrived(): World { Two(A([Hello()], [], [DmSent(0)], []), B([Got()], []), [First()], [], Both()) }

  function Kept(): World { Two(A([], [], [], [DmSent(0)]), B([Got()], []), [First()], [AliceSaved()], Both()) }

  function KeptAndGone(): World {
    Two(A([], [], [], [DmSent(0)]).(ended := true), B([Got()], []), [First()], [AliceSaved()], map[Bob() := 1])
  }

  function KeptTwice(): World {
    Two(A([], [], [], [DmSent(0)]).(ended := true), B([], [Got()]), [First()], [AliceSaved(), BobSaved()],
        map[Bob() := 1])
  }

  function Left1(): World { Two(A([Hello()], [], [DmSent(0)], []), B([], [Got()]), [First()], [], Both()) }

  function Left2(): World {
    Two(A([Hello()], [], [DmSent(0)], []).(ended := true), B([], [Got()]), [First()], [], map[Bob() := 1])
  }

  function Err1(): World { Two(A([], [OtherCommand], [], []), B([], []), [], [], Both()) }

  function Err2(): World { Two(A([Hello()], [OtherCommand, DmCommand(Hello())], [], []), B([], []), [], [], Both()) }

  function Err3(): World { Two(A([Hello()], [DmCommand(Hello())], [OtherError], []), B([], []), [], [], Both()) }

  function Err4(): World { Two(A([Hello()], [], [OtherError, DmSent(0)], []), B([Got()], []), [First()], [], Both()) }

  function Err5(): World { Two(A([], [], [DmSent(0)], [OtherError]), B([Got()], []), [First()], [], Both()) }

  function Err6(): World { Two(A([], [], [], [OtherError, DmSent(0)]), B([Got()], []), [First()], [], Both()) }

  function Err7(): World { Two(A([], [], [], [OtherError, DmSent(0)]), B([], [Got()]), [First()], [], Both()) }

  function Gone(): Session { B([], []).(connected := false) }

  function Full1(): World {
    Two(A([Hello(), Note()], [DmCommand(Hello()), DmCommand(Note())], [], []), B([], []), [], [], Both())
  }

  function Full2(): World { Two(A([Hello(), Note()], [DmCommand(Note())], [], []), Gone(), [], [], Both()) }

  function Full3(): World {
    Two(A([Hello(), Note()], [], [DmEvent(0, Alice(), [2]), DmSent(0)], []), Gone(), [NoteDelivery()], [], Both())
  }

  function Full4(): World {
    Two(A([Hello(), Note()], [], [DmSent(0)], [DmEvent(0, Alice(), [2])]), Gone(), [NoteDelivery()], [], Both())
  }

  function Full5(): World {
    Two(A([Note()], [], [], [DmEvent(0, Alice(), [2]), DmSent(0)]), Gone(), [NoteDelivery()], [AliceSaved()], Both())
  }

  // ---------------------------------------------------------------- one step each

  lemma SameTwo(v: World, u: World)
    requires |v.sessions| == 2 && |u.sessions| == 2
    requires SameFields(v.sessions[0], u.sessions[0]) && SameFields(v.sessions[1], u.sessions[1])
    requires v.active == u.active && v.deliveries == u.deliveries && v.broadcasts == u.broadcasts && v.rows == u.rows
    ensures v == u
  {
    assert v.sessions == u.sessions;
  }

  predicate SameFields(x: Session, y: Session) {
    && x.user == y.user && x.name == y.name && x.renamed == y.renamed && x.gateway == y.gateway
    && x.started == y.started && x.abandoned == y.abandoned && x.ended == y.ended && x.deaf == y.deaf
    && x.connected == y.connected && x.pending == y.pending && x.toCore == y.toCore
    && x.fromCore == y.fromCore && x.seen == y.seen
  }

  lemma MetAsks()
    ensures Enabled(Met(), Send(0, DmCommand(Hello()))) && Step(Met(), Send(0, DmCommand(Hello()))) == Asked()
  {
    PlainNames();
    SameTwo(Step(Met(), Send(0, DmCommand(Hello()))), Asked());
  }

  lemma AskedArrives()
    ensures Enabled(Asked(), Deliver(0, 1, None)) && Step(Asked(), Deliver(0, 1, None)) == Arrived()
  {
    PlainNames();
    DeliveredStatus(Asked(), 0, 1, None);
    DeliveredSession(Asked(), 0, 1, None, 0);
    DeliveredSession(Asked(), 0, 1, None, 1);
    SameTwo(Step(Asked(), Deliver(0, 1, None)), Arrived());
  }

  lemma ArrivedKeeps()
    ensures Enabled(Arrived(), Handle(0)) && Step(Arrived(), Handle(0)) == Kept()
  {
    PlainNames();
    SameTwo(Step(Arrived(), Handle(0)), Kept());
  }

  lemma KeptEnds()
    ensures Enabled(Kept(), End(0, false)) && Step(Kept(), End(0, false)) == KeptAndGone()
  {
    PlainNames();
    SameTwo(Step(Kept(), End(0, false)), KeptAndGone());
  }

  lemma KeptAgain()
    ensures Enabled(KeptAndGone(), Handle(1)) && Step(KeptAndGone(), Handle(1)) == KeptTwice()
  {
    PlainNames();
    SameTwo(Step(KeptAndGone(), Handle(1)), KeptTwice());
  }

  lemma LeftHandles()
    ensures Enabled(Arrived(), Handle(1)) && Step(Arrived(), Handle(1)) == Left1()
  {
    PlainNames();
    SameTwo(Step(Arrived(), Handle(1)), Left1());
  }

  lemma LeftEnds()
    ensures Enabled(Left1(), End(0, false)) && Step(Left1(), End(0, false)) == Left2()
  {
    PlainNames();
    SameTwo(Step(Left1(), End(0, false)), Left2());
  }

  lemma ErrSends()
    ensures Enabled(Met(), Send(0, OtherCommand)) && Step(Met(), Send(0, OtherCommand)) == Err1()
  {
    PlainNames();
    SameTwo(Step(Met(), Send(0, OtherCommand)), Err1());
  }

  lemma ErrAsks()
    ensures Enabled(Err1(), Send(0, DmCommand(Hello()))) && Step(Err1(), Send(0, DmCommand(Hello()))) == Err2()
  {
    PlainNames();
    SameTwo(Step(Err1(), Send(0, DmCommand(Hello()))), Err2());
  }

  lemma ErrAnswers()
    ensures Enabled(Err2(), Answer(0, true)) && Step(Err2(), Answer(0, true)) == Err3()
  {
    PlainNames();
    SameTwo(Step(Err2(), Answer(0, true)), Err3());
  }

  lemma ErrDelivers()
    ensures Enabled(Err3(), Deliver(0, 1, None)) && Step(Err3(), Deliver(0, 1, None)) == Err4()
  {
    PlainNames();
    DeliveredStatus(Err3(), 0, 1, None);
    DeliveredSession(Err3(), 0, 1, None, 0);
    DeliveredSession(Err3(), 0, 1, None, 1);
    SameTwo(Step(Err3(), Deliver(0, 1, None)), Err4());
  }

  lemma ErrPops()
    ensures Enabled(Err4(), Handle(0)) && Step(Err4(), Handle(0)) == Err5()
  {
    PlainNames();
    SameTwo(Step(Err4(), Handle(0)), Err5());
  }

  lemma ErrConfirms()
    ensures Enabled(Err5(), Handle(0)) && Step(Err5(), Handle(0)) == Err6()
  {
    PlainNames();
    SameTwo(Step(Err5(), Handle(0)), Err6());
  }

  lemma ErrReceives()
    ensures Enabled(Err6(), Handle(1)) && Step(Err6(), Handle(1)) == Err7()
  {
    PlainNames();
    SameTwo(Step(Err6(), Handle(1)), Err7());
  }

  lemma FullAsks()
    ensures Enabled(Asked(), Send(0, DmCommand(Note()))) && Step(Asked(), Send(0, DmCommand(Note()))) == Full1()
  {
    PlainNames();
    SameTwo(Step(Asked(), Send(0, DmCommand(Note()))), Full1());
  }

  lemma FullOverflows()
    ensures Enabled(Full1(), Overflow(0, 1, 0)) && Step(Full1(), Overflow(0, 1, 0)) == Full2()
  {
    PlainNames();
    SameTwo(Step(Full1(), Overflow(0, 1, 0)), Full2());
  }

  lemma FullDelivers()
    ensures Enabled(Full2(), Deliver(0, 0, None)) && Step(Full2(), Deliver(0, 0, None)) == Full3()
  {
    PlainNames();
    DeliveredStatus(Full2(), 0, 0, None);
    DeliveredSession(Full2(), 0, 0, None, 0);
    DeliveredSession(Full2(), 0, 0, None, 1);
    SameTwo(Step(Full2(), Deliver(0, 0, None)), Full3());
  }

  lemma FullReceives()
    ensures Enabled(Full3(), Handle(0)) && Step(Full3(), Handle(0)) == Full4()
  {
    PlainNames();
    SameTwo(Step(Full3(), Handle(0)), Full4());
  }

  lemma FullConfirms()
    ensures Enabled(Full4(), Handle(0)) && Step(Full4(), Handle(0)) == Full5()
  {
    PlainNames();
    SameTwo(Step(Full4(), Handle(0)), Full5());
  }

  // ---------------------------------------------------------------- the runs

  lemma RowsToday()
    ensures DmRows([AliceSaved()], 0) == [AliceSaved()]
    ensures DmRows([AliceSaved(), BobSaved()], 0) == [AliceSaved(), BobSaved()]
    ensures AliceSaved() != SenderRow(Full5(), 0)
  {
    PlainNames();
    assert [AliceSaved(), BobSaved()][..1] == [AliceSaved()] && [AliceSaved()][..0] == [];
    assert DmRows([], 0) == [];
    assert AliceSaved().message.recipient == Bob() && SenderRow(Full5(), 0).message.recipient == Alice();
  }

  /** Saved twice, replies paired: Alice's session handles the confirmation and ends before
      Bob's handles the message. */
  lemma DuplicateWhenTheSenderLeaves() returns (actions: seq<Action>)
    ensures Possible(actions) && AllPaired(actions) && Run(actions) == KeptTwice()
    ensures DmRows(Run(actions).rows, 0) == [AliceSaved(), BobSaved()] && AliceSaved().message == BobSaved().message
  {
    actions := Meeting();
    MetAsks();
    Then(actions, Send(0, DmCommand(Hello())), Asked());
    actions := actions + [Send(0, DmCommand(Hello()))];
    AskedArrives();
    Then(actions, Deliver(0, 1, None), Arrived());
    actions := actions + [Deliver(0, 1, None)];
    ArrivedKeeps();
    Then(actions, Handle(0), Kept());
    actions := actions + [Handle(0)];
    KeptEnds();
    Then(actions, End(0, false), KeptAndGone());
    actions := actions + [End(0, false)];
    KeptAgain();
    Then(actions, Handle(1), KeptTwice());
    actions := actions + [Handle(1)];
    RowsToday();
  }

  /** Never saved, replies paired: Bob's session handles the message while Alice's runs, and
      Alice's ends before it handles the confirmation. */
  lemma LostWhenTheSenderLeaves() returns (actions: seq<Action>)
    ensures Possible(actions) && AllPaired(actions) && Run(actions) == Left2()
    ensures Run(actions).rows == [] && Got() in Run(actions).sessions[1].seen && Run(actions).sessions[0].ended
  {
    actions := Meeting();
    MetAsks();
    Then(actions, Send(0, DmCommand(Hello())), Asked());
    actions := actions + [Send(0, DmCommand(Hello()))];
    AskedArrives();
    Then(actions, Deliver(0, 1, None), Arrived());
    actions := actions + [Deliver(0, 1, None)];
    LeftHandles();
    Then(actions, Handle(1), Left1());
    actions := actions + [Handle(1)];
    LeftEnds();
    Then(actions, End(0, false), Left2());
    actions := actions + [End(0, false)];
  }

  /** Up to the error that answers Alice's other command, everything pairs. */
  lemma ErrorArrives() returns (actions: seq<Action>)
    ensures Possible(actions) && AllPaired(actions) && Run(actions) == Err4()
  {
    actions := Meeting();
    ErrSends();
    Then(actions, Send(0, OtherCommand), Err1());
    actions := actions + [Send(0, OtherCommand)];
    ErrAsks();
    Then(actions, Send(0, DmCommand(Hello())), Err2());
    actions := actions + [Send(0, DmCommand(Hello()))];
    ErrAnswers();
    Then(actions, Answer(0, true), Err3());
    actions := actions + [Answer(0, true)];
    ErrDelivers();
    Then(actions, Deliver(0, 1, None), Err4());
    actions := actions + [Deliver(0, 1, None)];
  }

  /** Without the second assumption: an error that answers another command takes the pending
      DM away, and the DM the core delivered is never saved although both sessions run and
      have handled everything. */
  lemma ErrorLosesADm() returns (actions: seq<Action>)
    ensures Possible(actions) && Run(actions) == Err7()
    ensures SenderCounted(Err7(), 0) && Confirmed(Err7(), 0) && Received(Err7(), 0)
    ensures DmRows(Run(actions).rows, 0) == []
  {
    PlainNames();
    actions := ErrorArrives();
    ErrPops();
    Then(actions, Handle(0), Err5());
    actions := actions + [Handle(0)];
    ErrConfirms();
    Then(actions, Handle(0), Err6());
    actions := actions + [Handle(0)];
    ErrReceives();
    Then(actions, Handle(1), Err7());
    actions := actions + [Handle(1)];
  }

  /** Up to the overflow, everything pairs. */
  lemma OverflowHappens() returns (actions: seq<Action>)
    ensures Possible(actions) && Run(actions) == Full2()
  {
    actions := Meeting();
    MetAsks();
    Then(actions, Send(0, DmCommand(Hello())), Asked());
    actions := actions + [Send(0, DmCommand(Hello()))];
    FullAsks();
    Then(actions, Send(0, DmCommand(Note())), Full1());
    actions := actions + [Send(0, DmCommand(Note()))];
    FullOverflows();
    Then(actions, Overflow(0, 1, 0), Full2());
    actions := actions + [Overflow(0, 1, 0)];
  }

  /** Without the first assumption: Bob has no room, so Alice's first DM gets no reply; the
      confirmation of her second, to herself, saves the first, which nobody received. */
  lemma OverflowSavesTheWrongDm() returns (actions: seq<Action>)
    ensures Possible(actions) && Run(actions) == Full5()
    ensures SenderCounted(Full5(), 0) && Confirmed(Full5(), 0)
    ensures DmRows(Run(actions).rows, 0) != [SenderRow(Full5(), 0)]
  {
    actions := OverflowHappens();
    FullDelivers();
    Then(actions, Deliver(0, 0, None), Full3());
    actions := actions + [Deliver(0, 0, None)];
    FullReceives();
    Then(actions, Handle(0), Full4());
    actions := actions + [Handle(0)];
    FullConfirms();
    Then(actions, Handle(0), Full5());
    actions := actions + [Handle(0)];
    RowsToday();
  }

  // ---------------------------------------------------------------- NICK

  function Carol(): Bytes { [67] }

  function Renamed(toCore: seq<Command>, fromCore: seq<Event>, seen: seq<Event>): Session {
    A([], toCore, fromCore, seen).(name := Carol(), renamed := true)
  }

  function Heard(): Event { ChatEvent(0, [1], Carol(), [1]) }

  function NickWorld(x: Session, broadcasts: seq<Broadcast>): World {
    World([x, B([], [])], Both(), [], broadcasts, [])
  }

  function CarolSaid(): Broadcast { Broadcast(0, [1], Carol(), [1]) }

  lemma NickRenames()
    ensures Enabled(Err1(), Nick(0, Carol()))
    ensures Step(Err1(), Nick(0, Carol())) == NickWorld(Renamed([], [Other], []), [])
  {
    PlainNames();
    assert Carol()[0] != Bob()[0] && Carol()[0] != Alice()[0];
    SameTwo(Step(Err1(), Nick(0, Carol())), NickWorld(Renamed([], [Other], []), []));
  }

  lemma NickSends()
    ensures var w, a := NickWorld(Renamed([], [Other], []), []), Send(0, SayCommand([1]));
            Enabled(w, a) && Step(w, a) == NickWorld(Renamed([SayCommand([1])], [Other], []), [])
  {
    var w, a := NickWorld(Renamed([], [Other], []), []), Send(0, SayCommand([1]));
    SameTwo(Step(w, a), NickWorld(Renamed([SayCommand([1])], [Other], []), []));
  }

  lemma NickSays()
    ensures var w, a := NickWorld(Renamed([SayCommand([1])], [Other], []), []), Say(0, [1], {0}, map[]);
            Enabled(w, a) && Step(w, a) == NickWorld(Renamed([], [Other, Heard()], []), [CarolSaid()])
  {
    PlainNames();
    var w, a := NickWorld(Renamed([SayCommand([1])], [Other], []), []), Say(0, [1], {0}, map[]);
    SameTwo(Step(w, a), NickWorld(Renamed([], [Other, Heard()], []), [CarolSaid()]));
  }

  lemma NickHandles()
    ensures var w := NickWorld(Renamed([], [Other, Heard()], []), [CarolSaid()]);
            var v := NickWorld(Renamed([], [Heard()], [Other]), [CarolSaid()]);
            Enabled(w, Handle(0)) && Step(w, Handle(0)) == v
  {
    var w := NickWorld(Renamed([], [Other, Heard()], []), [CarolSaid()]);
    var v := NickWorld(Renamed([], [Heard()], [Other]), [CarolSaid()]);
    SameTwo(Step(w, Handle(0)), v);
  }

  lemma NickForgets()
    ensures var w := NickWorld(Renamed([], [Heard()], [Other]), [CarolSaid()]);
            var v := NickWorld(Renamed([], [], [Other, Heard()]), [CarolSaid()]);
            Enabled(w, Handle(0)) && Step(w, Handle(0)) == v
  {
    assert Carol()[0] != Alice()[0];
    var w := NickWorld(Renamed([], [Heard()], [Other]), [CarolSaid()]);
    var v := NickWorld(Renamed([], [], [Other, Heard()]), [CarolSaid()]);
    SameTwo(Step(w, Handle(0)), v);
  }

  /** Why ChatSavedOnce looks at renamed sessions: one whose user is renamed no longer knows its
      own echo, and the broadcast is never saved although it has been handled. */
  lemma NickLosesBroadcasts() returns (actions: seq<Action>)
    ensures Possible(actions)
    ensures |Run(actions).broadcasts| == 1 && Heeded(Run(actions), 0, 0) && Run(actions).rows == []
  {
    actions := Meeting();
    ErrSends();
    Then(actions, Send(0, OtherCommand), Err1());
    actions := actions + [Send(0, OtherCommand)];
    NickRenames();
    Then(actions, Nick(0, Carol()), NickWorld(Renamed([], [Other], []), []));
    actions := actions + [Nick(0, Carol())];
    NickSends();
    Then(actions, Send(0, SayCommand([1])), NickWorld(Renamed([SayCommand([1])], [Other], []), []));
    actions := actions + [Send(0, SayCommand([1]))];
    NickSays();
    Then(actions, Say(0, [1], {0}, map[]), NickWorld(Renamed([], [Other, Heard()], []), [CarolSaid()]));
    actions := actions + [Say(0, [1], {0}, map[])];
    NickHandles();
    Then(actions, Handle(0), NickWorld(Renamed([], [Heard()], [Other]), [CarolSaid()]));
    actions := actions + [Handle(0)];
    NickForgets();
    Then(actions, Handle(0), NickWorld(Renamed([], [], [Other, Heard()]), [CarolSaid()]));
    actions := actions + [Handle(0)];
  }

  // ---------------------------------------------------------------- NICK twice

  /** Bob's session under Alice's old name. */
  function Borrowed(toCore: seq<Command>, fromCore: seq<Event>): Session {
    Busy(Opened(Bob(), true), [], toCore, fromCore, []).(name := Alice(), renamed := true)
  }

  function SwapWorld(x: Session, y: Session, broadcasts: seq<Broadcast>, rows: seq<Row>): World {
    World([x, y], Both(), [], broadcasts, rows)
  }

  function Overheard(): Event { ChatEvent(0, [1], Alice(), [1]) }

  function BobSaid(): Broadcast { Broadcast(1, [1], Alice(), [1]) }

  function SavedByAlice(): Row { Row(SavedChat([1], Alice(), [1]), Overheard(), 0) }

  function Swap1(): World { NickWorld(Renamed([], [Other], []), []) }

  function Swap2(): World {
    SwapWorld(Renamed([], [Other], []), Busy(Opened(Bob(), true), [], [OtherCommand], [], []), [], [])
  }

  function Swap3(): World { SwapWorld(Renamed([], [Other], []), Borrowed([], [Other]), [], []) }

  function Swap4(): World { SwapWorld(Renamed([], [Other], []), Borrowed([SayCommand([1])], [Other]), [], []) }

  function Swap5(): World {
    SwapWorld(Renamed([], [Other, Overheard()], []), Borrowed([], [Other, Overheard()]), [BobSaid()], [])
  }

  function Swap6(): World {
    SwapWorld(Renamed([], [Overheard()], [Other]), Borrowed([], [Other, Overheard()]), [BobSaid()], [])
  }

  function Swap7(): World {
    SwapWorld(Renamed([], [], [Other, Overheard()]), Borrowed([], [Other, Overheard()]), [BobSaid()], [SavedByAlice()])
  }

  lemma SwapSends()
    ensures Enabled(Swap1(), Send(1, OtherCommand)) && Step(Swap1(), Send(1, OtherCommand)) == Swap2()
  {
    PlainNames();
    SameTwo(Step(Swap1(), Send(1, OtherCommand)), Swap2());
  }

  lemma SwapRenames()
    ensures Enabled(Swap2(), Nick(1, Alice())) && Step(Swap2(), Nick(1, Alice())) == Swap3()
  {
    PlainNames();
    assert Carol()[0] != Bob()[0] && Carol()[0] != Alice()[0];
    SameTwo(Step(Swap2(), Nick(1, Alice())), Swap3());
  }

  lemma SwapSpeaks()
    ensures Enabled(Swap3(), Send(1, SayCommand([1]))) && Step(Swap3(), Send(1, SayCommand([1]))) == Swap4()
  {
    PlainNames();
    SameTwo(Step(Swap3(), Send(1, SayCommand([1]))), Swap4());
  }

  lemma SwapSays()
    ensures Enabled(Swap4(), Say(1, [1], {0, 1}, map[])) && Step(Swap4(), Say(1, [1], {0, 1}, map[])) == Swap5()
  {
    PlainNames();
    SameTwo(Step(Swap4(), Say(1, [1], {0, 1}, map[])), Swap5());
  }

  lemma SwapHandles()
    ensures Enabled(Swap5(), Handle(0)) && Step(Swap5(), Handle(0)) == Swap6()
  {
    PlainNames();
    SameTwo(Step(Swap5(), Handle(0)), Swap6());
  }

  lemma SwapSaves()
    ensures Enabled(Swap6(), Handle(0)) && Step(Swap6(), Handle(0)) == Swap7()
  {
    PlainNames();
    SameTwo(Step(Swap6(), Handle(0)), Swap7());
  }

  /** And the other failure: Alice renames herself, Bob takes her old name, and what he says
      is saved by Alice's session. */
  lemma NickSavesForAnother() returns (actions: seq<Action>)
    ensures Possible(actions) && Run(actions) == Swap7()
    ensures BobSaid().from == 1 && Run(actions).rows == [SavedByAlice()] && SavedByAlice().writer == 0
  {
    actions := Meeting();
    ErrSends();
    Then(actions, Send(0, OtherCommand), Err1());
    actions := actions + [Send(0, OtherCommand)];
    NickRenames();
    Then(actions, Nick(0, Carol()), Swap1());
    actions := actions + [Nick(0, Carol())];
    SwapSends();
    Then(actions, Send(1, OtherCommand), Swap2());
    actions := actions + [Send(1, OtherCommand)];
    SwapRenames();
    Then(actions, Nick(1, Alice()), Swap3());
    actions := actions + [Nick(1, Alice())];
    SwapSpeaks();
    Then(actions, Send(1, SayCommand([1])), Swap4());
    actions := actions + [Send(1, SayCommand([1]))];
    SwapSays();
    Then(actions, Say(1, [1], {0, 1}, map[]), Swap5());
    actions := actions + [Say(1, [1], {0, 1}, map[])];
    SwapHandles();
    Then(actions, Handle(0), Swap6());
    actions := actions + [Handle(0)];
    SwapSaves();
    Then(actions, Handle(0), Swap7());
    actions := actions + [Handle(0)];
  }
}
