/** The gateway as a process that lives through a run of the bridge: its sessions, its count
    of users and its database change in place, fed with the frames that look like the events
    of the run and the messages that mean its commands. */
module GatewayRun {
  import opened Bytes
  import opened Wire
  import opened Bridge
  import opened BridgeHistory
  import opened BridgeInvariant
  import BridgeLaws
  import opened BridgePairing
  import opened CoreBridge
  import opened GatewayProcess
  import Core
  import GatewayLaws
  import Store

  // ---------------------------------------------------------------- what is fed in

  /** A browser's message that passes the checks and asks for this command. */
  predicate Means(c: Command, m: Message) {
    && CorePayload(m).Some?
    && match c
       case DmCommand(dm) => m.kind == Some(Core.DM) && m.to == Some(dm.target) && m.text == Some(dm.text)
       case SayCommand(text) => m.kind == Some(Core.SAY) && m.text == Some(text)
       case OtherCommand => m.kind != Some(Core.DM) && m.kind != Some(Core.SAY)
  }

  /** Exactly these commands can be typed so that they pass: the texts the browser's pump lets
      through, to targets it lets through. */
  lemma CommandsAreTyped(c: Command)
    ensures (exists m :: Means(c, m)) <==>
      match c
      case DmCommand(dm) =>
        NameOk(dm.target, 1, 32) && |dm.text| <= 65535 && GatewayLaws.Strip(dm.text) != []
      case SayCommand(text) => 1 <= |text| <= 65535
      case OtherCommand => true
  {
    forall m | Means(c, m) ensures GatewayLaws.Complete(m) { GatewayLaws.CommandPasses(m); }
    TypedMeans(c);
  }

  /** How a command is typed. */
  function AsTyped(c: Command): Message {
    match c
    case DmCommand(dm) => Message(Some(Core.DM), None, Some(dm.text), None, Some(dm.target))
    case SayCommand(text) => Message(Some(Core.SAY), None, Some(text), None, None)
    case OtherCommand => Message(Some(Core.LIST), None, None, None, None)
  }

  lemma TypedMeans(c: Command)
    ensures GatewayLaws.Complete(AsTyped(c)) ==> Means(c, AsTyped(c))
  {
    GatewayLaws.CommandPasses(AsTyped(c));
  }

  datatype Input = Token(user: Bytes) | Arrives(frame: Frame) | Typed(message: Message) | Silent

  predicate Fits(w: World, a: Action, input: Input) {
    match a
    case Start(i) => i < |w.sessions| && input == Token(w.sessions[i].user)
    case Handle(i) =>
      && i < |w.sessions| && w.sessions[i].fromCore != []
      && input.Arrives? && Looks(w.sessions[i].fromCore[0], input.frame)
    case Send(i, c) => i < |w.sessions| && w.sessions[i].gateway ==> input.Typed? && Means(c, input.message)
    case Late(i, c, _) => input.Typed? && Means(c, input.message)
    case _ => true
  }

  predicate AllFit(actions: seq<Action>, inputs: seq<Input>) {
    |inputs| == |actions| && forall k :: 0 <= k < |actions| ==> Fits(Run(actions[..k]), actions[k], inputs[k])
  }

  /** Frames that look alike are handled alike, whatever the tag. */
  lemma LooksHandled(user: Bytes, active: map<Bytes, nat>, pending: seq<Pending>, e: Event, f: Frame)
    requires Looks(e, f)
    ensures GatewayEvent(f).Some?
    ensures OnEvent(user, active, pending, AsEvent(GatewayEvent(f).value, 0)) == OnEvent(user, active, pending, e)
  {
  }

  // ---------------------------------------------------------------- the units of work

  function OpsOf(saves: seq<Saved>): seq<Store.Op> {
    if saves == [] then [] else [AsOp(saves[0])]
  }

  /** The unit of work of a step, if there is one. */
  function Work(w: World, a: Action, input: Input): seq<Store.Op>
    requires Enabled(w, a)
  {
    match a
    case Handle(i) =>
      var x := w.sessions[i];
      OpsOf(OnEvent(x.user, w.active, x.pending, x.fromCore[0]).saves)
    case Send(i, _) => if w.sessions[i].gateway && input.Typed? then JoinOf(w.sessions[i].user, input.message) else []
    case Late(i, _, _) => if input.Typed? then JoinOf(w.sessions[i].user, input.message) else []
    case _ => []
  }

  function JoinOf(user: Bytes, m: Message): seq<Store.Op> {
    if (m.kind == Some(Core.JOIN) || m.kind == Some(Core.SWITCH)) && m.channel.Some?
    then [Store.Join(user, m.channel.value)] else []
  }

  /** Saving a membership never fails. */
  lemma JoinsWork(t: Store.Rows, w: World, a: Action, input: Input)
    requires Store.TablesOk(t) && Enabled(w, a) && (a.Send? || a.Late?)
    ensures Work(w, a, input) != [] ==> !Store.Fails(t, Work(w, a, input)[0])
  {
    if Work(w, a, input) != [] { Store.FailsExactlyOnNewSelf(t, Work(w, a, input)[0]); }
  }

  function Applied(t: Store.Rows, ops: seq<Store.Op>): Store.Rows {
    if ops == [] then t else Store.Apply(t, ops[0])
  }

  lemma RunApplied(ops: seq<Store.Op>, more: seq<Store.Op>)
    requires |more| <= 1
    ensures Store.Run(ops + more) == Applied(Store.Run(ops), more)
    ensures Store.Log(ops + more) == Store.Log(ops) + if more == [] then [] else Store.Logged(more[0])
  {
    if more == [] {
      assert ops + more == ops;
    } else {
      assert (ops + more)[..|ops|] == ops;
    }
  }

  lemma MessagesAppend(rows: seq<Row>, r: Row)
    ensures Messages(rows + [r]) == Messages(rows) + [AsMessage(r.message)]
  {
    assert (rows + [r])[..|rows|] == rows;
  }

  /** What a step asks to be saved is what it adds to the rows of the bridge. */
  lemma WorkIsLogged(w: World, a: Action, input: Input)
    requires Sane(w) && Enabled(w, a)
    ensures var work := Work(w, a, input);
            && |work| <= 1
            && Messages(Step(w, a).rows) == Messages(w.rows) + if work == [] then [] else Store.Logged(work[0])
  {
    if a.Handle? { HandlingIsLogged(w, a.i, input); } else { RowsStay(w, a); }
  }

  lemma HandlingIsLogged(w: World, i: nat, input: Input)
    requires Enabled(w, Handle(i))
    ensures var work := Work(w, Handle(i), input);
            Messages(Handled(w, i).rows) == Messages(w.rows) + if work == [] then [] else Store.Logged(work[0])
  {
    var x := w.sessions[i];
    var saves := OnEvent(x.user, w.active, x.pending, x.fromCore[0]).saves;
    if saves != [] {
      MessagesAppend(w.rows, Row(saves[0], x.fromCore[0], i));
    } else {
      assert w.rows + [] == w.rows;
    }
  }

  lemma RowsStay(w: World, a: Action)
    requires Enabled(w, a) && !a.Handle?
    ensures Step(w, a).rows == w.rows
  {
  }

  // ---------------------------------------------------------------- the process

  /** What the gateway itself knows of a session. */
  predicate SameSide(x: Session, y: Session) {
    y.user == x.user && y.gateway == x.gateway && y.started == x.started && y.pending == x.pending
  }

  predicate AllSameSide(w: World, v: World) {
    && |v.sessions| == |w.sessions| && v.active == w.active
    && forall j :: 0 <= j < |w.sessions| ==> SameSide(w.sessions[j], v.sessions[j])
  }

  /** Steps of the core and of its direct clients, and a ready frame that cannot be sent,
      touch none of the gateway's data. */
  predicate Outside(w: World, a: Action) {
    a.Deliver? || a.Say? || a.Abandon? || Answering(a) || (a.Send? && a.i < |w.sessions| && !w.sessions[a.i].gateway)
  }

  lemma DeliveredSpares(w: World, i: nat, to: nat, dropped: Option<nat>)
    requires Addressed(w, i, to)
    ensures AllSameSide(w, Delivered(w, i, to, dropped))
  {
    DeliveredStatus(w, i, to, dropped);
    forall j | 0 <= j < |w.sessions| ensures SameSide(w.sessions[j], Delivered(w, i, to, dropped).sessions[j]) {
      DeliveredSession(w, i, to, dropped, j);
    }
  }

  lemma SaidSpares(w: World, i: nat, channel: Bytes, members: set<nat>, drops: map<nat, nat>)
    requires Enabled(w, Say(i, channel, members, drops))
    ensures AllSameSide(w, Said(w, i, channel, members, drops))
  {
    SaidParts(w, i, channel, members, drops);
  }

  lemma OverflowSpares(w: World, i: nat, to: nat, keep: nat)
    requires Enabled(w, Overflow(i, to, keep))
    ensures AllSameSide(w, Step(w, Overflow(i, to, keep)))
  {
  }

  /** The step changes session i only, and of it only what is the core's. */
  lemma OneSpares(w: World, v: World, i: nat)
    requires i < |w.sessions| == |v.sessions| && v.sessions == w.sessions[i := v.sessions[i]]
    requires SameSide(w.sessions[i], v.sessions[i]) && v.active == w.active
    ensures AllSameSide(w, v)
  {
  }

  lemma AnswerSpares(w: World, a: Action)
    requires Enabled(w, a) && Answering(a)
    ensures AllSameSide(w, Step(w, a))
  {
    if a.Overflow? {
      OverflowSpares(w, a.i, a.to, a.keep);
    } else {
      var v := Step(w, a);
      assert SameSide(w.sessions[a.i], v.sessions[a.i]) && v.active == w.active;
      assert v.sessions == w.sessions[a.i := v.sessions[a.i]];
      OneSpares(w, v, a.i);
    }
  }

  lemma OutsideSpares(w: World, a: Action)
    requires Enabled(w, a) && Outside(w, a)
    ensures AllSameSide(w, Step(w, a))
  {
    if a.Deliver? { DeliveredSpares(w, a.i, a.to, a.dropped); }
    else if a.Say? { SaidSpares(w, a.i, a.channel, a.members, a.drops); }
    else if Answering(a) { AnswerSpares(w, a); }
  }

  class Process {
    const gateway: Gateway
    var endpoints: seq<WebSocketSession?>

    ghost function Objects(): set<WebSocketSession>
      reads this
    {
      set e: WebSocketSession | e in endpoints
    }

    /** Every session of the gateway that was entered has its own endpoint. */
    ghost predicate Valid()
      reads this, Objects()
    {
      && (forall j :: 0 <= j < |endpoints| && endpoints[j] != null ==> endpoints[j].gateway == gateway)
      && (forall j, k :: 0 <= j < k < |endpoints| && endpoints[j] != null ==> endpoints[j] != endpoints[k])
    }

    /** The endpoint holds what the world says of the session. */
    static ghost predicate Endpoint(e: WebSocketSession?, x: Session)
      reads e
    {
      if x.gateway && x.started then e != null && e.user == x.user && e.pending == x.pending else e == null
    }

    ghost predicate Holds(w: World)
      reads this, Objects(), gateway
    {
      && Valid() && gateway.active == w.active && |endpoints| == |w.sessions|
      && forall j :: 0 <= j < |endpoints| ==> Endpoint(endpoints[j], w.sessions[j])
    }

    constructor (db: Store.Database)
      ensures Holds(Nothing()) && gateway.db == db && fresh(gateway) && fresh(Objects())
    {
      gateway := new Gateway(db);
      endpoints := [];
    }

    /** A client registers with the core; nothing of the gateway's yet. */
    method Await(ghost w: World, ghost a: Action)
      requires Holds(w) && Enabled(w, a) && a.Open?
      modifies this
      ensures Holds(Step(w, a)) && Objects() == old(Objects())
    {
      endpoints := endpoints + [null];
    }

    method Enter(i: nat, user: Bytes, ghost w: World)
      requires Holds(w) && Enabled(w, Start(i)) && user == w.sessions[i].user && w.sessions[i].pending == []
      modifies this, gateway
      ensures Holds(Step(w, Start(i))) && fresh(Objects() - old(Objects()))
    {
      var e := new WebSocketSession(gateway, user);
      gateway.Enter(user);
      endpoints := endpoints[i := e];
    }

    method Leave(i: nat, ghost w: World, ghost deaf: bool)
      requires Holds(w) && Enabled(w, End(i, deaf))
      modifies gateway
      ensures Holds(Step(w, End(i, deaf)))
    {
      assert Endpoint(endpoints[i], w.sessions[i]);
      gateway.Leave(endpoints[i].user);
    }

    /** A round of pump_core_to_ws. */
    method Receive(i: nat, f: Frame, ghost w: World) returns (alive: bool)
      requires Holds(w) && Enabled(w, Handle(i)) && Looks(w.sessions[i].fromCore[0], f)
      modifies Objects(), gateway.db
      ensures Holds(Step(w, Handle(i)))
      ensures var work := Work(w, Handle(i), Arrives(f));
              && gateway.db.rows == Applied(old(gateway.db.rows), work)
              && (alive <==> work == [] || !Store.Fails(old(gateway.db.rows), work[0]))
    {
      assert Endpoint(endpoints[i], w.sessions[i]);
      ghost var x := w.sessions[i];
      LooksHandled(x.user, w.active, x.pending, x.fromCore[0], f);
      alive := endpoints[i].PumpCore(f);
    }

    /** A round of pump_ws_to_core, during the endpoint's life or after it. */
    method Accept(i: nat, m: Message, ghost w: World, ghost a: Action) returns (alive: bool)
      requires Holds(w) && Enabled(w, a) && (a.Send? || a.Late?) && a.i == i && w.sessions[i].gateway
      requires Means(a.command, m)
      modifies Objects(), gateway.db
      ensures Holds(Step(w, a))
      ensures gateway.db.rows == Applied(old(gateway.db.rows), Work(w, a, Typed(m)))
      ensures Store.TablesOk(old(gateway.db.rows)) ==> alive
    {
      assert Endpoint(endpoints[i], w.sessions[i]);
      var frame;
      frame, alive := endpoints[i].PumpBrowser(m);
    }

    lemma StillHolds(w: World, a: Action)
      requires Holds(w) && Enabled(w, a) && Outside(w, a)
      ensures Holds(Step(w, a))
    {
      OutsideSpares(w, a);
      forall j | 0 <= j < |endpoints| ensures Endpoint(endpoints[j], Step(w, a).sessions[j]) {
        assert Endpoint(endpoints[j], w.sessions[j]) && SameSide(w.sessions[j], Step(w, a).sessions[j]);
      }
    }

    predicate Pumps(a: Action) {
      a.Handle? || a.Send? || a.Late?
    }

    /** A round of one of the pumps, or a command of a direct client. */
    method Pump(a: Action, input: Input, ghost w: World) returns (alive: bool)
      requires Holds(w) && Enabled(w, a) && Fits(w, a, input) && Store.TablesOk(gateway.db.rows) && Pumps(a)
      modifies Objects(), gateway.db
      ensures Holds(Step(w, a))
      ensures gateway.db.rows == Applied(old(gateway.db.rows), Work(w, a, input))
      ensures alive <==> Work(w, a, input) == [] || !Store.Fails(old(gateway.db.rows), Work(w, a, input)[0])
    {
      alive := true;
      assert Endpoint(endpoints[a.i], w.sessions[a.i]);
      if a.Handle? {
        alive := Receive(a.i, input.frame, w);
      } else if endpoints[a.i] != null {
        JoinsWork(gateway.db.rows, w, a, input);
        alive := Accept(a.i, input.message, w, a);
      } else {
        StillHolds(w, a);
      }
    }

    /** The endpoint is entered or left, or the step is none of the gateway's. */
    method Turn(a: Action, input: Input, ghost w: World)
      requires Holds(w) && Sane(w) && Enabled(w, a) && Fits(w, a, input) && !Pumps(a)
      modifies this, gateway
      ensures Holds(Step(w, a)) && fresh(Objects() - old(Objects()))
    {
      match a {
        case Open(_, _) => Await(w, a);
        case Start(i) =>
          assert SessionSane(w, i);
          Enter(i, input.user, w);
        case End(i, deaf) => Leave(i, w, deaf);
        case _ => StillHolds(w, a);
      }
    }

    /** One step of the run; false if a unit of work raised. */
    method Perform(a: Action, input: Input, ghost w: World) returns (alive: bool)
      requires Holds(w) && Sane(w) && Enabled(w, a) && Fits(w, a, input) && Store.TablesOk(gateway.db.rows)
      modifies this, Objects(), gateway, gateway.db
      ensures Holds(Step(w, a)) && fresh(Objects() - old(Objects()))
      ensures gateway.db.rows == Applied(old(gateway.db.rows), Work(w, a, input))
      ensures alive <==> Work(w, a, input) == [] || !Store.Fails(old(gateway.db.rows), Work(w, a, input)[0])
    {
      alive := true;
      if Pumps(a) {
        alive := Pump(a, input, w);
      } else {
        Turn(a, input, w);
      }
    }
  }

  lemma {:induction false} PossiblePrefix(actions: seq<Action>, k: nat)
    requires Possible(actions) && k <= |actions|
    ensures Possible(actions[..k])
    ensures k < |actions| ==> Enabled(Run(actions[..k]), actions[k])
    decreases |actions|
  {
    if k == |actions| {
      assert actions[..k] == actions;
    } else {
      var front := actions[..|actions| - 1];
      assert front[..k] == actions[..k];
      PossiblePrefix(front, k);
      if k == |front| { assert front[..k] == front; }
    }
  }

  lemma RunStep(actions: seq<Action>, k: nat)
    requires Possible(actions) && k < |actions|
    ensures Enabled(Run(actions[..k]), actions[k])
    ensures Run(actions[..k + 1]) == Step(Run(actions[..k]), actions[k])
    ensures Sane(Run(actions[..k])) && Possible(actions[..k])
  {
    PossiblePrefix(actions, k);
    BridgeLaws.EveryRun(actions[..k]);
    assert actions[..k + 1][..k] == actions[..k];
  }

  /** The last step has asked for a unit of work that fails: a message to oneself by a user
      who is not in the table. */
  ghost predicate Raised(actions: seq<Action>, inputs: seq<Input>, done: nat, before: Store.Rows) {
    && 0 < done <= |actions| == |inputs|
    && Enabled(Run(actions[..done - 1]), actions[done - 1])
    && var work := Work(Run(actions[..done - 1]), actions[done - 1], inputs[done - 1]);
    work != [] && Store.Fails(before, work[0])
  }

  /** A gateway that lives through a run of the bridge, up to the first unit of work that
      raises, has the users counted, the DMs pending and the messages saved that the run
      says. ops: the units of work before it and in it. */
  method RunGateway(db: Store.Database, actions: seq<Action>, inputs: seq<Input>, ghost before: seq<Store.Op>)
    returns (process: Process, done: nat, alive: bool, ghost ops: seq<Store.Op>)
    requires Possible(actions) && AllFit(actions, inputs)
    requires db.rows == Store.Run(before) && Store.Log(before) == []
    modifies db
    ensures done <= |actions| && process.Holds(Run(actions[..done]))
    ensures db.rows == Store.Run(ops) && Store.Log(ops) == Messages(Run(actions[..done]).rows)
    ensures if alive then done == |actions| else exists t :: Raised(actions, inputs, done, t) && db.rows == t
  {
    process := new Process(db);
    done, alive, ops := 0, true, before;
    assert actions[..0] == [];
    while done < |actions| && alive
      invariant done <= |actions| && fresh(process) && fresh(process.gateway) && fresh(process.Objects())
      invariant process.gateway.db == db && process.Holds(Run(actions[..done]))
      invariant db.rows == Store.Run(ops) && Store.Log(ops) == Messages(Run(actions[..done]).rows)
      invariant !alive ==> exists t :: Raised(actions, inputs, done, t) && db.rows == t
      decreases |actions| - done
    {
      ghost var w, a, t := Run(actions[..done]), actions[done], db.rows;
      RunStep(actions, done);
      Store.RunOk(ops);
      ghost var work := Work(w, a, inputs[done]);
      WorkIsLogged(w, a, inputs[done]);
      alive := process.Perform(actions[done], inputs[done], w);
      RunApplied(ops, work);
      ops := ops + work;
      done := done + 1;
      if !alive {
        assert db.rows == t;
        assert Raised(actions, inputs, done, t);
      }
    }
    assert alive ==> actions[..done] == actions;
  }
}
