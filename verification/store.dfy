/** gateway/app/db.py: the tables, the unit of work in which the gateway writes to them,
    and the history queries. Rows of a table are in the order of their ids. */
module Store {
  import opened Bytes

  datatype Message = ChannelMessage(channel: Bytes, sender: Bytes, body: Bytes)
                   | DirectMessage(sender: Bytes, recipient: Bytes, body: Bytes)

  datatype Membership = Membership(user: Bytes, channel: Bytes)

  /** The committed tables, or the rows a session has added and not yet committed. */
  datatype Rows = Rows(users: seq<Bytes>, channels: seq<Bytes>, memberships: seq<Membership>, messages: seq<Message>)

  function NoRows(): Rows {
    Rows([], [], [], [])
  }

  // -------------------------------------------------------------- unit of work

  /** db.get sees committed rows only, because the session does not autoflush. */
  function UpsertUser(t: Rows, p: Rows, user: Bytes): Rows {
    if user in t.users then p else p.(users := p.users + [user])
  }

  function EnsureChannel(t: Rows, p: Rows, channel: Bytes): Rows {
    if channel in t.channels then p else p.(channels := p.channels + [channel])
  }

  function AddMembership(t: Rows, p: Rows, user: Bytes, channel: Bytes): Rows {
    var q := EnsureChannel(t, UpsertUser(t, p, user), channel);
    if Membership(user, channel) in t.memberships then q
    else q.(memberships := q.memberships + [Membership(user, channel)])
  }

  function SaveChannelMessage(t: Rows, p: Rows, channel: Bytes, sender: Bytes, body: Bytes): Rows {
    var q := AddMembership(t, p, sender, channel);
    q.(messages := q.messages + [ChannelMessage(channel, sender, body)])
  }

  function SaveDm(t: Rows, p: Rows, sender: Bytes, recipient: Bytes, body: Bytes): Rows {
    var q := UpsertUser(t, UpsertUser(t, p, sender), recipient);
    q.(messages := q.messages + [DirectMessage(sender, recipient, body)])
  }

  predicate Distinct<T(==)>(s: seq<T>) {
    forall i, j :: 0 <= i < j < |s| ==> s[i] != s[j]
  }

  /** The primary keys and the unique constraint on memberships. */
  predicate Unique(t: Rows) {
    Distinct(t.users) && Distinct(t.channels) && Distinct(t.memberships)
  }

  function Plus(t: Rows, p: Rows): Rows {
    Rows(t.users + p.users, t.channels + p.channels, t.memberships + p.memberships, t.messages + p.messages)
  }

  /** db.commit(): all pending rows or, when a key would be doubled, none. */
  function Commit(t: Rows, p: Rows): Option<Rows> {
    if Unique(Plus(t, p)) then Some(Plus(t, p)) else None
  }

  /** What the gateway does in one session: join, a broadcast of its own, a direct
      message, a development token. */
  datatype Op = Join(user: Bytes, channel: Bytes)
              | Post(channel: Bytes, sender: Bytes, body: Bytes)
              | Direct(sender: Bytes, recipient: Bytes, body: Bytes)
              | Register(user: Bytes)

  function Adds(t: Rows, op: Op): Rows {
    match op
    case Join(user, channel) => AddMembership(t, NoRows(), user, channel)
    case Post(channel, sender, body) => SaveChannelMessage(t, NoRows(), channel, sender, body)
    case Direct(sender, recipient, body) => SaveDm(t, NoRows(), sender, recipient, body)
    case Register(user) => UpsertUser(t, NoRows(), user)
  }

  predicate Fails(t: Rows, op: Op) {
    Commit(t, Adds(t, op)).None?
  }

  function Apply(t: Rows, op: Op): Rows {
    match Commit(t, Adds(t, op)) case None => t case Some(u) => u
  }

  function Run(ops: seq<Op>): Rows {
    if ops == [] then NoRows() else Apply(Run(ops[..|ops| - 1]), ops[|ops| - 1])
  }

  // ----------------------------------------------------------------- invariant

  predicate Resolves(t: Rows, m: Message) {
    match m
    case ChannelMessage(channel, sender, _) =>
      channel in t.channels && sender in t.users && Membership(sender, channel) in t.memberships
    case DirectMessage(sender, recipient, _) => sender in t.users && recipient in t.users
  }

  /** No key is doubled and every reference resolves. */
  predicate TablesOk(t: Rows) {
    && Unique(t)
    && (forall m :: m in t.memberships ==> m.user in t.users && m.channel in t.channels)
    && (forall m :: m in t.messages ==> Resolves(t, m))
  }

  lemma DistinctSnoc<T>(s: seq<T>, x: T)
    requires Distinct(s) && x !in s
    ensures Distinct(s + [x])
  {
  }

  /** A save fails in exactly one case: a user writes to themselves before they are in the
      table, because both look-ups miss and the row is added twice. */
  lemma FailsExactlyOnNewSelf(t: Rows, op: Op)
    requires Unique(t)
    ensures Fails(t, op) <==> op.Direct? && op.sender == op.recipient && op.sender !in t.users
  {
    var p := Adds(t, op);
    var u := Plus(t, p);
    assert t.users + [] == t.users && t.channels + [] == t.channels && t.memberships + [] == t.memberships;
    if op.Direct? && op.sender == op.recipient && op.sender !in t.users {
      assert p.users == [op.sender, op.sender];
      assert u.users[|t.users|] == u.users[|t.users| + 1];
    } else if op.Direct? && op.sender !in t.users && op.recipient !in t.users {
      DistinctSnoc(t.users, op.sender);
      DistinctSnoc(t.users + [op.sender], op.recipient);
      assert u.users == t.users + [op.sender] + [op.recipient];
    }
  }

  lemma ApplyKeeps(t: Rows, op: Op)
    requires TablesOk(t)
    ensures TablesOk(Apply(t, op))
  {
  }

  lemma {:induction false} RunOk(ops: seq<Op>)
    ensures TablesOk(Run(ops))
  {
    if ops != [] {
      RunOk(ops[..|ops| - 1]);
      ApplyKeeps(Run(ops[..|ops| - 1]), ops[|ops| - 1]);
    }
  }

  // ------------------------------------------------------------- who is in the tables

  function Enters(user: Bytes, channel: Bytes): Op -> bool {
    (op: Op) => op == Join(user, channel) || (op.Post? && op.sender == user && op.channel == channel)
  }

  function Opens(channel: Bytes): Op -> bool {
    (op: Op) => (op.Join? || op.Post?) && op.channel == channel
  }

  function Mentions(user: Bytes): Op -> bool {
    (op: Op) =>
      match op
      case Join(u, _) => u == user
      case Post(_, sender, _) => sender == user
      case Direct(sender, recipient, _) => sender != recipient && (sender == user || recipient == user)
      case Register(u) => u == user
  }

  lemma OneMoreRow(t: Rows, op: Op, user: Bytes, channel: Bytes)
    requires TablesOk(t)
    ensures var u := Apply(t, op);
      && (Membership(user, channel) in u.memberships <==>
            Membership(user, channel) in t.memberships || Enters(user, channel)(op))
      && (channel in u.channels <==> channel in t.channels || Opens(channel)(op))
      && (user in u.users <==> user in t.users || Mentions(user)(op))
  {
    FailsExactlyOnNewSelf(t, op);
  }

  predicate Happened(ops: seq<Op>, wanted: Op -> bool) {
    exists k :: 0 <= k < |ops| && wanted(ops[k])
  }

  lemma HappenedSnoc(ops: seq<Op>, op: Op, wanted: Op -> bool)
    ensures Happened(ops + [op], wanted) <==> Happened(ops, wanted) || wanted(op)
  {
    var all := ops + [op];
    if Happened(ops, wanted) {
      var k :| 0 <= k < |ops| && wanted(ops[k]);
      assert wanted(all[k]);
    }
    if wanted(op) { assert wanted(all[|ops|]); }
    if Happened(all, wanted) {
      var k :| 0 <= k < |all| && wanted(all[k]);
      assert k < |ops| ==> wanted(ops[k]);
    }
  }

  /** After any operations, the members of a channel are exactly those who joined it or
      posted to it, the channels those that were joined or posted to, and the users those who
      did either, registered, or sent or were sent a message by somebody else. */
  lemma {:induction false} TablesTellWhoWasThere(ops: seq<Op>, user: Bytes, channel: Bytes)
    ensures var t := Run(ops);
      && (Membership(user, channel) in t.memberships <==> Happened(ops, Enters(user, channel)))
      && (channel in t.channels <==> Happened(ops, Opens(channel)))
      && (user in t.users <==> Happened(ops, Mentions(user)))
  {
    if ops != [] {
      var front, op := ops[..|ops| - 1], ops[|ops| - 1];
      TablesTellWhoWasThere(front, user, channel);
      RunOk(front);
      OneMoreRow(Run(front), op, user, channel);
      assert ops == front + [op];
      HappenedSnoc(front, op, Enters(user, channel));
      HappenedSnoc(front, op, Opens(channel));
      HappenedSnoc(front, op, Mentions(user));
    }
  }

  // ------------------------------------------------------------------- queries

  function Reverse<T>(s: seq<T>): (r: seq<T>)
    ensures |r| == |s| && forall i :: 0 <= i < |s| ==> r[i] == s[|s| - 1 - i]
  {
    if s == [] then [] else Reverse(s[1..]) + [s[0]]
  }

  function Select(ms: seq<Message>, wanted: Message -> bool): seq<Message> {
    if ms == [] then []
    else (if wanted(ms[0]) then [ms[0]] else []) + Select(ms[1..], wanted)
  }

  function Limit<T>(s: seq<T>, n: nat): seq<T> {
    if n < |s| then s[..n] else s
  }

  /** select ... where ... order by id desc limit ..., reversed by the caller. */
  function History(ms: seq<Message>, wanted: Message -> bool, limit: nat): seq<Message> {
    Reverse(Limit(Select(Reverse(ms), wanted), limit))
  }

  function OnChannel(channel: Bytes): Message -> bool {
    (m: Message) => m.ChannelMessage? && m.channel == channel
  }

  function Between(a: Bytes, b: Bytes): Message -> bool {
    (m: Message) => m.DirectMessage? && ((m.sender == a && m.recipient == b) || (m.sender == b && m.recipient == a))
  }

  function ChannelHistory(t: Rows, channel: Bytes, limit: nat): seq<Message> {
    History(t.messages, OnChannel(channel), limit)
  }

  function DirectHistory(t: Rows, user: Bytes, other: Bytes, limit: nat): seq<Message> {
    History(t.messages, Between(user, other), limit)
  }

  function CountKind(ms: seq<Message>, direct: bool): nat {
    if ms == [] then 0 else (if ms[0].DirectMessage? == direct then 1 else 0) + CountKind(ms[1..], direct)
  }

  function Last<T>(s: seq<T>, n: nat): seq<T> {
    if n < |s| then s[|s| - n..] else s
  }

  lemma {:induction false} SelectConcat(a: seq<Message>, b: seq<Message>, wanted: Message -> bool)
    ensures Select(a + b, wanted) == Select(a, wanted) + Select(b, wanted)
  {
    if a == [] {
      assert a + b == b;
    } else {
      assert (a + b)[1..] == a[1..] + b;
      SelectConcat(a[1..], b, wanted);
      ConcatAssociates(if wanted(a[0]) then [a[0]] else [], Select(a[1..], wanted), Select(b, wanted));
    }
  }

  lemma {:induction false} SelectReverse(ms: seq<Message>, wanted: Message -> bool)
    ensures Select(Reverse(ms), wanted) == Reverse(Select(ms, wanted))
  {
    if ms != [] {
      SelectReverse(ms[1..], wanted);
      SelectConcat(Reverse(ms[1..]), [ms[0]], wanted);
      var head := if wanted(ms[0]) then [ms[0]] else [];
      assert Select([ms[0]], wanted) == head + Select([], wanted);
      assert Reverse(head + Select(ms[1..], wanted)) == Reverse(Select(ms[1..], wanted)) + head;
    }
  }

  /** The last n of a sequence, reversed, are the first n of its reverse. */
  lemma ReverseOfLimit<T>(s: seq<T>, n: nat)
    ensures Reverse(Limit(Reverse(s), n)) == Last(s, n)
  {
    var r, l := Reverse(Limit(Reverse(s), n)), Last(s, n);
    assert |r| == |l|;
    forall i | 0 <= i < |r| ensures r[i] == l[i] {
      assert r[i] == Limit(Reverse(s), n)[|r| - 1 - i] == Reverse(s)[|r| - 1 - i];
      assert Reverse(s)[|r| - 1 - i] == s[|s| - 1 - (|r| - 1 - i)];
    }
  }

  /** A history query returns the last rows that match, oldest first. */
  lemma HistoryIsLast(ms: seq<Message>, wanted: Message -> bool, limit: nat)
    ensures History(ms, wanted, limit) == Last(Select(ms, wanted), limit)
  {
    SelectReverse(ms, wanted);
    ReverseOfLimit(Select(ms, wanted), limit);
  }

  // ---------------------------------------------------------- history and the log

  /** The message an operation stands for, if any. */
  function Logged(op: Op): seq<Message> {
    match op
    case Post(channel, sender, body) => [ChannelMessage(channel, sender, body)]
    case Direct(sender, recipient, body) => [DirectMessage(sender, recipient, body)]
    case _ => []
  }

  /** All messages asked to be saved, in order, whether or not that worked. */
  function Log(ops: seq<Op>): seq<Message> {
    if ops == [] then [] else Log(ops[..|ops| - 1]) + Logged(ops[|ops| - 1])
  }

  /** A message to oneself: the only kind of which a save may fail. */
  predicate ToSelf(m: Message) {
    m.DirectMessage? && m.sender == m.recipient
  }

  /** One more operation: table and log stay alike if a failing one is not wanted. */
  lemma OneMoreOp(t: Rows, log: seq<Message>, op: Op, wanted: Message -> bool)
    requires Select(t.messages, wanted) == Select(log, wanted)
    requires Fails(t, op) ==> op.Direct? && !wanted(DirectMessage(op.sender, op.recipient, op.body))
    ensures Select(Apply(t, op).messages, wanted) == Select(log + Logged(op), wanted)
  {
    SelectConcat(log, Logged(op), wanted);
    if Fails(t, op) {
      assert Logged(op)[1..] == [];
    } else {
      AddsWhatIsLogged(t, op);
      SelectConcat(t.messages, Logged(op), wanted);
    }
  }

  lemma AddsWhatIsLogged(t: Rows, op: Op)
    ensures Adds(t, op).messages == Logged(op)
  {
  }

  lemma {:induction false} StoredIsLogged(ops: seq<Op>, wanted: Message -> bool)
    requires forall m :: wanted(m) ==> !ToSelf(m)
    ensures Select(Run(ops).messages, wanted) == Select(Log(ops), wanted)
  {
    if ops != [] {
      var front, op := ops[..|ops| - 1], ops[|ops| - 1];
      StoredIsLogged(front, wanted);
      RunOk(front);
      FailsExactlyOnNewSelf(Run(front), op);
      OneMoreOp(Run(front), Log(front), op, wanted);
    }
  }

  /** channel_history is the last `limit` posts to the channel, in the order of saving. */
  lemma ChannelHistoryIsTheLog(ops: seq<Op>, channel: Bytes, limit: nat)
    ensures ChannelHistory(Run(ops), channel, limit) == Last(Select(Log(ops), OnChannel(channel)), limit)
  {
    StoredIsLogged(ops, OnChannel(channel));
    HistoryIsLast(Run(ops).messages, OnChannel(channel), limit);
  }

  /** direct_history of two different users is the last `limit` messages between them. */
  lemma DirectHistoryIsTheLog(ops: seq<Op>, a: Bytes, b: Bytes, limit: nat)
    requires a != b
    ensures DirectHistory(Run(ops), a, b, limit) == Last(Select(Log(ops), Between(a, b)), limit)
  {
    StoredIsLogged(ops, Between(a, b));
    HistoryIsLast(Run(ops).messages, Between(a, b), limit);
  }

  /** For messages to oneself the same holds if the user was in the table each time. */
  lemma {:induction false} SelfHistoryIsTheLog(ops: seq<Op>, a: Bytes, limit: nat)
    requires forall k :: 0 <= k < |ops| && ops[k].Direct? && ops[k].sender == a == ops[k].recipient
               ==> a in Run(ops[..k]).users
    ensures DirectHistory(Run(ops), a, a, limit) == Last(Select(Log(ops), Between(a, a)), limit)
  {
    SelfStored(ops, a);
    HistoryIsLast(Run(ops).messages, Between(a, a), limit);
  }

  lemma {:induction false} SelfStored(ops: seq<Op>, a: Bytes)
    requires forall k :: 0 <= k < |ops| && ops[k].Direct? && ops[k].sender == a == ops[k].recipient
               ==> a in Run(ops[..k]).users
    ensures Select(Run(ops).messages, Between(a, a)) == Select(Log(ops), Between(a, a))
  {
    if ops != [] {
      var front, op := ops[..|ops| - 1], ops[|ops| - 1];
      forall k | 0 <= k < |front| && front[k].Direct? && front[k].sender == a == front[k].recipient
        ensures a in Run(front[..k]).users
      {
        assert ops[k] == front[k] && front[..k] == ops[..k];
      }
      SelfStored(front, a);
      RunOk(front);
      FailsExactlyOnNewSelf(Run(front), op);
      OneMoreOp(Run(front), Log(front), op, Between(a, a));
    }
  }

  /** The history of two users does not depend on who asks. */
  lemma {:induction false} DirectHistoryIsSymmetric(t: Rows, a: Bytes, b: Bytes, limit: nat)
    ensures DirectHistory(t, a, b, limit) == DirectHistory(t, b, a, limit)
  {
    SelectAgrees(Reverse(t.messages), Between(a, b), Between(b, a));
  }

  lemma {:induction false} SelectAgrees(ms: seq<Message>, p: Message -> bool, q: Message -> bool)
    requires forall m :: p(m) == q(m)
    ensures Select(ms, p) == Select(ms, q)
  {
    if ms != [] {
      SelectAgrees(ms[1..], p, q);
    }
  }

  /** stats_snapshot: the two kinds make up all messages. */
  lemma {:induction false} KindsAddUp(ms: seq<Message>)
    ensures |ms| == CountKind(ms, false) + CountKind(ms, true)
  {
    if ms != [] {
      KindsAddUp(ms[1..]);
    }
  }

  lemma {:induction false} CountKindConcat(a: seq<Message>, b: seq<Message>, direct: bool)
    ensures CountKind(a + b, direct) == CountKind(a, direct) + CountKind(b, direct)
  {
    if a == [] {
      assert a + b == b;
    } else {
      assert (a + b)[1..] == a[1..] + b;
      CountKindConcat(a[1..], b, direct);
    }
  }

  /** The operations that left a message of the kind in the table: every post, and every
      direct message but those of a user to themselves before they were in it. */
  function Kept(ops: seq<Op>, direct: bool): nat {
    if ops == [] then 0
    else
      var front, op := ops[..|ops| - 1], ops[|ops| - 1];
      Kept(front, direct)
      + if direct then (if op.Direct? && !(op.sender == op.recipient && op.sender !in Run(front).users) then 1 else 0)
        else (if op.Post? then 1 else 0)
  }

  /** stats_snapshot counts exactly those, kind by kind, and they make up all messages. */
  lemma {:induction false} StatsCountTheSaves(ops: seq<Op>, direct: bool)
    ensures CountKind(Run(ops).messages, direct) == Kept(ops, direct)
    ensures |Run(ops).messages| == CountKind(Run(ops).messages, false) + CountKind(Run(ops).messages, true)
  {
    KindsAddUp(Run(ops).messages);
    if ops != [] {
      var front, op := ops[..|ops| - 1], ops[|ops| - 1];
      StatsCountTheSaves(front, direct);
      RunOk(front);
      FailsExactlyOnNewSelf(Run(front), op);
      AddsWhatIsLogged(Run(front), op);
      CountKindConcat(Run(front).messages, Logged(op), direct);
      CountLogged(op, direct);
    }
  }

  lemma CountLogged(op: Op, direct: bool)
    ensures CountKind(Logged(op), direct) == if (if direct then op.Direct? else op.Post?) then 1 else 0
  {
    if Logged(op) != [] { assert Logged(op)[1..] == []; }
  }

  // ------------------------------------------------------------------ in place

  class Database {
    var rows: Rows

    constructor ()
      ensures rows == NoRows()
    {
      rows := NoRows();
    }
  }

  /** A SQLAlchemy session: rows added are kept aside until commit. */
  class Session {
    const db: Database
    var pending: Rows

    constructor (db: Database)
      ensures this.db == db && pending == NoRows()
    {
      this.db := db;
      pending := NoRows();
    }

    /** upsert_user. */
    method Upsert(user: Bytes)
      modifies this
      ensures pending == UpsertUser(db.rows, old(pending), user)
    {
      if user !in db.rows.users {
        pending := pending.(users := pending.users + [user]);
      }
    }

    /** ensure_channel. */
    method Ensure(channel: Bytes)
      modifies this
      ensures pending == EnsureChannel(db.rows, old(pending), channel)
    {
      if channel !in db.rows.channels {
        pending := pending.(channels := pending.channels + [channel]);
      }
    }

    /** add_membership. */
    method AddMember(user: Bytes, channel: Bytes)
      modifies this
      ensures pending == AddMembership(db.rows, old(pending), user, channel)
    {
      Upsert(user);
      Ensure(channel);
      if Membership(user, channel) !in db.rows.memberships {
        pending := pending.(memberships := pending.memberships + [Membership(user, channel)]);
      }
    }

    /** save_channel_message. */
    method SaveChannel(channel: Bytes, sender: Bytes, body: Bytes)
      modifies this
      ensures pending == SaveChannelMessage(db.rows, old(pending), channel, sender, body)
    {
      AddMember(sender, channel);
      pending := pending.(messages := pending.messages + [ChannelMessage(channel, sender, body)]);
    }

    /** save_dm. */
    method SaveDirect(sender: Bytes, recipient: Bytes, body: Bytes)
      modifies this
      ensures pending == SaveDm(db.rows, old(pending), sender, recipient, body)
    {
      Upsert(sender);
      Upsert(recipient);
      pending := pending.(messages := pending.messages + [DirectMessage(sender, recipient, body)]);
    }

    /** db.commit(); false where it raises and the session is rolled back. */
    method CommitAll() returns (ok: bool)
      modifies this, db
      ensures ok <==> Commit(old(db.rows), old(pending)).Some?
      ensures db.rows == if ok then Commit(old(db.rows), old(pending)).value else old(db.rows)
      ensures pending == NoRows()
    {
      var all := Plus(db.rows, pending);
      ok := Unique(all);
      if ok {
        db.rows := all;
      }
      pending := NoRows();
    }
  }

  /** One `with session_scope() as db` block of the gateway. */
  method Transact(db: Database, op: Op) returns (ok: bool)
    modifies db
    ensures db.rows == Apply(old(db.rows), op)
    ensures ok <==> !Fails(old(db.rows), op)
  {
    var session := new Session(db);
    match op {
      case Join(user, channel) => session.AddMember(user, channel);
      case Post(channel, sender, body) => session.SaveChannel(channel, sender, body);
      case Direct(sender, recipient, body) => session.SaveDirect(sender, recipient, body);
      case Register(user) => session.Upsert(user);
    }
    ok := session.CommitAll();
  }
}
