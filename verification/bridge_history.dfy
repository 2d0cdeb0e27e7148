/** What the channel history shows of a run of the bridge. */
module BridgeHistory {
  import opened Bytes
  import opened Bridge
  import opened BridgeInvariant
  import opened BridgeSaves
  import opened BridgeLaws
  import Store

  function AsMessage(s: Saved): Store.Message {
    match s
    case SavedChat(channel, sender, text) => Store.ChannelMessage(channel, sender, text)
    case SavedDm(sender, recipient, text) => Store.DirectMessage(sender, recipient, text)
  }

  /** The messages the bridge has asked to be saved, in order. */
  function Messages(rows: seq<Row>): seq<Store.Message> {
    if rows == [] then [] else Messages(rows[..|rows| - 1]) + [AsMessage(rows[|rows| - 1].message)]
  }

  /** The broadcasts saved, in the order of saving. */
  function ChatTags(rows: seq<Row>): seq<nat> {
    if rows == [] then []
    else
      var r := rows[|rows| - 1];
      ChatTags(rows[..|rows| - 1]) + if r.cause.ChatEvent? then [r.cause.tag] else []
  }

  function Post(broadcasts: seq<Broadcast>, t: nat, channel: Bytes): seq<Store.Message> {
    if t < |broadcasts| && broadcasts[t].channel == channel
    then [Store.ChannelMessage(channel, broadcasts[t].sender, broadcasts[t].text)] else []
  }

  function Posts(broadcasts: seq<Broadcast>, tags: seq<nat>, channel: Bytes): seq<Store.Message> {
    if tags == [] then []
    else Posts(broadcasts, tags[..|tags| - 1], channel) + Post(broadcasts, tags[|tags| - 1], channel)
  }

  lemma {:induction false} RowIsAmong(rows: seq<Row>, k: nat)
    requires k < |rows|
    ensures rows[k] in RowsOf(rows, rows[k].cause)
  {
    if k < |rows| - 1 { RowIsAmong(rows[..|rows| - 1], k); }
  }

  lemma {:induction false} TwoRowsAreTwo(rows: seq<Row>, k: nat, l: nat)
    requires k < l < |rows| && rows[k].cause == rows[l].cause
    ensures |RowsOf(rows, rows[k].cause)| >= 2
  {
    if l < |rows| - 1 {
      TwoRowsAreTwo(rows[..|rows| - 1], k, l);
    } else {
      RowIsAmong(rows[..|rows| - 1], k);
    }
  }

  /** What a row says, by the event that caused it. */
  predicate RowSays(w: World, r: Row) {
    && (r.message.SavedChat? <==> r.cause.ChatEvent?)
    && (r.cause.ChatEvent? ==>
          r.cause.tag < |w.broadcasts| && r == ChatRow(w, r.cause.tag, r.writer) && Claims(w, r.cause.tag, r.writer))
  }

  predicate KindsOk(w: World) {
    forall k :: 0 <= k < |w.rows| ==> (w.rows[k].message.SavedChat? <==> w.rows[k].cause.ChatEvent?)
  }

  lemma StepKinds(w: World, a: Action)
    requires Sane(w) && KindsOk(w) && Enabled(w, a)
    ensures KindsOk(Step(w, a))
  {
    if !a.Handle? { StepIsQuiet(w, a); }
  }

  lemma {:induction false} EveryKind(actions: seq<Action>)
    requires Possible(actions)
    ensures KindsOk(Run(actions))
  {
    if actions != [] {
      var before, a := actions[..|actions| - 1], actions[|actions| - 1];
      EveryRun(before);
      EveryKind(before);
      StepKinds(Run(before), a);
    }
  }

  lemma EveryRowSays(actions: seq<Action>, k: nat)
    requires Possible(actions) && k < |Run(actions).rows|
    ensures RowSays(Run(actions), Run(actions).rows[k])
  {
    var w := Run(actions);
    var r := w.rows[k];
    EveryRun(actions);
    EveryKind(actions);
    assert RowKnown(w, r);
    SeenIsOk(w, r.writer, r.cause);
    RowIsByItsWriter(w.rows, k);
    if r.cause.ChatEvent? { assert EchoOk(w, r.cause.tag, r.writer); }
  }

  lemma {:induction false} PostsAreSelected(w: World, rows: seq<Row>, channel: Bytes)
    requires forall k :: 0 <= k < |rows| ==> RowSays(w, rows[k])
    ensures Store.Select(Messages(rows), Store.OnChannel(channel)) == Posts(w.broadcasts, ChatTags(rows), channel)
  {
    if rows != [] {
      var front, r := rows[..|rows| - 1], rows[|rows| - 1];
      var m := AsMessage(r.message);
      PostsAreSelected(w, front, channel);
      Store.SelectConcat(Messages(front), [m], Store.OnChannel(channel));
      assert RowSays(w, r);
      OneSelected(m, channel);
      if r.cause.ChatEvent? {
        assert ChatTags(rows)[..|ChatTags(rows)| - 1] == ChatTags(front);
        assert Store.Select([m], Store.OnChannel(channel)) == Post(w.broadcasts, r.cause.tag, channel);
      } else {
        assert ChatTags(rows) == ChatTags(front);
        assert Store.Select([m], Store.OnChannel(channel)) == [];
      }
    }
  }

  lemma OneSelected(m: Store.Message, channel: Bytes)
    ensures Store.Select([m], Store.OnChannel(channel)) == if Store.OnChannel(channel)(m) then [m] else []
  {
    assert [m][1..] == [];
  }

  lemma {:induction false} TagHasRow(rows: seq<Row>, t: nat) returns (p: nat)
    requires t in ChatTags(rows)
    ensures p < |rows| && rows[p].cause.ChatEvent? && rows[p].cause.tag == t
  {
    var n := |rows| - 1;
    if rows[n].cause.ChatEvent? && rows[n].cause.tag == t { p := n; } else { p := TagHasRow(rows[..n], t); }
  }

  /** No gateway session has been renamed. */
  predicate NamesKept(w: World) {
    forall j :: 0 <= j < |w.sessions| && w.sessions[j].gateway ==> !w.sessions[j].renamed
  }

  /** No two rows save the same broadcast. */
  lemma RowsAreApart(actions: seq<Action>, p: nat, q: nat)
    requires Possible(actions) && p < q < |Run(actions).rows| && NamesKept(Run(actions))
    requires Run(actions).rows[p].cause.ChatEvent? && Run(actions).rows[q].cause.ChatEvent?
    ensures Run(actions).rows[p].cause.tag != Run(actions).rows[q].cause.tag
  {
    var w := Run(actions);
    var t := w.rows[p].cause.tag;
    EveryRun(actions);
    EveryRowSays(actions, p);
    EveryRowSays(actions, q);
    ChatSavedOnce(actions, t);
    ChatRowsAre(w, w.rows, t);
    if t == w.rows[q].cause.tag { TwoRowsAreTwo(w.rows, p, q); }
  }

  lemma {:induction false} NoTagTwice(actions: seq<Action>, n: nat)
    requires Possible(actions) && n <= |Run(actions).rows| && NamesKept(Run(actions))
    ensures Store.Distinct(ChatTags(Run(actions).rows[..n]))
  {
    if n > 0 {
      var rows := Run(actions).rows;
      NoTagTwice(actions, n - 1);
      assert rows[..n][..n - 1] == rows[..n - 1];
      var front, r := ChatTags(rows[..n - 1]), rows[n - 1];
      if r.cause.ChatEvent? && r.cause.tag in front {
        var p := TagHasRow(rows[..n - 1], r.cause.tag);
        RowsAreApart(actions, p, n - 1);
        assert false;
      }
    }
  }

  /** Whatever joins and registrations come in between, channel_history shows the last
      `limit` of the broadcasts to the channel that some session has handled as its own, and
      none twice unless a gateway session was renamed; sender by sender they are in the order
      in which they were made (ChatSavedInOrder). */
  lemma HistoryShowsEachBroadcastOnce(actions: seq<Action>, ops: seq<Store.Op>, channel: Bytes, limit: nat)
    requires Possible(actions) && Store.Log(ops) == Messages(Run(actions).rows)
    ensures var w, tags := Run(actions), ChatTags(Run(actions).rows);
            && (forall k :: 0 <= k < |tags| ==> tags[k] < |w.broadcasts| && exists j :: Claims(w, tags[k], j))
            && (NamesKept(w) ==> Store.Distinct(tags))
            && Store.ChannelHistory(Store.Run(ops), channel, limit)
               == Store.Last(Posts(w.broadcasts, tags, channel), limit)
  {
    var w, tags := Run(actions), ChatTags(Run(actions).rows);
    forall k | 0 <= k < |w.rows| ensures RowSays(w, w.rows[k]) {
      EveryRowSays(actions, k);
    }
    PostsAreSelected(w, w.rows, channel);
    Store.ChannelHistoryIsTheLog(ops, channel, limit);
    forall k | 0 <= k < |tags| ensures tags[k] < |w.broadcasts| && exists j :: Claims(w, tags[k], j) {
      var p := TagHasRow(w.rows, tags[k]);
      assert RowSays(w, w.rows[p]);
    }
    if NamesKept(w) { NoTagTwice(actions, |w.rows|); }
    assert w.rows[..|w.rows|] == w.rows;
  }
}
