/** The texts of WHO and LIST: exactly when they fit, and that the gateway's splitlines
    gives back the names. */
module CoreText {
  import opened Bytes
  import opened Wire
  import opened Core
  import opened CoreInvariant
  import opened CoreDelivery
  import opened CoreRun

  /** Names joined by line feeds, without any limit. */
  function JoinLines(names: seq<Bytes>): Bytes {
    if names == [] then []
    else if |names| == 1 then names[0]
    else JoinLines(names[..|names| - 1]) + [10] + names[|names| - 1]
  }

  predicate Nonempty(names: seq<Bytes>) {
    forall k :: 0 <= k < |names| ==> names[k] != []
  }

  lemma {:induction false} JoinedIsNonempty(names: seq<Bytes>)
    requires Nonempty(names) && names != []
    ensures JoinLines(names) != []
    ensures forall k :: 0 <= k < |names| ==> |names[k]| <= |JoinLines(names)|
  {
    if |names| > 1 {
      JoinedIsNonempty(names[..|names| - 1]);
      forall k | 0 <= k < |names|
        ensures |names[k]| <= |JoinLines(names)|
      {
        if k < |names| - 1 {
          assert names[k] == names[..|names| - 1][k];
        }
      }
    }
  }

  /** The snprintf loop succeeds exactly when the joined text and its NUL fit. */
  lemma {:induction false} LinesExactly(names: seq<Bytes>, cap: nat)
    requires Nonempty(names) && cap > 0
    ensures Lines(names, cap) == if |JoinLines(names)| < cap then Some(JoinLines(names)) else None
  {
    if names != [] {
      var front := names[..|names| - 1];
      LinesExactly(front, cap);
      assert Ascii("\n") == [10];
      if |names| == 1 {
        assert [] + names[0] == names[0];
      } else {
        JoinedIsNonempty(front);
        assert JoinLines(front) + ([10] + names[|names| - 1]) == JoinLines(front) + [10] + names[|names| - 1];
      }
    }
  }

  lemma LinesSnoc(names: seq<Bytes>, name: Bytes, cap: nat)
    requires Lines(names, cap).Some?
    ensures var text := Lines(names, cap).value;
      var piece := (if text == [] then [] else Ascii("\n")) + name;
      Lines(names + [name], cap) == if |text| + |piece| >= cap then None else Some(text + piece)
  {
    assert (names + [name])[..|names|] == names;
  }

  /** One more line in the buffer, or no room for it. */
  lemma LinesNext(names: seq<Bytes>, k: nat, cap: nat, text: Bytes)
    requires k < |names| && Lines(names[..k], cap) == Some(text)
    ensures var piece := (if text == [] then [] else Ascii("\n")) + names[k];
            Lines(names[..k + 1], cap) == if |text| + |piece| >= cap then None else Some(text + piece)
  {
    assert names[..k + 1][..k] == names[..k];
  }

  /** Once the loop has failed, more names do not help. */
  lemma {:induction false} LinesStayTooLong(names: seq<Bytes>, k: nat, cap: nat)
    requires k <= |names| && Lines(names[..k], cap).None?
    ensures Lines(names, cap).None?
  {
    if k < |names| {
      assert names[..|names| - 1][..k] == names[..k];
      LinesStayTooLong(names[..|names| - 1], k, cap);
    } else {
      assert names[..k] == names;
    }
  }

  /** The loop over the slots collects the members in order. */
  lemma {:induction false} MembersGrow(clients: seq<Conn>, k: nat, channel: int)
    requires k <= |clients|
    ensures Members(clients[..k], channel) <= Members(clients, channel)
    ensures k < |clients| ==>
      Members(clients[..k + 1], channel) ==
      Members(clients[..k], channel) + (if IsMember(clients[k], channel) then [clients[k].username] else [])
  {
    if k < |clients| {
      assert clients[..k + 1][..k] == clients[..k];
      MembersGrow(clients[..|clients| - 1], k, channel);
      assert clients[..|clients| - 1][..k] == clients[..k];
    } else {
      assert clients[..k] == clients;
    }
  }

  /** One round of send_who's loop. */
  lemma MemberLine(clients: seq<Conn>, k: nat, channel: int, cap: nat)
    requires k < |clients| && Lines(Members(clients[..k], channel), cap).Some?
    ensures var text := Lines(Members(clients[..k], channel), cap).value;
      var piece := (if text == [] then [] else Ascii("\n")) + clients[k].username;
      if !IsMember(clients[k], channel) then Lines(Members(clients[..k + 1], channel), cap) == Some(text)
      else if |text| + |piece| >= cap then Lines(Members(clients, channel), cap).None?
      else Lines(Members(clients[..k + 1], channel), cap) == Some(text + piece)
  {
    var before, after := Members(clients[..k], channel), Members(clients[..k + 1], channel);
    var all := Members(clients, channel);
    MembersGrow(clients, k, channel);
    MembersGrow(clients, k + 1, channel);
    if IsMember(clients[k], channel) {
      LinesSnoc(before, clients[k].username, cap);
      assert all[..|after|] == after;
      if Lines(after, cap).None? {
        LinesStayTooLong(all, |after|, cap);
      }
    } else {
      assert after == before;
    }
  }

  lemma {:induction false} JoinedLength(names: seq<Bytes>, cap: nat)
    requires names != [] && forall k :: 0 <= k < |names| ==> |names[k]| <= cap
    ensures |JoinLines(names)| <= |names| * (cap + 1) - 1
  {
    if |names| > 1 {
      JoinedLength(names[..|names| - 1], cap);
      assert (|names| - 1) * (cap + 1) + (cap + 1) == |names| * (cap + 1);
    }
  }

  // -------------------------------------------------------------- str.splitlines

  /** The ASCII characters at which str.splitlines ends a line. */
  predicate LineBreak(c: byte) {
    c as int in {10, 11, 12, 13, 28, 29, 30}
  }

  function LineLength(b: Bytes): (n: nat)
    ensures n <= |b|
    ensures forall k :: 0 <= k < n ==> !LineBreak(b[k])
    ensures n < |b| ==> LineBreak(b[n])
  {
    if b == [] || LineBreak(b[0]) then 0 else 1 + LineLength(b[1..])
  }

  function SplitLines(b: Bytes): seq<Bytes>
    decreases |b|
  {
    if b == [] then []
    else
      var n := LineLength(b);
      if n == |b| then [b]
      else
        var after := if b[n] == 13 && n + 1 < |b| && b[n + 1] == 10 then n + 2 else n + 1;
        [b[..n]] + SplitLines(b[after..])
  }

  predicate OneLiners(names: seq<Bytes>) {
    forall k :: 0 <= k < |names| ==> names[k] != [] && forall j :: 0 <= j < |names[k]| ==> !LineBreak(names[k][j])
  }

  lemma {:induction false} JoinFront(names: seq<Bytes>)
    requires |names| >= 2
    ensures JoinLines(names) == names[0] + [10] + JoinLines(names[1..])
  {
    var n := |names| - 1;
    if |names| == 2 {
      assert names[..n] == [names[0]] && names[1..] == [names[1]];
    } else {
      JoinFront(names[..n]);
      assert names[..n][1..] == names[1..][..n - 1];
      var middle := JoinLines(names[1..][..n - 1]);
      assert names[0] + [10] + middle + [10] + names[n] == names[0] + [10] + (middle + [10] + names[n]);
    }
  }

  lemma SplitFirst(line: Bytes, tail: Bytes)
    requires forall j :: 0 <= j < |line| ==> !LineBreak(line[j])
    ensures SplitLines(line + [10] + tail) == [line] + SplitLines(tail)
  {
    var b := line + [10] + tail;
    assert b == line + ([10] + tail);
    LineEndsAt(line, [10] + tail);
    assert b[..|line|] == line && b[|line|] == 10 && b[|line| + 1..] == tail;
  }

  /** The reader gets back exactly the names, in order, also when there are none. */
  lemma {:induction false} SplitInvertsJoin(names: seq<Bytes>)
    requires OneLiners(names)
    ensures SplitLines(JoinLines(names)) == names
  {
    if |names| == 1 {
      LineEndsAt(names[0], []);
      assert names[0] + [] == names[0];
    } else if |names| >= 2 {
      JoinFront(names);
      SplitFirst(names[0], JoinLines(names[1..]));
      SplitInvertsJoin(names[1..]);
      assert names == [names[0]] + names[1..];
    }
  }

  lemma {:induction false} LineEndsAt(line: Bytes, tail: Bytes)
    requires forall j :: 0 <= j < |line| ==> !LineBreak(line[j])
    requires tail == [] || LineBreak(tail[0])
    ensures LineLength(line + tail) == |line|
  {
    if line == [] {
      assert line + tail == tail;
    } else {
      assert (line + tail)[1..] == line[1..] + tail;
      LineEndsAt(line[1..], tail);
    }
  }

  // ----------------------------------------------------------------- WHO and LIST

  lemma NamesAreOneLiners(names: seq<Bytes>, cap: nat)
    requires forall k :: 0 <= k < |names| ==> NameOk(names[k], 1, cap)
    ensures OneLiners(names) && Nonempty(names)
  {
  }

  lemma {:induction false} MembersAreNamed(channels: seq<Bytes>, clients: seq<Conn>, channel: int)
    requires forall i :: 0 <= i < |clients| && clients[i].fd >= 0 ==> SessionOk(channels, clients[i])
    ensures |Members(clients, channel)| <= |clients|
    ensures forall k :: 0 <= k < |Members(clients, channel)| ==> NameOk(Members(clients, channel)[k], 1, NAME_CAP)
  {
    if clients != [] {
      MembersAreNamed(channels, clients[..|clients| - 1], channel);
      assert SessionOk(channels, clients[|clients| - 1]) || clients[|clients| - 1].fd < 0;
    }
  }

  /** LIST never takes its too-large branch, and its payload of at most 2111 bytes splits
      into exactly the channel table. */
  lemma ListAlwaysFits(s: State)
    requires Good(s)
    ensures var text := Lines(s.channels, MAX_PAYLOAD);
      text.Some? && |text.value| <= 2111 && SplitLines(text.value) == s.channels
  {
    NamesAreOneLiners(s.channels, CHANNEL_CAP);
    LinesExactly(s.channels, MAX_PAYLOAD);
    SplitInvertsJoin(s.channels);
    if s.channels != [] {
      JoinedLength(s.channels, CHANNEL_CAP);
    }
  }

  /** WHO succeeds exactly when the joined names have at most 4095 bytes, so always for up
      to 124 members; the payload then splits into the members' names in slot order. */
  lemma WhoFitsExactly(s: State, channel: int)
    requires Good(s)
    ensures var names := Members(s.clients, channel);
      var text := Lines(names, MAX_PAYLOAD);
      && (text.Some? <==> |JoinLines(names)| <= 4095)
      && (|names| <= 124 ==> text.Some?)
      && (text.Some? ==> SplitLines(text.value) == names)
  {
    var names := Members(s.clients, channel);
    MembersAreNamed(s.channels, s.clients, channel);
    NamesAreOneLiners(names, NAME_CAP);
    LinesExactly(names, MAX_PAYLOAD);
    SplitInvertsJoin(names);
    if names != [] {
      JoinedLength(names, NAME_CAP);
    }
  }
}
