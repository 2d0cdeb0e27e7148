/** The JSON text of STATS, read back: an object of nine named numbers. */
module CoreStats {
  import opened Bytes
  import opened Core

  datatype Entry = Entry(name: Bytes, value: nat)

  // ---------------------------------------------------------------- a reader

  predicate Digit(c: byte) {
    48 <= c as int <= 57
  }

  function DigitCount(b: Bytes): (n: nat)
    ensures n <= |b|
  {
    if b == [] || !Digit(b[0]) then 0 else 1 + DigitCount(b[1..])
  }

  /** The number some digits stand for, the last one counting once. */
  function Value(digits: Bytes): nat {
    if digits == [] then 0
    else
      var c := digits[|digits| - 1];
      10 * Value(digits[..|digits| - 1]) + (if Digit(c) then c as int - 48 else 0)
  }

  /** How many bytes are in front of the first quotation mark. */
  function Quoted(b: Bytes): (n: nat)
    ensures n <= |b|
  {
    if b == [] || b[0] == 34 then 0 else 1 + Quoted(b[1..])
  }

  /** "name":number at the front, and what follows it. */
  function ReadEntry(b: Bytes): (r: Option<(Entry, Bytes)>)
    ensures r.Some? ==> |r.value.1| < |b|
  {
    if b == [] || b[0] != 34 then None
    else
      var n := Quoted(b[1..]);
      if n + 3 >= |b| || b[n + 1] != 34 || b[n + 2] != 58 then None
      else
        var d := DigitCount(b[n + 3..]);
        if d == 0 then None else Some((Entry(b[1..n + 1], Value(b[n + 3..n + 3 + d])), b[n + 3 + d..]))
  }

  /** Entries with commas between them and a brace behind the last. */
  function ReadEntries(b: Bytes): Option<seq<Entry>>
    decreases |b|
  {
    match ReadEntry(b)
    case None => None
    case Some((entry, rest)) =>
      if rest == [125] then Some([entry])
      else if rest == [] || rest[0] != 44 then None
      else
        match ReadEntries(rest[1..])
        case None => None
        case Some(es) => Some([entry] + es)
  }

  function ReadObject(b: Bytes): Option<seq<Entry>> {
    if b == [] || b[0] != 123 then None else ReadEntries(b[1..])
  }

  // ---------------------------------------------------------------- what it reads

  lemma {:induction false} DecimalReads(n: nat, tail: Bytes)
    requires tail != [] && !Digit(tail[0])
    ensures Value(Decimal(n)) == n && |Decimal(n)| > 0
    ensures DigitCount(Decimal(n) + tail) == |Decimal(n)|
  {
    DecimalValue(n);
    DigitsEnd(Decimal(n), tail);
  }

  lemma LastDigit(front: Bytes, last: byte)
    requires Digit(last) && forall i :: 0 <= i < |front| ==> Digit(front[i])
    ensures Value(front + [last]) == 10 * Value(front) + (last as int - 48)
    ensures forall i :: 0 <= i < |front + [last]| ==> Digit((front + [last])[i])
  {
    assert (front + [last])[..|front|] == front;
  }

  lemma {:induction false} DecimalValue(n: nat)
    ensures Value(Decimal(n)) == n && |Decimal(n)| > 0
    ensures forall i :: 0 <= i < |Decimal(n)| ==> Digit(Decimal(n)[i])
  {
    var last := ('0' as int + n % 10) as byte;
    if n < 10 {
      LastDigit([], last);
      assert Decimal(n) == [] + [last];
    } else {
      DecimalValue(n / 10);
      LastDigit(Decimal(n / 10), last);
      assert Decimal(n) == Decimal(n / 10) + [last];
    }
  }

  lemma {:induction false} DigitsEnd(digits: Bytes, tail: Bytes)
    requires forall i :: 0 <= i < |digits| ==> Digit(digits[i])
    requires tail != [] && !Digit(tail[0])
    ensures DigitCount(digits + tail) == |digits|
  {
    if digits == [] {
      assert digits + tail == tail;
    } else {
      assert (digits + tail)[1..] == digits[1..] + tail;
      DigitsEnd(digits[1..], tail);
    }
  }

  lemma {:induction false} QuoteEnds(name: Bytes, tail: Bytes)
    requires forall i :: 0 <= i < |name| ==> name[i] != 34
    requires tail != [] && tail[0] == 34
    ensures Quoted(name + tail) == |name|
  {
    if name == [] {
      assert name + tail == tail;
    } else {
      assert (name + tail)[1..] == name[1..] + tail;
      QuoteEnds(name[1..], tail);
    }
  }

  predicate Plain(name: string) {
    forall i :: 0 <= i < |name| ==> 'a' <= name[i] <= 'z' || name[i] == '_'
  }

  function Line(name: Bytes, digits: Bytes, mark: byte, tail: Bytes): Bytes {
    [34] + (name + ([34, 58] + (digits + ([mark] + tail))))
  }

  lemma LineParts(name: Bytes, digits: Bytes, mark: byte, tail: Bytes)
    ensures var b, d := Line(name, digits, mark, tail), |name| + 3 + |digits|;
      && |b| == d + 1 + |tail| && b[0] == 34 && b[|name| + 1] == 34 && b[|name| + 2] == 58 && b[d] == mark
      && b[1..] == name + ([34, 58] + (digits + ([mark] + tail))) && b[1..|name| + 1] == name
      && b[|name| + 3..] == digits + ([mark] + tail) && b[|name| + 3..d] == digits && b[d..] == [mark] + tail
  {
  }

  lemma EntryAt(b: Bytes, n: nat, d: nat)
    requires b != [] && b[0] == 34 && n == Quoted(b[1..]) && n + 3 < |b| && b[n + 1] == 34 && b[n + 2] == 58
    requires d == DigitCount(b[n + 3..]) && d > 0
    ensures ReadEntry(b) == Some((Entry(b[1..n + 1], Value(b[n + 3..n + 3 + d])), b[n + 3 + d..]))
  {
  }

  lemma LineReads(name: Bytes, digits: Bytes, mark: byte, tail: Bytes)
    requires forall i :: 0 <= i < |name| ==> name[i] != 34
    requires |digits| > 0 && DigitCount(digits + ([mark] + tail)) == |digits|
    ensures ReadEntry(Line(name, digits, mark, tail)) == Some((Entry(name, Value(digits)), [mark] + tail))
  {
    LineParts(name, digits, mark, tail);
    QuoteEnds(name, [34, 58] + (digits + ([mark] + tail)));
    EntryAt(Line(name, digits, mark, tail), |name|, |digits|);
  }

  lemma FieldReads(name: string, n: nat, mark: byte, tail: Bytes)
    requires Plain(name) && mark in {44, 125}
    ensures ReadEntry(Field(name, n) + ([mark] + tail)) == Some((Entry(Ascii(name), n), [mark] + tail))
  {
    FieldIsLine(name, n, mark, tail);
    DecimalReads(n, [mark] + tail);
    LineReads(Ascii(name), Decimal(n), mark, tail);
  }

  lemma FieldIsLine(name: string, n: nat, mark: byte, tail: Bytes)
    ensures Field(name, n) + ([mark] + tail) == Line(Ascii(name), Decimal(n), mark, tail)
  {
    var a, digits := Ascii(name), Decimal(n);
    assert Ascii("\"") == [34] && Ascii("\":") == [34, 58];
    assert [34] + a + [34, 58] + digits + ([mark] + tail) == [34] + (a + ([34, 58] + (digits + ([mark] + tail))));
  }

  lemma LastReads(name: string, n: nat) returns (text: Bytes, all: seq<Entry>)
    requires Plain(name)
    ensures text == Field(name, n) + Ascii("}") && all == [Entry(Ascii(name), n)] && ReadEntries(text) == Some(all)
  {
    text, all := Field(name, n) + Ascii("}"), [Entry(Ascii(name), n)];
    assert Ascii("}") == [125];
    FieldReads(name, n, 125, []);
    assert [125] + [] == [125];
  }

  lemma NextReads(name: string, n: nat, tail: Bytes, es: seq<Entry>) returns (text: Bytes, all: seq<Entry>)
    requires Plain(name) && ReadEntries(tail) == Some(es)
    ensures text == Field(name, n) + (Ascii(",") + tail) && all == [Entry(Ascii(name), n)] + es
    ensures ReadEntries(text) == Some(all)
  {
    text, all := Field(name, n) + (Ascii(",") + tail), [Entry(Ascii(name), n)] + es;
    assert Ascii(",") == [44];
    FieldReads(name, n, 44, tail);
    Continues(text, Entry(Ascii(name), n), [44] + tail, tail, es);
  }

  lemma Continues(b: Bytes, entry: Entry, rest: Bytes, tail: Bytes, es: seq<Entry>)
    requires ReadEntry(b) == Some((entry, rest)) && rest == [44] + tail && ReadEntries(tail) == Some(es)
    ensures ReadEntries(b) == Some([entry] + es)
  {
    assert rest[1..] == tail && rest[0] == 44;
  }

  // ---------------------------------------------------------------- STATS

  function Entries(names: seq<string>, ns: seq<nat>, k: nat): seq<Entry>
    requires k < |names| == |ns|
    decreases |names| - k
  {
    [Entry(Ascii(names[k]), ns[k])] + if k + 1 == |names| then [] else Entries(names, ns, k + 1)
  }

  lemma PrintedNext(names: seq<string>, ns: seq<nat>, k: nat)
    requires k + 1 < |names| == |ns|
    ensures FieldsFrom(names, ns, k) == Field(names[k], ns[k]) + (Ascii(",") + FieldsFrom(names, ns, k + 1))
    ensures Entries(names, ns, k) == [Entry(Ascii(names[k]), ns[k])] + Entries(names, ns, k + 1)
  {
  }

  lemma PrintedLast(names: seq<string>, ns: seq<nat>, k: nat)
    requires k + 1 == |names| == |ns|
    ensures FieldsFrom(names, ns, k) == Field(names[k], ns[k]) + Ascii("}")
    ensures Entries(names, ns, k) == [Entry(Ascii(names[k]), ns[k])]
  {
  }

  lemma MoreReads(names: seq<string>, ns: seq<nat>, k: nat, tail: Bytes, later: seq<Entry>)
    returns (text: Bytes, es: seq<Entry>)
    requires k + 1 < |names| == |ns| && Plain(names[k])
    requires tail == FieldsFrom(names, ns, k + 1) && later == Entries(names, ns, k + 1)
    requires ReadEntries(tail) == Some(later)
    ensures text == FieldsFrom(names, ns, k) && es == Entries(names, ns, k) && ReadEntries(text) == Some(es)
  {
    text, es := NextReads(names[k], ns[k], tail, later);
    PrintedNext(names, ns, k);
  }

  lemma EndReads(names: seq<string>, ns: seq<nat>, k: nat) returns (text: Bytes, es: seq<Entry>)
    requires k + 1 == |names| == |ns| && Plain(names[k])
    ensures text == FieldsFrom(names, ns, k) && es == Entries(names, ns, k) && ReadEntries(text) == Some(es)
  {
    text, es := LastReads(names[k], ns[k]);
    PrintedLast(names, ns, k);
  }

  lemma {:induction false} PrintedReads(names: seq<string>, ns: seq<nat>, k: nat) returns (text: Bytes, es: seq<Entry>)
    requires k < |names| == |ns| && forall j :: 0 <= j < |names| ==> Plain(names[j])
    ensures text == FieldsFrom(names, ns, k) && es == Entries(names, ns, k) && ReadEntries(text) == Some(es)
    decreases |names| - k
  {
    if k + 1 == |names| {
      text, es := EndReads(names, ns, k);
    } else {
      text, es := PrintedReads(names, ns, k + 1);
      text, es := MoreReads(names, ns, k, text, es);
    }
  }

  function StatNames(): seq<string> {
    ["current_connections", "registered_clients", "total_connections", "channels", "channel_messages",
     "direct_messages", "malformed_frames", "queue_disconnects", "max_queue_bytes"]
  }

  function StatValues(st: Stats, registered: nat, channels: nat, maxQueue: nat): seq<nat> {
    [st.current, registered, st.total, channels, st.channelMessages,
     st.directMessages, st.malformed, st.queueDisconnects, maxQueue]
  }

  lemma NamesArePlain()
    ensures forall k :: 0 <= k < 9 ==> Plain(StatNames()[k])
  {
  }

  lemma TextIsPrinted(st: Stats, registered: nat, channels: nat, maxQueue: nat)
    ensures StatsText(st, registered, channels, maxQueue) ==
            Ascii("{") + FieldsFrom(StatNames(), StatValues(st, registered, channels, maxQueue), 0)
  {
  }

  lemma ObjectReads(b: Bytes, text: Bytes, es: seq<Entry>)
    requires b == Ascii("{") + text && ReadEntries(text) == Some(es)
    ensures ReadObject(b) == Some(es)
  {
    assert Ascii("{") == [123];
    assert b[1..] == text;
  }

  /** Reading the JSON text gives the nine numbers under their names, in this order. */
  lemma StatsReadBack(st: Stats, registered: nat, channels: nat, maxQueue: nat)
    ensures ReadObject(StatsText(st, registered, channels, maxQueue)) ==
            Some(Entries(StatNames(), StatValues(st, registered, channels, maxQueue), 0))
  {
    var names, ns := StatNames(), StatValues(st, registered, channels, maxQueue);
    NamesArePlain();
    TextIsPrinted(st, registered, channels, maxQueue);
    var text, es := PrintedReads(names, ns, 0);
    ObjectReads(StatsText(st, registered, channels, maxQueue), text, es);
  }

  /** registered_clients is how many slots hold a registered client. */
  lemma {:induction false} RegisteredAreCounted(clients: seq<Conn>)
    ensures CountRegistered(clients) == |set j | 0 <= j < |clients| && clients[j].fd >= 0 && clients[j].registered|
  {
    if clients != [] {
      var n := |clients| - 1;
      var front := clients[..n];
      RegisteredAreCounted(front);
      var before := set j | 0 <= j < |front| && front[j].fd >= 0 && front[j].registered;
      var all := set j | 0 <= j < |clients| && clients[j].fd >= 0 && clients[j].registered;
      assert forall j :: 0 <= j < n ==> front[j] == clients[j];
      if Registered(clients[n]) {
        assert all == before + {n};
      } else {
        assert all == before;
      }
    }
  }
}
