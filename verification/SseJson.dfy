/** The events of the server, JSON with a number, through the decoder (crates/runs/src/network.rs:116-137). */
module SseJson {
  import opened Base
  import opened Decimal
  import opened Utf8
  import opened Json
  import opened JsonParse
  import opened Sse
  import opened SseText

  /** One event: its number, its kind and its payload. */
  datatype Numbered = Numbered(seqNo: nat, kind: string, payload: Json)

  predicate Sendable(e: Numbered) { '\n' !in e.kind && WellFormed(e.payload) }

  function MessageOf(e: Numbered): Message { Message(PrintNat(e.seqNo), e.kind, Print(e.payload)) }

  function MessagesOf(es: seq<Numbered>): seq<Message> {
    if es == [] then [] else [MessageOf(es[0])] + MessagesOf(es[1..])
  }

  // ── Printed values are one visible line ────────────────────────────────────

  predicate NoControls(s: string) { forall i :: 0 <= i < |s| ==> s[i] as int >= 0x20 }

  predicate AllNoControls(parts: seq<string>) { forall i :: 0 <= i < |parts| ==> NoControls(parts[i]) }

  lemma EscapedHasNoControls(c: char)
    ensures NoControls(EscapeChar(c))
  {
    assert forall i :: 0 <= i < 16 ==> HEX[i] as int >= 0x20;
  }

  lemma {:induction false} EscapeHasNoControls(s: string)
    ensures NoControls(Escape(s)) && NoControls(Quote(s))
  {
    if s != "" {
      EscapeHasNoControls(s[1..]);
      EscapedHasNoControls(s[0]);
      hide EscapeChar;
    }
  }

  lemma {:induction false} JoinHasNoControls(parts: seq<string>)
    requires AllNoControls(parts)
    ensures NoControls(Join(parts))
  {
    if |parts| > 1 { JoinHasNoControls(parts[1..]); }
  }

  lemma {:induction false} PrintHasNoControls(v: Json)
    requires WellFormed(v)
    ensures NoControls(Print(v))
    decreases v, 1
  {
    hide NoControls, AllNoControls, Join, Members, Quote, IsNumber;
    match v {
      case Arr(items) =>
        ItemsHaveNoControls(items);
        JoinHasNoControls(PrintItems(items));
        Enclosed("[", Join(PrintItems(items)), "]");
      case Obj(members) =>
        MembersHaveNoControls(members);
        JoinHasNoControls(Members(PrintMembers(members)));
        Enclosed("{", Join(Members(PrintMembers(members))), "}");
      case Num(token) => TokenHasNoControls(token);
      case Str(s) => EscapeHasNoControls(s);
      case _ => WordHasNoControls(v);
    }
  }

  lemma WordHasNoControls(v: Json)
    requires v.Null? || v.Bool?
    ensures NoControls(Print(v))
  {
  }

  lemma TokenHasNoControls(token: string)
    requires IsNumber(token)
    ensures NoControls(token)
  {
    NumberChars(token);
  }

  lemma Enclosed(open: string, body: string, close: string)
    requires NoControls(body) && NoControls(open) && NoControls(close)
    ensures NoControls(open + body + close)
  {
  }

  lemma {:induction false} ItemsHaveNoControls(items: seq<Json>)
    requires forall i :: 0 <= i < |items| ==> WellFormed(items[i])
    ensures AllNoControls(PrintItems(items))
    decreases items, 0
  {
    hide NoControls, Print, WellFormed;
    if items != [] {
      PrintHasNoControls(items[0]);
      ItemsHaveNoControls(items[1..]);
      assert PrintItems(items) == [Print(items[0])] + PrintItems(items[1..]);
    }
  }

  lemma {:induction false} MembersHaveNoControls(members: seq<Entry<Json>>)
    requires forall i :: 0 <= i < |members| ==> WellFormed(members[i].value)
    ensures AllNoControls(Members(PrintMembers(members)))
    decreases members, 0
  {
    hide NoControls, Print, WellFormed, Quote;
    if members != [] {
      var e := members[0];
      PrintHasNoControls(e.value);
      EscapeHasNoControls(e.name);
      Enclosed(Quote(e.name), ":", Print(e.value)) by { ColonHasNoControls(); }
      MembersHaveNoControls(members[1..]);
      var text := Entry(e.name, Print(e.value));
      assert PrintMembers(members) == [text] + PrintMembers(members[1..]);
      hide PrintMembers;
      assert Members([text] + PrintMembers(members[1..])) == [Member(text)] + Members(PrintMembers(members[1..]));
    }
  }

  lemma ColonHasNoControls()
    ensures NoControls(":")
  {
  }

  lemma PrintStartsVisibly(v: Json)
    requires WellFormed(v)
    ensures StartsVisibly(Print(v))
  {
    PrintHasNoControls(v);
    FirstIsVisible(v);
    hide Print;
    LineOfNoControls(Print(v));
  }

  lemma LineOfNoControls(s: string)
    requires NoControls(s)
    ensures '\n' !in s && '\r' !in s
  {
  }

  lemma FirstIsVisible(v: Json)
    requires WellFormed(v)
    ensures Print(v) != "" && 0x21 <= Print(v)[0] as int <= 0x7E
  {
    if v.Num? { NumberChars(v.token); }
  }

  lemma NumberStartsVisibly(n: nat)
    ensures StartsVisibly(PrintNat(n))
  {
    PrintNatParses(n);
    var s := PrintNat(n);
    hide PrintNat;
    assert IsDigit(s[0]) && IsDigit(s[|s| - 1]);
    forall i | 0 <= i < |s| ensures s[i] != '\n' { assert IsDigit(s[i]); }
  }

  // ── What is received ───────────────────────────────────────────────────────

  lemma EventIsUnchanged(e: Numbered)
    requires Sendable(e)
    ensures Writable(MessageOf(e))
    ensures Received(MessageOf(e)) == SseEvent(Some(PrintNat(e.seqNo)), Some(Print(e.payload)))
  {
    NumberStartsVisibly(e.seqNo);
    PrintStartsVisibly(e.payload);
    VisibleIsPlain(PrintNat(e.seqNo));
    VisibleIsPlain(Print(e.payload));
    hide PrintNat, Print, WellFormed, Received, Plain;
    var m := MessageOf(e);
    ReceivedUnchangedIff(m);
  }

  lemma {:induction false} EventsAreUnchanged(es: seq<Numbered>)
    requires forall i :: 0 <= i < |es| ==> Sendable(es[i])
    ensures var ms, got := MessagesOf(es), ReceivedAll(MessagesOf(es));
            && |ms| == |got| == |es| && (forall i :: 0 <= i < |ms| ==> Writable(ms[i]))
            && forall i :: 0 <= i < |es| ==>
                 got[i] == SseEvent(Some(PrintNat(es[i].seqNo)), Some(Print(es[i].payload)))
  {
    hide Sendable, MessageOf, Received, Writable, PrintNat, Print;
    if es != [] {
      EventIsUnchanged(es[0]);
      EventsAreUnchanged(es[1..]);
      assert MessagesOf(es)[1..] == MessagesOf(es[1..]);
    }
  }

  /**
   Every event the server writes, JSON under a number, is received once and in order with exactly that number and text,
   whatever the strings in the JSON contain; and the text is read as the value that was sent.
   */
  lemma EventsArriveIntact(es: seq<Numbered>, failed: bool)
    requires forall i :: 0 <= i < |es| ==> Sendable(es[i])
    ensures var got := Delivered(Encode(WriteAll(MessagesOf(es))), failed);
            && |got| == |es|
            && (forall i :: 0 <= i < |es| ==>
                  got[i] == SseEvent(Some(PrintNat(es[i].seqNo)), Some(Print(es[i].payload))))
            && (forall i :: 0 <= i < |es| ==> Parse(got[i].data.value) == Some(es[i].payload))
  {
    EventsAreUnchanged(es);
    hide Sendable, MessagesOf, ReceivedAll, PrintNat, Print, Parse, Encode, WriteAll, Delivered, Writable;
    MessagesAreReceived(MessagesOf(es), failed);
    forall i | 0 <= i < |es| ensures Parse(Print(es[i].payload)) == Some(es[i].payload) {
      PayloadIsReadBack(es[i]);
    }
  }

  lemma PayloadIsReadBack(e: Numbered)
    requires Sendable(e)
    ensures Parse(Print(e.payload)) == Some(e.payload)
  {
    ValueInverts(e.payload, "");
    assert Print(e.payload) + "" == Print(e.payload);
    hide ParseValue, Print;
  }

  /** A canonical text is the special case of a value whose names are in order. */
  lemma CanonicalArrivesIntact(n: nat, kind: string, v: Json, failed: bool)
    requires '\n' !in kind && WellFormed(v)
    ensures Delivered(Encode(Write(Message(PrintNat(n), kind, Canonical(v)))), failed) ==
            [SseEvent(Some(PrintNat(n)), Some(Canonical(v)))]
  {
    var e := Numbered(n, kind, Sorted(v));
    CanonicalIsPrintOfSorted(v);
    SortedIsWellFormed(v);
    assert Sendable(e) && MessagesOf([e]) == [MessageOf(e)];
    EventsArriveIntact([e], failed);
    hide Sendable, PrintNat, Canonical, Encode, Write, Delivered;
    assert WriteAll([MessageOf(e)]) == Write(MessageOf(e)) by {
      assert [MessageOf(e)][1..] == [] && Write(MessageOf(e)) + "" == Write(MessageOf(e));
    }
  }
}
