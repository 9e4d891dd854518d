/**
 Events written as blocks of `id:`, `event:` and `data:` lines, and what the decoder makes of them: the whole list is
 recovered up to the white space the decoder strips.
 */
module SseText {
  import opened Base
  import opened Utf8
  import opened Sse

  /** The server writes the number of the event, its kind and its JSON. */
  datatype Message = Message(id: string, kind: string, data: string)

  // ── Writing ────────────────────────────────────────────────────────────────

  /** A string split at its line feeds: one piece more than there are line feeds. */
  function Pieces(s: string): (r: seq<string>)
    ensures r != []
    decreases |s|
  {
    var n := LineEnd(s);
    if n == |s| then [s] else [s[..n]] + Pieces(s[n + 1..])
  }

  function LastPiece(s: string): string { Pieces(s)[|Pieces(s)| - 1] }

  function DataLines(pieces: seq<string>): seq<string> {
    if pieces == [] then [] else ["data: " + pieces[0]] + DataLines(pieces[1..])
  }

  function BlockLines(m: Message): (r: seq<string>)
    ensures |r| >= 3
  {
    ["id: " + m.id, "event: " + m.kind] + DataLines(Pieces(m.data))
  }

  function Unlines(ls: seq<string>): string { if ls == [] then "" else ls[0] + "\n" + Unlines(ls[1..]) }

  /** One block (section 9.2.6 of the WHATWG HTML standard): its lines and a blank line. */
  function Write(m: Message): string { Unlines(BlockLines(m)) + "\n" }

  function WriteAll(ms: seq<Message>): string { if ms == [] then "" else Write(ms[0]) + WriteAll(ms[1..]) }

  /** An id or a kind with a line feed cannot be written. */
  predicate Writable(m: Message) { '\n' !in m.id && '\n' !in m.kind }

  // ── Finding the end of a block ─────────────────────────────────────────────

  predicate IsLine(l: string) { l != "" && '\n' !in l }

  predicate AllLines(ls: seq<string>) { forall i :: 0 <= i < |ls| ==> IsLine(ls[i]) }

  lemma {:induction false} BlankAfterLine(line: Bytes, rest: Bytes)
    requires line != [] && LF !in line && rest != []
    ensures FirstBlank(line + [LF] + rest) == if rest[0] == LF then |line| else |line| + 1 + FirstBlank(rest)
  {
    var bs := line + [LF] + rest;
    assert bs[0] == line[0] && line[0] in line;
    assert bs[1..] == line[1..] + [LF] + rest;
    if |line| > 1 {
      assert forall b :: b in line[1..] ==> b in line;
      BlankAfterLine(line[1..], rest);
    } else {
      assert bs[1..] == [LF] + rest && bs[1..][1..] == rest;
    }
  }

  lemma EncodeLine(l: string, rest: string)
    ensures Encode(l + "\n" + rest) == Encode(l) + [LF] + Encode(rest)
  {
    EncodeConcat(l + "\n", rest);
    EncodeConcat(l, "\n");
    assert Encode("\n") == [LF];
  }

  lemma LineBytes(l: string)
    requires IsLine(l)
    ensures Encode(l) != [] && Encode(l)[0] != LF && LF !in Encode(l)
  {
    AsciiByteIsAsciiChar(l, '\n');
    assert Encode(l)[0] in Encode(l);
  }

  /** The first blank line after some lines is the one that ends their block. */
  lemma {:induction false} BlankOfLines(ls: seq<string>, k: Bytes)
    requires ls != [] && AllLines(ls)
    ensures var bs := Encode(Unlines(ls)); |bs| >= 1 && bs[0] != LF && FirstBlank(bs + ([LF] + k)) == |bs| - 1
  {
    hide FirstBlank, BlankAt, Encode;
    var l, rest := ls[0], Unlines(ls[1..]);
    LineBytes(l);
    EncodeLine(l, rest);
    var bs := Encode(l) + [LF] + Encode(rest);
    assert bs + ([LF] + k) == Encode(l) + [LF] + (Encode(rest) + ([LF] + k));
    BlankAfterLine(Encode(l), Encode(rest) + ([LF] + k));
    if |ls| > 1 {
      BlankOfLines(ls[1..], k);
    } else {
      EncodeNothing();
      assert bs == Encode(l) + [LF];
      assert (Encode(rest) + ([LF] + k))[0] == LF;
    }
  }

  // ── Reading the lines of a block ───────────────────────────────────────────

  function StripAll(ls: seq<string>): seq<string> {
    if ls == [] then [] else [StripCr(ls[0])] + StripAll(ls[1..])
  }

  lemma LinesCons(l: string, rest: string)
    requires '\n' !in l
    ensures Lines(l + "\n" + rest) == [StripCr(l)] + Lines(rest)
  {
    LineEndOf(l, rest);
    var s := l + "\n" + rest;
    assert s[..|l|] == l && s[|l| + 1..] == rest;
  }

  lemma {:induction false} LineEndOf(l: string, rest: string)
    requires '\n' !in l
    ensures LineEnd(l + "\n" + rest) == |l|
  {
    var s := l + "\n" + rest;
    if l != "" {
      assert s[0] == l[0] && l[0] in l;
      assert s[1..] == l[1..] + "\n" + rest;
      LineEndOf(l[1..], rest);
    }
  }

  lemma {:induction false} LinesOfBlock(ls: seq<string>)
    requires AllLines(ls)
    ensures Lines(Unlines(ls) + "\n") == StripAll(ls) + [""]
  {
    if ls == [] {
      LinesCons("", "");
      assert "" + "\n" + "" == "\n" && Unlines(ls) + "\n" == "\n";
      assert Lines("") == [];
    } else {
      LinesOfBlock(ls[1..]);
      LinesCons(ls[0], Unlines(ls[1..]) + "\n");
      assert Unlines(ls) + "\n" == ls[0] + "\n" + (Unlines(ls[1..]) + "\n");
    }
  }

  lemma LastFieldSnoc(lines: seq<string>, line: string, field: string)
    ensures LastField(lines + [line], field) ==
            if field <= line then Some(TrimStart(line[|field|..])) else LastField(lines, field)
  {
    assert (lines + [line])[..|lines|] == lines;
  }

  lemma {:induction false} LastFieldSkips(lines: seq<string>, more: seq<string>, field: string)
    requires forall i :: 0 <= i < |more| ==> !(field <= more[i])
    ensures LastField(lines + more, field) == LastField(lines, field)
  {
    if more == [] {
      assert lines + more == lines;
    } else {
      var n := |more| - 1;
      LastFieldSkips(lines, more[..n], field);
      LastFieldSnoc(lines + more[..n], more[n], field);
      assert lines + more == (lines + more[..n]) + [more[n]];
    }
  }

  lemma {:induction false} StripDataLines(pieces: seq<string>)
    ensures var r := StripAll(DataLines(pieces));
            |r| == |pieces| && forall i :: 0 <= i < |r| ==> r[i] == "data: " + StripCr(pieces[i])
  {
    if pieces != [] {
      StripAfter("data: ", pieces[0]);
      StripDataLines(pieces[1..]);
      assert DataLines(pieces)[1..] == DataLines(pieces[1..]);
    }
  }

  lemma StripAfter(p: string, s: string)
    requires p != "" && p[|p| - 1] != '\r'
    ensures StripCr(p + s) == p + StripCr(s)
  {
    assert s != "" ==> (p + s)[|p + s| - 1] == s[|s| - 1];
  }

  lemma StripBlock(m: Message)
    ensures StripAll(BlockLines(m)) ==
            ["id: " + StripCr(m.id), "event: " + StripCr(m.kind)] + StripAll(DataLines(Pieces(m.data)))
  {
    hide StripCr, Pieces;
    var ls, ds := BlockLines(m), DataLines(Pieces(m.data));
    StripFields(m);
    assert ls[1..] == ["event: " + m.kind] + ds && ls[1..][1..] == ds;
  }

  lemma StripFields(m: Message)
    ensures StripCr("id: " + m.id) == "id: " + StripCr(m.id)
    ensures StripCr("event: " + m.kind) == "event: " + StripCr(m.kind)
  {
    StripAfter("id: ", m.id);
    StripAfter("event: ", m.kind);
  }

  lemma FieldValue(field: string, s: string)
    ensures (field + " " + s)[|field|..] == " " + s && TrimStart(" " + s) == TrimStart(s)
    ensures field <= field + " " + s
  {
    assert (" " + s)[1..] == s;
  }

  /**
   What the decoder makes of a message: a trailing carriage return, leading white space and all but the last data line
   go.
   */
  function Received(m: Message): SseEvent {
    SseEvent(Some(TrimStart(StripCr(m.id))), Some(TrimStart(StripCr(LastPiece(m.data)))))
  }

  lemma DataOfBlock(m: Message)
    ensures LastField(StripAll(BlockLines(m)) + [""], "data:") == Received(m).data
  {
    hide LastField, TrimStart, StripCr, Pieces, DataLines, BlockLines;
    StripBlock(m);
    var pieces := Pieces(m.data);
    StripDataLines(pieces);
    var ls := StripAll(BlockLines(m));
    var n := |ls| - 1;
    LastFieldSnoc(ls, "", "data:");
    LastFieldSnoc(ls[..n], ls[n], "data:");
    assert ls[..n] + [ls[n]] == ls;
    assert ls[n] == "data:" + " " + StripCr(LastPiece(m.data));
    FieldValue("data:", StripCr(LastPiece(m.data)));
  }

  lemma IdOfBlock(m: Message)
    ensures LastField(StripAll(BlockLines(m)) + [""], "id:") == Received(m).id
  {
    hide LastField, TrimStart, StripCr, Pieces, DataLines, BlockLines;
    StripBlock(m);
    var ds := StripAll(DataLines(Pieces(m.data)));
    StripDataLines(Pieces(m.data));
    var first, event := "id: " + StripCr(m.id), "event: " + StripCr(m.kind);
    var more := [event] + ds + [""];
    forall i | 0 <= i < |more| ensures !("id:" <= more[i]) {
      assert more[i] == "" || more[i][0] == 'e' || more[i][0] == 'd';
    }
    LastFieldSkips([first], more, "id:");
    LastFieldSnoc([], first, "id:");
    assert StripAll(BlockLines(m)) + [""] == [first] + more && [first] == [] + [first];
    assert first == "id:" + " " + StripCr(m.id);
    FieldValue("id:", StripCr(m.id));
  }

  lemma {:induction false} PiecesAreLines(s: string)
    ensures forall i :: 0 <= i < |Pieces(s)| ==> '\n' !in Pieces(s)[i]
    decreases |s|
  {
    var n := LineEnd(s);
    if n < |s| { PiecesAreLines(s[n + 1..]); } else { assert s[..n] == s; }
  }

  lemma {:induction false} DataLinesAreLines(pieces: seq<string>)
    requires forall i :: 0 <= i < |pieces| ==> '\n' !in pieces[i]
    ensures AllLines(DataLines(pieces))
  {
    if pieces != [] { DataLinesAreLines(pieces[1..]); }
  }

  lemma BlockLinesAreLines(m: Message)
    requires Writable(m)
    ensures AllLines(BlockLines(m))
  {
    PiecesAreLines(m.data);
    DataLinesAreLines(Pieces(m.data));
    hide Pieces, DataLines;
    assert IsLine("id: " + m.id) && IsLine("event: " + m.kind);
  }

  /** Decoding the block of a message. */
  lemma BlockIsReceived(m: Message)
    requires Writable(m)
    ensures EventOf(Encode(Write(m))) == Received(m)
  {
    hide Encode, Decode, Lines, LastField, BlockLines, Unlines, Received;
    DecodeInvertsEncode(Write(m));
    BlockLinesAreLines(m);
    LinesOfBlock(BlockLines(m));
    IdOfBlock(m);
    DataOfBlock(m);
    assert Received(m) == SseEvent(Received(m).id, Received(m).data);
  }

  // ── A list of messages ─────────────────────────────────────────────────────

  function ReceivedAll(ms: seq<Message>): seq<SseEvent> {
    if ms == [] then [] else [Received(ms[0])] + ReceivedAll(ms[1..])
  }

  lemma FirstBlockOf(m: Message, k: Bytes)
    requires Writable(m)
    ensures var bs := Encode(Write(m)); |bs| >= 2 && FirstBlank(bs + k) == |bs| - 2
  {
    hide FirstBlank, Encode, BlockLines;
    BlockLinesAreLines(m);
    var ls := BlockLines(m);
    BlankOfLines(ls, k);
    hide Unlines;
    EncodeLine(Unlines(ls), "");
    assert Unlines(ls) + "\n" + "" == Write(m);
    EncodeNothing();
    assert Encode(Write(m)) == Encode(Unlines(ls)) + [LF];
    assert Encode(Write(m)) + k == Encode(Unlines(ls)) + ([LF] + k);
  }

  /**
   Every message written is received, once and in order, at the end of the stream or at a failure after the last block.
   By `SseStream.Consume` this holds however the bytes are split into frames.
   */
  lemma {:induction false} MessagesAreReceived(ms: seq<Message>, failed: bool)
    requires forall i :: 0 <= i < |ms| ==> Writable(ms[i])
    ensures Delivered(Encode(WriteAll(ms)), failed) == ReceivedAll(ms)
  {
    hide Encode, Write, EventOf, Received, FirstBlank, BlankAt, Delivered, Writable;
    if ms == [] {
      EncodeNothing();
      DeliveredEnds([], failed);
    } else {
      var first, rest := Encode(Write(ms[0])), Encode(WriteAll(ms[1..]));
      EncodeConcat(Write(ms[0]), WriteAll(ms[1..]));
      FirstBlockOf(ms[0], rest);
      DeliveredCuts(first + rest, |first| - 2, failed);
      assert (first + rest)[..|first|] == first && (first + rest)[|first|..] == rest;
      BlockIsReceived(ms[0]);
      MessagesAreReceived(ms[1..], failed);
    }
  }

  lemma EncodeNothing()
    ensures Encode("") == [] && FirstBlank([]) == 0
  {
  }

  // ── When a message comes back unchanged ────────────────────────────────────

  /** The code points of White_Space, one by one (PropList of the Unicode Character Database). */
  predicate IsWhiteSpace(n: int) {
    || n == 0x09 || n == 0x0A || n == 0x0B || n == 0x0C || n == 0x0D || n == 0x20 || n == 0x85 || n == 0xA0
    || n == 0x1680 || n == 0x2000 || n == 0x2001 || n == 0x2002 || n == 0x2003 || n == 0x2004 || n == 0x2005
    || n == 0x2006 || n == 0x2007 || n == 0x2008 || n == 0x2009 || n == 0x200A || n == 0x2028 || n == 0x2029
    || n == 0x202F || n == 0x205F || n == 0x3000
  }

  /** One line, no white space in front and no carriage return at the end. */
  predicate Plain(s: string) {
    '\n' !in s && (s != "" ==> !IsWhiteSpace(s[0] as int) && s[|s| - 1] != '\r')
  }

  lemma TrimmedIff(s: string)
    ensures TrimStart(StripCr(s)) == s <==> s == "" || (!IsWhiteSpace(s[0] as int) && s[|s| - 1] != '\r')
  {
  }

  lemma {:induction false} PiecesOfLine(s: string)
    ensures '\n' !in s ==> LastPiece(s) == s
    ensures '\n' in s ==> |LastPiece(s)| < |s|
    decreases |s|
  {
    var n := LineEnd(s);
    if n == |s| {
      assert s[..n] == s;
    } else {
      PiecesOfLine(s[n + 1..]);
      assert s[n] in s;
      assert LastPiece(s) == LastPiece(s[n + 1..]);
    }
  }

  /** A message is received exactly as it was sent if and only if its id and its data are plain. */
  lemma ReceivedUnchangedIff(m: Message)
    requires Writable(m)
    ensures Received(m) == SseEvent(Some(m.id), Some(m.data)) <==> Plain(m.id) && Plain(m.data)
  {
    hide TrimStart, Pieces, IsWhiteSpace;
    TrimmedIff(m.id);
    PiecesOfLine(m.data);
    if '\n' in m.data {
      assert |TrimStart(StripCr(LastPiece(m.data)))| < |m.data|;
    } else {
      TrimmedIff(m.data);
    }
  }

  /** One line of text that starts with a visible ASCII character and does not end in a carriage return. */
  predicate StartsVisibly(s: string) {
    '\n' !in s && (s != "" ==> 0x21 <= s[0] as int <= 0x7E && s[|s| - 1] != '\r')
  }

  lemma VisibleIsPlain(s: string)
    requires StartsVisibly(s)
    ensures Plain(s)
  {
  }

  /** Such an id and such data come back as they were sent. */
  lemma VisibleIsUnchanged(m: Message)
    requires StartsVisibly(m.id) && StartsVisibly(m.data) && '\n' !in m.kind
    ensures EventOf(Encode(Write(m))) == SseEvent(Some(m.id), Some(m.data))
  {
    BlockIsReceived(m);
    VisibleIsPlain(m.id);
    VisibleIsPlain(m.data);
    hide EventOf, Encode, Write, Received, Plain;
    ReceivedUnchangedIff(m);
  }

  // ── Carriage returns ───────────────────────────────────────────────────────

  /**
   The standard also ends lines with CR LF (section 9.2.5); of such a stream nothing is delivered until it ends, and then
   one event.
   */
  lemma CrLfIsNeverCut(bs: Bytes)
    requires forall i :: 0 <= i < |bs| && bs[i] == LF ==> i > 0 && bs[i - 1] == 13
    ensures Delivered(bs, true) == []
    ensures Delivered(bs, false) == if bs == [] then [] else [EventOf(bs)]
  {
    hide EventOf;
    assert FirstBlank(bs) == |bs|;
  }
}
