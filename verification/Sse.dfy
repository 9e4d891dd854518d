/**
 The incremental decoder of server-sent events (crates/runs/src/network/sse.rs:29-75) and the loop that reads it
 (crates/runs/src/network.rs:117-137). The body is the frames still to come; the network decides how the bytes are cut.
 */
module Sse {
  import opened Base
  import opened Utf8

  datatype Frame = Data(bytes: Bytes) | Trailers | Failed(error: string)

  datatype SseEvent = SseEvent(id: Option<string>, data: Option<string>)

  datatype Item = Event(event: SseEvent) | Error(error: string)

  // ── Text of one block ──────────────────────────────────────────────────────

  function LineEnd(s: string): (n: nat)
    ensures n <= |s| && '\n' !in s[..n] && (n < |s| ==> s[n] == '\n')
  {
    if s == "" || s[0] == '\n' then 0 else 1 + LineEnd(s[1..])
  }

  function StripCr(s: string): string { if s != "" && s[|s| - 1] == '\r' then s[..|s| - 1] else s }

  /** `str::lines`: a carriage return goes only together with the line feed after it. */
  function Lines(s: string): seq<string>
    decreases |s|
  {
    if s == "" then []
    else
      var n := LineEnd(s);
      if n == |s| then [s] else [StripCr(s[..n])] + Lines(s[n + 1..])
  }

  /** The Unicode property White_Space. */
  predicate IsWhite(c: char) {
    var n := c as int;
    0x09 <= n <= 0x0D || n == 0x20 || n == 0x85 || n == 0xA0 || n == 0x1680 || 0x2000 <= n <= 0x200A ||
    n == 0x2028 || n == 0x2029 || n == 0x202F || n == 0x205F || n == 0x3000
  }

  function TrimStart(s: string): (r: string)
    ensures |r| <= |s| && (|r| == |s| <==> r == s) && (r != "" ==> !IsWhite(r[0]))
  {
    if s != "" && IsWhite(s[0]) then TrimStart(s[1..]) else s
  }

  function Text(block: Bytes): string { if Decode(block).Some? then Decode(block).value else "" }

  /** The value of the last line with the given field name. */
  function LastField(lines: seq<string>, field: string): Option<string> {
    if lines == [] then None
    else
      var line := lines[|lines| - 1];
      if field <= line then Some(TrimStart(line[|field|..])) else LastField(lines[..|lines| - 1], field)
  }

  function EventOf(block: Bytes): SseEvent {
    var lines := Lines(Text(block));
    SseEvent(LastField(lines, "id:"), LastField(lines, "data:"))
  }

  /** One pass over the lines of a block; later lines overwrite earlier ones. */
  method ParseEvent(block: Bytes) returns (event: SseEvent)
    ensures event == EventOf(block)
  {
    var lines := Lines(Text(block));
    event := SseEvent(None, None);
    for i := 0 to |lines|
      invariant event == SseEvent(LastField(lines[..i], "id:"), LastField(lines[..i], "data:"))
    {
      var line := lines[i];
      assert lines[..i + 1][..i] == lines[..i];
      if "id:" <= line {
        assert !("data:" <= line) by { assert line[0] == 'i'; }
        event := event.(id := Some(TrimStart(line[3..])));
      } else if "data:" <= line {
        event := event.(data := Some(TrimStart(line[5..])));
      }
    }
    assert lines[..|lines|] == lines;
  }

  // ── Cutting bytes at blank lines ───────────────────────────────────────────

  const LF: Byte := 10

  predicate BlankAt(bs: Bytes, i: int) { 0 <= i < |bs| - 1 && bs[i] == LF && bs[i + 1] == LF }

  /** `find_double_newline`, with the length for none. */
  function FirstBlank(bs: Bytes): (n: nat)
    ensures n <= |bs| && (n < |bs| ==> n + 2 <= |bs| && BlankAt(bs, n)) && forall i :: 0 <= i < n ==> !BlankAt(bs, i)
  {
    if |bs| < 2 then |bs|
    else if bs[0] == LF && bs[1] == LF then 0
    else
      var n := FirstBlank(bs[1..]);
      assert forall i :: 0 < i <= n ==> (BlankAt(bs, i) <==> BlankAt(bs[1..], i - 1));
      1 + n
  }

  /** The stream cut after each first blank line. What is left at the end is a block too, unless reading `failed`. */
  function Blocks(bs: Bytes, failed: bool): seq<Bytes>
    decreases |bs|
  {
    var n := FirstBlank(bs);
    if n < |bs| then [bs[..n + 2]] + Blocks(bs[n + 2..], failed) else if failed || bs == [] then [] else [bs]
  }

  function Concat(blocks: seq<Bytes>): Bytes { if blocks == [] then [] else blocks[0] + Concat(blocks[1..]) }

  /** No byte is lost, moved or repeated, and the blocks of a failed stream are its first blocks. */
  lemma {:induction false} CuttingKeepsBytes(bs: Bytes)
    ensures Concat(Blocks(bs, false)) == bs && Blocks(bs, true) <= Blocks(bs, false)
    decreases |bs|
  {
    hide FirstBlank, BlankAt;
    var n := FirstBlank(bs);
    if n < |bs| {
      CuttingKeepsBytes(bs[n + 2..]);
      assert Blocks(bs, false)[1..] == Blocks(bs[n + 2..], false);
      assert bs == bs[..n + 2] + bs[n + 2..];
    }
  }

  /** A blank line found early is the first one, whatever arrives later. */
  lemma BlankStays(bs: Bytes, more: Bytes)
    requires FirstBlank(bs) < |bs|
    ensures var n := FirstBlank(bs);
            n + 2 <= |bs| && FirstBlank(bs + more) == n &&
            (bs + more)[..n + 2] == bs[..n + 2] && (bs + more)[n + 2..] == bs[n + 2..] + more
  {
    var n := FirstBlank(bs);
    assert BlankAt(bs + more, n);
    forall i | 0 <= i < n ensures !BlankAt(bs + more, i) { assert !BlankAt(bs, i); }
  }

  // ── Frames ─────────────────────────────────────────────────────────────────

  /** The bytes that arrive before the first failure. */
  function Payload(frames: seq<Frame>): Bytes {
    if frames == [] || frames[0].Failed? then []
    else (if frames[0].Data? then frames[0].bytes else []) + Payload(frames[1..])
  }

  /** The first failure and the frames after it. */
  function Failure(frames: seq<Frame>): Option<(string, seq<Frame>)> {
    if frames == [] then None
    else if frames[0].Failed? then Some((frames[0].error, frames[1..]))
    else Failure(frames[1..])
  }

  // ── The stream ─────────────────────────────────────────────────────────────

  class SseStream {
    var buf: Bytes
    var body: seq<Frame>

    constructor (frames: seq<Frame>)
      ensures buf == [] && body == frames
    {
      buf := [];
      body := frames;
    }

    /** The bytes still to be cut, wherever the network cuts them. */
    ghost function Pending(): Bytes
      reads this
    {
      buf + Payload(body)
    }

    /**
     The next event, failure or end. What it gives depends on the pending bytes and the first failure only, not on how
     the bytes are split into frames.
     */
    method Next() returns (r: Option<Item>)
      modifies this
      ensures var all := old(Pending());
              var n := FirstBlank(all);
              if n < |all| then
                r == Some(Event(EventOf(all[..n + 2]))) && Pending() == all[n + 2..] && Failure(body) == old(Failure(body))
              else
                match old(Failure(body))
                case Some((e, rest)) => r == Some(Error(e)) && buf == all && body == rest
                case None =>
                  Pending() == [] && Failure(body) == None &&
                  r == if all == [] then None else Some(Event(EventOf(all)))
    {
      hide EventOf, FirstBlank;
      ghost var all := Pending();
      ghost var failure := Failure(body);
      while true
        invariant Pending() == all && Failure(body) == failure
        decreases |body|
      {
        var n := FirstBlank(buf);
        if n < |buf| {
          BlankStays(buf, Payload(body));
          var block := buf[..n + 2];
          buf := buf[n + 2..];
          var event := ParseEvent(block);
          return Some(Event(event));
        }
        if body == [] {
          assert all == buf;
          if buf != [] {
            var block := buf;
            buf := [];
            var event := ParseEvent(block);
            return Some(Event(event));
          }
          return None;
        }
        var frame := body[0];
        assert frame.Failed? ==> all == buf;
        body := body[1..];
        match frame {
          case Data(bytes) => buf := buf + bytes;
          case Trailers =>
          case Failed(e) => return Some(Error(e));
        }
      }
    }

    /**
     The reading loop: every event up to the end or the first failure. At the end what is left after the last blank
     line is one more event; at a failure it is dropped.
     */
    method Consume() returns (events: seq<SseEvent>)
      modifies this
      ensures events == Delivered(old(Pending()), old(Failure(body)).Some?)
    {
      hide EventOf, FirstBlank, BlankAt, Delivered, Failure, Payload;
      ghost var all, failed := Pending(), Failure(body).Some?;
      events := [];
      while true
        invariant Delivered(all, failed) == events + Delivered(Pending(), failed)
        invariant Failure(body).Some? == failed
        decreases |Pending()|
      {
        ghost var before := Pending();
        if FirstBlank(before) < |before| {
          DeliveredCuts(before, FirstBlank(before), failed);
        } else {
          DeliveredEnds(before, failed);
        }
        DeliveredEnds([], failed);
        var r := Next();
        match r {
          case None => return;
          case Some(Error(_)) => return;
          case Some(Event(e)) =>
            assert events + ([e] + Delivered(Pending(), failed)) == (events + [e]) + Delivered(Pending(), failed);
            events := events + [e];
        }
      }
    }
  }

  /** The events of a byte stream: one for each of its blocks. */
  function Delivered(bs: Bytes, failed: bool): seq<SseEvent>
    decreases |bs|
  {
    var n := FirstBlank(bs);
    if n < |bs| then [EventOf(bs[..n + 2])] + Delivered(bs[n + 2..], failed)
    else if failed || bs == [] then [] else [EventOf(bs)]
  }

  lemma DeliveredCuts(bs: Bytes, n: nat, failed: bool)
    requires n == FirstBlank(bs) < |bs|
    ensures Delivered(bs, failed) == [EventOf(bs[..n + 2])] + Delivered(bs[n + 2..], failed)
  {
    hide EventOf, FirstBlank, BlankAt;
  }

  lemma DeliveredEnds(bs: Bytes, failed: bool)
    requires FirstBlank(bs) == |bs|
    ensures Delivered(bs, failed) == if failed || bs == [] then [] else [EventOf(bs)]
  {
    hide EventOf, FirstBlank, BlankAt;
  }

  lemma {:induction false} OneEventPerBlock(bs: Bytes, failed: bool)
    ensures var blocks := Blocks(bs, failed);
            |Delivered(bs, failed)| == |blocks| &&
            forall i :: 0 <= i < |blocks| ==> Delivered(bs, failed)[i] == EventOf(blocks[i])
    decreases |bs|
  {
    hide EventOf, FirstBlank, BlankAt;
    if FirstBlank(bs) < |bs| { OneEventPerBlock(bs[FirstBlank(bs) + 2..], failed); }
  }
}
