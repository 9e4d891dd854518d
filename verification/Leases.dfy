/**
 When a live actor's lease can be seen as expired (crates/runsd/src/actor/calc.rs:261-288,
 crates/runsd/src/db/queries.rs:327-343). Times are in milliseconds.
 */
module Leases {
  import opened Base
  import opened Model
  import opened Rows

  /** One write of the lease by the actor of a row: the lease itself or a heartbeat. */
  datatype LeaseWrite = LeaseWrite(computed: int, landed: int, starts: bool)

  function AsWrite(b: LeaseWrite, owner: string, expiry: int): Write {
    if b.starts then Started(owner, b.computed + expiry) else Beat(b.computed + expiry)
  }

  /**
   The writes of one actor in the order they land, while it is inside `submit`, up to `until`: each lands at most
   `delay` after its expiry was computed, and they are computed at most `gap` apart.
   */
  predicate Timely(beats: seq<LeaseWrite>, until: int, gap: int, delay: int) {
    && beats != [] && beats[0].starts
    && (forall i :: 0 <= i < |beats| ==> beats[i].computed <= beats[i].landed <= beats[i].computed + delay)
    && (forall i, j :: 0 <= i < j < |beats| ==> beats[i].landed <= beats[j].landed)
    && (forall i :: 0 < i < |beats| ==> beats[i].computed <= beats[i - 1].computed + gap)
    && until <= beats[|beats| - 1].computed + gap
  }

  /** How many of the writes have landed by `now`. */
  function LandedBy(beats: seq<LeaseWrite>, now: int): (n: nat)
    ensures n <= |beats| && (n < |beats| ==> now < beats[n].landed)
    ensures forall i :: 0 <= i < n ==> beats[i].landed <= now
  {
    if beats == [] || now < beats[0].landed then 0 else 1 + LandedBy(beats[1..], now)
  }

  /** The row after these writes. */
  function RowAfter(r: Row, owner: string, expiry: int, beats: seq<LeaseWrite>): Row {
    if beats == [] then r
    else
      var last := beats[|beats| - 1];
      Apply(RowAfter(r, owner, expiry, beats[..|beats| - 1]), AsWrite(last, owner, expiry), last.landed)
  }

  function RowAt(r: Row, owner: string, expiry: int, beats: seq<LeaseWrite>, now: int): Row {
    RowAfter(r, owner, expiry, beats[..LandedBy(beats, now)])
  }

  /** The watchdog's query, with the time it took before the query, never returns the row at `now`. */
  predicate Unseen(r: Row, owner: string, expiry: int, beats: seq<LeaseWrite>, asked: int, now: int) {
    !LeaseExpired(RowAt(r, owner, expiry, beats, now), asked)
  }

  ghost predicate AlwaysUnseen(expiry: int, gap: int, delay: int) {
    forall r: Row, owner: string, beats: seq<LeaseWrite>, until: int, asked: int, now: int ::
      Timely(beats, until, gap, delay) && beats[0].landed <= now <= until && asked <= now ==>
        Unseen(r, owner, expiry, beats, asked, now)
  }

  lemma LastWriteSetsLease(r: Row, owner: string, expiry: int, beats: seq<LeaseWrite>)
    requires beats != []
    ensures RowAfter(r, owner, expiry, beats).leaseExpiresAt == Some(beats[|beats| - 1].computed + expiry)
  {
  }

  lemma LiveRowIsUnseen(r: Row, owner: string, expiry: int, beats: seq<LeaseWrite>, until: int, gap: int, delay: int,
                        asked: int, now: int)
    requires gap <= expiry && gap + delay <= expiry + 1
    requires Timely(beats, until, gap, delay) && beats[0].landed <= now <= until && asked <= now
    ensures Unseen(r, owner, expiry, beats, asked, now)
  {
    var n := LandedBy(beats, now);
    assert n >= 1;
    LastWriteSetsLease(r, owner, expiry, beats[..n]);
    assert beats[..n][n - 1] == beats[n - 1];
    if n < |beats| { assert beats[n].computed <= beats[n - 1].computed + gap; }
  }

  lemma StartedIsRunning(r: Row, owner: string, expiry: int, b: LeaseWrite)
    requires b.starts
    ensures var r' := RowAfter(r, owner, expiry, [b]);
            r'.status.StatusRunning? && r'.leaseExpiresAt == Some(b.computed + expiry)
  {
    assert [b][..0] == [];
  }

  lemma OnlyFirstLanded(r: Row, owner: string, expiry: int, beats: seq<LeaseWrite>, now: int)
    requires beats != [] && beats[0].landed <= now && (|beats| > 1 ==> now < beats[1].landed)
    ensures RowAt(r, owner, expiry, beats, now) == RowAfter(r, owner, expiry, [beats[0]])
  {
    assert LandedBy(beats, now) == 1;
    assert beats[..1] == [beats[0]];
  }

  /** A timely actor that is seen as expired when the expiry is too short. */
  lemma TooShortIsSeen(r: Row, expiry: int, gap: int, delay: int)
    requires 0 <= delay <= gap && 0 <= expiry && !(gap <= expiry && gap + delay <= expiry + 1)
    ensures !AlwaysUnseen(expiry, gap, delay)
  {
    var first := LeaseWrite(0, 0, true);
    StartedIsRunning(r, "", expiry, first);
    if gap > expiry {
      OnlyFirstLanded(r, "", expiry, [first], gap);
      assert Timely([first], gap, gap, delay);
      assert !Unseen(r, "", expiry, [first], gap, gap);
    } else {
      var beats := [first, LeaseWrite(gap, gap + delay, false)];
      var now := gap + delay - 1;
      OnlyFirstLanded(r, "", expiry, beats, now);
      assert Timely(beats, now, gap, delay);
      assert !Unseen(r, "", expiry, beats, now, now);
    }
  }

  /**
   The watchdog never takes a calculation away from a live, timely actor if and only if the expiry covers the gap
   between two writes and the delay of the second.
   */
  lemma LeaseIsSafeIff(expiry: int, gap: int, delay: int)
    requires 0 <= delay <= gap && 0 <= expiry
    ensures AlwaysUnseen(expiry, gap, delay) <==> gap <= expiry && gap + delay <= expiry + 1
  {
    if gap <= expiry && gap + delay <= expiry + 1 {
      forall r: Row, owner: string, beats: seq<LeaseWrite>, until: int, asked: int, now: int
        | Timely(beats, until, gap, delay) && beats[0].landed <= now <= until && asked <= now
        ensures Unseen(r, owner, expiry, beats, asked, now)
      {
        LiveRowIsUnseen(r, owner, expiry, beats, until, gap, delay, asked, now);
      }
    } else {
      TooShortIsSeen(NewRow("", 0, 0), expiry, gap, delay);
    }
  }
}
