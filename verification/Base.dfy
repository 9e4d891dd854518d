/** Names shared by every component: options, identifiers and a few facts about collections. */
module Base {
  datatype Option<+T> = None | Some(value: T)

  /** Identifiers are UUIDs; only their text form matters here. */
  type RunId = string
  type CalcId = string

  function Min(a: int, b: int): int { if a <= b then a else b }

  function Max(a: int, b: int): int { if a <= b then b else a }

  function Pow2(n: nat): (p: nat)
    ensures p >= 1
  {
    if n == 0 then 1 else 2 * Pow2(n - 1)
  }

  /** If every `r` in `rs` is hit by `f` from some `h` in `hs`, there are at most as many `rs` as `hs`. */
  lemma {:induction false} CoveredIsNoLarger<H(!new), R(!new)>(rs: set<R>, hs: set<H>, f: H -> R)
    requires forall r :: r in rs ==> exists h :: h in hs && f(h) == r
    ensures |rs| <= |hs|
    decreases |rs|
  {
    if rs != {} {
      var r :| r in rs;
      var h :| h in hs && f(h) == r;
      forall q | q in rs - {r} ensures exists k :: k in hs - {h} && f(k) == q {
        var k :| k in hs && f(k) == q;
        assert k in hs - {h};
      }
      CoveredIsNoLarger(rs - {r}, hs - {h}, f);
    }
  }

  lemma InOfCons<T>(e: T, es: seq<T>, x: T)
    ensures x in [e] + es <==> x == e || x in es
  {
    if x == e { assert ([e] + es)[0] == x; }
    if x in es {
      var i :| 0 <= i < |es| && es[i] == x;
      assert ([e] + es)[i + 1] == x;
    }
  }

  lemma HasMember<T(!new)>(es: seq<T>)
    ensures es != [] ==> exists e :: e in es
  {
    if es != [] { assert es[0] in es; }
  }

  lemma SizeWithout<T>(a: set<T>, b: set<T>)
    ensures |a| <= |a - b| + |b|
  {
    assert a == (a - b) + a * b;
    assert b == (a * b) + (b - a);
  }
}
