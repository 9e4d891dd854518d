/** The idempotency key of a calculation (crates/common/src/idempotency.rs): when two keys are equal. */
module Idempotency {
  import opened Base
  import opened Utf8
  import opened Json
  import opened JsonParse
  import opened JsonScan

  // ── Equality up to the order of members ────────────────────────────────────

  /** The same value, if the order of the members of objects is ignored at every depth. */
  ghost predicate Equiv(v: Json, w: Json)
    decreases v
  {
    match (v, w)
    case (Arr(xs), Arr(ys)) => |xs| == |ys| && forall i :: 0 <= i < |xs| ==> Equiv(xs[i], ys[i])
    case (Obj(ms), Obj(ns)) =>
      && (forall i :: 0 <= i < |ms| ==> HasEquiv(ms[i], ns))
      && (forall j :: 0 <= j < |ns| ==> exists i :: 0 <= i < |ms| && SameMember(ms[i], ns[j]))
    case _ => v == w
  }

  ghost predicate SameMember(m: Entry<Json>, n: Entry<Json>)
    decreases m, 0
  {
    m.name == n.name && Equiv(m.value, n.value)
  }

  ghost predicate HasEquiv(m: Entry<Json>, ns: seq<Entry<Json>>)
    decreases m, 1
  {
    exists j :: 0 <= j < |ns| && SameMember(m, ns[j])
  }

  lemma {:induction false} SortedOfEquiv(v: Json, w: Json)
    requires WellFormed(v) && WellFormed(w) && Equiv(v, w)
    ensures Sorted(v) == Sorted(w)
    decreases v
  {
    match (v, w) {
      case (Arr(xs), Arr(ys)) =>
        forall i | 0 <= i < |xs| ensures SortedItems(xs)[i] == SortedItems(ys)[i] {
          SortedItemAt(xs, i);
          SortedItemAt(ys, i);
          SortedOfEquiv(xs[i], ys[i]);
        }
        assert SortedItems(xs) == SortedItems(ys);
      case (Obj(ms), Obj(ns)) =>
        var ps, qs := SortedMembers(ms), SortedMembers(ns);
        forall e ensures e in ps <==> e in qs {
          if e in ps { MemberCarries(ms, ns, e); }
          if e in qs { MemberCarriesBack(ms, ns, e); }
        }
        SameMembersSortAlike(ps, qs);
      case _ =>
    }
  }

  lemma {:induction false} MemberCarries(ms: seq<Entry<Json>>, ns: seq<Entry<Json>>, e: Entry<Json>)
    requires WellFormed(Obj(ms)) && WellFormed(Obj(ns)) && Equiv(Obj(ms), Obj(ns))
    requires e in SortedMembers(ms)
    ensures e in SortedMembers(ns)
    decreases ms, 0
  {
    var i :| 0 <= i < |ms| && SortedMembers(ms)[i] == e;
    assert HasEquiv(ms[i], ns);
    var j :| 0 <= j < |ns| && SameMember(ms[i], ns[j]);
    SortedMemberAt(ms, i);
    SortedMemberAt(ns, j);
    SortedOfEquiv(ms[i].value, ns[j].value);
    assert SortedMembers(ns)[j] == e;
  }

  lemma {:induction false} MemberCarriesBack(ms: seq<Entry<Json>>, ns: seq<Entry<Json>>, e: Entry<Json>)
    requires WellFormed(Obj(ms)) && WellFormed(Obj(ns)) && Equiv(Obj(ms), Obj(ns))
    requires e in SortedMembers(ns)
    ensures e in SortedMembers(ms)
    decreases ms, 0
  {
    var j :| 0 <= j < |ns| && SortedMembers(ns)[j] == e;
    var i :| 0 <= i < |ms| && SameMember(ms[i], ns[j]);
    SortedMemberAt(ms, i);
    SortedMemberAt(ns, j);
    SortedOfEquiv(ms[i].value, ns[j].value);
    assert SortedMembers(ms)[i] == e;
  }

  lemma SameMembersSortAlike(ps: seq<Entry<Json>>, qs: seq<Entry<Json>>)
    requires Distinct(ps) && Distinct(qs) && forall e :: e in ps <==> e in qs
    ensures SortByName(ps) == SortByName(qs)
  {
    SortSorts(ps);
    SortSorts(qs);
    var r, t := SortByName(ps), SortByName(qs);
    forall e ensures e in r <==> e in t {
      SortKeeps(ps, e);
      SortKeeps(qs, e);
    }
    AscendingIsUnique(r, t);
  }

  lemma {:induction false} EquivOfSorted(v: Json, w: Json)
    requires Sorted(v) == Sorted(w)
    ensures Equiv(v, w)
    decreases v
  {
    match (v, w) {
      case (Arr(xs), Arr(ys)) =>
        assert SortedItems(xs) == SortedItems(ys);
        forall i | 0 <= i < |xs| ensures Equiv(xs[i], ys[i]) {
          SortedItemAt(xs, i);
          SortedItemAt(ys, i);
          EquivOfSorted(xs[i], ys[i]);
        }
      case (Obj(ms), Obj(ns)) =>
        assert SortByName(SortedMembers(ms)) == SortByName(SortedMembers(ns));
        forall i | 0 <= i < |ms| ensures HasEquiv(ms[i], ns) {
          var j := FindSame(ms, ns, i);
          EquivOfSorted(ms[i].value, ns[j].value);
          assert SameMember(ms[i], ns[j]);
        }
        forall j | 0 <= j < |ns| ensures exists i :: 0 <= i < |ms| && SameMember(ms[i], ns[j]) {
          var i := FindSame(ns, ms, j);
          EquivOfSorted(ms[i].value, ns[j].value);
          assert SameMember(ms[i], ns[j]);
        }
      case _ =>
    }
  }

  lemma FindSame(ms: seq<Entry<Json>>, ns: seq<Entry<Json>>, i: nat) returns (j: nat)
    requires i < |ms| && SortByName(SortedMembers(ms)) == SortByName(SortedMembers(ns))
    ensures j < |ns| && ms[i].name == ns[j].name && Sorted(ms[i].value) == Sorted(ns[j].value)
  {
    var e := SortedMembers(ms)[i];
    SortedMemberAt(ms, i);
    SortKeeps(SortedMembers(ms), e);
    SortKeeps(SortedMembers(ns), e);
    j :| 0 <= j < |ns| && SortedMembers(ns)[j] == e;
    SortedMemberAt(ns, j);
  }

  /** Two values have the same canonical text exactly if they are equal up to the order of members. */
  lemma CanonicalDecidesEquiv(v: Json, w: Json)
    requires WellFormed(v) && WellFormed(w)
    ensures Canonical(v) == Canonical(w) <==> Equiv(v, w)
  {
    if Equiv(v, w) {
      SortedOfEquiv(v, w);
      CanonicalIsPrintOfSorted(v);
      CanonicalIsPrintOfSorted(w);
    }
    if Canonical(v) == Canonical(w) {
      ParseInvertsCanonical(v);
      ParseInvertsCanonical(w);
      EquivOfSorted(v, w);
    }
  }

  // ── The key ────────────────────────────────────────────────────────────────

  /** What is hashed: the kind, a colon and the canonical text, in UTF-8. */
  function Preimage(kind: string, v: Json): Bytes {
    Encode(kind) + Encode(":") + Encode(Canonical(v))
  }

  /** The key; `digest` stands for SHA-256 in hexadecimal. */
  function Key<D>(digest: Bytes -> D, kind: string, v: Json): D { digest(Preimage(kind, v)) }

  lemma PreimageIsText(kind: string, v: Json)
    ensures Preimage(kind, v) == Encode(kind + ":" + Canonical(v))
  {
    EncodeConcat(kind, ":");
    EncodeConcat(kind + ":", Canonical(v));
  }

  lemma CanonicalIsNeutral(v: Json)
    requires WellFormed(v)
    ensures Neutral(Canonical(v), 0)
  {
    CanonicalIsPrintOfSorted(v);
    SortedIsWellFormed(v);
    PrintIsNeutral(Sorted(v), 0);
  }

  /** If one kind is longer, the other's canonical text is a proper suffix of its own after a colon. */
  lemma KindsHaveEqualLength(kind: string, c: string, kind': string, c': string)
    requires Neutral(c, 0) && Neutral(c', 0) && kind + ":" + c == kind' + ":" + c'
    ensures |kind| >= |kind'|
  {
    if |kind| < |kind'| {
      var whole := kind + ":" + c;
      var prefix := kind'[|kind| + 1..];
      assert c == whole[|kind| + 1..];
      assert whole[|kind| + 1..] == prefix + ":" + c';
      NoValueAfterColon(c, prefix, c');
    }
  }

  /**
   Two preimages are equal exactly if the kinds are equal and the inputs are equal up to the order of members, whatever
   the kinds contain: colons, quotes or whole JSON texts.
   */
  lemma PreimageIsUniquelyDecodable(kind: string, v: Json, kind': string, v': Json)
    requires WellFormed(v) && WellFormed(v')
    ensures Preimage(kind, v) == Preimage(kind', v') <==> kind == kind' && Equiv(v, v')
  {
    CanonicalDecidesEquiv(v, v');
    if Preimage(kind, v) == Preimage(kind', v') {
      var c, c' := Canonical(v), Canonical(v');
      PreimageIsText(kind, v);
      PreimageIsText(kind', v');
      DecodeInvertsEncode(kind + ":" + c);
      DecodeInvertsEncode(kind' + ":" + c');
      CanonicalIsNeutral(v);
      CanonicalIsNeutral(v');
      KindsHaveEqualLength(kind, c, kind', c');
      KindsHaveEqualLength(kind', c', kind, c);
      PartsAgree(kind, c, kind', c');
    }
  }

  lemma PartsAgree(kind: string, c: string, kind': string, c': string)
    requires |kind| == |kind'| && kind + ":" + c == kind' + ":" + c'
    ensures kind == kind' && c == c'
  {
    var whole := kind + ":" + c;
    assert kind == whole[..|kind|] && c == whole[|kind| + 1..];
    assert kind' == whole[..|kind|] && c' == whole[|kind| + 1..];
  }

  /** The key ignores the order of members, and tells everything else apart as far as the digest does. */
  lemma KeyDecidesEquiv<D>(digest: Bytes -> D, kind: string, v: Json, kind': string, v': Json)
    requires WellFormed(v) && WellFormed(v')
    requires digest(Preimage(kind, v)) == digest(Preimage(kind', v')) ==> Preimage(kind, v) == Preimage(kind', v')
    ensures Key(digest, kind, v) == Key(digest, kind', v') <==> kind == kind' && Equiv(v, v')
  {
    PreimageIsUniquelyDecodable(kind, v, kind', v');
  }
}
