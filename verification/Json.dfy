/**
 JSON values and their canonical text (crates/common/src/idempotency.rs:13-35). An object is a list of members in
 any order with distinct names. A number is its token (section 6 of RFC 8259); how a float becomes a token is not
 modelled.
 */
module Json {
  import opened Base
  import opened Decimal
  import opened Utf8

  datatype Entry<+T> = Entry(name: string, value: T)

  datatype Json =
    | Null
    | Bool(b: bool)
    | Num(token: string)
    | Str(s: string)
    | Arr(items: seq<Json>)
    | Obj(members: seq<Entry<Json>>)

  // ── Sorting members by name ────────────────────────────────────────────────

  function InsertByName<T>(e: Entry<T>, es: seq<Entry<T>>): seq<Entry<T>> {
    if es == [] then [e]
    else if Less(es[0].name, e.name) then [es[0]] + InsertByName(e, es[1..])
    else [e] + es
  }

  function SortByName<T>(es: seq<Entry<T>>): seq<Entry<T>> {
    if es == [] then [] else InsertByName(es[0], SortByName(es[1..]))
  }

  predicate Distinct<T>(es: seq<Entry<T>>) { forall i, j :: 0 <= i < j < |es| ==> es[i].name != es[j].name }

  predicate Ascending<T>(es: seq<Entry<T>>) { forall i, j :: 0 <= i < j < |es| ==> Less(es[i].name, es[j].name) }

  lemma {:induction false} InsertKeeps<T>(e: Entry<T>, es: seq<Entry<T>>, x: Entry<T>)
    ensures x in InsertByName(e, es) <==> x == e || x in es
  {
    if es != [] && Less(es[0].name, e.name) {
      InsertKeeps(e, es[1..], x);
      InOfCons(es[0], InsertByName(e, es[1..]), x);
      assert es == [es[0]] + es[1..];
      InOfCons(es[0], es[1..], x);
    }
  }

  lemma {:induction false} SortKeeps<T>(es: seq<Entry<T>>, x: Entry<T>)
    ensures x in SortByName(es) <==> x in es
  {
    if es != [] {
      SortKeeps(es[1..], x);
      InsertKeeps(es[0], SortByName(es[1..]), x);
      assert es == [es[0]] + es[1..];
      InOfCons(es[0], es[1..], x);
    }
  }

  lemma PrependAscends<T>(e: Entry<T>, es: seq<Entry<T>>)
    requires Ascending(es) && forall x :: x in es ==> Less(e.name, x.name)
    ensures Ascending([e] + es)
  {
    var r := [e] + es;
    forall i, j | 0 <= i < j < |r| ensures Less(r[i].name, r[j].name) {
      assert r[j] == es[j - 1] && es[j - 1] in es;
      if i > 0 { assert r[i] == es[i - 1]; }
    }
  }

  lemma HeadIsLeast<T>(es: seq<Entry<T>>, x: Entry<T>)
    requires Ascending(es) && es != [] && x in es[1..]
    ensures Less(es[0].name, x.name)
  {
    var i :| 0 <= i < |es[1..]| && es[1..][i] == x;
    assert es[i + 1] == x;
  }

  lemma {:induction false} InsertSorts<T>(e: Entry<T>, es: seq<Entry<T>>)
    requires Ascending(es) && forall x :: x in es ==> x.name != e.name
    ensures Ascending(InsertByName(e, es))
  {
    if es == [] {
    } else {
      LessTotal(es[0].name, e.name);
      assert es[0] in es;
      if Less(es[0].name, e.name) {
        InsertSorts(e, es[1..]);
        var r := InsertByName(e, es[1..]);
        forall x | x in r ensures Less(es[0].name, x.name) {
          InsertKeeps(e, es[1..], x);
          if x != e { HeadIsLeast(es, x); }
        }
        PrependAscends(es[0], r);
      } else {
        forall x | x in es ensures Less(e.name, x.name) {
          if x != es[0] {
            HeadIsLeast(es, x);
            LessTransitive(e.name, es[0].name, x.name);
          }
        }
        PrependAscends(e, es);
      }
    }
  }

  /** Sorting gives the members in ascending order of name (and no others: `SortKeeps`). */
  lemma {:induction false} SortSorts<T>(es: seq<Entry<T>>)
    requires Distinct(es)
    ensures Ascending(SortByName(es))
  {
    if es != [] {
      var r := SortByName(es[1..]);
      SortSorts(es[1..]);
      forall x | x in r ensures x.name != es[0].name {
        SortKeeps(es[1..], x);
        var i :| 0 <= i < |es[1..]| && es[1..][i] == x;
        assert es[i + 1] == x;
      }
      InsertSorts(es[0], r);
    }
  }

  /** There is only one ascending list of the same members. */
  lemma {:induction false} AscendingIsUnique<T(!new)>(es: seq<Entry<T>>, fs: seq<Entry<T>>)
    requires Ascending(es) && Ascending(fs) && forall e :: e in es <==> e in fs
    ensures es == fs
  {
    if es != [] && fs != [] {
      HeadsAgree(es, fs);
      LessIrreflexive(es[0].name);
      assert es == [es[0]] + es[1..] && fs == [fs[0]] + fs[1..];
      forall e ensures e in es[1..] <==> e in fs[1..] {
        InOfCons(es[0], es[1..], e);
        InOfCons(fs[0], fs[1..], e);
        if e in es[1..] { HeadIsLeast(es, e); }
        if e in fs[1..] { HeadIsLeast(fs, e); }
      }
      AscendingIsUnique(es[1..], fs[1..]);
    } else {
      HasMember(es);
      HasMember(fs);
    }
  }

  lemma HeadsAgree<T(!new)>(es: seq<Entry<T>>, fs: seq<Entry<T>>)
    requires es != [] && fs != []
    requires Ascending(es) && Ascending(fs) && forall e :: e in es <==> e in fs
    ensures es[0] == fs[0]
  {
    assert es[0] in es && fs[0] in fs;
    if es[0] != fs[0] {
      HeadIsLeast(es, fs[0]);
      HeadIsLeast(fs, es[0]);
      LessTotal(es[0].name, fs[0].name);
      assert false;
    }
  }

  // ── Text ───────────────────────────────────────────────────────────────────

  const HEX := "0123456789abcdef"

  /** serde_json's escapes (section 7 of RFC 8259 allows more). */
  function EscapeChar(c: char): string {
    if c == '\"' then "\\\""
    else if c == '\\' then "\\\\"
    else if c as int == 0x08 then "\\b"
    else if c == '\t' then "\\t"
    else if c == '\n' then "\\n"
    else if c as int == 0x0C then "\\f"
    else if c == '\r' then "\\r"
    else if c as int < 0x20 then "\\u00" + [HEX[c as int / 16], HEX[c as int % 16]]
    else [c]
  }

  function Escape(s: string): string {
    if s == "" then "" else EscapeChar(s[0]) + Escape(s[1..])
  }

  function Quote(s: string): string { "\"" + Escape(s) + "\"" }

  function Join(parts: seq<string>): string {
    if parts == [] then "" else if |parts| == 1 then parts[0] else parts[0] + "," + Join(parts[1..])
  }

  function Member(e: Entry<string>): string { Quote(e.name) + ":" + e.value }

  function Members(es: seq<Entry<string>>): seq<string> {
    if es == [] then [] else [Member(es[0])] + Members(es[1..])
  }

  /** The canonical text: members in ascending order of name, at every depth, and no white space. */
  function Canonical(v: Json): string
    decreases v, 1
  {
    match v
    case Null => "null"
    case Bool(b) => if b then "true" else "false"
    case Num(token) => token
    case Str(s) => Quote(s)
    case Arr(items) => "[" + Join(CanonicalItems(items)) + "]"
    case Obj(members) => "{" + Join(Members(SortByName(CanonicalMembers(members)))) + "}"
  }

  function CanonicalItems(items: seq<Json>): seq<string>
    decreases items, 0
  {
    if items == [] then [] else [Canonical(items[0])] + CanonicalItems(items[1..])
  }

  function CanonicalMembers(members: seq<Entry<Json>>): seq<Entry<string>>
    decreases members, 0
  {
    if members == [] then []
    else [Entry(members[0].name, Canonical(members[0].value))] + CanonicalMembers(members[1..])
  }

  // ── Printing in the given order, and sorting first ─────────────────────────

  function Print(v: Json): string
    decreases v, 1
  {
    match v
    case Null => "null"
    case Bool(b) => if b then "true" else "false"
    case Num(token) => token
    case Str(s) => Quote(s)
    case Arr(items) => "[" + Join(PrintItems(items)) + "]"
    case Obj(members) => "{" + Join(Members(PrintMembers(members))) + "}"
  }

  function PrintItems(items: seq<Json>): seq<string>
    decreases items, 0
  {
    if items == [] then [] else [Print(items[0])] + PrintItems(items[1..])
  }

  function PrintMembers(members: seq<Entry<Json>>): seq<Entry<string>>
    decreases members, 0
  {
    if members == [] then [] else [Entry(members[0].name, Print(members[0].value))] + PrintMembers(members[1..])
  }

  /** The value with members in ascending order of name at every depth. */
  function Sorted(v: Json): Json
    decreases v, 1
  {
    match v
    case Arr(items) => Arr(SortedItems(items))
    case Obj(members) => Obj(SortByName(SortedMembers(members)))
    case _ => v
  }

  function SortedItems(items: seq<Json>): (r: seq<Json>)
    ensures |r| == |items|
    decreases items, 0
  {
    if items == [] then [] else [Sorted(items[0])] + SortedItems(items[1..])
  }

  function SortedMembers(members: seq<Entry<Json>>): (r: seq<Entry<Json>>)
    ensures |r| == |members| && forall i :: 0 <= i < |r| ==> r[i].name == members[i].name
    decreases members, 0
  {
    if members == [] then [] else [Entry(members[0].name, Sorted(members[0].value))] + SortedMembers(members[1..])
  }

  lemma {:induction false} InsertPrints(e: Entry<Json>, es: seq<Entry<Json>>)
    ensures PrintMembers(InsertByName(e, es)) == InsertByName(Entry(e.name, Print(e.value)), PrintMembers(es))
  {
    if es != [] && Less(es[0].name, e.name) {
      InsertPrints(e, es[1..]);
      var r := InsertByName(e, es);
      assert r[0] == es[0] && r[1..] == InsertByName(e, es[1..]);
    } else {
      assert InsertByName(e, es)[1..] == es;
    }
  }

  lemma {:induction false} SortPrints(es: seq<Entry<Json>>)
    ensures PrintMembers(SortByName(es)) == SortByName(PrintMembers(es))
  {
    if es != [] {
      SortPrints(es[1..]);
      InsertPrints(es[0], SortByName(es[1..]));
      assert PrintMembers(es)[1..] == PrintMembers(es[1..]);
    }
  }

  /** Sorting the texts of the members is printing the sorted members. */
  lemma {:induction false} CanonicalIsPrintOfSorted(v: Json)
    ensures Canonical(v) == Print(Sorted(v))
    decreases v, 1
  {
    match v {
      case Arr(items) => CanonicalIsPrintOfItems(items);
      case Obj(members) =>
        CanonicalIsPrintOfMembers(members);
        SortPrints(SortedMembers(members));
      case _ =>
    }
  }

  lemma {:induction false} CanonicalIsPrintOfItems(items: seq<Json>)
    ensures CanonicalItems(items) == PrintItems(SortedItems(items))
    decreases items, 0
  {
    if items != [] {
      CanonicalIsPrintOfSorted(items[0]);
      CanonicalIsPrintOfItems(items[1..]);
      assert SortedItems(items)[1..] == SortedItems(items[1..]);
    }
  }

  lemma {:induction false} CanonicalIsPrintOfMembers(members: seq<Entry<Json>>)
    ensures CanonicalMembers(members) == PrintMembers(SortedMembers(members))
    decreases members, 0
  {
    if members != [] {
      CanonicalIsPrintOfSorted(members[0].value);
      CanonicalIsPrintOfMembers(members[1..]);
      assert SortedMembers(members)[1..] == SortedMembers(members[1..]);
    }
  }

  // ── Well-formed values ─────────────────────────────────────────────────────

  function DigitRun(s: string): (n: nat)
    ensures n <= |s| && (n < |s| ==> !IsDigit(s[n]))
    ensures forall i :: 0 <= i < n ==> IsDigit(s[i])
  {
    if s != "" && IsDigit(s[0]) then 1 + DigitRun(s[1..]) else 0
  }

  /** `number` of section 6 of RFC 8259. */
  predicate IsNumber(s: string) {
    var t := if s != "" && s[0] == '-' then s[1..] else s;
    var n := DigitRun(t);
    n >= 1 && (t[0] == '0' ==> n == 1) && IsFraction(t[n..])
  }

  predicate IsFraction(s: string) {
    if s != "" && s[0] == '.' then
      var n := DigitRun(s[1..]);
      n >= 1 && IsExponent(s[1 + n..])
    else IsExponent(s)
  }

  predicate IsExponent(s: string) {
    s == "" ||
    ((s[0] == 'e' || s[0] == 'E') &&
     var t := if |s| > 1 && (s[1] == '+' || s[1] == '-') then s[2..] else s[1..];
     t != "" && DigitRun(t) == |t|)
  }

  /** Numbers are tokens of the grammar and the names of an object are distinct, at every depth. */
  predicate WellFormed(v: Json)
    decreases v
  {
    match v
    case Num(token) => IsNumber(token)
    case Arr(items) => forall i :: 0 <= i < |items| ==> WellFormed(items[i])
    case Obj(members) => Distinct(members) && forall i :: 0 <= i < |members| ==> WellFormed(members[i].value)
    case _ => true
  }
}
