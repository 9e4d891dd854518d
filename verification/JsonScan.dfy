/**
 A left-to-right scan of canonical text that follows strings and bracket depth, and what it shows: a whole value leaves
 the scan where it found it, so a value never ends with a colon followed by another whole value.
 */
module JsonScan {
  import opened Base
  import opened Json
  import opened JsonParse

  /**
   `bad` records a backslash outside strings, or a colon there at depth zero or less. A backslash escapes in both modes.
   */
  datatype St = St(inStr: bool, esc: bool, depth: int, bad: bool)

  function Outside(depth: int): St { St(false, false, depth, false) }

  function Step(st: St, c: char): St {
    if st.esc then st.(esc := false)
    else if c == '\\' then st.(esc := true, bad := st.bad || !st.inStr)
    else if c == '\"' then st.(inStr := !st.inStr)
    else if st.inStr then st
    else if c == '[' || c == '{' then st.(depth := st.depth + 1)
    else if c == ']' || c == '}' then st.(depth := st.depth - 1)
    else if c == ':' && st.depth < 1 then st.(bad := true)
    else st
  }

  function Scan(st: St, s: string): St
    decreases |s|
  {
    if s == "" then st else Scan(Step(st, s[0]), s[1..])
  }

  lemma {:induction false} ScanConcat(st: St, a: string, b: string)
    ensures Scan(st, a + b) == Scan(Scan(st, a), b)
    decreases |a|
  {
    if a == "" {
      assert a + b == b;
    } else {
      assert (a + b)[0] == a[0] && (a + b)[1..] == a[1..] + b;
      ScanConcat(Step(st, a[0]), a[1..], b);
    }
  }

  lemma ScanCons(st: St, c: char, s: string)
    ensures Scan(st, [c] + s) == Scan(Step(st, c), s)
  {
    assert ([c] + s)[1..] == s;
  }

  /** Text that moves the scan nowhere while it is outside strings at depth `d`. */
  predicate Neutral(s: string, d: nat) { Scan(Outside(d), s) == Outside(d) }

  lemma {:induction false} EscapeStaysInside(s: string, d: nat)
    ensures Scan(St(true, false, d, false), Escape(s)) == St(true, false, d, false)
  {
    if s != "" {
      ScanEscapeChar(s[0], d);
      ScanConcat(St(true, false, d, false), EscapeChar(s[0]), Escape(s[1..]));
      EscapeStaysInside(s[1..], d);
    }
  }

  lemma ScanEscapeChar(c: char, d: nat)
    ensures Scan(St(true, false, d, false), EscapeChar(c)) == St(true, false, d, false)
  {
    var st := St(true, false, d, false);
    var e := EscapeChar(c);
    if |e| == 1 {
      assert Scan(st, e) == Scan(Step(st, e[0]), e[1..]);
    } else if |e| == 2 {
      ScanTwo(st, e);
    } else {
      assert e == "\\u00" + e[4..] && |e| == 6;
      PlainStaysInside(e[2..], d);
      ScanTwo(st, e[..2]);
      ScanConcat(st, e[..2], e[2..]);
      assert e == e[..2] + e[2..];
    }
  }

  lemma ScanTwo(st: St, e: string)
    requires |e| == 2
    ensures Scan(st, e) == Step(Step(st, e[0]), e[1])
  {
    assert e == [e[0]] + [e[1]];
    ScanCons(st, e[0], [e[1]]);
    assert [e[1]] == [e[1]] + "";
    ScanCons(Step(st, e[0]), e[1], "");
  }

  lemma {:induction false} PlainStaysInside(s: string, d: nat)
    requires forall i :: 0 <= i < |s| ==> s[i] != '\\' && s[i] != '\"'
    ensures Scan(St(true, false, d, false), s) == St(true, false, d, false)
  {
    if s != "" { PlainStaysInside(s[1..], d); }
  }

  lemma QuoteIsNeutral(s: string, d: nat)
    ensures Neutral(Quote(s), d)
  {
    var body := Escape(s) + "\"";
    assert Quote(s) == "\"" + body;
    ScanCons(Outside(d), '\"', body);
    ScanConcat(St(true, false, d, false), Escape(s), "\"");
    EscapeStaysInside(s, d);
    hide Escape;
    assert "\"" == ['\"'] + "";
    ScanCons(St(true, false, d, false), '\"', "");
  }

  lemma {:induction false} PlainIsNeutral(s: string, d: nat)
    requires forall i :: 0 <= i < |s| ==> IsPlain(s[i])
    ensures Neutral(s, d)
  {
    if s != "" { PlainIsNeutral(s[1..], d); }
  }

  predicate IsPlain(c: char) {
    c != '\\' && c != '\"' && c != '[' && c != ']' && c != '{' && c != '}' && c != ':'
  }

  lemma TwoAreNeutral(a: string, b: string, d: nat)
    requires Neutral(a, d) && Neutral(b, d)
    ensures Neutral(a + b, d)
  {
    ScanConcat(Outside(d), a, b);
  }

  predicate AllNeutral(parts: seq<string>, d: nat) { forall i :: 0 <= i < |parts| ==> Neutral(parts[i], d) }

  lemma {:induction false} JoinIsNeutral(parts: seq<string>, d: nat)
    requires AllNeutral(parts, d)
    ensures Neutral(Join(parts), d)
  {
    if |parts| > 1 {
      hide Neutral;
      JoinIsNeutral(parts[1..], d);
      CommaIsNeutral(d);
      TwoAreNeutral(parts[0], ",", d);
      TwoAreNeutral(parts[0] + ",", Join(parts[1..]), d);
    }
  }

  lemma CommaIsNeutral(d: nat)
    ensures Neutral(",", d)
  {
    PlainIsNeutral(",", d);
  }

  /** Brackets around neutral text are neutral one level further out. */
  lemma BracketsAreNeutral(open: char, body: string, close: char, d: nat)
    requires (open == '[' && close == ']') || (open == '{' && close == '}')
    requires Neutral(body, d + 1)
    ensures Neutral([open] + body + [close], d)
  {
    assert [open] + body + [close] == [open] + (body + [close]);
    ScanCons(Outside(d), open, body + [close]);
    ScanConcat(Outside(d + 1), body, [close]);
    assert [close] == [close] + "";
    ScanCons(Outside(d + 1), close, "");
  }

  /** A member is neutral inside an object, where its colon is allowed. */
  lemma MemberIsNeutral(e: Entry<string>, d: nat)
    requires Neutral(e.value, d + 1)
    ensures Neutral(Member(e), d + 1)
  {
    QuoteIsNeutral(e.name, d + 1);
    ColonIsNeutral(d);
    hide Neutral, Quote;
    TwoAreNeutral(Quote(e.name), ":", d + 1);
    TwoAreNeutral(Quote(e.name) + ":", e.value, d + 1);
  }

  lemma ColonIsNeutral(d: nat)
    ensures Neutral(":", d + 1)
  {
    assert ":" == [':'] + "";
    ScanCons(Outside(d + 1), ':', "");
  }

  lemma PartsInBrackets(open: char, parts: seq<string>, close: char, d: nat)
    requires (open == '[' && close == ']') || (open == '{' && close == '}')
    requires AllNeutral(parts, d + 1)
    ensures Neutral([open] + Join(parts) + [close], d)
  {
    hide Neutral, Join, AllNeutral;
    JoinIsNeutral(parts, d + 1);
    BracketsAreNeutral(open, Join(parts), close, d);
  }

  lemma WordIsNeutral(v: Json, d: nat)
    requires v.Null? || v.Bool?
    ensures Neutral(Print(v), d)
  {
    hide Neutral;
    PlainIsNeutral(Print(v), d);
  }

  lemma NumberIsNeutral(token: string, d: nat)
    requires IsNumber(token)
    ensures Neutral(token, d)
  {
    NumberChars(token);
    hide Neutral, IsNumber;
    PlainIsNeutral(token, d);
  }

  /** A printed value leaves the scan as it found it. */
  lemma {:induction false} PrintIsNeutral(v: Json, d: nat)
    requires WellFormed(v)
    ensures Neutral(Print(v), d)
    decreases v, 1
  {
    hide Neutral, AllNeutral, Quote, Join, Members, PrintItems, PrintMembers, IsNumber;
    match v {
      case Num(token) => NumberIsNeutral(token, d);
      case Str(s) => QuoteIsNeutral(s, d);
      case Arr(items) =>
        ItemsAreNeutral(items, d + 1);
        PartsInBrackets('[', PrintItems(items), ']', d);
      case Obj(members) =>
        MembersAreNeutral(members, d);
        PartsInBrackets('{', Members(PrintMembers(members)), '}', d);
      case _ => WordIsNeutral(v, d);
    }
  }

  lemma {:induction false} ItemsAreNeutral(items: seq<Json>, d: nat)
    requires forall i :: 0 <= i < |items| ==> WellFormed(items[i])
    ensures AllNeutral(PrintItems(items), d)
    decreases items, 0
  {
    hide Neutral, WellFormed, Print;
    if items != [] {
      PrintIsNeutral(items[0], d);
      ItemsAreNeutral(items[1..], d);
    }
  }

  lemma {:induction false} MembersAreNeutral(members: seq<Entry<Json>>, d: nat)
    requires forall i :: 0 <= i < |members| ==> WellFormed(members[i].value)
    ensures AllNeutral(Members(PrintMembers(members)), d + 1)
    decreases members, 0
  {
    hide Neutral, WellFormed, Print, Member;
    if members != [] {
      PrintIsNeutral(members[0].value, d + 1);
      MemberIsNeutral(Entry(members[0].name, Print(members[0].value)), d);
      MembersAreNeutral(members[1..], d);
      assert PrintMembers(members)[1..] == PrintMembers(members[1..]);
    }
  }

  /** Started in the other mode, the scan ends in the other mode. */
  lemma {:induction false} ModesStayOpposite(st: St, st': St, s: string)
    requires st.inStr != st'.inStr && st.esc == st'.esc
    ensures Scan(st, s).inStr != Scan(st', s).inStr
    decreases |s|
  {
    if s != "" { ModesStayOpposite(Step(st, s[0]), Step(st', s[0]), s[1..]); }
  }

  lemma {:induction false} BadStays(st: St, s: string)
    requires st.bad
    ensures Scan(st, s).bad
    decreases |s|
  {
    if s != "" { BadStays(Step(st, s[0]), s[1..]); }
  }

  /** Started deeper, the scan ends deeper by as much (if the colons of `s` were allowed from the start). */
  lemma {:induction false} DepthShifts(st: St, more: nat, s: string)
    requires !Scan(st, s).bad
    ensures Scan(st.(depth := st.depth + more), s) == Scan(st, s).(depth := Scan(st, s).depth + more)
    decreases |s|
  {
    if st.bad { BadStays(st, s); }
    if s != "" {
      if Step(st, s[0]).bad { BadStays(Step(st, s[0]), s[1..]); }
      DepthShifts(Step(st, s[0]), more, s[1..]);
    }
  }

  /**
   A text that is neutral at depth zero is never some prefix, a colon and another such text: up to the colon the scan
   is either inside a string, and the rest has balanced quotes and so ends inside one, or at depth one or more, and the
   rest has balanced brackets and so ends there.
   */
  lemma NoValueAfterColon(whole: string, prefix: string, suffix: string)
    requires Neutral(whole, 0) && Neutral(suffix, 0)
    ensures whole != prefix + ":" + suffix
  {
    if whole == prefix + ":" + suffix {
      var st := Scan(Outside(0), prefix);
      var st' := Step(st, ':');
      ScanConcat(Outside(0), prefix, ":" + suffix);
      assert prefix + ":" + suffix == prefix + (":" + suffix);
      ScanCons(st, ':', suffix);
      assert Scan(st', suffix) == Outside(0);
      if st'.bad { BadStays(st', suffix); }
      EscapeOutsideIsBad(Outside(0), prefix);
      if st.inStr {
        ModesStayOpposite(st', Outside(0), suffix);
      } else {
        OutsideColonIsDeep(st);
        DepthShifts(Outside(0), st'.depth, suffix);
      }
      assert false;
    }
  }

  lemma OutsideColonIsDeep(st: St)
    requires !st.inStr && !st.esc && !Step(st, ':').bad
    ensures Step(st, ':') == Outside(st.depth) && st.depth >= 1
  {
  }

  lemma {:induction false} EscapeOutsideIsBad(st: St, s: string)
    requires st.esc && !st.inStr ==> st.bad
    ensures var r := Scan(st, s); r.esc && !r.inStr ==> r.bad
    decreases |s|
  {
    if s != "" { EscapeOutsideIsBad(Step(st, s[0]), s[1..]); }
  }
}
