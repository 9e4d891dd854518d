/** A parser for the grammar of RFC 8259 (sections 2 to 7), and the proof that it inverts printing. */
module JsonParse {
  import opened Base
  import opened Decimal
  import opened Utf8
  import opened Json

  // ── The parser ─────────────────────────────────────────────────────────────

  predicate IsSpace(c: char) { c == ' ' || c == '\t' || c == '\n' || c == '\r' }

  function SkipSpace(s: string): (r: string)
    ensures |r| <= |s| && (r != "" ==> !IsSpace(r[0]))
  {
    if s != "" && IsSpace(s[0]) then SkipSpace(s[1..]) else s
  }

  function HexValue(c: char): Option<nat> {
    if '0' <= c <= '9' then Some(c as int - '0' as int)
    else if 'a' <= c <= 'f' then Some(c as int - 'a' as int + 10)
    else if 'A' <= c <= 'F' then Some(c as int - 'A' as int + 10)
    else None
  }

  /** Four hexadecimal digits: one UTF-16 code unit. */
  function CodeUnit(s: string): (r: Option<nat>)
    ensures r.Some? ==> r.value < 0x10000
  {
    if |s| < 4 then None
    else
      match (HexValue(s[0]), HexValue(s[1]), HexValue(s[2]), HexValue(s[3]))
      case (Some(a), Some(b), Some(c), Some(d)) => Some(((a * 16 + b) * 16 + c) * 16 + d)
      case _ => None
  }

  /** What `\u` introduces: a character, or a surrogate pair written as two escapes. */
  function ParseUnicode(s: string): (r: Option<(char, string)>)
    ensures r.Some? ==> |r.value.1| < |s|
  {
    match CodeUnit(s)
    case None => None
    case Some(hi) =>
      if hi < 0xD800 || hi >= 0xE000 then Some((hi as char, s[4..]))
      else if hi >= 0xDC00 || |s| < 6 || s[4] != '\\' || s[5] != 'u' then None
      else
        match CodeUnit(s[6..])
        case None => None
        case Some(lo) =>
          if lo < 0xDC00 || lo >= 0xE000 then None
          else
            var code := 0x10000 + (hi - 0xD800) * 0x400 + (lo - 0xDC00);
            Some((code as char, s[10..]))
  }

  /** One character of a string, after a backslash. */
  function ParseEscape(s: string): (r: Option<(char, string)>)
    ensures r.Some? ==> |r.value.1| < |s|
  {
    if s == "" then None
    else
      match s[0]
      case '\"' => Some(('\"', s[1..]))
      case '\\' => Some(('\\', s[1..]))
      case '/' => Some(('/', s[1..]))
      case 'b' => Some((0x08 as char, s[1..]))
      case 'f' => Some((0x0C as char, s[1..]))
      case 'n' => Some(('\n', s[1..]))
      case 'r' => Some(('\r', s[1..]))
      case 't' => Some(('\t', s[1..]))
      case 'u' => ParseUnicode(s[1..])
      case _ => None
  }

  /** A string, from after its opening quote. */
  function ParseChars(s: string): (r: Option<(string, string)>)
    ensures r.Some? ==> |r.value.1| < |s|
    decreases |s|
  {
    if s == "" then None
    else if s[0] == '\"' then Some(("", s[1..]))
    else if s[0] == '\\' then
      match ParseEscape(s[1..])
      case None => None
      case Some((c, rest)) =>
        match ParseChars(rest)
        case None => None
        case Some((cs, rest')) => Some(([c] + cs, rest'))
    else if s[0] as int < 0x20 then None
    else
      match ParseChars(s[1..])
      case None => None
      case Some((cs, rest)) => Some(([s[0]] + cs, rest))
  }

  predicate InNumber(c: char) { IsDigit(c) || c == '-' || c == '+' || c == '.' || c == 'e' || c == 'E' }

  function NumberRun(s: string): (n: nat)
    ensures n <= |s|
  {
    if s != "" && InNumber(s[0]) then 1 + NumberRun(s[1..]) else 0
  }

  function ParseWord(s: string, word: string, v: Json): (r: Option<(Json, string)>)
    requires word != ""
    ensures r.Some? ==> |r.value.1| < |s|
  {
    if word <= s then Some((v, s[|word|..])) else None
  }

  function ParseNumber(s: string): (r: Option<(Json, string)>)
    ensures r.Some? ==> |r.value.1| < |s|
  {
    var n := NumberRun(s);
    if n > 0 && IsNumber(s[..n]) then Some((Num(s[..n]), s[n..])) else None
  }

  function ParseValue(text: string): (r: Option<(Json, string)>)
    ensures r.Some? ==> |r.value.1| < |text|
    decreases |text|, 2
  {
    var s := SkipSpace(text);
    if s == "" then None
    else
      match s[0]
      case 'n' => ParseWord(s, "null", Null)
      case 't' => ParseWord(s, "true", Bool(true))
      case 'f' => ParseWord(s, "false", Bool(false))
      case '\"' =>
        (match ParseChars(s[1..])
         case None => None
         case Some((cs, rest)) => Some((Str(cs), rest)))
      case '[' =>
        var t := SkipSpace(s[1..]);
        if t != "" && t[0] == ']' then Some((Arr([]), t[1..]))
        else
          (match ParseItems(t)
           case None => None
           case Some((items, rest)) => Some((Arr(items), rest)))
      case '{' =>
        var t := SkipSpace(s[1..]);
        if t != "" && t[0] == '}' then Some((Obj([]), t[1..]))
        else
          (match ParseMembers(t)
           case None => None
           case Some((members, rest)) => Some((Obj(members), rest)))
      case _ => ParseNumber(s)
  }

  /** One or more values separated by commas, and the closing bracket. */
  function ParseItems(s: string): (r: Option<(seq<Json>, string)>)
    ensures r.Some? ==> |r.value.1| < |s|
    decreases |s|, 3
  {
    match ParseValue(s)
    case None => None
    case Some((v, rest)) =>
      var t := SkipSpace(rest);
      if t == "" then None
      else if t[0] == ']' then Some(([v], t[1..]))
      else if t[0] != ',' then None
      else
        match ParseItems(t[1..])
        case None => None
        case Some((vs, rest')) => Some(([v] + vs, rest'))
  }

  /** A name, a colon and a value. */
  function ParseMember(text: string): (r: Option<(Entry<Json>, string)>)
    ensures r.Some? ==> |r.value.1| < |text|
    decreases |text|, 1
  {
    var s := SkipSpace(text);
    if s == "" || s[0] != '\"' then None
    else
      match ParseChars(s[1..])
      case None => None
      case Some((name, rest)) =>
        var t := SkipSpace(rest);
        if t == "" || t[0] != ':' then None
        else
          match ParseValue(t[1..])
          case None => None
          case Some((v, rest')) => Some((Entry(name, v), rest'))
  }

  function ParseMembers(s: string): (r: Option<(seq<Entry<Json>>, string)>)
    ensures r.Some? ==> |r.value.1| < |s|
    decreases |s|, 4
  {
    match ParseMember(s)
    case None => None
    case Some((e, rest)) =>
      var t := SkipSpace(rest);
      if t == "" then None
      else if t[0] == '}' then Some(([e], t[1..]))
      else if t[0] != ',' then None
      else
        match ParseMembers(t[1..])
        case None => None
        case Some((es, rest')) => Some(([e] + es, rest'))
  }

  /** A JSON text: one value, with white space around it and nothing else. */
  function Parse(s: string): Option<Json> {
    match ParseValue(s)
    case None => None
    case Some((v, rest)) => if SkipSpace(rest) == "" then Some(v) else None
  }

  // ── Strings ────────────────────────────────────────────────────────────────

  lemma HexOfEscape(n: nat)
    requires n < 16
    ensures HexValue(HEX[n]) == Some(n)
  {
  }

  lemma UnicodeInverts(c: char, k: string)
    requires c as int < 0x20
    ensures var hex := [HEX[c as int / 16], HEX[c as int % 16]]; ParseUnicode("00" + hex + k) == Some((c, k))
  {
    HexOfEscape(c as int / 16);
    HexOfEscape(c as int % 16);
    var s := "00" + [HEX[c as int / 16], HEX[c as int % 16]] + k;
    assert s[0] == '0' && s[1] == '0' && s[4..] == k;
    assert CodeUnit(s) == Some(c as int);
  }

  /** Reading one escaped character back. */
  lemma EscapeInverts(c: char, k: string)
    ensures var e := EscapeChar(c);
            if e[0] == '\\' then e != [] && ParseEscape(e[1..] + k) == Some((c, k))
            else e == [c] && c != '\"' && c as int >= 0x20
  {
    var e := EscapeChar(c);
    if e[0] == '\\' {
      var s := e[1..] + k;
      if s[0] == 'u' {
        UnicodeInverts(c, k);
        assert s[1..] == "00" + [HEX[c as int / 16], HEX[c as int % 16]] + k;
      } else {
        assert s[1..] == k;
      }
    }
  }

  lemma CharsStep(c: char, rest: string, cs: string, k: string)
    requires ParseChars(rest) == Some((cs, k))
    ensures ParseChars(EscapeChar(c) + rest) == Some(([c] + cs, k))
  {
    hide HexValue, CodeUnit, ParseUnicode;
    var e := EscapeChar(c);
    var t := e + rest;
    EscapeInverts(c, rest);
    assert t[0] == e[0] && t[1..] == e[1..] + rest;
    if e[0] == '\\' {
      hide ParseEscape, EscapeChar;
      assert ParseEscape(t[1..]) == Some((c, rest));
    } else {
      hide ParseEscape, EscapeChar;
      assert t[1..] == rest;
    }
  }

  lemma {:induction false} CharsInvert(s: string, k: string)
    ensures ParseChars(Escape(s) + ("\"" + k)) == Some((s, k))
  {
    hide EscapeChar, ParseEscape;
    if s == "" {
      assert Escape(s) + ("\"" + k) == "\"" + k;
      assert ("\"" + k)[1..] == k;
    } else {
      var rest := Escape(s[1..]) + ("\"" + k);
      CharsInvert(s[1..], k);
      CharsStep(s[0], rest, s[1..], k);
      assert Escape(s) + ("\"" + k) == EscapeChar(s[0]) + rest;
      assert [s[0]] + s[1..] == s;
    }
  }

  /** Of one character: no escape the parser accepts for it is shorter, and hexadecimal digits are in lower case. */
  lemma EscapeIsShort(s: string, c: char, k: string)
    requires ParseEscape(s) == Some((c, k))
    ensures |EscapeChar(c)| + |k| <= 1 + |s|
    ensures forall i :: 0 <= i < |EscapeChar(c)| && 'A' <= EscapeChar(c)[i] <= 'F' ==> EscapeChar(c) == [c]
  {
    hide HexValue;
    assert |EscapeChar(c)| <= 6;
  }

  /** No text that is read as `s` is shorter than its escaped form. */
  lemma {:induction false} EscapeIsShortest(text: string, s: string, k: string)
    requires ParseChars(text) == Some((s, k))
    ensures |Escape(s)| + 1 + |k| <= |text|
    decreases |text|
  {
    hide ParseEscape, EscapeChar;
    if text[0] == '\"' {
    } else if text[0] == '\\' {
      var (c, rest) := ParseEscape(text[1..]).value;
      EscapeIsShort(text[1..], c, rest);
      EscapeIsShortest(rest, s[1..], k);
    } else {
      RawIsShort(text[0]);
      EscapeIsShortest(text[1..], s[1..], k);
    }
  }

  lemma RawIsShort(c: char)
    requires c != '\"' && c != '\\' && c as int >= 0x20
    ensures EscapeChar(c) == [c]
  {
  }

  // ── Numbers ────────────────────────────────────────────────────────────────

  /** `k` cannot continue a number. */
  predicate Stops(k: string) { k == "" || !InNumber(k[0]) }

  lemma {:induction false} RunStops(s: string, k: string)
    requires Stops(k) && forall i :: 0 <= i < |s| ==> InNumber(s[i])
    ensures NumberRun(s + k) == |s|
  {
    if s == "" {
      assert s + k == k;
    } else {
      assert (s + k)[1..] == s[1..] + k;
      RunStops(s[1..], k);
    }
  }

  lemma NumberChars(s: string)
    requires IsNumber(s)
    ensures s != "" && (s[0] == '-' || IsDigit(s[0])) && forall i :: 0 <= i < |s| ==> InNumber(s[i])
  {
    var signed := s != "" && s[0] == '-';
    var t := if signed then s[1..] else s;
    UnsignedChars(t);
    if signed {
      hide DigitRun, IsFraction;
      forall i | 0 <= i < |s| ensures InNumber(s[i]) {
        if i > 0 { assert s[i] == t[i - 1]; }
      }
    }
  }

  lemma UnsignedChars(t: string)
    requires var n := DigitRun(t); n >= 1 && IsFraction(t[n..])
    ensures t != "" && IsDigit(t[0]) && forall i :: 0 <= i < |t| ==> InNumber(t[i])
  {
    var n := DigitRun(t);
    FractionChars(t[n..]);
    hide DigitRun, IsFraction;
    DigitsThenMore(t, n);
  }

  lemma DigitsThenMore(t: string, n: nat)
    requires n <= |t| && forall i :: 0 <= i < n ==> IsDigit(t[i])
    requires forall i :: 0 <= i < |t[n..]| ==> InNumber(t[n..][i])
    ensures forall i :: 0 <= i < |t| ==> InNumber(t[i])
  {
    forall i | 0 <= i < |t| ensures InNumber(t[i]) {
      if i >= n { assert t[i] == t[n..][i - n]; }
    }
  }

  lemma FractionChars(s: string)
    requires IsFraction(s)
    ensures forall i :: 0 <= i < |s| ==> InNumber(s[i])
  {
    if s != "" && s[0] == '.' {
      var n := DigitRun(s[1..]);
      ExponentChars(s[1 + n..]);
      forall i | 0 <= i < |s| ensures InNumber(s[i]) {
        if 0 < i <= n { assert s[i] == s[1..][i - 1]; }
        if i > n { assert s[i] == s[1 + n..][i - 1 - n]; }
      }
    } else {
      ExponentChars(s);
    }
  }

  lemma ExponentChars(s: string)
    requires IsExponent(s)
    ensures forall i :: 0 <= i < |s| ==> InNumber(s[i])
  {
    if s != "" {
      var signed := |s| > 1 && (s[1] == '+' || s[1] == '-');
      var t := if signed then s[2..] else s[1..];
      forall i | 0 <= i < |s| ensures InNumber(s[i]) {
        if signed && i >= 2 { assert s[i] == t[i - 2]; }
        if !signed && i >= 1 { assert s[i] == t[i - 1]; }
      }
    }
  }

  lemma NumberInverts(token: string, k: string)
    requires IsNumber(token) && Stops(k)
    ensures ParseNumber(token + k) == Some((Num(token), k))
    ensures var s := token + k; s != "" && (s[0] == '-' || IsDigit(s[0]))
  {
    NumberChars(token);
    RunStops(token, k);
    assert (token + k)[..|token|] == token && (token + k)[|token|..] == k;
  }

  // ── Values ─────────────────────────────────────────────────────────────────

  predicate Starts(s: string) { s != "" && !IsSpace(s[0]) }

  lemma JoinCons(part: string, parts: seq<string>)
    ensures Join([part] + parts) == if parts == [] then part else part + "," + Join(parts)
  {
    assert ([part] + parts)[1..] == parts;
  }

  /** A printed value starts with none of the characters the grammar treats specially before a value. */
  lemma PrintStarts(v: Json)
    requires WellFormed(v)
    ensures Starts(Print(v)) && Print(v)[0] != ']' && Print(v)[0] != '}'
  {
    if v.Num? { NumberChars(v.token); }
  }

  lemma Regroup(a: string, b: string, c: string, d: string)
    ensures ((a + b) + c) + d == a + (b + (c + d))
  {
  }

  lemma Punctuation(c: char, k: string)
    requires c == ']' || c == '}' || c == ','
    ensures var s := [c] + k; Starts(s) && Stops(s) && s[0] == c && s[1..] == k
  {
  }

  lemma ArrayText(body: string, items: seq<Json>, k: string)
    requires Starts(body)
    requires if items == [] then body == "]" + k else body[0] != ']' && ParseItems(body) == Some((items, k))
    ensures ParseValue("[" + body) == Some((Arr(items), k))
  {
    hide ParseItems, ParseMembers, ParseChars, ParseNumber, ParseWord;
    Punctuation(']', k);
    var s := "[" + body;
    assert s[0] == '[' && s[1..] == body;
    assert SkipSpace(s) == s && SkipSpace(body) == body;
  }

  lemma ObjectText(body: string, members: seq<Entry<Json>>, k: string)
    requires Starts(body)
    requires if members == [] then body == "}" + k else body[0] != '}' && ParseMembers(body) == Some((members, k))
    ensures ParseValue("{" + body) == Some((Obj(members), k))
  {
    hide ParseItems, ParseMembers, ParseChars, ParseNumber, ParseWord;
    Punctuation('}', k);
    var s := "{" + body;
    assert s[0] == '{' && s[1..] == body;
    assert SkipSpace(s) == s && SkipSpace(body) == body;
  }

  lemma ItemsText(s: string, v: Json, rest: string)
    requires ParseValue(s) == Some((v, rest)) && Starts(rest)
    ensures rest[0] == ']' ==> ParseItems(s) == Some(([v], rest[1..]))
    ensures rest[0] == ',' && ParseItems(rest[1..]).Some? ==>
              var (vs, rest') := ParseItems(rest[1..]).value; ParseItems(s) == Some(([v] + vs, rest'))
  {
    hide ParseValue;
    assert SkipSpace(rest) == rest;
  }

  lemma MembersText(s: string, e: Entry<Json>, rest: string)
    requires ParseMember(s) == Some((e, rest)) && Starts(rest)
    ensures rest[0] == '}' ==> ParseMembers(s) == Some(([e], rest[1..]))
    ensures rest[0] == ',' && ParseMembers(rest[1..]).Some? ==>
              var (es, rest') := ParseMembers(rest[1..]).value; ParseMembers(s) == Some(([e] + es, rest'))
  {
    hide ParseMember;
    assert SkipSpace(rest) == rest;
  }

  lemma MemberText(body: string, name: string, tail: string)
    requires ParseChars(body) == Some((name, ":" + tail))
    ensures ParseValue(tail).Some? ==>
              var (v, rest) := ParseValue(tail).value; ParseMember("\"" + body) == Some((Entry(name, v), rest))
  {
    hide ParseValue, ParseChars;
    assert ("\"" + body)[1..] == body && (":" + tail)[1..] == tail;
  }

  lemma WordInverts(v: Json, k: string)
    requires v.Null? || v.Bool?
    ensures ParseValue(Print(v) + k) == Some((v, k))
  {
    hide ParseItems, ParseMembers, ParseChars, ParseNumber;
    var word := Print(v);
    assert (word + k)[|word|..] == k;
  }

  lemma TokenInverts(token: string, k: string)
    requires IsNumber(token) && Stops(k)
    ensures ParseValue(token + k) == Some((Num(token), k))
  {
    NumberInverts(token, k);
    hide ParseItems, ParseMembers, ParseChars, ParseNumber, IsNumber, ParseWord;
  }

  lemma StringInverts(s: string, k: string)
    ensures ParseValue(Quote(s) + k) == Some((Str(s), k))
  {
    CharsInvert(s, k);
    hide ParseItems, ParseMembers, ParseChars, ParseNumber, ParseWord, Escape;
    var text := Quote(s) + k;
    assert text == "\"" + (Escape(s) + ("\"" + k));
    assert text[1..] == Escape(s) + ("\"" + k);
  }

  /** Parsing a printed value gives it back and leaves what follows it. */
  lemma {:induction false} ValueInverts(v: Json, k: string)
    requires WellFormed(v) && Stops(k)
    ensures ParseValue(Print(v) + k) == Some((v, k))
    decreases v, 2
  {
    hide ParseValue, ParseItems, ParseMembers, Join, Members, PrintItems, PrintMembers, Quote, IsNumber, Starts, Stops;
    match v {
      case Arr(items) =>
        var body := Join(PrintItems(items)) + ("]" + k);
        ItemsInvert(items, k);
        ArrayText(body, items, k);
        Regroup("[", Join(PrintItems(items)), "]", k);
      case Obj(members) =>
        var body := Join(Members(PrintMembers(members))) + ("}" + k);
        MembersInvert(members, k);
        ObjectText(body, members, k);
        Regroup("{", Join(Members(PrintMembers(members))), "}", k);
      case Num(token) => TokenInverts(token, k);
      case Str(s) => StringInverts(s, k);
      case _ => WordInverts(v, k);
    }
  }

  lemma ItemsPrint(items: seq<Json>, k: string, tail: string)
    requires items != []
    requires tail == if items[1..] == [] then "]" + k else "," + (Join(PrintItems(items[1..])) + ("]" + k))
    ensures Join(PrintItems(items)) + ("]" + k) == Print(items[0]) + tail
  {
    hide Print;
    var parts := PrintItems(items[1..]);
    JoinCons(Print(items[0]), parts);
    assert PrintItems(items) == [Print(items[0])] + parts;
    Regroup(Print(items[0]), ",", Join(parts), "]" + k);
    hide Join, PrintItems;
  }

  /** What follows the opening bracket of an array: its items, or the closing bracket if there are none. */
  lemma {:induction false} ItemsInvert(items: seq<Json>, k: string)
    requires forall i :: 0 <= i < |items| ==> WellFormed(items[i])
    ensures var s := Join(PrintItems(items)) + ("]" + k);
            Starts(s) &&
            if items == [] then s == "]" + k else s[0] != ']' && ParseItems(s) == Some((items, k))
    decreases items, 1
  {
    hide ParseValue, ParseItems, Print, WellFormed;
    if items == [] {
      assert Join(PrintItems(items)) + ("]" + k) == "]" + k;
    } else {
      var v, rest := items[0], items[1..];
      var next := Join(PrintItems(rest)) + ("]" + k);
      var tail := if rest == [] then "]" + k else "," + next;
      hide Join, PrintItems;
      assert [v] + rest == items && (rest == [] ==> [v] == items);
      ItemsInvert(rest, k);
      PrintStarts(v);
      ItemsPrint(items, k, tail);
      Punctuation(if rest == [] then ']' else ',', if rest == [] then k else next);
      hide Starts, Stops;
      ValueInverts(v, tail);
      ItemsText(Print(v) + tail, v, tail);
    }
  }

  lemma {:induction false} MemberInverts(e: Entry<Json>, k: string)
    requires WellFormed(e.value) && Stops(k)
    ensures ParseMember(Quote(e.name) + ":" + Print(e.value) + k) == Some((e, k))
    decreases e, 3
  {
    hide ParseValue, ParseMember, ParseChars, Print, WellFormed;
    var tail := Print(e.value) + k;
    var body := Escape(e.name) + ("\"" + (":" + tail));
    CharsInvert(e.name, ":" + tail);
    ValueInverts(e.value, k);
    MemberText(body, e.name, tail);
    assert Quote(e.name) + ":" + Print(e.value) + k == "\"" + body;
  }

  lemma MembersPrint(members: seq<Entry<Json>>, k: string, tail: string)
    requires members != []
    requires tail == if members[1..] == [] then "}" + k
                     else "," + (Join(Members(PrintMembers(members[1..]))) + ("}" + k))
    ensures Join(Members(PrintMembers(members))) + ("}" + k) ==
            Quote(members[0].name) + ":" + Print(members[0].value) + tail
  {
    hide Quote, Print;
    var head := Member(Entry(members[0].name, Print(members[0].value)));
    var parts := Members(PrintMembers(members[1..]));
    assert PrintMembers(members)[1..] == PrintMembers(members[1..]);
    assert Members(PrintMembers(members)) == [head] + parts;
    JoinCons(head, parts);
    Regroup(head, ",", Join(parts), "}" + k);
    hide Join, PrintMembers, Members;
  }

  lemma {:induction false} MembersInvert(members: seq<Entry<Json>>, k: string)
    requires forall i :: 0 <= i < |members| ==> WellFormed(members[i].value)
    ensures var s := Join(Members(PrintMembers(members))) + ("}" + k);
            Starts(s) &&
            if members == [] then s == "}" + k else s[0] != '}' && ParseMembers(s) == Some((members, k))
    decreases members, 1
  {
    hide ParseMember, ParseMembers, Print, WellFormed, Escape;
    if members == [] {
      assert Join(Members(PrintMembers(members))) + ("}" + k) == "}" + k;
    } else {
      var e, rest := members[0], members[1..];
      var next := Join(Members(PrintMembers(rest))) + ("}" + k);
      var tail := if rest == [] then "}" + k else "," + next;
      hide Join, Members, PrintMembers;
      assert [e] + rest == members && (rest == [] ==> [e] == members);
      MembersInvert(rest, k);
      MembersPrint(members, k, tail);
      Punctuation(if rest == [] then '}' else ',', if rest == [] then k else next);
      MemberInverts(e, tail);
      MembersText(Quote(e.name) + ":" + Print(e.value) + tail, e, tail);
    }
  }

  // ── Sorting keeps values well formed ───────────────────────────────────────

  lemma {:induction false} SortedIsWellFormed(v: Json)
    requires WellFormed(v)
    ensures WellFormed(Sorted(v))
    decreases v
  {
    match v {
      case Arr(items) =>
        forall i | 0 <= i < |items| ensures WellFormed(SortedItems(items)[i]) {
          SortedItemAt(items, i);
          SortedIsWellFormed(items[i]);
        }
      case Obj(members) =>
        var ms := SortedMembers(members);
        forall x | x in ms ensures WellFormed(x.value) {
          var i :| 0 <= i < |ms| && ms[i] == x;
          SortedMemberAt(members, i);
          SortedIsWellFormed(members[i].value);
        }
        SortSorts(ms);
        var r := SortByName(ms);
        forall i | 0 <= i < |r| ensures WellFormed(r[i].value) { SortKeeps(ms, r[i]); }
        AscendingIsDistinct(r);
      case _ =>
    }
  }

  lemma AscendingIsDistinct<T>(es: seq<Entry<T>>)
    requires Ascending(es)
    ensures Distinct(es)
  {
    forall i, j | 0 <= i < j < |es| ensures es[i].name != es[j].name {
      LessIrreflexive(es[i].name);
    }
  }

  lemma {:induction false} SortedItemAt(items: seq<Json>, i: nat)
    requires i < |items|
    ensures SortedItems(items)[i] == Sorted(items[i])
    decreases items
  {
    if i > 0 { SortedItemAt(items[1..], i - 1); }
  }

  lemma {:induction false} SortedMemberAt(members: seq<Entry<Json>>, i: nat)
    requires i < |members|
    ensures SortedMembers(members)[i] == Entry(members[i].name, Sorted(members[i].value))
    decreases members
  {
    if i > 0 { SortedMemberAt(members[1..], i - 1); }
  }

  /**
   The parser inverts the canonical text: it consumes all of it and gives the value back with the members sorted by
   name at every depth.
   */
  lemma ParseInvertsCanonical(v: Json)
    requires WellFormed(v)
    ensures Parse(Canonical(v)) == Some(Sorted(v))
  {
    CanonicalIsPrintOfSorted(v);
    SortedIsWellFormed(v);
    ValueInverts(Sorted(v), "");
    assert Print(Sorted(v)) + "" == Print(Sorted(v));
  }

  // ── The text is as short as it can be ──────────────────────────────────────

  lemma WordIsShortest(s: string, word: string, w: Json, v: Json, rest: string)
    requires word != "" && ParseWord(s, word, w) == Some((v, rest))
    ensures v == w && |word| + |rest| <= |s|
  {
  }

  lemma NumberIsShortest(s: string, v: Json, rest: string)
    requires ParseNumber(s) == Some((v, rest))
    ensures |Print(v)| + |rest| <= |s|
  {
  }

  /** A text that is read as a value, with more behind it, is no shorter than the value as printed and the rest. */
  lemma {:induction false} ValueIsShortest(text: string, v: Json, rest: string)
    requires ParseValue(text) == Some((v, rest))
    ensures |Print(v)| + |rest| <= |text|
    decreases |text|, 2
  {
    hide ParseItems, ParseMembers, ParseChars, ParseNumber, ParseWord, Escape, Join, Members, PrintItems, PrintMembers;
    var s := SkipSpace(text);
    match s[0] {
      case 'n' => WordIsShortest(s, "null", Null, v, rest);
      case 't' => WordIsShortest(s, "true", Bool(true), v, rest);
      case 'f' => WordIsShortest(s, "false", Bool(false), v, rest);
      case '\"' => EscapeIsShortest(s[1..], v.s, rest);
      case '[' => ArrayIsShortest(s[1..], v.items, rest);
      case '{' => ObjectIsShortest(s[1..], v.members, rest);
      case _ => NumberIsShortest(s, v, rest);
    }
  }

  /** After the opening bracket. */
  lemma {:induction false} ArrayIsShortest(s: string, items: seq<Json>, rest: string)
    requires var t := SkipSpace(s);
             if t != "" && t[0] == ']' then items == [] && rest == t[1..] else ParseItems(t) == Some((items, rest))
    ensures |Join(PrintItems(items))| + 1 + |rest| <= |s|
    decreases |s|, 4
  {
    var t := SkipSpace(s);
    if t != "" && t[0] == ']' {
      assert Join(PrintItems(items)) == "";
    } else {
      hide ParseItems, Join, PrintItems;
      ItemsAreShortest(t, items, rest);
    }
  }

  lemma {:induction false} ItemsAreShortest(s: string, items: seq<Json>, rest: string)
    requires ParseItems(s) == Some((items, rest))
    ensures items != [] && |Join(PrintItems(items))| + 1 + |rest| <= |s|
    decreases |s|, 3
  {
    hide ParseValue, Print;
    var (v, after) := ParseValue(s).value;
    ValueIsShortest(s, v, after);
    var t := SkipSpace(after);
    if t[0] == ']' {
      assert PrintItems([v]) == [Print(v)];
    } else {
      var more := ParseItems(t[1..]).value.0;
      ItemsAreShortest(t[1..], more, rest);
      assert items == [v] + more && items[1..] == more;
      JoinCons(Print(v), PrintItems(more));
    }
  }

  lemma {:induction false} ObjectIsShortest(s: string, members: seq<Entry<Json>>, rest: string)
    requires var t := SkipSpace(s);
             if t != "" && t[0] == '}' then members == [] && rest == t[1..] else ParseMembers(t) == Some((members, rest))
    ensures |Join(Members(PrintMembers(members)))| + 1 + |rest| <= |s|
    decreases |s|, 6
  {
    var t := SkipSpace(s);
    if t != "" && t[0] == '}' {
      assert Join(Members(PrintMembers(members))) == "";
    } else {
      hide ParseMembers, Join, Members, PrintMembers;
      MembersAreShortest(t, members, rest);
    }
  }

  lemma {:induction false} MemberIsShortest(text: string, e: Entry<Json>, rest: string)
    requires ParseMember(text) == Some((e, rest))
    ensures |Quote(e.name)| + 1 + |Print(e.value)| + |rest| <= |text|
    decreases |text|, 4
  {
    hide ParseValue, ParseChars, Print, Escape;
    var s := SkipSpace(text);
    var after := ParseChars(s[1..]).value.1;
    EscapeIsShortest(s[1..], e.name, after);
    var t := SkipSpace(after);
    ValueIsShortest(t[1..], e.value, rest);
  }

  lemma {:induction false} MembersAreShortest(s: string, members: seq<Entry<Json>>, rest: string)
    requires ParseMembers(s) == Some((members, rest))
    ensures members != [] && |Join(Members(PrintMembers(members)))| + 1 + |rest| <= |s|
    decreases |s|, 5
  {
    hide ParseMember, Print, Quote;
    var (e, after) := ParseMember(s).value;
    MemberIsShortest(s, e, after);
    var t := SkipSpace(after);
    var text := Entry(e.name, Print(e.value));
    if t[0] == '}' {
      assert PrintMembers([e]) == [text] && Members([text]) == [Member(text)];
    } else {
      var more := ParseMembers(t[1..]).value.0;
      MembersAreShortest(t[1..], more, rest);
      assert members == [e] + more && members[1..] == more;
      assert PrintMembers(members) == [text] + PrintMembers(more);
      assert Members([text] + PrintMembers(more)) == [Member(text)] + Members(PrintMembers(more)) by {
        assert ([text] + PrintMembers(more))[1..] == PrintMembers(more);
      }
      JoinCons(Member(text), Members(PrintMembers(more)));
      hide Join, Members, PrintMembers;
    }
  }

  /**
   Of all texts that are read as the value with sorted names, none is shorter than the canonical one: it has no white
   space between its tokens and no escape that is longer than it need be.
   */
  lemma CanonicalIsShortest(v: Json, text: string)
    requires Parse(text) == Some(Sorted(v))
    ensures |Canonical(v)| <= |text|
  {
    CanonicalIsPrintOfSorted(v);
    hide ParseValue, Print, Canonical;
    var rest := ParseValue(text).value.1;
    ValueIsShortest(text, Sorted(v), rest);
  }
}
