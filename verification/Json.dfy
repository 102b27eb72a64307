/**
 The JSON of a queue message: `json.dumps` with ASCII output and compact separators, and `json.loads`, for flat objects of
 strings, natural numbers and literals. Strings are sequences of code points, lone surrogates included.
 */
module Json {
  import opened Basics
  import opened Numerals

  type CodePoint = c: int | 0 <= c < 0x110000
  type Text = seq<CodePoint>

  datatype Value = Str(text: Text) | Num(value: nat) | Bool(truth: bool) | Null

  // A key and its value, in the order written.
  datatype Member = Member(key: Text, value: Value)

  function Ascii(s: string): Text {
    seq(|s|, i requires 0 <= i < |s| => s[i] as int)
  }

  predicate High(c: int) { 0xd800 <= c <= 0xdbff }
  predicate Low(c: int) { 0xdc00 <= c <= 0xdfff }

  function Combined(high: int, low: int): CodePoint
    requires High(high) && Low(low)
  {
    0x10000 + (high - 0xd800) * 0x400 + (low - 0xdc00)
  }

  /** Each high surrogate followed by a low one becomes the character they encode. */
  function Joined(t: Text): Text
    decreases |t|
  {
    if |t| >= 2 && High(t[0]) && Low(t[1]) then [Combined(t[0], t[1])] + Joined(t[2..])
    else if t == [] then []
    else [t[0]] + Joined(t[1..])
  }

  predicate SplitPair(t: Text, i: int) {
    0 <= i < |t| - 1 && High(t[i]) && Low(t[i + 1])
  }

  /** A text is unchanged exactly when no surrogate pair is written in it as two code points. */
  lemma {:induction false} JoinedSame(t: Text)
    ensures |Joined(t)| <= |t|
    ensures Joined(t) == t <==> forall i :: !SplitPair(t, i)
    decreases |t|
  {
    if |t| >= 2 && High(t[0]) && Low(t[1]) {
      JoinedSame(t[2..]);
      assert SplitPair(t, 0);
    } else if t != [] {
      JoinedSame(t[1..]);
      assert t == [t[0]] + t[1..];
      assert forall i :: SplitPair(t[1..], i) ==> SplitPair(t, i + 1);
      assert forall i :: SplitPair(t, i) ==> SplitPair(t[1..], i - 1);
      assert Joined(t)[1..] == Joined(t[1..]);
    }
  }

  /* ---- strings: section 7 of RFC 8259 ---- */

  /** The characters with a two-character escape. */
  function Short(c: int): Option<char> {
    if c == 0x22 then Some('\"')
    else if c == 0x5c then Some('\\')
    else if c == 0x0a then Some('n')
    else if c == 0x0d then Some('r')
    else if c == 0x09 then Some('t')
    else if c == 0x0c then Some('f')
    else if c == 0x08 then Some('b')
    else None
  }

  function Unit(u: int): string
    requires 0 <= u < 0x10000
  {
    "\\u" + Hex(u, 4)
  }

  function Escape(c: CodePoint): string {
    if Short(c).Some? then ['\\', Short(c).value]
    else if 0x20 <= c <= 0x7e then [c as char]
    else if c < 0x10000 then Unit(c)
    else Unit(0xd800 + (c - 0x10000) / 0x400) + Unit(0xdc00 + (c - 0x10000) % 0x400)
  }

  function EscapeAll(t: Text): string {
    if t == [] then "" else Escape(t[0]) + EscapeAll(t[1..])
  }

  function Quoted(t: Text): string {
    "\"" + EscapeAll(t) + "\""
  }

  /** What stands after a backslash, when it is not a `u`. */
  function Long(ch: char): Option<CodePoint> {
    if ch == '\"' then Some(0x22)
    else if ch == '\\' then Some(0x5c)
    else if ch == '/' then Some(0x2f)
    else if ch == 'n' then Some(0x0a)
    else if ch == 'r' then Some(0x0d)
    else if ch == 't' then Some(0x09)
    else if ch == 'f' then Some(0x0c)
    else if ch == 'b' then Some(0x08)
    else None
  }

  /** The code unit of a `\uXXXX` at the head of `s`. */
  function ReadUnit(s: string): Option<nat> {
    if |s| >= 6 && s[0] == '\\' && s[1] == 'u' then HexValue(s[2..6]) else None
  }

  lemma UnitBound(s: string)
    ensures ReadUnit(s).Some? ==> ReadUnit(s).value < 0x10000
  {
    if ReadUnit(s).Some? {
      HexBound(s[2..6]);
      assert Pow16(4) == 0x10000;
    }
  }

  lemma {:induction false} HexBound(s: string)
    ensures HexValue(s).Some? ==> HexValue(s).value < Pow16(|s|)
    decreases |s|
  {
    if s != "" {
      HexBound(s[..|s| - 1]);
    }
  }

  /** One character of a string, or None where the text is not a string. */
  function ReadChar(s: string): Option<Read<CodePoint>>
    requires s != ""
  {
    if s[0] == '\\' then
      if ReadUnit(s).Some? then
        UnitBound(s);
        var u := ReadUnit(s).value;
        var next := ReadUnit(s[6..]);
        if High(u) && next.Some? && Low(next.value) then Some(Read(Combined(u, next.value), s[12..]))
        else Some(Read(u, s[6..]))
      else if |s| >= 2 && Long(s[1]).Some? then Some(Read(Long(s[1]).value, s[2..]))
      else None
    else if s[0] < ' ' then None  // a control character
    else Some(Read(s[0] as int, s[1..]))
  }

  /** After the opening quote. */
  function ReadString(s: string): Option<Read<Text>>
    decreases |s|
  {
    if s == "" then None
    else if s[0] == '\"' then Some(Read([], s[1..]))
    else
      match ReadChar(s)
      case None => None
      case Some(ch) =>
        match ReadString(ch.rest)
        case None => None
        case Some(r) => Some(Read([ch.value] + r.value, r.rest))
  }

  lemma UnitReadsBack(u: int, rest: string)
    requires 0 <= u < 0x10000
    ensures ReadUnit(Unit(u) + rest) == Some(u)
    ensures (Unit(u) + rest)[6..] == rest
  {
    assert Pow16(4) == 0x10000;
    HexReadsBack(u, 4);
    assert (Unit(u) + rest)[2..6] == Hex(u, 4);
  }

  /** What follows a character in a written string. */
  function Following(t: Text, rest: string): string {
    EscapeAll(t) + "\"" + rest
  }

  lemma FollowingHead(t: Text, rest: string)
    requires t != []
    ensures Following(t, rest) == Escape(t[0]) + Following(t[1..], rest)
  {
  }

  lemma EscapeUnit(c: CodePoint, tail: string)
    ensures var u := ReadUnit(Escape(c) + tail); u.Some? && Low(u.value) <==> Low(c)
  {
    hide HexValue, Hex;
    var s := Escape(c) + tail;
    if Short(c).Some? {
      assert s[1] == Short(c).value;
    } else if 0x20 <= c <= 0x7e {
      assert s[0] == c as char;
    } else if c < 0x10000 {
      UnitReadsBack(c, tail);
    } else {
      var high, low := 0xd800 + (c - 0x10000) / 0x400, 0xdc00 + (c - 0x10000) % 0x400;
      assert s == Unit(high) + (Unit(low) + tail);
      UnitReadsBack(high, Unit(low) + tail);
    }
  }

  /** It starts with a low surrogate's escape exactly when the next code point is one. */
  lemma FollowingUnit(t: Text, rest: string)
    ensures var u := ReadUnit(Following(t, rest)); u.Some? && Low(u.value) <==> t != [] && Low(t[0])
  {
    hide Escape, HexValue;
    if t == [] {
      assert Following(t, rest)[0] == '\"';
    } else {
      FollowingHead(t, rest);
      EscapeUnit(t[0], Following(t[1..], rest));
    }
  }

  /** One written character, or one split pair, is read as one character. */
  lemma ReadsOne(t: Text, rest: string)
    requires t != []
    ensures var s := Following(t, rest);
            && s != "" && s[0] != '\"'
            && ReadChar(s) == if SplitPair(t, 0) then Some(Read(Combined(t[0], t[1]), Following(t[2..], rest)))
                              else Some(Read(t[0], Following(t[1..], rest)))
  {
    var c, tail := t[0], Following(t[1..], rest);
    FollowingHead(t, rest);
    if Short(c).Some? {
      ReadsShort(c, tail);
    } else if 0x20 <= c <= 0x7e {
    } else if c < 0x10000 {
      UnitReadsBack(c, tail);
      FollowingUnit(t[1..], rest);
      if SplitPair(t, 0) {
        FollowingHead(t[1..], rest);
        assert t[1..][1..] == t[2..];
        UnitReadsBack(t[1], Following(t[2..], rest));
        assert (Unit(c) + tail)[12..] == tail[6..];
      }
    } else {
      ReadsAstral(c, tail);
    }
  }

  lemma ReadsShort(c: CodePoint, tail: string)
    requires Short(c).Some?
    ensures var s := Escape(c) + tail; s[0] == '\\' && ReadChar(s) == Some(Read(c, tail))
  {
    var s := Escape(c) + tail;
    assert s[1] == Short(c).value && s[1] != 'u' && s[2..] == tail;
  }

  lemma ReadsAstral(c: CodePoint, tail: string)
    requires 0x10000 <= c
    ensures var s := Escape(c) + tail; s[0] == '\\' && ReadChar(s) == Some(Read(c, tail))
  {
    var s := Escape(c) + tail;
    var high, low := 0xd800 + (c - 0x10000) / 0x400, 0xdc00 + (c - 0x10000) % 0x400;
    assert s == Unit(high) + (Unit(low) + tail);
    UnitReadsBack(high, Unit(low) + tail);
    UnitReadsBack(low, tail);
    assert s[12..] == s[6..][6..];
  }

  /** A written string reads back as itself, with split pairs joined. */
  lemma {:induction false} StringReadsBack(t: Text, rest: string)
    ensures ReadString(Following(t, rest)) == Some(Read(Joined(t), rest))
    decreases |t|
  {
    hide ReadChar, Escape, Combined;
    var s := Following(t, rest);
    if t == [] {
      assert s == "\"" + rest && s[1..] == rest;
    } else {
      ReadsOne(t, rest);
      StringReadsBack(if SplitPair(t, 0) then t[2..] else t[1..], rest);
    }
  }

  /** The output is printable ASCII. */
  lemma {:induction false} Printable(t: Text)
    ensures forall ch :: ch in EscapeAll(t) ==> ' ' <= ch <= '~'
  {
    if t != [] {
      Printable(t[1..]);
      var c := t[0];
      if c >= 0x10000 {
        UnitPrintable(0xd800 + (c - 0x10000) / 0x400);
        UnitPrintable(0xdc00 + (c - 0x10000) % 0x400);
      } else {
        UnitPrintable(c);
      }
    }
  }

  lemma UnitPrintable(u: int)
    requires 0 <= u < 0x10000
    ensures forall ch :: ch in Unit(u) ==> ' ' <= ch <= '~'
  {
    HexOnly(u, 4);
  }

  /* ---- values ---- */

  function ValueText(v: Value): string {
    match v
    case Str(t) => Quoted(t)
    case Num(n) => Decimal(n)
    case Bool(b) => if b then "true" else "false"
    case Null => "null"
  }

  function DigitsOf(s: string): (d: string)
    ensures d <= s && forall ch :: ch in d ==> IsDigit(ch)
  {
    if s == "" || !IsDigit(s[0]) then "" else [s[0]] + DigitsOf(s[1..])
  }

  /** A numeral has no leading zero; a fraction or an exponent is not read. */
  function ReadValue(s: string): Option<Read<Value>> {
    if s == "" then None
    else if s[0] == '\"' then
      match ReadString(s[1..])
      case None => None
      case Some(r) => Some(Read(Str(r.value), r.rest))
    else if "true" <= s then Some(Read(Bool(true), s[4..]))
    else if "false" <= s then Some(Read(Bool(false), s[5..]))
    else if "null" <= s then Some(Read(Null, s[4..]))
    else
      var d := DigitsOf(s);
      if d == "" || (d[0] == '0' && |d| > 1) then None else Some(Read(Num(Numeral(d)), s[|d|..]))
  }

  function JoinedValue(v: Value): Value {
    if v.Str? then Str(Joined(v.text)) else v
  }

  lemma {:induction false} DigitsReadBack(d: string, rest: string)
    requires (forall ch :: ch in d ==> IsDigit(ch)) && (rest == "" || !IsDigit(rest[0]))
    ensures DigitsOf(d + rest) == d
    decreases |d|
  {
    if d == "" {
      assert d + rest == rest;
    } else {
      assert (d + rest)[1..] == d[1..] + rest;
      DigitsReadBack(d[1..], rest);
      assert d == [d[0]] + d[1..];
    }
  }

  lemma NumReadsBack(n: nat, rest: string)
    requires rest != "" && !IsDigit(rest[0])
    ensures ReadValue(Decimal(n) + rest) == Some(Read(Num(n), rest))
  {
    hide ReadString, DigitsOf, Numeral, Decimal;
    var s := Decimal(n) + rest;
    DecimalReadsBack(n);
    DigitsReadBack(Decimal(n), rest);
    assert s[0] == Decimal(n)[0] && Decimal(n)[0] in Decimal(n);
    assert s[|Decimal(n)|..] == rest;
  }

  lemma ValueReadsBack(v: Value, rest: string)
    requires rest != "" && (rest[0] == ',' || rest[0] == '}')
    ensures ReadValue(ValueText(v) + rest) == Some(Read(JoinedValue(v), rest))
  {
    hide ReadString, EscapeAll, DigitsOf, Numeral, Decimal, Joined;
    var s := ValueText(v) + rest;
    match v {
      case Str(t) =>
        StringReadsBack(t, rest);
        assert s[1..] == EscapeAll(t) + "\"" + rest;
      case Num(n) =>
        NumReadsBack(n, rest);
      case Bool(b) =>
        assert s[..4] == "true" || s[..5] == "false";
        assert s[if b then 4 else 5..] == rest;
      case Null =>
        assert s[4..] == rest;
    }
  }

  /* ---- objects ---- */

  function MemberText(m: Member): string {
    Quoted(m.key) + ":" + ValueText(m.value)
  }

  function MembersText(ms: seq<Member>): string
    requires ms != []
  {
    if |ms| == 1 then MemberText(ms[0]) else MemberText(ms[0]) + "," + MembersText(ms[1..])
  }

  function Dumps(ms: seq<Member>): string {
    "{" + (if ms == [] then "" else MembersText(ms)) + "}"
  }

  function ReadMember(s: string): Option<Read<Member>> {
    if s == "" || s[0] != '\"' then None
    else
      match ReadString(s[1..])
      case None => None
      case Some(k) =>
        if k.rest == "" || k.rest[0] != ':' then None
        else
          match ReadValue(k.rest[1..])
          case None => None
          case Some(v) => Some(Read(Member(k.value, v.value), v.rest))
  }

  lemma {:induction false} ReadStringShrinks(s: string)
    ensures ReadString(s).Some? ==> |ReadString(s).value.rest| < |s|
    decreases |s|
  {
    if s != "" && s[0] != '\"' && ReadChar(s).Some? {
      ReadStringShrinks(ReadChar(s).value.rest);
    }
  }

  lemma ReadMemberShrinks(s: string)
    ensures ReadMember(s).Some? ==> |ReadMember(s).value.rest| < |s|
  {
    hide ReadString, DigitsOf, Numeral;
    if s != "" && s[0] == '\"' {
      ReadStringShrinks(s[1..]);
      var k := ReadString(s[1..]);
      if k.Some? && k.value.rest != "" {
        ReadStringShrinks(k.value.rest[1..]);
        if k.value.rest[1..] != "" {
          ReadStringShrinks(k.value.rest[1..][1..]);
        }
      }
    }
  }

  function ReadMembers(s: string): Option<Read<seq<Member>>>
    decreases |s|
  {
    ReadMemberShrinks(s);
    match ReadMember(s)
    case None => None
    case Some(m) =>
      if m.rest == "" then None
      else if m.rest[0] == '}' then Some(Read([m.value], m.rest[1..]))
      else if m.rest[0] != ',' then None
      else
        match ReadMembers(m.rest[1..])
        case None => None
        case Some(r) => Some(Read([m.value] + r.value, r.rest))
  }

  /** The members of a whole text that is one flat object. */
  function Loads(s: string): Option<seq<Member>> {
    if s == "{}" then Some([])
    else if s == "" || s[0] != '{' then None
    else
      match ReadMembers(s[1..])
      case None => None
      case Some(r) => if r.rest == "" then Some(r.value) else None
  }

  function JoinedMember(m: Member): Member {
    Member(Joined(m.key), JoinedValue(m.value))
  }

  function JoinedMembers(ms: seq<Member>): seq<Member> {
    seq(|ms|, i requires 0 <= i < |ms| => JoinedMember(ms[i]))
  }

  lemma MemberReadsBack(m: Member, rest: string)
    requires rest != "" && (rest[0] == ',' || rest[0] == '}')
    ensures ReadMember(MemberText(m) + rest) == Some(Read(JoinedMember(m), rest))
  {
    hide ReadString, ReadValue, EscapeAll, ValueText, Joined;
    var s := MemberText(m) + rest;
    var tail := ValueText(m.value) + rest;
    assert s == "\"" + Following(m.key, ":" + tail);
    assert s[1..] == Following(m.key, ":" + tail);
    StringReadsBack(m.key, ":" + tail);
    assert (":" + tail)[1..] == tail;
    ValueReadsBack(m.value, rest);
  }

  lemma {:induction false} MembersReadBack(ms: seq<Member>, rest: string)
    requires ms != []
    ensures ReadMembers(MembersText(ms) + "}" + rest) == Some(Read(JoinedMembers(ms), rest))
    decreases |ms|
  {
    hide ReadMember, MemberText, JoinedMember;
    var s := MembersText(ms) + "}" + rest;
    if |ms| == 1 {
      assert s == MemberText(ms[0]) + ("}" + rest);
      MemberReadsBack(ms[0], "}" + rest);
      assert ("}" + rest)[1..] == rest;
      assert JoinedMembers(ms) == [JoinedMember(ms[0])];
    } else {
      var tail := MembersText(ms[1..]) + "}" + rest;
      assert s == MemberText(ms[0]) + ("," + tail);
      MemberReadsBack(ms[0], "," + tail);
      assert ("," + tail)[1..] == tail;
      MembersReadBack(ms[1..], rest);
      assert JoinedMembers(ms) == [JoinedMember(ms[0])] + JoinedMembers(ms[1..]);
    }
  }

  /** Whatever is written reads back, with split surrogate pairs joined and nothing else changed. */
  lemma LoadsDumps(ms: seq<Member>)
    ensures Loads(Dumps(ms)) == Some(JoinedMembers(ms))
  {
    hide ReadMembers, MembersText, JoinedMember;
    if ms == [] {
      assert Dumps(ms) == "{}" && JoinedMembers(ms) == [];
    } else {
      var s := Dumps(ms);
      assert s[1..] == MembersText(ms) + "}" + "";
      MembersReadBack(ms, "");
      MembersLong(ms);
    }
  }

  lemma MembersLong(ms: seq<Member>)
    requires ms != []
    ensures |Dumps(ms)| > 2
  {
  }
}
