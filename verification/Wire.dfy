/** The texts that leave the process: UUIDs, queue messages, object keys. */
module Wire {
  import opened Basics
  import opened Numerals
  import Json

  type Text = Json.Text

  /* ---- UUID text: section 4 of RFC 9562 ---- */

  type Uuid = n: int | 0 <= n < 0x1_0000_0000_0000_0000_0000_0000_0000_0000

  function UuidText(u: Uuid): string {
    var h := Hex(u, 32);
    h[..8] + "-" + h[8..12] + "-" + h[12..16] + "-" + h[16..20] + "-" + h[20..]
  }

  predicate DashAt(i: int) {
    i == 8 || i == 13 || i == 18 || i == 23
  }

  /** Five groups of hexadecimal digits: 8-4-4-4-12. */
  predicate IsUuidText(s: string) {
    |s| == 36 && forall i :: 0 <= i < 36 ==> if DashAt(i) then s[i] == '-' else HexDigit(s[i]).Some?
  }

  /** `s.replace(needle, '')`. */
  function Removed(s: string, needle: string): string
    requires needle != ""
    decreases |s|
  {
    if |s| < |needle| then s
    else if needle <= s then Removed(s[|needle|..], needle)
    else [s[0]] + Removed(s[1..], needle)
  }

  function StripLeft(s: string, cut: string): string {
    if s != "" && s[0] in cut then StripLeft(s[1..], cut) else s
  }

  function StripRight(s: string, cut: string): string {
    if s != "" && s[|s| - 1] in cut then StripRight(s[..|s| - 1], cut) else s
  }

  function Strip(s: string, cut: string): string {
    StripRight(StripLeft(s, cut), cut)
  }

  function Without(s: string, ch: char): string {
    if s == "" then "" else (if s[0] == ch then "" else [s[0]]) + Without(s[1..], ch)
  }

  /** `UUID(text)`; None is the ValueError. */
  function ParseUuid(s: string): Option<nat> {
    var h := Without(Strip(Removed(Removed(s, "urn:"), "uuid:"), "{}"), '-');
    if |h| != 32 then None else HexValue(h)
  }

  lemma {:induction false} RemovesNothing(s: string, needle: string)
    requires needle != "" && needle[0] !in s
    ensures Removed(s, needle) == s
    decreases |s|
  {
    if |needle| <= |s| {
      assert s[0] in s && s[0] != needle[0];
      RemovesNothing(s[1..], needle);
    }
  }

  lemma {:induction false} WithoutAppend(s: string, t: string, ch: char)
    ensures Without(s + t, ch) == Without(s, ch) + Without(t, ch)
  {
    if s == "" {
      assert s + t == t;
    } else {
      assert (s + t)[1..] == s[1..] + t;
      WithoutAppend(s[1..], t, ch);
    }
  }

  lemma {:induction false} WithoutNone(s: string, ch: char)
    requires ch !in s
    ensures Without(s, ch) == s
  {
    if s != "" {
      WithoutNone(s[1..], ch);
    }
  }

  lemma DashesDrop(a: string, b: string)
    requires '-' !in a
    ensures Without(a + "-" + b, '-') == a + Without(b, '-')
  {
    assert a + "-" + b == a + ("-" + b);
    WithoutAppend(a, "-" + b, '-');
    WithoutNone(a, '-');
    assert ("-" + b)[1..] == b;
  }

  lemma UuidTextDigits(u: Uuid)
    ensures IsUuidText(UuidText(u))
    ensures forall ch :: ch in UuidText(u) ==> ch == '-' || HexDigit(ch).Some?
  {
    HexOnly(u, 32);
    var h, s := Hex(u, 32), UuidText(u);
    forall i | 0 <= i < 36 ensures if DashAt(i) then s[i] == '-' else HexDigit(s[i]).Some? {
      if !DashAt(i) {
        var k := i - (if i < 8 then 0 else if i < 13 then 1 else if i < 18 then 2 else if i < 23 then 3 else 4);
        assert s[i] == h[k] && h[k] in h;
      }
    }
  }

  lemma UuidDashes(u: Uuid)
    ensures Without(UuidText(u), '-') == Hex(u, 32)
  {
    HexOnly(u, 32);
    var h := Hex(u, 32);
    assert '-' !in h;
    var d := h[20..];
    var c := h[16..20] + "-" + d;
    var b := h[12..16] + "-" + c;
    var a := h[8..12] + "-" + b;
    assert UuidText(u) == h[..8] + "-" + a;
    DashesDrop(h[..8], a);
    DashesDrop(h[8..12], b);
    DashesDrop(h[12..16], c);
    DashesDrop(h[16..20], d);
    WithoutNone(d, '-');
    assert h == h[..8] + (h[8..12] + (h[12..16] + (h[16..20] + d)));
  }

  lemma Pow32()
    ensures Pow16(32) == 0x1_0000_0000_0000_0000_0000_0000_0000_0000
  {
    assert Pow16(8) == 0x1_0000_0000;
    assert Pow16(16) == 0x1_0000_0000_0000_0000;
    assert Pow16(24) == 0x1_0000_0000_0000_0000_0000_0000;
  }

  /** The text of a UUID has the standard form and parses back to it. */
  lemma UuidRoundTrip(u: Uuid)
    ensures IsUuidText(UuidText(u)) && ParseUuid(UuidText(u)) == Some(u)
  {
    hide UuidText, Removed, Without, HexDigit, IsUuidText;
    var s := UuidText(u);
    UuidTextDigits(u);
    NoLetterU(s);
    RemovesNothing(s, "urn:");
    RemovesNothing(s, "uuid:");
    NoBraces(s);
    UuidDashes(u);
    Pow32();
    HexReadsBack(u, 32);
  }

  lemma NoLetterU(s: string)
    requires forall ch :: ch in s ==> ch == '-' || HexDigit(ch).Some?
    ensures 'u' !in s
  {
  }

  lemma NoBraces(s: string)
    requires forall ch :: ch in s ==> ch == '-' || HexDigit(ch).Some?
    ensures Strip(s, "{}") == s
  {
    assert forall ch :: ch in "{}" ==> ch == '{' || ch == '}';
    assert s != "" ==> s[0] in s && s[|s| - 1] in s;
  }

  lemma UuidTextInjective(u: Uuid, v: Uuid)
    requires UuidText(u) == UuidText(v)
    ensures u == v
  {
    UuidRoundTrip(u);
    UuidRoundTrip(v);
  }

  /* ---- queue messages ---- */

  /** A correlation id that is missing or empty is left out. */
  function Message(job: Uuid, correlation: Option<Text>): seq<Json.Member> {
    [Json.Member(Json.Ascii("version"), Json.Num(1)),
     Json.Member(Json.Ascii("event_type"), Json.Str(Json.Ascii("job.created"))),
     Json.Member(Json.Ascii("job_id"), Json.Str(Json.Ascii(UuidText(job))))] +
    if correlation.None? || correlation.value == [] then []
    else [Json.Member(Json.Ascii("correlation_id"), Json.Str(correlation.value))]
  }

  /** The body that `publish` sends. */
  function Published(job: Uuid, correlation: Option<Text>): string {
    Json.Dumps(Message(job, correlation))
  }

  /** `payload.get(key)`: of members with the same key the last one counts. */
  function Get(ms: seq<Json.Member>, key: Text): Option<Json.Value> {
    if ms == [] then None
    else if ms[|ms| - 1].key == key then Some(ms[|ms| - 1].value)
    else Get(ms[..|ms| - 1], key)
  }

  /** `== 1`, which `true` satisfies too. */
  predicate EqualsOne(v: Option<Json.Value>) {
    v == Some(Json.Num(1)) || v == Some(Json.Bool(true))
  }

  predicate IsAscii(t: Text) {
    forall i :: 0 <= i < |t| ==> t[i] < 0x80
  }

  /** `str(value)`, where it is ASCII. */
  function StringOf(v: Json.Value): Option<string> {
    match v
    case Str(t) => if IsAscii(t) then Some(seq(|t|, i requires 0 <= i < |t| => t[i] as char)) else None
    case Num(n) => Some(Decimal(n))
    case Bool(b) => Some(if b then "True" else "False")
    case Null => Some("None")
  }

  /** The job id `receive_job` takes from a body; None is an exception. */
  function Received(body: string): Option<nat> {
    match Json.Loads(body)
    case None => None
    case Some(ms) =>
      if !EqualsOne(Get(ms, Json.Ascii("version"))) ||
         Get(ms, Json.Ascii("event_type")) != Some(Json.Str(Json.Ascii("job.created"))) then None
      else
        match Get(ms, Json.Ascii("job_id"))
        case None => None
        case Some(v) =>
          match StringOf(v)
          case None => None
          case Some(s) => ParseUuid(s)
  }

  lemma {:induction false} AsciiJoined(t: Text)
    requires forall c :: c in t ==> c < 0xd800
    ensures Json.Joined(t) == t
  {
    Json.JoinedSame(t);
    forall i ensures !Json.SplitPair(t, i) {
      assert 0 <= i < |t| ==> t[i] in t;
    }
  }

  lemma LiteralJoined(s: string)
    requires forall ch :: ch in s ==> ch < 0x80 as char
    ensures Json.Joined(Json.Ascii(s)) == Json.Ascii(s)
    ensures StringOf(Json.Str(Json.Ascii(s))) == Some(s)
  {
    var t := Json.Ascii(s);
    forall i | 0 <= i < |t| ensures t[i] < 0x80 {
      assert s[i] in s;
    }
    assert IsAscii(t);
    AsciiJoined(t);
    assert seq(|t|, i requires 0 <= i < |t| => t[i] as char) == s;
  }

  /** What the sent body says once read: the same message, its correlation id with split surrogate pairs joined. */
  lemma MessageReadsBack(job: Uuid, correlation: Option<Text>)
    ensures Json.Loads(Published(job, correlation)) ==
            Some(Message(job, if correlation.None? then None else Some(Json.Joined(correlation.value))))
  {
    hide Json.Dumps, Json.Loads, Json.Joined, UuidText;
    var ms := Message(job, correlation);
    Json.LoadsDumps(ms);
    LiteralJoined("version");
    LiteralJoined("event_type");
    LiteralJoined("job.created");
    LiteralJoined("job_id");
    LiteralJoined("correlation_id");
    UuidAscii(job);
    LiteralJoined(UuidText(job));
    if correlation.Some? {
      JoinedEmpty(correlation.value);
    }
    assert Json.JoinedMembers(ms) == Message(job, if correlation.None? then None else Some(Json.Joined(correlation.value)));
  }

  lemma JoinedEmpty(t: Text)
    ensures Json.Joined(t) == [] <==> t == []
  {
  }

  lemma UuidAscii(u: Uuid)
    ensures forall ch :: ch in UuidText(u) ==> ch < 0x80 as char
  {
    UuidTextDigits(u);
  }

  lemma MessageFields(job: Uuid, correlation: Option<Text>)
    ensures var ms := Message(job, correlation);
            && Get(ms, Json.Ascii("version")) == Some(Json.Num(1))
            && Get(ms, Json.Ascii("event_type")) == Some(Json.Str(Json.Ascii("job.created")))
            && Get(ms, Json.Ascii("job_id")) == Some(Json.Str(Json.Ascii(UuidText(job))))
            && Get(ms, Json.Ascii("correlation_id")) ==
               if correlation.None? || correlation.value == [] then None else Some(Json.Str(correlation.value))
  {
    hide UuidText;
    var base := Message(job, None);
    BaseFields(job);
    var ms := Message(job, correlation);
    if correlation.Some? && correlation.value != [] {
      assert ms[..3] == base;
    } else {
      assert ms == base;
    }
  }

  lemma BaseFields(job: Uuid)
    ensures var ms := Message(job, None);
            && Get(ms, Json.Ascii("version")) == Some(Json.Num(1))
            && Get(ms, Json.Ascii("event_type")) == Some(Json.Str(Json.Ascii("job.created")))
            && Get(ms, Json.Ascii("job_id")) == Some(Json.Str(Json.Ascii(UuidText(job))))
            && Get(ms, Json.Ascii("correlation_id")) == None
  {
    hide UuidText;
    var ms := Message(job, None);
    KeyLengths();
    assert ms[..2] == [ms[0], ms[1]] && ms[..2][..1] == [ms[0]] && [ms[0]][..0] == [];
    GetAt(ms, Json.Ascii("version"));
    GetAt(ms, Json.Ascii("event_type"));
    GetAt(ms, Json.Ascii("correlation_id"));
    GetAt(ms[..2], Json.Ascii("version"));
    GetAt(ms[..2], Json.Ascii("event_type"));
    GetAt(ms[..2], Json.Ascii("correlation_id"));
    GetAt([ms[0]], Json.Ascii("version"));
    GetAt([ms[0]], Json.Ascii("correlation_id"));
  }

  lemma KeyLengths()
    ensures |Json.Ascii("version")| == 7 && |Json.Ascii("event_type")| == 10
    ensures |Json.Ascii("job_id")| == 6 && |Json.Ascii("correlation_id")| == 14
  {
  }

  lemma GetAt(ms: seq<Json.Member>, key: Text)
    requires ms != []
    ensures Get(ms, key) == if ms[|ms| - 1].key == key then Some(ms[|ms| - 1].value) else Get(ms[..|ms| - 1], key)
  {
  }

  /** Printable ASCII with nothing to escape. */
  predicate PlainText(s: string) {
    forall ch :: ch in s ==> ' ' <= ch <= '~' && ch != '\"' && ch != '\\'
  }

  lemma {:induction false} StandsAsItIs(s: string)
    requires PlainText(s)
    ensures Json.EscapeAll(Json.Ascii(s)) == s
  {
    if s != "" {
      assert forall ch :: ch in s[1..] ==> ch in s;
      StandsAsItIs(s[1..]);
      var t := Json.Ascii(s);
      assert t[1..] == Json.Ascii(s[1..]);
      assert s[0] in s;
      assert Json.Escape(t[0]) == [s[0]];
      assert s == [s[0]] + s[1..];
    }
  }

  lemma TextMember(key: string, value: string)
    requires PlainText(key) && PlainText(value)
    ensures Json.MemberText(Json.Member(Json.Ascii(key), Json.Str(Json.Ascii(value)))) == "\"" + key + "\":\"" + value + "\""
  {
    hide Json.EscapeAll, Json.Ascii, PlainText;
    StandsAsItIs(key);
    StandsAsItIs(value);
  }

  lemma VersionMember()
    ensures Json.MemberText(Json.Member(Json.Ascii("version"), Json.Num(1))) == "\"version\":1"
  {
    hide Json.EscapeAll, Json.Ascii;
    StandsAsItIs("version");
    assert Decimal(1) == "1";
  }

  lemma ThreeMembers(a: Json.Member, b: Json.Member, d: Json.Member)
    ensures Json.Dumps([a, b, d]) ==
            "{" + (Json.MemberText(a) + "," + (Json.MemberText(b) + "," + Json.MemberText(d))) + "}"
  {
    hide Json.MemberText;
    assert [a, b, d][1..] == [b, d] && [b, d][1..] == [d];
    assert Json.MembersText([d]) == Json.MemberText(d);
    assert Json.MembersText([b, d]) == Json.MemberText(b) + "," + Json.MembersText([d]);
  }

  lemma FourMembers(a: Json.Member, b: Json.Member, d: Json.Member, e: Json.Member)
    ensures Json.Dumps([a, b, d, e]) ==
            "{" + (Json.MemberText(a) + "," + (Json.MemberText(b) + "," + (Json.MemberText(d) + "," + Json.MemberText(e)))) + "}"
  {
    hide Json.MemberText;
    assert [a, b, d, e][1..] == [b, d, e] && [b, d, e][1..] == [d, e] && [d, e][1..] == [e];
    assert Json.MembersText([e]) == Json.MemberText(e);
    assert Json.MembersText([d, e]) == Json.MemberText(d) + "," + Json.MembersText([e]);
    assert Json.MembersText([b, d, e]) == Json.MemberText(b) + "," + Json.MembersText([d, e]);
  }

  lemma UuidPlain(u: Uuid)
    ensures PlainText(UuidText(u))
  {
    hide UuidText;
    UuidTextDigits(u);
  }

  /** The body sent for a job, character by character. */
  lemma BodyText(job: Uuid)
    ensures Published(job, None) ==
            "{" + ("\"version\":1" + "," + ("\"" + "event_type" + "\":\"" + "job.created" + "\"" + "," +
            ("\"" + "job_id" + "\":\"" + UuidText(job) + "\""))) + "}"
  {
    UuidPlain(job);
    hide UuidText, Json.Ascii, Json.MemberText, Json.Dumps;
    VersionMember();
    TextMember("event_type", "job.created");
    TextMember("job_id", UuidText(job));
    hide PlainText;
    ThreeMembers(Json.Member(Json.Ascii("version"), Json.Num(1)),
                 Json.Member(Json.Ascii("event_type"), Json.Str(Json.Ascii("job.created"))),
                 Json.Member(Json.Ascii("job_id"), Json.Str(Json.Ascii(UuidText(job)))));
    ThreeMembersOf(job);
  }

  lemma OneMoreMember(a: string, b: string, d: string, e: string)
    ensures var base := "{" + (a + "," + (b + "," + d)) + "}";
            "{" + (a + "," + (b + "," + (d + "," + e))) + "}" == base[..|base| - 1] + "," + e + "}"
  {
    var base := "{" + (a + "," + (b + "," + d)) + "}";
    assert base[..|base| - 1] == "{" + (a + "," + (b + "," + d));
  }

  /** A correlation id of plain characters is one more member, as it stands. */
  lemma BodyTextCorrelated(job: Uuid, correlation: string)
    requires correlation != "" && PlainText(correlation)
    ensures var base := Published(job, None);
            && base != ""
            && Published(job, Some(Json.Ascii(correlation))) ==
               base[..|base| - 1] + "," + ("\"" + "correlation_id" + "\":\"" + correlation + "\"") + "}"
  {
    FourMembersOf(job, correlation);
    ThreeMembersOf(job);
    assert PlainText("correlation_id");
    hide UuidText, Json.Ascii, Json.MemberText, Json.Dumps, Message, PlainText;
    TextMember("correlation_id", correlation);
    var a := Json.Member(Json.Ascii("version"), Json.Num(1));
    var b := Json.Member(Json.Ascii("event_type"), Json.Str(Json.Ascii("job.created")));
    var d := Json.Member(Json.Ascii("job_id"), Json.Str(Json.Ascii(UuidText(job))));
    var e := Json.Member(Json.Ascii("correlation_id"), Json.Str(Json.Ascii(correlation)));
    ThreeMembers(a, b, d);
    FourMembers(a, b, d, e);
    OneMoreMember(Json.MemberText(a), Json.MemberText(b), Json.MemberText(d), Json.MemberText(e));
  }

  lemma ThreeMembersOf(job: Uuid)
    ensures Message(job, None) == [Json.Member(Json.Ascii("version"), Json.Num(1)),
                                   Json.Member(Json.Ascii("event_type"), Json.Str(Json.Ascii("job.created"))),
                                   Json.Member(Json.Ascii("job_id"), Json.Str(Json.Ascii(UuidText(job))))]
  {
    hide UuidText, Json.Ascii;
  }

  lemma FourMembersOf(job: Uuid, correlation: string)
    requires correlation != ""
    ensures Message(job, Some(Json.Ascii(correlation))) ==
            [Json.Member(Json.Ascii("version"), Json.Num(1)),
             Json.Member(Json.Ascii("event_type"), Json.Str(Json.Ascii("job.created"))),
             Json.Member(Json.Ascii("job_id"), Json.Str(Json.Ascii(UuidText(job)))),
             Json.Member(Json.Ascii("correlation_id"), Json.Str(Json.Ascii(correlation)))]
  {
    assert Json.Ascii(correlation) != [];
    hide UuidText, Json.Ascii;
  }

  /** Every job id that is published is received, whatever the correlation id. */
  lemma PublishedIsReceived(job: Uuid, correlation: Option<Text>)
    ensures Received(Published(job, correlation)) == Some(job)
  {
    hide Json.Loads, Message, UuidText, ParseUuid, Get, StringOf, Published, Json.Joined;
    var joined := if correlation.None? then None else Some(Json.Joined(correlation.value));
    MessageReadsBack(job, correlation);
    MessageFields(job, joined);
    UuidAscii(job);
    LiteralJoined(UuidText(job));
    UuidRoundTrip(job);
  }

  /** The correlation id survives exactly when it holds no surrogate pair written as two code points. */
  lemma CorrelationSurvives(job: Uuid, correlation: Text)
    requires correlation != []
    ensures var ms := Json.Loads(Published(job, Some(correlation)));
            ms.Some? && (Get(ms.value, Json.Ascii("correlation_id")) == Some(Json.Str(correlation)) <==>
                         forall i :: !Json.SplitPair(correlation, i))
  {
    hide Json.Loads, Message, Get, Published, Json.Joined;
    MessageReadsBack(job, Some(correlation));
    JoinedEmpty(correlation);
    MessageFields(job, Some(Json.Joined(correlation)));
    Json.JoinedSame(correlation);
  }

  /* ---- object keys ---- */

  function KeyText(prefix: string, job: Uuid, report: Uuid): string {
    Strip(prefix, "/") + "/" + UuidText(job) + "/" + UuidText(report) + ".csv"
  }

  /** Under one prefix no two reports share a key, not even those of different jobs. */
  lemma KeysDiffer(prefix: string, job: Uuid, report: Uuid, otherJob: Uuid, otherReport: Uuid)
    ensures KeyText(prefix, job, report) == KeyText(prefix, otherJob, otherReport) <==> job == otherJob && report == otherReport
  {
    hide UuidText, Strip, IsUuidText;
    var p := Strip(prefix, "/");
    var k, l := KeyText(prefix, job, report), KeyText(prefix, otherJob, otherReport);
    UuidLength(job);
    UuidLength(report);
    UuidLength(otherJob);
    UuidLength(otherReport);
    if k == l {
      var a, b := |p| + 1, |p| + 38;
      assert k[a..a + 36] == UuidText(job) && l[a..a + 36] == UuidText(otherJob);
      assert k[b..b + 36] == UuidText(report) && l[b..b + 36] == UuidText(otherReport);
      UuidTextInjective(job, otherJob);
      UuidTextInjective(report, otherReport);
    }
  }

  /** The key is the stripped prefix, the job and the report, in this order. */
  lemma KeyParts(prefix: string, job: Uuid, report: Uuid)
    ensures var p, k := Strip(prefix, "/"), KeyText(prefix, job, report);
            && |k| == |p| + 78
            && k[..|p|] == p && k[|p|] == '/' && k[|p| + 1..|p| + 37] == UuidText(job)
            && k[|p| + 37] == '/' && k[|p| + 38..|p| + 74] == UuidText(report) && k[|p| + 74..] == ".csv"
  {
    hide UuidText, Strip;
    UuidLength(job);
    UuidLength(report);
  }

  lemma UuidLength(u: Uuid)
    ensures |UuidText(u)| == 36
  {
  }

  /** A stripped prefix is what is left between the outer slashes. */
  lemma {:induction false} StripIs(s: string, cut: string)
    ensures var t := Strip(s, cut);
            && (t != "" ==> t[0] !in cut && t[|t| - 1] !in cut)
            && exists i, k :: 0 <= i <= k <= |s| && Spans(s, cut, i, k) && t == s[i..k]
  {
    var i := StripsLeft(s, cut);
    var u := StripLeft(s, cut);
    var k := StripsRight(u, cut);
    assert u[..k] == s[i..i + k];
    forall x | 0 <= x < i || i + k <= x < |s| ensures s[x] in cut {
      if i + k <= x {
        assert u[x - i] == s[x];
      }
    }
    assert Spans(s, cut, i, i + k);
  }

  predicate Spans(s: string, cut: string, i: int, k: int) {
    forall x :: 0 <= x < |s| && (x < i || k <= x) ==> s[x] in cut
  }

  lemma {:induction false} StripsLeft(s: string, cut: string) returns (i: nat)
    ensures i <= |s| && StripLeft(s, cut) == s[i..] && (i < |s| ==> s[i] !in cut)
    ensures forall x :: 0 <= x < i ==> s[x] in cut
  {
    i := 0;
    if s != "" && s[0] in cut {
      var k := StripsLeft(s[1..], cut);
      i := k + 1;
      assert s[1..][k..] == s[i..];
      assert forall x :: 1 <= x < i ==> s[x] == s[1..][x - 1];
    }
  }

  lemma {:induction false} StripsRight(s: string, cut: string) returns (k: nat)
    ensures k <= |s| && StripRight(s, cut) == s[..k] && (0 < k ==> s[k - 1] !in cut)
    ensures k == |s| || forall x :: k <= x < |s| ==> s[x] in cut
  {
    k := |s|;
    if s != "" && s[k - 1] in cut {
      k := StripsRight(s[..|s| - 1], cut);
    }
  }
}
