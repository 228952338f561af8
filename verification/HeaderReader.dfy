/** Reading a JSON object back: members, names and numbers, with nothing known of how it was written. */
module HeaderReader {
  import opened Considerations
  import opened HeaderText

  // ----- numbers

  function HexDigit(c: char): int
  {
    if '0' <= c <= '9' then c as int - '0' as int else if 'a' <= c <= 'f' then 10 + (c as int - 'a' as int) else -1
  }

  /** The number a lower-case hexadecimal text stands for. */
  function HexValue(s: string): int { if s == "" then 0 else 16 * HexValue(s[..|s| - 1]) + HexDigit(s[|s| - 1]) }

  /** The number a decimal text stands for. */
  function DecValue(s: string): int { if s == "" then 0 else 10 * DecValue(s[..|s| - 1]) + (s[|s| - 1] as int - '0' as int) }

  lemma DigitIs(d: nat)
    requires d < 16
    ensures HexDigit(DIGITS[d]) == d && (d < 10 ==> DIGITS[d] as int - '0' as int == d)
  {
  }

  lemma {:induction false} HexReads(v: nat, n: nat)
    requires v < Power(16, n)
    ensures HexValue(Hex(v, n)) == v
  {
    if n == 0 {
    } else {
      hide HexDigit;
      var s := Hex(v, n);
      assert s[..n - 1] == Hex(v / 16, n - 1) && s[n - 1] == DIGITS[v % 16];
      DigitIs(v % 16);
      LowDigit(v, Power(16, n - 1));
      HexReads(v / 16, n - 1);
    }
  }

  lemma LowDigit(v: nat, p: nat)
    requires v < 16 * p
    ensures v / 16 < p && 16 * (v / 16) + v % 16 == v
  {
  }

  lemma {:induction false} DecReads(v: nat)
    ensures DecValue(Dec(v)) == v
  {
    hide Dec;
    DecSplits(v);
    DigitIs(v % 10);
    if v < 10 {
    } else {
      DecReads(v / 10);
    }
  }

  // ----- members

  datatype Member = Member(name: string, value: string)

  /** The position of the first of some characters, or the length. */
  function Until(s: string, stops: string): (n: nat)
    ensures n <= |s|
  {
    if s == "" || s[0] in stops then 0 else 1 + Until(s[1..], stops)
  }

  function Unquoted(s: string): string { if |s| >= 2 && s[0] == '"' && s[|s| - 1] == '"' then s[1..|s| - 1] else s }

  /** A quoted name, a colon, and a value. */
  function MemberOf(s: string): Member
  {
    var n := Until(s, ":");
    Member(Unquoted(s[..n]), if n < |s| then s[n + 1..] else "")
  }

  /** The members of a flat object, behind its opening brace. */
  function Members(s: string): seq<Member>
  {
    var n := Until(s, ",}");
    [MemberOf(s[..n])] + (if n < |s| && s[n] == ',' then Members(s[n + 1..]) else [])
  }

  function Lookup(members: seq<Member>, name: string): string
  {
    if members == [] then "" else if members[0].name == name then members[0].value else Lookup(members[1..], name)
  }

  /** A quoted value is hexadecimal, a bare one decimal. */
  function Number(value: string): int
  {
    if value != "" && value[0] == '"' then HexValue(Unquoted(value)) else DecValue(value)
  }

  /** The number that a JSON object gives a name. */
  function Read(json: string, name: string): int
  {
    if json == "" then -1 else Number(Lookup(Members(json[1..]), name))
  }

  /** The object holds the eight fields of a header under their names. */
  predicate Reads(json: string, h: CountHeader)
  {
    && json != "" && json[0] == '{' && json[|json| - 1] == '}'
    && Read(json, "previous") == h.previous && Read(json, "hash_list_root") == h.hashListRoot
    && Read(json, "time") == h.time && Read(json, "target") == h.target && Read(json, "point_work") == h.pointWork
    && Read(json, "nonce") == h.nonce && Read(json, "height") == h.height
    && Read(json, "consideration_count") == h.considerationCount
  }

  // ----- what the serialization holds

  predicate Free(s: string, stops: string) { forall i :: 0 <= i < |s| ==> s[i] !in stops }

  lemma {:induction false} UntilAt(x: string, y: string, stops: string)
    requires Free(x, stops) && (y == "" || y[0] in stops)
    ensures Until(x + y, stops) == |x|
  {
    if x == "" {
      assert x + y == y;
    } else {
      assert (x + y)[1..] == x[1..] + y;
      UntilAt(x[1..], y, stops);
    }
  }

  function Text(name: string, value: string): string { "\"" + name + "\":" + value }

  lemma TextReads(name: string, value: string)
    requires Free(name, ":")
    ensures MemberOf(Text(name, value)) == Member(name, value)
  {
    var quoted := "\"" + name + "\"";
    assert Text(name, value) == quoted + (":" + value);
    UntilAt(quoted, ":" + value, ":");
    assert Text(name, value)[..|quoted|] == quoted && Unquoted(quoted) == name;
  }

  lemma MembersNext(text: string, rest: string)
    requires Free(text, ",}")
    ensures Members(text + ("," + rest)) == [MemberOf(text)] + Members(rest)
    ensures Members(text + "}") == [MemberOf(text)]
  {
    hide MemberOf, Free, Until;
    UntilAt(text, "," + rest, ",}");
    UntilAt(text, "}", ",}");
    var more, end := text + ("," + rest), text + "}";
    assert more[..|text|] == text && more[|text|] == ',' && more[|text| + 1..] == rest;
    assert end[..|text|] == text && end[|text|] == '}';
  }

  predicate Plain(s: string) { Free(s, ",}:\"") }

  lemma {:induction false} HexIsPlain(v: nat, n: nat)
    ensures Plain(Hex(v, n))
  {
    if n == 0 {
    } else {
      HexIsPlain(v / 16, n - 1);
    }
  }

  lemma DecIsPlain(v: nat)
    ensures Plain(Dec(v))
  {
    assert forall c: char :: Decimal(c) ==> c !in ",}:\"";
  }

  function Quoted(s: string): string { "\"" + s + "\"" }

  /** A member with a plain name and value is read back. */
  lemma MemberReads(name: string, value: string, rest: string, quoted: bool)
    requires Plain(name) && Plain(value)
    ensures var v := if quoted then Quoted(value) else value;
      && Members(Text(name, v) + ("," + rest)) == [Member(name, v)] + Members(rest)
      && Members(Text(name, v) + "}") == [Member(name, v)]
  {
    var v := if quoted then Quoted(value) else value;
    TextReads(name, v);
    MembersNext(Text(name, v), rest);
  }

  function Expected(h: CountHeader): seq<Member>
    requires InRange(h)
  {
    [Member("previous", Quoted(Hex(h.previous, 64))), Member("hash_list_root", Quoted(Hex(h.hashListRoot, 64))),
     Member("time", Dec(h.time)), Member("target", Quoted(Hex(h.target, 64))), Member("point_work", Quoted(Hex(h.pointWork, 64))),
     Member("nonce", Dec(h.nonce)), Member("height", Dec(h.height)), Member("consideration_count", Dec(h.considerationCount))]
  }

  function FromHeightText(h: CountHeader): string
    requires InRange(h)
  {
    Text("height", Dec(h.height)) + ("," + (Text("consideration_count", Dec(h.considerationCount)) + "}"))
  }

  function FromTargetText(h: CountHeader): string
    requires InRange(h)
  {
    Text("target", Quoted(Hex(h.target, 64))) + ("," + (Text("point_work", Quoted(Hex(h.pointWork, 64)))
      + ("," + (Text("nonce", Dec(h.nonce)) + ("," + FromHeightText(h))))))
  }

  function WholeText(h: CountHeader): string
    requires InRange(h)
  {
    Text("previous", Quoted(Hex(h.previous, 64))) + ("," + (Text("hash_list_root", Quoted(Hex(h.hashListRoot, 64)))
      + ("," + (Text("time", Dec(h.time)) + ("," + FromTargetText(h))))))
  }

  /** A literal that ends one member and starts the next, with the value that follows it. */
  lemma Joint(text: string, lead: string, name: string, value: string, tail: string)
    requires text == lead + ("\"" + name + "\":")
    ensures text + (value + tail) == lead + (Text(name, value) + tail)
  {
  }

  lemma QuotedJoint(text: string, lead: string, name: string, value: string, tail: string)
    requires text == lead + ("\"" + name + "\":" + "\"")
    ensures text + (value + ("\"" + tail)) == lead + (Text(name, Quoted(value)) + tail)
  {
    assert text + (value + ("\"" + tail)) == lead + ("\"" + name + "\":" + ("\"" + value + "\"") + tail);
  }

  lemma TailIs(h: CountHeader)
    requires InRange(h)
    ensures FromHeight(h) == "," + FromHeightText(h)
  {
    hide Dec, Text;
    var tail := HDR_CONSIDERATION_COUNT + FromCount(h);
    Joint(HDR_HEIGHT, ",", "height", Dec(h.height), tail);
    Joint(HDR_CONSIDERATION_COUNT, ",", "consideration_count", Dec(h.considerationCount), HDR_END);
  }

  lemma Associate(a: string, b: string, c: string)
    ensures a + b + c == a + (b + c)
  {
  }

  lemma MiddleIs(h: CountHeader, rest: string)
    requires InRange(h)
    ensures Middle(h) + (Dec(h.nonce) + ("," + rest)) == "," + (Text("target", Quoted(Hex(h.target, 64)))
      + ("," + (Text("point_work", Quoted(Hex(h.pointWork, 64))) + ("," + (Text("nonce", Dec(h.nonce)) + ("," + rest))))))
  {
    hide Hex, Dec, Text, Quoted;
    var t, w, n := Hex(h.target, 64), Hex(h.pointWork, 64), Dec(h.nonce) + ("," + rest);
    var c := Text("nonce", Dec(h.nonce)) + ("," + rest);
    Joint(HDR_NONCE, "\",", "nonce", Dec(h.nonce), "," + rest);
    assert "\"," == "\"" + ",";
    Associate("\"", ",", c);
    var b := Text("point_work", Quoted(w)) + ("," + c);
    QuotedJoint(HDR_POINT_WORK, "\",", "point_work", w, "," + c);
    Associate("\"", ",", b);
    QuotedJoint(HDR_TARGET, ",", "target", t, "," + b);
    Associate(HDR_TARGET + t + HDR_POINT_WORK + w, HDR_NONCE, n);
    Associate(HDR_TARGET + t + HDR_POINT_WORK, w, HDR_NONCE + n);
    Associate(HDR_TARGET + t, HDR_POINT_WORK, w + (HDR_NONCE + n));
    Associate(HDR_TARGET, t, HDR_POINT_WORK + (w + (HDR_NONCE + n)));
  }

  lemma HeadIs(h: CountHeader, rest: string)
    requires InRange(h)
    ensures UpToTime(h) + (Dec(h.time) + ("," + rest)) == "{" + (Text("previous", Quoted(Hex(h.previous, 64)))
      + ("," + (Text("hash_list_root", Quoted(Hex(h.hashListRoot, 64))) + ("," + (Text("time", Dec(h.time)) + ("," + rest))))))
  {
    hide Hex, Dec, Text, Quoted;
    var p, r, n := Hex(h.previous, 64), Hex(h.hashListRoot, 64), Dec(h.time) + ("," + rest);
    var c := Text("time", Dec(h.time)) + ("," + rest);
    Joint(HDR_TIME, "\",", "time", Dec(h.time), "," + rest);
    assert "\"," == "\"" + ",";
    Associate("\"", ",", c);
    var b := Text("hash_list_root", Quoted(r)) + ("," + c);
    QuotedJoint(HDR_HASH_LIST_ROOT, "\",", "hash_list_root", r, "," + c);
    Associate("\"", ",", b);
    QuotedJoint(HDR_PREVIOUS, "{", "previous", p, "," + b);
    Associate(HDR_PREVIOUS + p + HDR_HASH_LIST_ROOT + r, HDR_TIME, n);
    Associate(HDR_PREVIOUS + p + HDR_HASH_LIST_ROOT, r, HDR_TIME + n);
    Associate(HDR_PREVIOUS + p, HDR_HASH_LIST_ROOT, r + (HDR_TIME + n));
    Associate(HDR_PREVIOUS, p, HDR_HASH_LIST_ROOT + (r + (HDR_TIME + n)));
  }

  lemma SerializeIs(h: CountHeader)
    requires InRange(h)
    ensures Serialize(h) == "{" + WholeText(h)
  {
    hide Hex, Dec, Middle, UpToTime, Serialize, Text;
    ReadFromLeft(h);
    TailIs(h);
    MiddleIs(h, FromHeightText(h));
    HeadIs(h, FromTargetText(h));
  }

  lemma MembersAre(h: CountHeader)
    requires InRange(h)
    ensures Members(WholeText(h)) == Expected(h)
  {
    hide Hex, Dec, Members, Text, Plain, Quoted;
    HexIsPlain(h.previous, 64);
    HexIsPlain(h.hashListRoot, 64);
    HexIsPlain(h.target, 64);
    HexIsPlain(h.pointWork, 64);
    DecIsPlain(h.time);
    DecIsPlain(h.nonce);
    DecIsPlain(h.height);
    DecIsPlain(h.considerationCount);
    NamesArePlain();
    MemberReads("consideration_count", Dec(h.considerationCount), "", false);
    var r8 := Text("consideration_count", Dec(h.considerationCount)) + "}";
    MemberReads("height", Dec(h.height), r8, false);
    MemberReads("nonce", Dec(h.nonce), FromHeightText(h), false);
    var r6 := Text("nonce", Dec(h.nonce)) + ("," + FromHeightText(h));
    MemberReads("point_work", Hex(h.pointWork, 64), r6, true);
    var r5 := Text("point_work", Quoted(Hex(h.pointWork, 64))) + ("," + r6);
    MemberReads("target", Hex(h.target, 64), r5, true);
    MemberReads("time", Dec(h.time), FromTargetText(h), false);
    var r3 := Text("time", Dec(h.time)) + ("," + FromTargetText(h));
    MemberReads("hash_list_root", Hex(h.hashListRoot, 64), r3, true);
    var r2 := Text("hash_list_root", Quoted(Hex(h.hashListRoot, 64))) + ("," + r3);
    MemberReads("previous", Hex(h.previous, 64), r2, true);
  }

  lemma NamesArePlain()
    ensures Plain("previous") && Plain("hash_list_root") && Plain("time") && Plain("target") && Plain("point_work")
    ensures Plain("nonce") && Plain("height") && Plain("consideration_count")
  {
  }

  lemma QuotedReads(v: nat)
    requires v < Power(16, 64)
    ensures Number(Quoted(Hex(v, 64))) == v
  {
    hide Hex, Power;
    HexReads(v, 64);
    assert Unquoted(Quoted(Hex(v, 64))) == Hex(v, 64);
  }

  lemma BareReads(v: nat)
    ensures Number(Dec(v)) == v
  {
    hide Dec;
    DecReads(v);
    DecIsPlain(v);
    assert Dec(v)[0] != '"';
  }

  lemma LookupNext(members: seq<Member>, name: string)
    requires members != []
    ensures Lookup(members, name) == if members[0].name == name then members[0].value else Lookup(members[1..], name)
  {
  }

  lemma LookupsAre(h: CountHeader)
    requires InRange(h)
    ensures var ms := Expected(h);
      && Lookup(ms, "previous") == Quoted(Hex(h.previous, 64)) && Lookup(ms, "hash_list_root") == Quoted(Hex(h.hashListRoot, 64))
      && Lookup(ms, "time") == Dec(h.time) && Lookup(ms, "target") == Quoted(Hex(h.target, 64))
      && Lookup(ms, "point_work") == Quoted(Hex(h.pointWork, 64)) && Lookup(ms, "nonce") == Dec(h.nonce)
      && Lookup(ms, "height") == Dec(h.height) && Lookup(ms, "consideration_count") == Dec(h.considerationCount)
  {
    hide Hex, Dec, Quoted, Lookup;
    var ms := Expected(h);
    DistinctNames();
    forall k | 0 <= k < 8 ensures Lookup(ms, ms[k].name) == ms[k].value {
      LookupAt(ms, k, k);
    }
    assert ms[0].name == "previous" && ms[1].name == "hash_list_root" && ms[2].name == "time" && ms[3].name == "target";
    assert ms[4].name == "point_work" && ms[5].name == "nonce" && ms[6].name == "height" && ms[7].name == "consideration_count";
  }

  predicate NamesDiffer(names: seq<string>) { forall i, j :: 0 <= i < j < |names| ==> names[i] != names[j] }

  lemma DistinctNames()
    ensures NamesDiffer(["previous", "hash_list_root", "time", "target", "point_work", "nonce", "height", "consideration_count"])
  {
    assert "target"[0] != "nonce"[0] && "target"[0] != "height"[0];
    assert "time"[1] != "target"[1];
    assert "previous"[1] != "point_work"[1];
    assert "hash_list_root"[0] != "height"[0] || "hash_list_root"[1] != "height"[1];
  }

  lemma {:induction false} LookupAt(ms: seq<Member>, k: nat, n: nat)
    requires n <= k < |ms| && forall i :: k - n <= i < k ==> ms[i].name != ms[k].name
    ensures Lookup(ms[k - n..], ms[k].name) == ms[k].value
  {
    hide Lookup;
    LookupNext(ms[k - n..], ms[k].name);
    if n == 0 {
    } else {
      assert ms[k - n..][1..] == ms[k - (n - 1)..];
      LookupAt(ms, k, n - 1);
    }
  }

  /** The serialization is a JSON object that gives each field of the header under its name. */
  lemma SerializeReads(h: CountHeader)
    requires IsHeader(h)
    ensures Reads(Serialize(h), h)
  {
    hide Hex, Dec, Power, Serialize, Members, Lookup, Number, Quoted, WholeText, Expected;
    SerializeIs(h);
    MembersAre(h);
    LookupsAre(h);
    SerializeEnds(h);
    assert Serialize(h)[1..] == WholeText(h);
    QuotedReads(h.previous);
    QuotedReads(h.hashListRoot);
    QuotedReads(h.target);
    QuotedReads(h.pointWork);
    BareReads(h.time);
    BareReads(h.nonce);
    BareReads(h.height);
    BareReads(h.considerationCount);
  }

  lemma SerializeEnds(h: CountHeader)
    requires InRange(h)
    ensures Serialize(h)[|Serialize(h)| - 1] == '}'
  {
    hide Hex, Dec;
  }
}
