/** The recorded event line (fbot/events.py): a JSON header followed by the untouched bytes of the
    frame, which are found again without parsing them. */
module EventLine {
  import opened Common
  import opened JsonText
  import Ids

  datatype RawEvent = RawEvent(seqNo: int, recvNs: int, monoNs: int, cat: Text, stream: Text, raw: string)
  {
    predicate Valid() {
      IsText(cat) && IsText(stream)
    }
  }

  const MARKER := ",\"d\":"

  function Quoted(t: Text): string
    requires IsText(t)
  {
    UnitsAreUnits(t);
    "\"" + (Escape(Units(t)) + "\"")
  }

  function TextsPart(ev: RawEvent): string
    requires ev.Valid()
  {
    ",\"c\":" + (Quoted(ev.cat) + (",\"s\":" + Quoted(ev.stream)))
  }

  /** The header with its last quote, before the marker. */
  function Head(ev: RawEvent): string
    requires ev.Valid()
  {
    "{\"q\":" + (WriteInt(ev.seqNo) + (",\"r\":" + (WriteInt(ev.recvNs) + (",\"m\":" + (WriteInt(ev.monoNs)
    + TextsPart(ev))))))
  }

  function Encode(ev: RawEvent): string
    requires ev.Valid()
  {
    Head(ev) + (MARKER + (ev.raw + "}\n"))
  }

  // ---- decoding

  /** Where the text first occurs. */
  function Find(what: string, s: string): (r: Option<nat>)
    ensures r.Some? ==> r.value + |what| <= |s|
  {
    if what <= s then Some(0)
    else if s == "" then None
    else
      var r := Find(what, s[1..]);
      if r.Some? then Some(r.value + 1) else None
  }

  function Skip(what: string, s: string): Option<string> {
    if what <= s then Some(s[|what|..]) else None
  }

  function IntAfter(what: string, s: string): Option<(int, string)> {
    var t := Skip(what, s);
    if t.None? then None else ReadInt(t.value)
  }

  function TextAfter(what: string, s: string): Option<(Text, string)> {
    var t := Skip(what + "\"", s);
    if t.None? then None
    else
      var r := ReadUnits(t.value);
      if r.None? then None else Some((FromUnits(r.value.0), r.value.1))
  }

  datatype Header = Header(seqNo: int, recvNs: int, monoNs: int, cat: Text, stream: Text)

  function ReadTexts(q: int, r: int, m: int, s: string): Option<Header> {
    var c := TextAfter(",\"c\":", s);
    if c.None? then None
    else
      var t := TextAfter(",\"s\":", c.value.1);
      if t.None? || t.value.1 != "" then None else Some(Header(q, r, m, c.value.0, t.value.0))
  }

  function ReadHeader(s: string): Option<Header> {
    var q := IntAfter("{\"q\":", s);
    if q.None? then None
    else
      var r := IntAfter(",\"r\":", q.value.1);
      if r.None? then None
      else
        var m := IntAfter(",\"m\":", r.value.1);
        if m.None? then None else ReadTexts(q.value.0, r.value.0, m.value.0, m.value.1)
  }

  /** Without the newlines at its end. */
  function Stripped(s: string): string {
    if s != "" && s[|s| - 1] == '\n' then Stripped(s[..|s| - 1]) else s
  }

  /** The event of a header and of what stands between the marker and the closing brace. */
  function Assemble(h: Option<Header>, end: string, from: nat): Result<RawEvent> {
    if h.None? then Err("malformed event header")
    else if end == "" || end[|end| - 1] != '}' then Err("malformed event tail")
    else
      var raw := if from <= |end| - 1 then end[from..|end| - 1] else "";
      Ok(RawEvent(h.value.seqNo, h.value.recvNs, h.value.monoNs, h.value.cat, h.value.stream, raw))
  }

  function DecodeAt(line: string, n: nat): Result<RawEvent>
    requires n <= |line|
  {
    Assemble(ReadHeader(line[..n]), Stripped(line), n + |MARKER|)
  }

  function Decode(line: string): Result<RawEvent> {
    var i := Find(MARKER, line);
    if i.None? || !("{\"q\":" <= line) then Err("malformed event line") else DecodeAt(line, i.value)
  }

  // ---- the first marker is the real one

  /** The first three characters of the marker. */
  predicate MarkAt(s: string, k: int) {
    0 <= k && k + 2 < |s| && s[k] == ',' && s[k + 1] == '"' && s[k + 2] == 'd'
  }

  ghost predicate Unmarked(s: string) {
    forall k :: !MarkAt(s, k)
  }

  /** Two unmarked pieces make no mark where they meet. */
  predicate Apart(a: string, b: string) {
    && (|a| >= 1 && |b| >= 2 && a[|a| - 1] == ',' && b[0] == '"' ==> b[1] != 'd')
    && (|a| >= 2 && |b| >= 1 && a[|a| - 2] == ',' && a[|a| - 1] == '"' ==> b[0] != 'd')
  }

  lemma UnmarkedConcat(a: string, b: string)
    requires Unmarked(a) && Unmarked(b) && Apart(a, b)
    ensures Unmarked(a + b)
  {
    var s := a + b;
    forall k ensures !MarkAt(s, k) {
      assert k + 2 < |a| ==> (MarkAt(s, k) <==> MarkAt(a, k));
      assert k >= |a| ==> (MarkAt(s, k) <==> MarkAt(b, k - |a|));
    }
  }

  /** Inside escaped text every quote follows a backslash. */
  predicate Guarded(s: string) {
    forall k :: 0 <= k < |s| && s[k] == '"' ==> k > 0 && s[k - 1] == '\\'
  }

  lemma {:induction false} EscapedIsGuarded(us: seq<int>)
    requires forall k :: 0 <= k < |us| ==> IsUnit(us[k])
    ensures Guarded(Escape(us))
    decreases |us|
  {
    if us != [] {
      EscapedIsGuarded(us[1..]);
      UnitIsGuarded(us[0]);
      GuardedConcat(EscapeUnit(us[0]), Escape(us[1..]));
    }
  }

  lemma GuardedConcat(a: string, b: string)
    requires Guarded(a) && Guarded(b)
    ensures Guarded(a + b)
  {
    var s := a + b;
    forall k | 0 <= k < |s| && s[k] == '"' ensures k > 0 && s[k - 1] == '\\' {
      if k >= |a| {
        assert b[k - |a|] == '"';
      }
    }
  }

  lemma UnitIsGuarded(u: int)
    requires IsUnit(u)
    ensures Guarded(EscapeUnit(u))
  {
    var s := EscapeUnit(u);
    if ShortEscape(u).None? && !(32 <= u <= 126) {
      HexIsPlain(u / 4096);
      HexIsPlain(u / 256 % 16);
      HexIsPlain(u / 16 % 16);
      HexIsPlain(u % 16);
    }
  }

  lemma HexIsPlain(d: int)
    requires 0 <= d < 16
    ensures HexDigit(d) != '"'
  {
    HexDigitRead(d);
  }

  lemma QuotedIsUnmarked(t: Text)
    requires IsText(t)
    ensures Unmarked(Quoted(t)) && Unmarked(Quoted(t) + ",\"")
    ensures |Quoted(t)| >= 2 && Quoted(t)[0] == '"' == Quoted(t)[|Quoted(t)| - 1]
  {
    UnitsAreUnits(t);
    var body := Escape(Units(t));
    EscapedIsGuarded(Units(t));
    var s := Quoted(t) + ",\"";
    forall k ensures !MarkAt(s, k) && !MarkAt(Quoted(t), k) {
      if 0 < k + 1 < 1 + |body| && s[k + 1] == '"' {
        assert body[k] == '"';
      }
    }
  }

  /** No quote occurs in a written integer, and it ends in a digit. */
  lemma IntIsPlain(n: int)
    ensures var s := WriteInt(n);
      && |s| > 0 && Unmarked(s) && s[|s| - 1] != ',' && s[|s| - 1] != '"' && s[0] != '"' && s[0] != 'd'
  {
    var m: nat := if n < 0 then -n else n;
    DecimalDigits(m);
    var s, digits := WriteInt(n), Ids.Decimal(m);
    forall k | 0 <= k < |s| ensures s[k] != '"' && s[k] != ',' && s[k] != 'd' {
      if n < 0 && k > 0 {
        assert s[k] == digits[k - 1];
      }
    }
  }

  /** A key, an integer and what follows. */
  lemma IntPieceUnmarked(key: string, n: int, rest: string)
    requires Unmarked(key) && |key| >= 2 && key[|key| - 1] == ':' && Unmarked(rest)
    ensures Unmarked(key + (WriteInt(n) + rest))
  {
    IntIsPlain(n);
    UnmarkedConcat(WriteInt(n), rest);
    UnmarkedConcat(key, WriteInt(n) + rest);
  }

  lemma TextsAreUnmarked(ev: RawEvent)
    requires ev.Valid()
    ensures Unmarked(TextsPart(ev) + ",\"")
  {
    QuotedIsUnmarked(ev.cat);
    QuotedIsUnmarked(ev.stream);
    var t := Quoted(ev.stream) + ",\"";
    var s := ",\"s\":" + t;
    UnmarkedConcat(",\"s\":", t);
    UnmarkedConcat(Quoted(ev.cat), s);
    UnmarkedConcat(",\"c\":", Quoted(ev.cat) + s);
    assert TextsPart(ev) + ",\"" == ",\"c\":" + (Quoted(ev.cat) + s);
  }

  lemma HeadIsUnmarked(ev: RawEvent)
    requires ev.Valid()
    ensures Unmarked(Head(ev) + ",\"")
  {
    TextsAreUnmarked(ev);
    var c := TextsPart(ev) + ",\"";
    IntPieceUnmarked(",\"m\":", ev.monoNs, c);
    var m := ",\"m\":" + (WriteInt(ev.monoNs) + c);
    IntPieceUnmarked(",\"r\":", ev.recvNs, m);
    var r := ",\"r\":" + (WriteInt(ev.recvNs) + m);
    IntPieceUnmarked("{\"q\":", ev.seqNo, r);
    assert Head(ev) + ",\"" == "{\"q\":" + (WriteInt(ev.seqNo) + r);
  }

  lemma {:induction false} FindsAt(head: string, tail: string)
    requires Unmarked(head + ",\"")
    ensures Find(MARKER, head + (MARKER + tail)) == Some(|head|)
    decreases |head|
  {
    var s := head + (MARKER + tail);
    if head == "" {
      assert s == MARKER + tail;
    } else {
      assert s[1..] == head[1..] + (MARKER + tail);
      forall k ensures !MarkAt(head[1..] + ",\"", k) {
        assert !MarkAt(head + ",\"", k + 1);
      }
      FindsAt(head[1..], tail);
      assert MARKER <= s ==> s[0] == MARKER[0] && s[1] == MARKER[1] && s[2] == MARKER[2];
      assert MARKER <= s ==> MarkAt(head + ",\"", 0);
    }
  }

  // ---- the header reads back

  lemma SkipLabel(key: string, s: string)
    ensures Skip(key, key + s) == Some(s)
  {
  }

  lemma IntPieceReads(key: string, n: int, rest: string)
    requires !StartsDigit(rest)
    ensures IntAfter(key, key + (WriteInt(n) + rest)) == Some((n, rest))
  {
    SkipLabel(key, WriteInt(n) + rest);
    IntReads(n, rest);
  }

  lemma TextPieceReads(key: string, t: Text, rest: string)
    requires IsText(t)
    ensures TextAfter(key, key + (Quoted(t) + rest)) == Some((FromUnits(Units(t)), rest))
  {
    UnitsAreUnits(t);
    var body := Escape(Units(t));
    assert key + (Quoted(t) + rest) == (key + "\"") + (body + ("\"" + rest));
    SkipLabel(key + "\"", body + ("\"" + rest));
    EscapedReads(Units(t), rest);
  }

  function Reread(ev: RawEvent): RawEvent {
    ev.(cat := FromUnits(Units(ev.cat)), stream := FromUnits(Units(ev.stream)))
  }

  lemma TextsRead(ev: RawEvent, q: int, r: int, m: int)
    requires ev.Valid()
    ensures ReadTexts(q, r, m, TextsPart(ev)) == Some(Header(q, r, m, FromUnits(Units(ev.cat)), FromUnits(Units(ev.stream))))
  {
    TextPieceReads(",\"c\":", ev.cat, ",\"s\":" + Quoted(ev.stream));
    TextPieceReads(",\"s\":", ev.stream, "");
    assert Quoted(ev.stream) + "" == Quoted(ev.stream);
  }

  lemma IntsRead(q: int, r: int, m: int, texts: string)
    requires !StartsDigit(texts)
    ensures ReadHeader("{\"q\":" + (WriteInt(q) + (",\"r\":" + (WriteInt(r) + (",\"m\":" + (WriteInt(m) + texts))))))
      == ReadTexts(q, r, m, texts)
  {
    IntPieceReads(",\"m\":", m, texts);
    var ms := ",\"m\":" + (WriteInt(m) + texts);
    IntPieceReads(",\"r\":", r, ms);
    IntPieceReads("{\"q\":", q, ",\"r\":" + (WriteInt(r) + ms));
  }

  lemma HeadReads(ev: RawEvent)
    requires ev.Valid()
    ensures ReadHeader(Head(ev))
      == Some(Header(ev.seqNo, ev.recvNs, ev.monoNs, FromUnits(Units(ev.cat)), FromUnits(Units(ev.stream))))
  {
    TextsRead(ev, ev.seqNo, ev.recvNs, ev.monoNs);
    IntsRead(ev.seqNo, ev.recvNs, ev.monoNs, TextsPart(ev));
  }

  lemma StripsOne(s: string)
    ensures Stripped(s + "}\n") == s + "}"
  {
    assert (s + "}\n")[..|s| + 1] == s + "}";
  }

  /** What stands between the marker and the closing brace is the raw part. */
  lemma EndAssembles(h: Header, front: string, raw: string)
    ensures Assemble(Some(h), (front + raw) + "}", |front|)
      == Ok(RawEvent(h.seqNo, h.recvNs, h.monoNs, h.cat, h.stream, raw))
  {
    var end := (front + raw) + "}";
    assert end[|front|..|end| - 1] == raw;
  }

  lemma LineEnds(head: string, raw: string)
    ensures Stripped(head + (MARKER + (raw + "}\n"))) == ((head + MARKER) + raw) + "}"
  {
    var body := (head + MARKER) + raw;
    assert head + (MARKER + (raw + "}\n")) == body + "}\n";
    StripsOne(body);
  }

  lemma LineDecodes(head: string, raw: string, h: Header)
    requires ReadHeader(head) == Some(h)
    ensures DecodeAt(head + (MARKER + (raw + "}\n")), |head|)
      == Ok(RawEvent(h.seqNo, h.recvNs, h.monoNs, h.cat, h.stream, raw))
  {
    LineEnds(head, raw);
    EndAssembles(h, head + MARKER, raw);
    assert (head + (MARKER + (raw + "}\n")))[..|head|] == head;
  }

  lemma StartsAlike(start: string, head: string, rest: string)
    requires start <= head
    ensures start <= head + rest
  {
  }

  lemma DecodesAt(line: string, n: nat)
    requires Find(MARKER, line) == Some(n) && "{\"q\":" <= line
    ensures n <= |line| && Decode(line) == DecodeAt(line, n)
  {
  }

  /** Decoding an encoded event gives its numbers and its raw bytes unchanged, and its texts as the
      JSON reader joins them. */
  lemma DecodeEncoded(ev: RawEvent)
    requires ev.Valid()
    ensures Decode(Encode(ev)) == Ok(Reread(ev))
  {
    var head, tail := Head(ev), MARKER + (ev.raw + "}\n");
    HeadIsUnmarked(ev);
    FindsAt(head, ev.raw + "}\n");
    HeadReads(ev);
    StartsAlike("{\"q\":", head, tail);
    DecodesAt(head + tail, |head|);
    LineDecodes(head, ev.raw,
      Header(ev.seqNo, ev.recvNs, ev.monoNs, FromUnits(Units(ev.cat)), FromUnits(Units(ev.stream))));
  }

  /** An event survives recording exactly when neither of its texts holds a high surrogate directly
      before a low one; its raw bytes may be anything, the marker included. */
  lemma RoundTripIff(ev: RawEvent)
    requires ev.Valid()
    ensures Decode(Encode(ev)) == Ok(ev) <==> !HasPair(ev.cat) && !HasPair(ev.stream)
  {
    DecodeEncoded(ev);
    SurvivesIff(ev.cat);
    SurvivesIff(ev.stream);
  }
}
