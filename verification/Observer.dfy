/** The completion and usage observer (internal/backend/usage.go), with a specification that
    never mentions its buffers: a stream is cut into lines, lines into events, and every event
    is judged from its own bytes. */
module ObserverSpec {
  import opened Types

  const LINE_LIMIT := 65536
  const EVENT_LIMIT := 65537
  const BODY_LIMIT := 1048576

  // ---- bytes to lines ----

  /** The terminated lines of a stream, without their LF. */
  function RawLines(s: seq<byte>): seq<seq<byte>> {
    if s == [] then []
    else
      var front := s[..|s| - 1];
      if s[|s| - 1] == LF then RawLines(front) + [Rest(front)] else RawLines(front)
  }

  /** The bytes after the last LF. */
  function Rest(s: seq<byte>): seq<byte> {
    if s == [] || s[|s| - 1] == LF then [] else Rest(s[..|s| - 1]) + [s[|s| - 1]]
  }

  /** Puts terminated lines back together. */
  function Unlines(ls: seq<seq<byte>>): seq<byte> {
    if ls == [] then [] else Unlines(ls[..|ls| - 1]) + ls[|ls| - 1] + [LF]
  }

  ghost predicate IsSplit(s: seq<byte>, ls: seq<seq<byte>>, rest: seq<byte>) {
    && s == Unlines(ls) + rest
    && LF !in rest
    && forall i | 0 <= i < |ls| :: LF !in ls[i]
  }

  /** What is left of a split when the last byte is taken off, inside the rest or at the end of a line. */
  lemma SplitWithoutLast(ls: seq<seq<byte>>, rest: seq<byte>)
    requires rest != [] || ls != []
    ensures rest != [] ==>
      Unlines(ls) + rest == (Unlines(ls) + rest[..|rest| - 1]) + [rest[|rest| - 1]]
    ensures rest == [] ==>
      Unlines(ls) + rest == (Unlines(ls[..|ls| - 1]) + ls[|ls| - 1]) + [LF]
  {
    if rest != [] {
      assert rest == rest[..|rest| - 1] + [rest[|rest| - 1]];
    }
  }

  lemma LastOff(s: seq<byte>, front: seq<byte>, b: byte)
    requires s == front + [b]
    ensures s != [] && s[|s| - 1] == b && s[..|s| - 1] == front && |front| < |s|
  {}

  /** Splitting loses nothing, and it is the only way to write the stream as LF-free lines. */
  lemma {:induction false} SplitIsUnique(s: seq<byte>, ls: seq<seq<byte>>, rest: seq<byte>)
    ensures IsSplit(s, ls, rest) <==> ls == RawLines(s) && rest == Rest(s)
    decreases |s|
  {
    hide Unlines;
    SplitRebuilds(s);
    if IsSplit(s, ls, rest) {
      if rest != [] {
        var front := Unlines(ls) + rest[..|rest| - 1];
        SplitWithoutLast(ls, rest);
        LastOff(s, front, rest[|rest| - 1]);
        assert rest[|rest| - 1] in rest;
        SplitIsUnique(front, ls, rest[..|rest| - 1]);
        assert rest == rest[..|rest| - 1] + [rest[|rest| - 1]];
      } else if ls != [] {
        var init, last := ls[..|ls| - 1], ls[|ls| - 1];
        var front := Unlines(init) + last;
        SplitWithoutLast(ls, rest);
        LastOff(s, front, LF);
        SplitIsUnique(front, init, last);
        assert ls == init + [last];
      } else {
        NoLines();
      }
    }
  }

  lemma NoLines()
    ensures Unlines([]) == []
  {}

  lemma {:induction false} SplitRebuilds(s: seq<byte>)
    ensures IsSplit(s, RawLines(s), Rest(s))
  {
    if s != [] {
      var front := s[..|s| - 1];
      SplitRebuilds(front);
      assert s == front + [s[|s| - 1]];
      if s[|s| - 1] == LF {
        var ls := RawLines(s);
        assert ls[..|ls| - 1] == RawLines(front);
      } else {
        assert Rest(s) == Rest(front) + [s[|s| - 1]];
      }
    }
  }

  /** A line as the observer reads it: one trailing CR dropped, and whether it was over-long. */
  datatype Line = Line(text: seq<byte>, long: bool) {
    predicate Blank() { !long && text == [] }
  }

  function ReadLine(raw: seq<byte>): Line {
    Line(if raw != [] && raw[|raw| - 1] == CR then raw[..|raw| - 1] else raw, |raw| > LINE_LIMIT)
  }

  /** The terminated lines as the observer reads them. */
  function Lines(s: seq<byte>): seq<Line> {
    if s == [] then []
    else
      var front := s[..|s| - 1];
      if s[|s| - 1] == LF then Lines(front) + [ReadLine(Rest(front))] else Lines(front)
  }

  lemma {:induction false} LinesAreRawLines(s: seq<byte>)
    ensures |Lines(s)| == |RawLines(s)|
    ensures forall i | 0 <= i < |RawLines(s)| :: Lines(s)[i] == ReadLine(RawLines(s)[i])
  {
    if s != [] {
      LinesAreRawLines(s[..|s| - 1]);
    }
  }

  // ---- lines to events ----

  /** The events closed by a blank line, each as its non-blank lines. */
  function Events(ls: seq<Line>): seq<seq<Line>> {
    if ls == [] then []
    else
      var front := ls[..|ls| - 1];
      if ls[|ls| - 1].Blank() then Events(front) + [OpenEvent(front)] else Events(front)
  }

  /** The lines after the last blank one. */
  function OpenEvent(ls: seq<Line>): seq<Line> {
    if ls == [] || ls[|ls| - 1].Blank() then []
    else OpenEvent(ls[..|ls| - 1]) + [ls[|ls| - 1]]
  }

  const DATA: seq<byte> := "data:"

  /** The payload of a data line; other lines carry none. */
  function Payload(l: Line): Option<seq<byte>> {
    if l.long || !(DATA <= l.text) then None
    else
      var data := l.text[|DATA|..];
      Some(if data != [] && data[0] == ' ' then data[1..] else data)
  }

  /** The payloads of an event, each followed by LF. */
  function EventData(e: seq<Line>): seq<byte> {
    if e == [] then []
    else
      var front := EventData(e[..|e| - 1]);
      match Payload(e[|e| - 1])
      case None => front
      case Some(data) => front + data + [LF]
  }

  /** Events with an over-long line or with too much data are not judged. */
  ghost predicate Ignored(e: seq<Line>) {
    || (exists i :: 0 <= i < |e| && e[i].long)
    || |EventData(e)| > EVENT_LIMIT
  }

  // ---- judging one event ----

  /** Length of the white-space character at the front: ASCII, or UTF-8 for the other Unicode spaces. */
  function LeadingSpace(s: seq<byte>): (n: nat)
    ensures n <= |s|
  {
    if |s| >= 1 && AsciiSpace(s[0]) then 1
    else if |s| >= 2 && UnicodeSpace2(s[0], s[1]) then 2
    else if |s| >= 3 && UnicodeSpace3(s[0], s[1], s[2]) then 3
    else 0
  }

  function TrailingSpace(s: seq<byte>): (n: nat)
    ensures n <= |s|
  {
    var k := |s|;
    if k >= 1 && AsciiSpace(s[k - 1]) then 1
    else if k >= 2 && UnicodeSpace2(s[k - 2], s[k - 1]) then 2
    else if k >= 3 && UnicodeSpace3(s[k - 3], s[k - 2], s[k - 1]) then 3
    else 0
  }

  predicate AsciiSpace(b: byte) {
    9 <= b as int <= 13 || b == ' '
  }

  /** U+0085 and U+00A0. */
  predicate UnicodeSpace2(a: byte, b: byte) {
    a as int == 0xC2 && (b as int == 0x85 || b as int == 0xA0)
  }

  /** U+1680, U+2000 to U+200A, U+2028, U+2029, U+202F, U+205F and U+3000. */
  predicate UnicodeSpace3(a: byte, b: byte, c: byte) {
    || (a as int == 0xE1 && b as int == 0x9A && c as int == 0x80)
    || (a as int == 0xE2 && b as int == 0x80
        && (0x80 <= c as int <= 0x8A || 0xA8 <= c as int <= 0xA9 || c as int == 0xAF))
    || (a as int == 0xE2 && b as int == 0x81 && c as int == 0x9F)
    || (a as int == 0xE3 && b as int == 0x80 && c as int == 0x80)
  }

  function Trim(s: seq<byte>): seq<byte>
    decreases |s|
  {
    if LeadingSpace(s) > 0 then Trim(s[LeadingSpace(s)..])
    else if TrailingSpace(s) > 0 then Trim(s[..|s| - TrailingSpace(s)])
    else s
  }

  /** The characters of the basic plane with the Unicode property White_Space. */
  predicate IsSpace(cp: nat) {
    || 0x9 <= cp <= 0xD || cp == 0x20 || cp == 0x85 || cp == 0xA0 || cp == 0x1680 || 0x2000 <= cp <= 0x200A
    || cp == 0x2028 || cp == 0x2029 || cp == 0x202F || cp == 0x205F || cp == 0x3000
  }

  /** UTF-8, up to three bytes. */
  function Utf8(cp: nat): seq<int>
    requires cp < 0x10000
  {
    if cp < 0x80 then [cp]
    else if cp < 0x800 then [0xC0 + cp / 64, 0x80 + cp % 64]
    else [0xE0 + cp / 4096, 0x80 + cp / 64 % 64, 0x80 + cp % 64]
  }

  /** The white space the observer trims is exactly the encoding of those characters. */
  lemma SpacesAreWhiteSpace(a: byte, b: byte, c: byte)
    ensures AsciiSpace(a) <==> exists cp: nat :: cp < 0x80 && IsSpace(cp) && Utf8(cp) == [a as int]
    ensures UnicodeSpace2(a, b) <==>
      exists cp: nat :: 0x80 <= cp < 0x800 && IsSpace(cp) && Utf8(cp) == [a as int, b as int]
    ensures UnicodeSpace3(a, b, c) <==>
      exists cp: nat :: 0x800 <= cp < 0x10000 && IsSpace(cp) && Utf8(cp) == [a as int, b as int, c as int]
  {
    if AsciiSpace(a) {
      assert Utf8(a as int) == [a as int];
    }
    if UnicodeSpace2(a, b) {
      assert Utf8(b as int) == [a as int, b as int];
    }
    if UnicodeSpace3(a, b, c) {
      var cp := (a as int - 0xE0) * 4096 + (b as int - 0x80) * 64 + (c as int - 0x80);
      assert Utf8(cp) == [a as int, b as int, c as int];
    }
  }

  /** One white-space character. */
  predicate SpaceChar(c: seq<byte>) {
    || (|c| == 1 && AsciiSpace(c[0]))
    || (|c| == 2 && UnicodeSpace2(c[0], c[1]))
    || (|c| == 3 && UnicodeSpace3(c[0], c[1], c[2]))
  }

  /** Nothing but white space. */
  predicate SpaceRun(s: seq<byte>)
    decreases |s|
  {
    s == [] || exists k :: 0 < k <= |s| && SpaceChar(s[..k]) && SpaceRun(s[k..])
  }

  lemma {:induction false} SpaceRunGrows(s: seq<byte>, c: seq<byte>)
    requires SpaceRun(s) && SpaceChar(c)
    ensures SpaceRun(s + c)
    decreases |s|
  {
    hide SpaceChar;
    if s == [] {
      assert s + c == c && c[..|c|] == c && c[|c|..] == [];
      SpaceCharIsSome(c);
      assert SpaceRun(c[|c|..]);
    } else {
      var k :| 0 < k <= |s| && SpaceChar(s[..k]) && SpaceRun(s[k..]);
      SpaceRunGrows(s[k..], c);
      assert (s + c)[..k] == s[..k] && (s + c)[k..] == s[k..] + c;
    }
  }

  lemma SpaceCharIsSome(c: seq<byte>)
    ensures SpaceChar(c) ==> c != []
  {}

  lemma SpaceRunStarts(c: seq<byte>, s: seq<byte>)
    requires SpaceChar(c) && SpaceRun(s)
    ensures SpaceRun(c + s)
  {
    hide SpaceChar;
    SpaceCharIsSome(c);
    assert (c + s)[..|c|] == c && (c + s)[|c|..] == s;
  }

  lemma EndsAreSpace(s: seq<byte>)
    ensures LeadingSpace(s) > 0 ==> SpaceChar(s[..LeadingSpace(s)])
    ensures TrailingSpace(s) > 0 ==> SpaceChar(s[|s| - TrailingSpace(s)..])
  {}

  /** s without its ends: n bytes of white space before, everything from m on after. */
  ghost predicate Trims(s: seq<byte>, n: nat, m: nat, t: seq<byte>) {
    n <= m <= |s| && t == s[n..m] && SpaceRun(s[..n]) && SpaceRun(s[m..])
  }

  lemma TrimsFront(s: seq<byte>, k: nat, n: nat, m: nat, t: seq<byte>)
    requires k <= |s| && SpaceChar(s[..k]) && Trims(s[k..], n, m, t)
    ensures Trims(s, n + k, m + k, t)
  {
    hide SpaceChar, SpaceRun;
    assert s[..n + k] == s[..k] + s[k..][..n];
    SpaceRunStarts(s[..k], s[k..][..n]);
    assert s[m + k..] == s[k..][m..] && s[n + k..m + k] == s[k..][n..m];
  }

  lemma TrimsBack(s: seq<byte>, l: nat, n: nat, m: nat, t: seq<byte>)
    requires l <= |s| && SpaceChar(s[|s| - l..]) && Trims(s[..|s| - l], n, m, t)
    ensures Trims(s, n, m, t)
  {
    hide SpaceChar, SpaceRun;
    var front := s[..|s| - l];
    assert s[m..] == front[m..] + s[|s| - l..] && s[..n] == front[..n] && s[n..m] == front[n..m];
    SpaceRunGrows(front[m..], s[|s| - l..]);
  }

  lemma TrimsNothing(s: seq<byte>)
    ensures Trims(s, 0, |s|, s)
  {
    assert s[..0] == [] && s[|s|..] == [] && s[0..|s|] == s;
  }

  /** Trimming takes white space from both ends, all of it, and nothing else. */
  lemma {:induction false} TrimTakesAllSpace(s: seq<byte>) returns (n: nat, m: nat)
    ensures Trims(s, n, m, Trim(s))
    ensures LeadingSpace(Trim(s)) == 0 && TrailingSpace(Trim(s)) == 0
    decreases |s|
  {
    hide LeadingSpace, TrailingSpace, SpaceChar, SpaceRun, Trims;
    EndsAreSpace(s);
    var k, l := LeadingSpace(s), TrailingSpace(s);
    if k > 0 {
      n, m := TrimTakesAllSpace(s[k..]);
      TrimsFront(s, k, n, m, Trim(s));
      n, m := n + k, m + k;
    } else if l > 0 {
      n, m := TrimTakesAllSpace(s[..|s| - l]);
      TrimsBack(s, l, n, m, Trim(s));
    } else {
      n, m := 0, |s|;
      TrimsNothing(s);
    }
  }

  const DONE: seq<byte> := "[DONE]"

  /** What the observer keeps of a usage object. */
  ghost predicate Keeps(kept: Usage, u: Usage) {
    forall k: string ::
      && (k in kept <==>
            k in u && u[k] >= 0 && (k == "prompt_tokens" || k == "completion_tokens" || k == "total_tokens"))
      && (k in kept ==> kept[k] == u[k])
  }

  /** Usage keeps the three known keys with nonnegative counts, unchanged. */
  function Counts(u: Usage): (kept: Usage)
    ensures GoodUsage(kept) && Keeps(kept, u)
  {
    map k | k in u && k in USAGE_KEYS && u[k] >= 0 :: u[k]
  }

  predicate Fails(decode: Decoder, doc: seq<byte>) {
    doc in decode && decode[doc].error
  }

  function DocUsage(decode: Decoder, doc: seq<byte>): Usage {
    if doc in decode then Counts(decode[doc].usage) else map[]
  }

  /** The usage object has something to report. */
  predicate Reports(u: Usage) {
    || ("prompt_tokens" in u && u["prompt_tokens"] >= 0)
    || ("completion_tokens" in u && u["completion_tokens"] >= 0)
    || ("total_tokens" in u && u["total_tokens"] >= 0)
  }

  /** What a document reports: its own counts, of the three keys. */
  lemma DocUsageIsItsOwn(decode: Decoder, doc: seq<byte>)
    ensures DocUsage(decode, doc) != map[] <==> doc in decode && Reports(decode[doc].usage)
    ensures doc in decode ==> Keeps(DocUsage(decode, doc), decode[doc].usage)
  {
    if doc in decode {
      var u, kept := decode[doc].usage, Counts(decode[doc].usage);
      if kept != map[] {
        var k :| k in kept;
      }
      assert "prompt_tokens" in kept || "completion_tokens" in kept || "total_tokens" in kept <==> Reports(u);
    }
  }

  ghost predicate MarksDone(e: seq<Line>) {
    !Ignored(e) && Trim(EventData(e)) == DONE
  }

  ghost predicate MarksFailed(decode: Decoder, e: seq<Line>) {
    !Ignored(e) && Trim(EventData(e)) != DONE && Fails(decode, Trim(EventData(e)))
  }

  ghost function EventUsage(decode: Decoder, e: seq<Line>): Usage {
    if Ignored(e) || Trim(EventData(e)) == DONE then map[] else DocUsage(decode, Trim(EventData(e)))
  }

  // ---- a whole stream ----

  ghost predicate Done(s: seq<byte>) {
    exists i :: 0 <= i < |Events(Lines(s))| && MarksDone(Events(Lines(s))[i])
  }

  ghost predicate Failed(decode: Decoder, s: seq<byte>) {
    exists i :: 0 <= i < |Events(Lines(s))| && MarksFailed(decode, Events(Lines(s))[i])
  }

  /** The last nonempty usage wins. */
  ghost function LastUsage(decode: Decoder, es: seq<seq<Line>>): Usage {
    if es == [] then map[]
    else
      var u := EventUsage(decode, es[|es| - 1]);
      if u != map[] then u else LastUsage(decode, es[..|es| - 1])
  }

  ghost function StreamUsage(decode: Decoder, s: seq<byte>): Usage {
    LastUsage(decode, Events(Lines(s)))
  }

  /** A stream that counts as a success: it was finished and reported no error. */
  ghost predicate Succeeds(decode: Decoder, s: seq<byte>) {
    Done(s) && !Failed(decode, s)
  }

  // ---- how the specification grows with the stream ----

  lemma LinesSnoc(s: seq<byte>, b: byte)
    ensures Lines(s + [b]) == if b == LF then Lines(s) + [ReadLine(Rest(s))] else Lines(s)
    ensures Rest(s + [b]) == if b == LF then [] else Rest(s) + [b]
  {
    assert (s + [b])[..|s|] == s;
  }

  lemma RawLinesSnoc(s: seq<byte>, b: byte)
    ensures RawLines(s + [b]) == if b == LF then RawLines(s) + [Rest(s)] else RawLines(s)
  {
    assert (s + [b])[..|s|] == s;
  }

  lemma EventsSnoc(ls: seq<Line>, l: Line)
    ensures Events(ls + [l]) == if l.Blank() then Events(ls) + [OpenEvent(ls)] else Events(ls)
    ensures OpenEvent(ls + [l]) == if l.Blank() then [] else OpenEvent(ls) + [l]
  {
    assert (ls + [l])[..|ls|] == ls;
  }

  lemma EventDataSnoc(e: seq<Line>, l: Line)
    ensures EventData(e + [l]) ==
      match Payload(l) case None => EventData(e) case Some(data) => EventData(e) + data + [LF]
    ensures Ignored(e + [l]) <==> Ignored(e) || l.long || |EventData(e + [l])| > EVENT_LIMIT
  {
    assert (e + [l])[..|e|] == e;
    if Ignored(e) && |EventData(e)| <= EVENT_LIMIT {
      var i :| 0 <= i < |e| && e[i].long;
      assert (e + [l])[i].long;
    }
    if l.long {
      assert (e + [l])[|e|].long;
    }
  }

  /** What a line that is not over-long does to the event it joins. */
  lemma EventGrows(e: seq<Line>, l: Line)
    requires !l.long
    ensures Payload(l) == None ==> EventData(e + [l]) == EventData(e) && Ignored(e + [l]) == Ignored(e)
    ensures Payload(l).Some? ==>
      && EventData(e + [l]) == EventData(e) + Payload(l).value + [LF]
      && Ignored(e + [l]) == (Ignored(e) || |EventData(e)| + |Payload(l).value| > LINE_LIMIT)
  {
    EventDataSnoc(e, l);
  }

  lemma VerdictSame(decode: Decoder, s: seq<byte>, t: seq<byte>)
    requires Events(Lines(t)) == Events(Lines(s))
    ensures Done(t) == Done(s) && Failed(decode, t) == Failed(decode, s)
    ensures StreamUsage(decode, t) == StreamUsage(decode, s)
  {
    hide MarksDone, MarksFailed;
  }

  /** One more event adds its own verdict and changes no other. */
  lemma VerdictSnoc(decode: Decoder, s: seq<byte>, t: seq<byte>, e: seq<Line>)
    requires Events(Lines(t)) == Events(Lines(s)) + [e]
    ensures Done(t) <==> Done(s) || MarksDone(e)
    ensures Failed(decode, t) <==> Failed(decode, s) || MarksFailed(decode, e)
    ensures StreamUsage(decode, t) ==
      if EventUsage(decode, e) != map[] then EventUsage(decode, e) else StreamUsage(decode, s)
  {
    var es, ft := Events(Lines(s)), Events(Lines(t));
    assert ft[..|es|] == es && ft[|es|] == e;
    assert forall i | 0 <= i < |es| :: ft[i] == es[i];
  }

  /** An LF-free line followed by LF, at the start of a line, adds exactly that line. */
  lemma {:induction false} WholeLine(s: seq<byte>, raw: seq<byte>)
    requires Rest(s) == [] && LF !in raw
    ensures Lines(s + raw + [LF]) == Lines(s) + [ReadLine(raw)]
    ensures Rest(s + raw + [LF]) == []
  {
    PartialLine(s, raw);
    LinesSnoc(s + raw, LF);
  }

  lemma {:induction false} PartialLine(s: seq<byte>, raw: seq<byte>)
    requires Rest(s) == [] && LF !in raw
    ensures Lines(s + raw) == Lines(s) && Rest(s + raw) == raw
  {
    hide Lines, Rest;
    if raw == [] {
      assert s + raw == s;
    } else {
      var front := raw[..|raw| - 1];
      PartialLine(s, front);
      assert s + raw == (s + front) + [raw[|raw| - 1]];
      assert raw[|raw| - 1] in raw;
      LinesSnoc(s + front, raw[|raw| - 1]);
      assert raw == front + [raw[|raw| - 1]];
    }
  }

  // ---- how much data an event can hold ----

  /** The payload bytes of an event's data lines. */
  function PayloadBytes(e: seq<Line>): nat {
    if e == [] then 0
    else
      PayloadBytes(e[..|e| - 1]) +
      match Payload(e[|e| - 1]) case None => 0 case Some(data) => |data|
  }

  function DataLines(e: seq<Line>): nat {
    if e == [] then 0 else DataLines(e[..|e| - 1]) + if Payload(e[|e| - 1]).Some? then 1 else 0
  }

  lemma {:induction false} EventDataSize(e: seq<Line>)
    ensures |EventData(e)| == PayloadBytes(e) + DataLines(e)
  {
    if e != [] {
      EventDataSize(e[..|e| - 1]);
    }
  }

  /** An event is judged on more than 65536 bytes of data exactly when no line of it is over-long and
      its payloads and their line feeds make 65537. */
  lemma JudgedEventExceedsExactly(e: seq<Line>)
    ensures !Ignored(e) && |EventData(e)| > LINE_LIMIT <==>
      (forall i | 0 <= i < |e| :: !e[i].long) && PayloadBytes(e) + DataLines(e) == EVENT_LIMIT
  {
    hide PayloadBytes, DataLines, EventData;
    EventDataSize(e);
  }

  /** A data line takes a judged event past 65536 bytes exactly when its payload fills the limit to the
      byte, so that the test passes and the line feed is added after it. */
  lemma LastLineExceedsExactly(e: seq<Line>, l: Line)
    requires Payload(l).Some?
    ensures !Ignored(e + [l]) && |EventData(e + [l])| > LINE_LIMIT <==>
      !Ignored(e) && |EventData(e)| + |Payload(l).value| == LINE_LIMIT
  {
    hide EventData, Ignored;
    EventGrows(e, l);
    IgnoredIsOver(e + [l]);
  }

  lemma IgnoredIsOver(e: seq<Line>)
    ensures !Ignored(e) ==> |EventData(e)| <= EVENT_LIMIT
  {}

  /** It does happen: a stream after which the event being collected holds 65537 bytes and is judged. */
  lemma {:induction false} EventReachesTheLimit()
    ensures exists s: seq<byte> :: !Ignored(OpenEvent(Lines(s))) && |EventData(OpenEvent(Lines(s)))| == EVENT_LIMIT
  {
    hide Lines, OpenEvent, EventData, Ignored;
    var a: seq<byte> := seq(40000, _ => 'a');
    var b: seq<byte> := seq(25535, _ => 'b');
    TwoDataLines(a, b);
  }

  predicate Text(data: seq<byte>) {
    0 < |data| < 60000 && forall i | 0 <= i < |data| :: data[i] != LF && data[i] != CR && data[i] != ' '
  }

  lemma TextIsPayload(data: seq<byte>)
    requires Text(data)
    ensures
      var raw := DATA + data;
      LF !in raw && ReadLine(raw) == Line(raw, false) && Payload(ReadLine(raw)) == Some(data)
  {
    var raw := DATA + data;
    assert LF !in DATA && raw[|raw| - 1] == data[|data| - 1];
    assert raw[|DATA|..] == data;
  }

  lemma TwoDataLines(a: seq<byte>, b: seq<byte>)
    requires Text(a) && Text(b) && |a| + |b| == LINE_LIMIT - 1
    ensures
      var s := DATA + a + [LF] + (DATA + b) + [LF];
      !Ignored(OpenEvent(Lines(s))) && |EventData(OpenEvent(Lines(s)))| == EVENT_LIMIT
  {
    hide Lines, Rest, Events, OpenEvent, EventData, Ignored, Payload, ReadLine, Text;
    var s := DATA + a + [LF];
    TextIsPayload(a);
    TextIsPayload(b);
    Nothing();
    assert [] + (DATA + a) + [LF] == s;
    WholeLine([], DATA + a);
    WholeLine(s, DATA + b);
    var l, m := ReadLine(DATA + a), ReadLine(DATA + b);
    assert [] + [l] == [l] && [l] + [m] == [l, m];
    TwoLineEvent(l, m);
    EventGrows([], l);
    EventGrows([l], m);
  }

  // ---- the interruption tail ----

  const TAIL_HEAD: seq<byte> := "{\"error\":{\"type\":\"relay_error\","
  const TAIL_CODE: seq<byte> := "\"code\":\"stream_interrupted\","
  const TAIL_END: seq<byte> := "\"message\":\"stream interrupted\"}}"
  const TAIL_JSON: seq<byte> := TAIL_HEAD + TAIL_CODE + TAIL_END
  const FIELD: seq<byte> := "data: "
  const TAIL_LINE: seq<byte> := FIELD + TAIL_JSON
  const TAIL: seq<byte> := [LF, LF] + TAIL_LINE + [LF, LF]

  /** The tail, byte for byte. */
  lemma TailIsAsWritten()
    ensures TAIL_JSON ==
      "{\"error\":{\"type\":\"relay_error\"," + "\"code\":\"stream_interrupted\"," +
      "\"message\":\"stream interrupted\"}}"
    ensures TAIL == "\n\n" + ("data: " + TAIL_JSON) + "\n\n"
  {}

  /** The one fact about JSON that is needed: the tail's document has a non-null error. */
  ghost predicate ReadsTail(decode: Decoder) {
    Fails(decode, TAIL_JSON)
  }

  /** A document that starts and ends with a printing ASCII character and fits on one line. */
  ghost predicate Plain(doc: seq<byte>) {
    && 0 < |doc| <= 1000 && LF !in doc && doc[|doc| - 1] != CR
    && 32 < doc[0] as int < 127 && 32 < doc[|doc| - 1] as int < 127
  }

  lemma TailIsPlain()
    ensures Plain(TAIL_JSON) && TAIL_JSON != DONE
  {
    assert LF !in TAIL_HEAD;
    assert LF !in TAIL_CODE;
    assert LF !in TAIL_END;
    assert TAIL_JSON[0] == TAIL_HEAD[0] == '{';
    assert TAIL_JSON[|TAIL_JSON| - 1] == TAIL_END[|TAIL_END| - 1] == '}';
  }

  /** One data line makes an event that is judged by exactly its document. */
  lemma DataLineEvent(doc: seq<byte>)
    requires Plain(doc)
    ensures
      var l := ReadLine(FIELD + doc);
      && LF !in FIELD + doc
      && l == Line(FIELD + doc, false) && !l.Blank()
      && Payload(l) == Some(doc)
      && EventData([l]) == doc + [LF]
      && !Ignored([l]) && Trim(EventData([l])) == doc
  {
    var text := FIELD + doc;
    var l := ReadLine(text);
    assert LF !in FIELD;
    assert text[|text| - 1] == doc[|doc| - 1];
    assert DATA <= text && text[|DATA|..] == [' '] + doc;
    assert text[|DATA|..][1..] == doc;
    assert [l][..0] == [];
    assert EventData([]) + doc + [LF] == doc + [LF];
    TrimsTo(doc);
  }

  lemma TrimsTo(doc: seq<byte>)
    requires Plain(doc)
    ensures Trim(doc + [LF]) == doc
  {
    assert (doc + [LF])[..|doc|] == doc;
    assert LeadingSpace(doc + [LF]) == 0 && TrailingSpace(doc + [LF]) == 1;
    assert LeadingSpace(doc) == 0 && TrailingSpace(doc) == 0;
  }

  /** One event with one data line adds exactly what its document says: that the stream is done, that it
      failed, or the counts of its usage object. */
  lemma DataEventIsJudged(decode: Decoder, s: seq<byte>, doc: seq<byte>)
    requires Rest(s) == [] && OpenEvent(Lines(s)) == [] && Plain(doc)
    ensures
      var t := s + (FIELD + doc) + [LF] + [LF];
      && (Done(t) <==> Done(s) || doc == "[DONE]")
      && (Failed(decode, t) <==> Failed(decode, s) || (doc != "[DONE]" && doc in decode && decode[doc].error))
      && if doc != "[DONE]" && doc in decode && Reports(decode[doc].usage)
         then Keeps(StreamUsage(decode, t), decode[doc].usage)
         else StreamUsage(decode, t) == StreamUsage(decode, s)
  {
    hide Lines, Rest, Events, OpenEvent, EventData, Ignored, Trim, Done, Failed, StreamUsage, ReadLine, Payload;
    var l := ReadLine(FIELD + doc);
    var u := s + (FIELD + doc) + [LF];
    var t := u + [LF];
    DataLineEvent(doc);
    WholeLine(s, FIELD + doc);
    EventsSnoc(Lines(s), l);
    LinesSnoc(u, LF);
    BlankLine();
    EventsSnoc(Lines(u), ReadLine([]));
    assert [] + [l] == [l];
    VerdictSnoc(decode, s, t, [l]);
    DocUsageIsItsOwn(decode, doc);
  }

  lemma BlankLine()
    ensures ReadLine([]).Blank()
  {}

  /** After any bytes whatever, mid-line, over-long line or ignored event included, the tail is
      read as an event of its own: its two line feeds close what was open, what follows adds one
      event with the tail's line alone, and nothing is left open. */
  lemma TailIsItsOwnEvent(s: seq<byte>)
    ensures Events(Lines(s + TAIL)) == Events(Lines(s + [LF] + [LF])) + [[ReadLine(TAIL_LINE)]]
    ensures Rest(s + TAIL) == [] && OpenEvent(Lines(s + TAIL)) == []
  {
    hide Lines, Rest, Events, OpenEvent, EventData, Trim;
    var s1 := s + [LF];
    var s2 := s1 + [LF];
    var s3 := s2 + TAIL_LINE + [LF];
    var s4 := s3 + [LF];
    assert s + TAIL == s4;
    TailIsPlain();
    DataLineEvent(TAIL_JSON);
    LinesSnoc(s, LF);
    LinesSnoc(s1, LF);
    assert ReadLine([]).Blank();
    EventsSnoc(Lines(s1), ReadLine([]));
    WholeLine(s2, TAIL_LINE);
    EventsSnoc(Lines(s2), ReadLine(TAIL_LINE));
    LinesSnoc(s3, LF);
    EventsSnoc(Lines(s3), ReadLine([]));
    assert [] + [ReadLine(TAIL_LINE)] == [ReadLine(TAIL_LINE)];
  }

  /** That event is judged on the tail's document, which marks the stream failed. */
  lemma TailMarksFailed(decode: Decoder, s: seq<byte>)
    requires ReadsTail(decode)
    ensures MarksFailed(decode, [ReadLine(TAIL_LINE)])
    ensures Failed(decode, s + TAIL) && !Succeeds(decode, s + TAIL)
  {
    hide Lines, Rest, Events, OpenEvent, EventData, Trim, Done, Failed, StreamUsage;
    TailIsPlain();
    DataLineEvent(TAIL_JSON);
    TailIsItsOwnEvent(s);
    VerdictSnoc(decode, s + [LF] + [LF], s + TAIL, [ReadLine(TAIL_LINE)]);
  }

  // ---- line endings ----

  /** Every LF written as CR LF. */
  function Crlf(s: seq<byte>): seq<byte> {
    if s == [] then []
    else if s[|s| - 1] == LF then Crlf(s[..|s| - 1]) + [CR, LF]
    else Crlf(s[..|s| - 1]) + [s[|s| - 1]]
  }

  /** A line of exactly the limit: within it when it ends in LF, over it when it ends in CR LF. */
  predicate AtLimit(l: Line) {
    |l.text| == LINE_LIMIT
  }

  /** The line as it is read with a CR before its LF. */
  function WithCr(l: Line): Line {
    Line(l.text, l.long || AtLimit(l))
  }

  function AllWithCr(ls: seq<Line>): (r: seq<Line>)
    ensures |r| == |ls| && forall i | 0 <= i < |ls| :: r[i] == WithCr(ls[i])
  {
    if ls == [] then [] else AllWithCr(ls[..|ls| - 1]) + [WithCr(ls[|ls| - 1])]
  }

  function EventsWithCr(es: seq<seq<Line>>): (r: seq<seq<Line>>)
    ensures |r| == |es| && forall i | 0 <= i < |es| :: r[i] == AllWithCr(es[i])
  {
    if es == [] then [] else EventsWithCr(es[..|es| - 1]) + [AllWithCr(es[|es| - 1])]
  }

  predicate TouchesLimit(e: seq<Line>) {
    exists i :: 0 <= i < |e| && AtLimit(e[i])
  }

  /** The events without a line of exactly the limit. */
  function Untouched(es: seq<seq<Line>>): seq<seq<Line>> {
    if es == [] then []
    else
      var front := Untouched(es[..|es| - 1]);
      if TouchesLimit(es[|es| - 1]) then front else front + [es[|es| - 1]]
  }

  lemma ReadLineCr(raw: seq<byte>)
    requires CR !in raw
    ensures ReadLine(raw) == Line(raw, |raw| > LINE_LIMIT)
    ensures ReadLine(raw + [CR]) == WithCr(ReadLine(raw))
  {
    assert (raw + [CR])[..|raw|] == raw;
    assert raw != [] ==> raw[|raw| - 1] in raw;
  }

  lemma NothingCrlf()
    ensures Crlf([]) == [] && RawLines([]) == [] && Lines([]) == [] && Rest([]) == []
  {}

  /** What CR LF makes of the lines of a stream without CR. */
  lemma {:induction false} CrlfLines(s: seq<byte>)
    requires CR !in s
    ensures Lines(Crlf(s)) == AllWithCr(Lines(s))
    ensures Rest(Crlf(s)) == Rest(s) && CR !in Rest(s)
    ensures |Lines(s)| == |RawLines(s)|
    ensures forall i | 0 <= i < |RawLines(s)| :: Lines(s)[i] == Line(RawLines(s)[i], |RawLines(s)[i]| > LINE_LIMIT)
  {
    hide Lines, Rest, Crlf, RawLines, AllWithCr, WithCr, ReadLine;
    if s == [] {
      NothingCrlf();
    } else {
      var front, b := s[..|s| - 1], s[|s| - 1];
      assert s == front + [b] && b in s;
      CrlfLines(front);
      CrlfStep(front, b);
      LinesSnoc(front, b);
      RawLinesSnoc(front, b);
      if b == LF {
        LinesSnoc(Crlf(front), CR);
        LinesSnoc(Crlf(front) + [CR], LF);
        ReadLineCr(Rest(front));
        assert AllWithCr(Lines(s)) == AllWithCr(Lines(front)) + [WithCr(ReadLine(Rest(front)))];
      } else {
        LinesSnoc(Crlf(front), b);
      }
    }
  }

  lemma {:induction false} CrlfEvents(ls: seq<Line>)
    ensures Events(AllWithCr(ls)) == EventsWithCr(Events(ls))
    ensures OpenEvent(AllWithCr(ls)) == AllWithCr(OpenEvent(ls))
  {
    if ls != [] {
      var front, l := ls[..|ls| - 1], ls[|ls| - 1];
      hide Events, OpenEvent;
      assert ls == front + [l] && AllWithCr(ls) == AllWithCr(front) + [WithCr(l)];
      CrlfEvents(front);
      EventsSnoc(front, l);
      EventsSnoc(AllWithCr(front), WithCr(l));
      assert l.Blank() ==> EventsWithCr(Events(ls)) == EventsWithCr(Events(front)) + [AllWithCr(OpenEvent(front))];
      assert !l.Blank() ==> AllWithCr(OpenEvent(ls)) == AllWithCr(OpenEvent(front)) + [WithCr(l)];
    }
  }

  /** CR LF changes nothing in an event without a line of exactly the limit, and spoils one with. */
  lemma CrlfEvent(e: seq<Line>)
    ensures !TouchesLimit(e) ==> AllWithCr(e) == e
    ensures TouchesLimit(e) ==> Ignored(AllWithCr(e))
  {
    if TouchesLimit(e) {
      var i :| 0 <= i < |e| && AtLimit(e[i]);
      assert AllWithCr(e)[i].long;
    } else {
      assert forall i | 0 <= i < |e| :: AllWithCr(e)[i] == e[i];
    }
  }

  lemma {:induction false} CrlfUsage(decode: Decoder, es: seq<seq<Line>>)
    ensures LastUsage(decode, EventsWithCr(es)) == LastUsage(decode, Untouched(es))
  {
    hide Ignored, EventData, Trim, AllWithCr, TouchesLimit;
    if es != [] {
      var front, e := es[..|es| - 1], es[|es| - 1];
      CrlfUsage(decode, front);
      CrlfEvent(e);
      assert EventsWithCr(es)[..|es| - 1] == EventsWithCr(front);
      assert (Untouched(front) + [e])[..|Untouched(front)|] == Untouched(front);
    }
  }

  /** The verdict on a stream without CR once every LF is written CR LF: exactly that of its events
      without a line of 65536 bytes. */
  lemma CrlfVerdict(decode: Decoder, s: seq<byte>)
    requires CR !in s
    ensures
      var es := Events(Lines(s));
      && (Done(Crlf(s)) <==> exists i :: 0 <= i < |es| && MarksDone(es[i]) && !TouchesLimit(es[i]))
      && (Failed(decode, Crlf(s)) <==>
            exists i :: 0 <= i < |es| && MarksFailed(decode, es[i]) && !TouchesLimit(es[i]))
      && StreamUsage(decode, Crlf(s)) == LastUsage(decode, Untouched(es))
  {
    hide Ignored, EventData, Trim, AllWithCr, TouchesLimit, Lines, Events, Crlf, LastUsage, Untouched;
    var es := Events(Lines(s));
    CrlfLines(s);
    CrlfEvents(Lines(s));
    CrlfUsage(decode, es);
    forall i | 0 <= i < |es|
      ensures MarksDone(EventsWithCr(es)[i]) <==> MarksDone(es[i]) && !TouchesLimit(es[i])
      ensures MarksFailed(decode, EventsWithCr(es)[i]) <==> MarksFailed(decode, es[i]) && !TouchesLimit(es[i])
    {
      CrlfEvent(es[i]);
    }
  }

  /** Without CR in the stream, LF and CR LF give the same lines exactly when no line has 65536 bytes. */
  lemma LineEndingsAgreeExactly(s: seq<byte>)
    requires CR !in s
    ensures Lines(Crlf(s)) == Lines(s) <==> forall i | 0 <= i < |RawLines(s)| :: |RawLines(s)[i]| != LINE_LIMIT
  {
    hide Lines, RawLines, Crlf, AllWithCr;
    CrlfLines(s);
    if Lines(Crlf(s)) == Lines(s) {
      forall i | 0 <= i < |RawLines(s)| ensures |RawLines(s)[i]| != LINE_LIMIT {
        assert Lines(s)[i] == WithCr(Lines(s)[i]);
      }
    }
  }

  /** And then they give the same verdict. */
  lemma LineEndingsAgree(decode: Decoder, s: seq<byte>)
    requires CR !in s
    requires forall i | 0 <= i < |RawLines(s)| :: |RawLines(s)[i]| != LINE_LIMIT
    ensures Done(Crlf(s)) == Done(s)
    ensures Failed(decode, Crlf(s)) == Failed(decode, s)
    ensures StreamUsage(decode, Crlf(s)) == StreamUsage(decode, s)
  {
    hide Lines, RawLines, Crlf, Events, Done, Failed, StreamUsage;
    LineEndingsAgreeExactly(s);
    VerdictSame(decode, s, Crlf(s));
  }

  /** With a line of 65536 bytes they need not: a comment of that length spoils a finished stream. */
  lemma {:induction false} LineEndingsDifferAtTheLimit()
    ensures exists s: seq<byte> ::
      && CR !in s && Done(s) && !Done(Crlf(s))
      && RawLines(s) != [] && |RawLines(s)[0]| == LINE_LIMIT
      && forall i | 1 <= i < |RawLines(s)| :: |RawLines(s)[i]| < LINE_LIMIT
  {
    var comment: seq<byte> := seq(LINE_LIMIT, _ => ':');
    LongCommentDiffers(comment);
  }

  ghost predicate LongComment(comment: seq<byte>) {
    |comment| == LINE_LIMIT && forall i :: 0 <= i < |comment| ==> comment[i] == ':'
  }

  lemma LongCommentDiffers(comment: seq<byte>)
    requires LongComment(comment)
    ensures
      var s := comment + [LF] + (FIELD + DONE) + [LF] + [LF];
      && CR !in s && Done(s) && !Done(Crlf(s))
      && |RawLines(s)| == 3 && |RawLines(s)[0]| == LINE_LIMIT
      && |RawLines(s)[1]| < LINE_LIMIT && |RawLines(s)[2]| < LINE_LIMIT
  {
    hide Lines, Rest, RawLines, Events, OpenEvent, EventData, Ignored, Trim, Crlf;
    var mark := FIELD + DONE;
    var s := comment + [LF] + mark + [LF] + [LF];
    DoneIsPlain();
    DataLineEvent(DONE);
    assert CR !in FIELD && CR !in DONE && CR !in comment;
    LongCommentEvents(comment, mark);
    var l, m := ReadLine(comment), ReadLine(mark);
    ReadLineCr(comment);
    TwoLineData(l, m);
    assert MarksDone([l, m]);
    assert TouchesLimit([l, m]) by { assert AtLimit([l, m][0]); }
    assert Events(Lines(s))[0] == [l, m];
    CrlfVerdict(imap[], s);
    CrlfLines(s);
    ReadLineCr(mark);
    assert Lines(s)[0] == l && Lines(s)[1] == m && Lines(s)[2] == ReadLine([]);
  }

  /** The stream is one event of two lines. */
  lemma LongCommentEvents(comment: seq<byte>, mark: seq<byte>)
    requires LongComment(comment) && LF !in mark && mark != [] && CR !in mark
    ensures
      var l, m := ReadLine(comment), ReadLine(mark);
      var s := comment + [LF] + mark + [LF] + [LF];
      && l == Line(comment, false) && Payload(l) == None
      && Lines(s) == [l, m, ReadLine([])] && Events(Lines(s)) == [[l, m]]
  {
    hide Lines, Rest, Events, OpenEvent, EventData;
    var a := comment + [LF];
    var b := a + mark + [LF];
    assert [] + comment + [LF] == a;
    Nothing();
    WholeLine([], comment);
    WholeLine(a, mark);
    LinesSnoc(b, LF);
    ReadLineCr(comment);
    ReadLineCr(mark);
    var l, m := ReadLine(comment), ReadLine(mark);
    assert Payload(l) == None by { assert comment[0] == ':' != DATA[0]; }
    assert [l, m, ReadLine([])] == [l, m] + [ReadLine([])];
    TwoLineEvent(l, m);
    EventsSnoc([l, m], ReadLine([]));
  }

  lemma DoneIsPlain()
    ensures Plain(DONE)
  {
    assert DONE[0] == '[' && DONE[5] == ']';
  }

  lemma TwoLineData(l: Line, m: Line)
    requires !l.long && !m.long && Payload(l) == None && Payload(m) == Some(DONE)
    ensures EventData([l, m]) == DONE + [LF] && !Ignored([l, m])
  {
    assert [l, m] == [l] + [m] && [l] == [] + [l];
    EventDataSnoc([], l);
    EventDataSnoc([l], m);
    assert [] + DONE + [LF] == DONE + [LF];
  }

  lemma Nothing()
    ensures Lines([]) == [] && Rest([]) == []
    ensures EventData([]) == [] && !Ignored([])
  {}

  lemma TwoLineEvent(l: Line, m: Line)
    requires !l.Blank() && !m.Blank()
    ensures Events([l, m]) == [] && OpenEvent([l, m]) == [l, m]
  {
    assert [l] == [] + [l] && [l, m] == [l] + [m];
    EventsSnoc([], l);
    EventsSnoc([l], m);
  }

  lemma CrlfStep(s: seq<byte>, b: byte)
    ensures Crlf(s + [b]) == if b == LF then Crlf(s) + [CR] + [LF] else Crlf(s) + [b]
  {
    assert (s + [b])[..|s|] == s;
    assert Crlf(s) + [CR, LF] == Crlf(s) + [CR] + [LF];
  }
}

module Observer {
  import opened Types
  import opened ObserverSpec

  /** The line being collected after the bytes fed. */
  ghost predicate LineState(buffer: seq<byte>, discardLine: bool, fed: seq<byte>) {
    && discardLine == (|Rest(fed)| > LINE_LIMIT)
    && buffer == if discardLine then Rest(fed)[..LINE_LIMIT] else Rest(fed)
  }

  /** The event being collected after the lines read. */
  ghost predicate EventState(event: seq<byte>, discardEvent: bool, lines: seq<Line>) {
    && discardEvent == Ignored(OpenEvent(lines))
    && (!discardEvent ==> event == EventData(OpenEvent(lines)))
    && |event| <= EVENT_LIMIT
  }

  /** The verdict on the bytes fed. */
  ghost predicate Verdict(decode: Decoder, done: bool, failed: bool, usage: Usage, fed: seq<byte>) {
    && done == Done(fed)
    && failed == Failed(decode, fed)
    && usage == StreamUsage(decode, fed)
  }

  /** An over-long line leaves the verdict alone and spoils the event it is in. */
  lemma SkipLine(decode: Decoder, fed: seq<byte>, done: bool, failed: bool, usage: Usage)
    requires |Rest(fed)| > LINE_LIMIT && Verdict(decode, done, failed, usage, fed)
    ensures Verdict(decode, done, failed, usage, fed + [LF])
    ensures Ignored(OpenEvent(Lines(fed + [LF])))
  {
    LinesSnoc(fed, LF);
    EventsSnoc(Lines(fed), ReadLine(Rest(fed)));
    EventDataSnoc(OpenEvent(Lines(fed)), ReadLine(Rest(fed)));
  }

  /** The observer object. Fed is every byte it was given, however the caller cut them. */
  class Observer {
    const stream: bool
    const decode: Decoder
    var done: bool
    var failed: bool
    var usage: Usage
    var buffer: seq<byte>
    var event: seq<byte>
    var discardLine: bool
    var discardEvent: bool
    var overflow: bool
    ghost var Fed: seq<byte>

    ghost predicate Valid()
      reads this
    {
      if stream then (
        && LineState(buffer, discardLine, Fed)
        && EventState(event, discardEvent, Lines(Fed))
        && Verdict(decode, done, failed, usage, Fed))
      else
        && overflow == (|Fed| > BODY_LIMIT)
        && buffer == if overflow then [] else Fed
    }

    constructor (stream: bool, decode: Decoder)
      ensures Valid() && Fed == [] && this.stream == stream && this.decode == decode
      ensures !done && !failed && usage == map[]
    {
      this.stream, this.decode := stream, decode;
      done, failed, usage, buffer, event := false, false, map[], [], [];
      discardLine, discardEvent, overflow := false, false, false;
      Fed := [];
    }

    /** After any sequence of Feed calls the verdict is that of the whole stream. */
    method Feed(p: seq<byte>)
      requires Valid()
      modifies this
      ensures Valid() && Fed == old(Fed) + p
      ensures stream ==> done == Done(old(Fed) + p) && failed == Failed(decode, old(Fed) + p)
      ensures stream ==> usage == StreamUsage(decode, old(Fed) + p)
      ensures stream ==> |buffer| <= 65536 && |event| <= 65537
      ensures !stream ==> |buffer| <= 1048576 && done == old(done) && failed == old(failed) && usage == old(usage)
    {
      hide Lines, Rest, Events, OpenEvent, EventData, Ignored, Done, Failed, StreamUsage;
      if !stream {
        Fed := Fed + p;
        if overflow {
          return;
        }
        if |buffer| + |p| > BODY_LIMIT {
          buffer := [];
          overflow := true;
          return;
        }
        buffer := buffer + p;
        return;
      }
      var i := 0;
      while i < |p|
        invariant 0 <= i <= |p|
        invariant Valid() && Fed == old(Fed) + p[..i]
      {
        FeedByte(p[i]);
        assert old(Fed) + p[..i + 1] == (old(Fed) + p[..i]) + [p[i]];
        i := i + 1;
      }
      assert p[..i] == p;
    }

    /** One pass of the byte loop of Feed. */
    method FeedByte(b: byte)
      requires stream && Valid()
      modifies this
      ensures Valid() && Fed == old(Fed) + [b]
    {
      hide Lines, Rest, Events, OpenEvent, EventData, Ignored, Done, Failed, StreamUsage, Trim;
      LinesSnoc(Fed, b);
      if b != LF {
        VerdictSame(decode, Fed, Fed + [b]);
      }
      if b == LF {
        if discardLine {
          SkipLine(decode, Fed, done, failed, usage);
          discardEvent := true;
        } else {
          TakeLine(if buffer != [] && buffer[|buffer| - 1] == CR then buffer[..|buffer| - 1] else buffer);
        }
        buffer := [];
        discardLine := false;
      } else if |buffer| < LINE_LIMIT {
        buffer := buffer + [b];
      } else {
        discardLine := true;
      }
      Fed := Fed + [b];
    }

    /** Handles one complete line that was not over-long. */
    method TakeLine(text: seq<byte>)
      requires stream && EventState(event, discardEvent, Lines(Fed)) && Verdict(decode, done, failed, usage, Fed)
      requires ReadLine(Rest(Fed)) == Line(text, false)
      modifies this
      ensures Fed == old(Fed) && buffer == old(buffer) && discardLine == old(discardLine)
      ensures EventState(event, discardEvent, Lines(Fed + [LF])) && Verdict(decode, done, failed, usage, Fed + [LF])
    {
      hide Lines, Rest, Events, OpenEvent, EventData, Ignored, Done, Failed, StreamUsage, Trim;
      ghost var e := OpenEvent(Lines(Fed));
      ghost var l := Line(text, false);
      LinesSnoc(Fed, LF);
      EventsSnoc(Lines(Fed), l);
      Nothing();
      if |text| == 0 {
        VerdictSnoc(decode, Fed, Fed + [LF], e);
        if !discardEvent {
          var data := Trim(event);
          if data == DONE {
            done := true;
          } else {
            ObserveJSON(data);
          }
        }
        event := [];
        discardEvent := false;
        return;
      }
      VerdictSame(decode, Fed, Fed + [LF]);
      EventGrows(e, l);
      if DATA <= text {
        var data := text[|DATA|..];
        if data != [] && data[0] == ' ' {
          data := data[1..];
        }
        if |event| + |data| > LINE_LIMIT {
          discardEvent := true;
          return;
        }
        event := event + data + [LF];
      }
    }

    /** Reports a decoded document: an error sticks, a nonempty usage replaces the last one. */
    method ObserveJSON(doc: seq<byte>)
      modifies this
      ensures unchanged(`done, `buffer, `event, `discardLine, `discardEvent, `overflow, `Fed)
      ensures failed == (old(failed) || Fails(decode, doc))
      ensures usage == if DocUsage(decode, doc) != map[] then DocUsage(decode, doc) else old(usage)
      ensures failed == (old(failed) || (doc in decode && decode[doc].error))
      ensures if doc in decode && Reports(decode[doc].usage)
              then Keeps(usage, decode[doc].usage)
              else usage == old(usage)
    {
      DocUsageIsItsOwn(decode, doc);
      if doc !in decode {
        return;
      }
      var parsed := decode[doc];
      if parsed.error {
        failed := true;
      }
      var kept := Counts(parsed.usage);
      if |kept| > 0 {
        usage := kept;
      }
    }

    /** A non-streaming body is judged once, whole, unless it was over 1 MiB. */
    method Finish()
      requires Valid()
      modifies this
      ensures Fed == old(Fed)
      ensures Valid() && done == old(done)
      ensures stream || |Fed| > 1048576 ==> failed == old(failed) && usage == old(usage)
      ensures !stream && |Fed| <= 1048576 ==>
        && failed == (old(failed) || (Fed in decode && decode[Fed].error))
        && usage == (if DocUsage(decode, Fed) != map[] then DocUsage(decode, Fed) else old(usage))
        && if Fed in decode && Reports(decode[Fed].usage)
           then Keeps(usage, decode[Fed].usage)
           else usage == old(usage)
    {
      if !stream && !overflow {
        ObserveJSON(buffer);
      }
    }
  }
}
