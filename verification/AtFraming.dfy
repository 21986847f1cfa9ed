/**
 What the reader gets right, and exactly when: the payloads it frames, the +CMGR
 bodies whose end it sees, and the round trip of whole message streams.
 */
module AtFraming {
  import opened Options
  import opened AtReader

  // ---- Result payloads ---------------------------------------------------------

  /**
   Read from its start, every CR is followed by some other character than LF. The
   reader takes a CR together with its follower, so it does not see the CR LF in "\r\r\n".
   */
  predicate Quiet(p: string)
    decreases |p|
  {
    p == [] || (if p[0] != CR then Quiet(p[1..]) else |p| >= 2 && p[1] != LF && Quiet(p[2..]))
  }

  lemma EmitCancel(t: string, a: Scan, p: string, rest: string)
    requires t <= p
    ensures Emit(t, a) == Scan(FOUND, p, rest) <==> a == Scan(FOUND, p[|t|..], rest)
  {
    assert t + p[|t|..] == p;
    assert (t + a.out)[|t|..] == a.out;
  }

  ghost predicate Framed(p: string, tail: string, end: EndCode) {
    UntilCrlf(p + CRLF + tail, end) == Scan(FOUND, p, tail)
  }

  lemma PlainFrames(p: string, tail: string, end: EndCode)
    requires p != [] && p[0] != CR
    ensures Framed(p, tail, end) <==> Framed(p[1..], tail, end)
  {
    var s, t := p + CRLF + tail, p[1..] + CRLF + tail;
    assert s[1..] == t && s[0] == p[0];
    EmitCancel([p[0]], UntilCrlf(t, end), p, tail);
  }

  lemma PairFrames(p: string, tail: string, end: EndCode)
    requires |p| >= 2 && p[0] == CR && p[1] != LF
    ensures Framed(p, tail, end) <==> Framed(p[2..], tail, end)
  {
    var s, t := p + CRLF + tail, p[2..] + CRLF + tail;
    assert s[1..][1..] == t && s[0] == CR && s[1..][0] == p[1];
    assert UntilCrlf(s, end) == Emit([CR, p[1]], UntilCrlf(t, end));
    assert [CR, p[1]] <= p && p[|[CR, p[1]]|..] == p[2..];
    EmitCancel([CR, p[1]], UntilCrlf(t, end), p, tail);
  }

  lemma BrokenFrames(p: string, tail: string, end: EndCode)
    requires p != [] && p[0] == CR && (|p| == 1 || p[1] == LF)
    ensures !Framed(p, tail, end)
  {
    var s := p + CRLF + tail;
    if |p| == 1 {
      assert s[1..][0] == CR;
      assert UntilCrlf(s, end).out == [CR, CR] + UntilCrlf(s[1..][1..], end).out;
    } else {
      assert s[1..][0] == LF;
      assert UntilCrlf(s, end) == AfterCr(s[1..], end);
    }
  }

  /** A payload and its CR LF are read back as that payload if and only if the payload is quiet. */
  lemma {:induction false} CrlfFramesExactlyQuiet(p: string, tail: string, end: EndCode)
    ensures UntilCrlf(p + CRLF + tail, end) == Scan(FOUND, p, tail) <==> Quiet(p)
    decreases |p|
  {
    if p == [] {
      assert (p + CRLF + tail)[1..][1..] == tail;
    } else if p[0] != CR {
      PlainFrames(p, tail, end);
      CrlfFramesExactlyQuiet(p[1..], tail, end);
    } else if |p| >= 2 && p[1] != LF {
      PairFrames(p, tail, end);
      CrlfFramesExactlyQuiet(p[2..], tail, end);
    } else {
      BrokenFrames(p, tail, end);
    }
  }

  predicate Free(p: string) {
    forall i :: 0 <= i < |p| ==> p[i] != CR
  }

  lemma {:induction false} FreeIsQuiet(p: string)
    requires Free(p)
    ensures Quiet(p)
  {
    if p != [] {
      FreeIsQuiet(p[1..]);
    }
  }

  lemma CrlfFrames(p: string, tail: string, end: EndCode)
    requires Free(p)
    ensures UntilCrlf(p + CRLF + tail, end) == Scan(FOUND, p, tail)
  {
    FreeIsQuiet(p);
    CrlfFramesExactlyQuiet(p, tail, end);
  }

  // ---- +CMGR bodies, line by line ------------------------------------------------

  /** Lines, each ended by CR LF. */
  function Lines(lines: seq<string>): string {
    if lines == [] then [] else lines[0] + CRLF + Lines(lines[1..])
  }

  ghost predicate AllFree(lines: seq<string>) {
    forall i :: 0 <= i < |lines| ==> Free(lines[i])
  }

  /** What the search for OK has seen, at the start of a line. */
  datatype Mode = Swallow    // the next line is passed over whatever it is
                | Ready      // the previous line has ended
                | AfterBlank // an empty line, which may begin the terminator

  /** The search as a three-state machine over lines: how many lines it takes to find OK. */
  function Search(mode: Mode, lines: seq<string>): Option<nat>
    decreases |lines|
  {
    if lines == [] then None
    else if mode.AfterBlank? && lines[0] == "OK" then Some(1)
    else
      var next := Search(After(mode, lines[0]), lines[1..]);
      if next.Some? then Some(next.value + 1) else None
  }

  function After(mode: Mode, line: string): Mode {
    match mode
    case Swallow => Ready
    case Ready => if line == "" then AfterBlank else Ready
    case AfterBlank => if line == "" || line == "O" then Swallow else Ready
  }

  /** Where the character-level reader is in each mode; `junk` is text it has passed into the next line. */
  function Reading(mode: Mode, s: string, end: EndCode): Scan {
    match mode
    case Swallow => UntilOk(s, end)
    case Ready => MatchOk(s, 0, end)
    case AfterBlank => MatchOk(s, 2, end)
  }

  /** Same result and same unread input; by losslessness the text is then the same too. */
  predicate Same(a: Scan, b: Scan) {
    a.res == b.res && a.rest == b.rest
  }

  lemma SwallowLine(line: string, s: string, end: EndCode)
    requires Free(line)
    ensures Same(UntilOk(line + CRLF + s, end), MatchOk(s, 0, end))
  {
    CrlfFrames(line, s, end);
  }

  /** A mismatch `j` characters into the line passes over the rest of it. */
  lemma MismatchInLine(line: string, j: nat, k: nat, s: string, end: EndCode)
    requires Free(line) && j < |line| && k < |OK| && line[j] != OK[k]
    ensures Same(MatchOk(line[j..] + CRLF + s, k, end), MatchOk(s, 0, end))
  {
    var t := line[j..] + CRLF + s;
    assert t[1..] == line[j + 1..] + CRLF + s;
    SwallowLine(line[j + 1..], s, end);
  }

  lemma MatchInLine(t: string, k: nat, s: string, end: EndCode)
    requires k < |OK| && t == [OK[k]] + s
    ensures MatchOk(t, k, end) == MatchOk(s, k + 1, end)
  {
    assert t[1..] == s;
  }

  lemma MatchPair(k: nat, s: string, end: EndCode)
    requires k == 0 || k == 4
    ensures MatchOk(CRLF + s, k, end) == MatchOk(s, k + 2, end)
  {
    var t := [LF] + s;
    assert CRLF + s == [CR] + t;
    MatchInLine(CRLF + s, k, t, end);
    MatchInLine(t, k + 1, s, end);
  }

  lemma ReadyLine(line: string, s: string, end: EndCode)
    requires Free(line)
    ensures Same(MatchOk(line + CRLF + s, 0, end), Reading(After(Ready, line), s, end))
  {
    if line == "" {
      assert line + CRLF + s == CRLF + s;
      MatchPair(0, s, end);
    } else {
      assert line[0..] == line;
      MismatchInLine(line, 0, 0, s, end);
    }
  }

  /** After an empty line: OK ends the search, an empty line or a lone O spoils the next line, anything else is text. */
  ghost predicate BlankThen(line: string, r: Scan, s: string, end: EndCode) {
    if line == "OK" then r == Scan(FOUND, [], s)
    else if line == "" || line == "O" then Same(r, UntilOk([LF] + s, end))
    else Same(r, MatchOk(s, 0, end))
  }

  /** A CR where the terminator has a letter is passed over. */
  lemma SpoiledLine(k: nat, s: string, end: EndCode)
    requires k == 2 || k == 3
    ensures Same(MatchOk(CRLF + s, k, end), UntilOk([LF] + s, end))
  {
    assert (CRLF + s)[1..] == [LF] + s;
  }

  lemma AfterO(line: string, s: string, end: EndCode)
    requires Free(line) && line != "" && line[0] == 'O'
    ensures BlankThen(line, MatchOk(line[1..] + CRLF + s, 3, end), s, end)
  {
    if |line| == 1 {
      assert line == "O" && line[1..] + CRLF + s == CRLF + s;
      SpoiledLine(3, s, end);
    } else if line[1] != 'K' {
      MismatchInLine(line, 1, 3, s, end);
    } else {
      assert |line| == 2 ==> line == "OK";
      AfterOK(line, s, end);
    }
  }

  lemma AfterBlankLine(line: string, s: string, end: EndCode)
    requires Free(line)
    ensures BlankThen(line, MatchOk(line + CRLF + s, 2, end), s, end)
  {
    if line == "" {
      assert line + CRLF + s == CRLF + s;
      SpoiledLine(2, s, end);
    } else if line[0] != 'O' {
      assert line[0..] == line;
      MismatchInLine(line, 0, 2, s, end);
    } else {
      var t := line[1..] + CRLF + s;
      assert line + CRLF + s == ['O'] + t;
      MatchInLine(line + CRLF + s, 2, t, end);
      AfterO(line, s, end);
    }
  }

  lemma AfterOK(line: string, s: string, end: EndCode)
    requires Free(line) && |line| >= 2 && line[1] == 'K'
    ensures |line| == 2 ==> MatchOk(line[1..] + CRLF + s, 3, end) == Scan(FOUND, [], s)
    ensures |line| > 2 ==> Same(MatchOk(line[1..] + CRLF + s, 3, end), MatchOk(s, 0, end))
  {
    var t2 := line[2..] + CRLF + s;
    assert line[1..] + CRLF + s == ['K'] + t2;
    MatchInLine(line[1..] + CRLF + s, 3, t2, end);
    if |line| > 2 {
      MismatchInLine(line, 2, 4, s, end);
    } else {
      assert t2 == CRLF + s;
      MatchPair(4, s, end);
    }
  }

  lemma LinesSplit(junk: string, lines: seq<string>, tail: string)
    requires lines != []
    ensures junk + Lines(lines) + tail == (junk + lines[0]) + CRLF + (Lines(lines[1..]) + tail)
  {
  }

  /** What the reader does with lines in which the machine finds OK after `found` of them, or not at all. */
  ghost predicate Finds(r: Scan, found: Option<nat>, lines: seq<string>, tail: string, end: EndCode) {
    match found
    case Some(n) => n <= |lines| && r.res == FOUND && r.rest == Lines(lines[n..]) + tail
    case None => tail == [] ==> r.res == end
  }

  lemma FindsLater(
    r: Scan, r1: Scan, found: Option<nat>, found1: Option<nat>, lines: seq<string>, tail: string, end: EndCode)
    requires lines != [] && Same(r, r1) && Finds(r1, found1, lines[1..], tail, end)
    requires found == if found1.Some? then Some(found1.value + 1) else None
    ensures Finds(r, found, lines, tail, end)
  {
    if found1.Some? { assert lines[1..][found1.value..] == lines[found1.value + 1..]; }
  }

  /** What of a passed-over line the reader still has before it. */
  function Leftover(mode: Mode, line: string): string {
    if mode.AfterBlank? && After(mode, line).Swallow? then [LF] else []
  }

  lemma NextLine(mode: Mode, junk: string, lines: seq<string>, tail: string, end: EndCode)
    requires AllFree(lines) && Free(junk) && (junk == [] || mode.Swallow?)
    requires lines != [] && !(mode.AfterBlank? && lines[0] == "OK")
    ensures Same(Reading(mode, junk + Lines(lines) + tail, end),
                 Reading(After(mode, lines[0]), Leftover(mode, lines[0]) + Lines(lines[1..]) + tail, end))
  {
    LinesSplit(junk, lines, tail);
    LineStep(mode, junk, lines[0], Lines(lines[1..]) + tail, end);
    var left := Leftover(mode, lines[0]);
    assert left + Lines(lines[1..]) + tail == left + (Lines(lines[1..]) + tail);
  }

  lemma OkLine(junk: string, lines: seq<string>, tail: string, end: EndCode)
    requires lines != [] && junk == [] && lines[0] == "OK"
    ensures Finds(Reading(AfterBlank, junk + Lines(lines) + tail, end), Some(1), lines, tail, end)
  {
    LinesSplit(junk, lines, tail);
    LineStep(AfterBlank, junk, lines[0], Lines(lines[1..]) + tail, end);
  }

  lemma NoLine(mode: Mode, junk: string, tail: string, end: EndCode)
    requires Free(junk) && (junk == [] || mode.Swallow?)
    ensures Finds(Reading(mode, junk + Lines([]) + tail, end), None, [], tail, end)
  {
    if tail == [] {
      assert junk + Lines([]) + tail == junk;
      EndsInJunk(junk, end);
    }
  }

  /**
   The character-level search refines the line-level machine: on lines free of CR it
   stops where the machine stops, and if the machine never does it runs to the end of the stream.
   */
  lemma {:induction false} SearchIsRead(mode: Mode, junk: string, lines: seq<string>, tail: string, end: EndCode)
    requires AllFree(lines) && Free(junk) && (junk == [] || mode.Swallow?)
    ensures Finds(Reading(mode, junk + Lines(lines) + tail, end), Search(mode, lines), lines, tail, end)
    decreases |lines|
  {
    if lines == [] {
      NoLine(mode, junk, tail, end);
    } else if mode.AfterBlank? && lines[0] == "OK" {
      OkLine(junk, lines, tail, end);
    } else {
      var rest, left := lines[1..], Leftover(mode, lines[0]);
      SearchIsRead(After(mode, lines[0]), left, rest, tail, end);
      NextLine(mode, junk, lines, tail, end);
      var r, r1 := Reading(mode, junk + Lines(lines) + tail, end),
                   Reading(After(mode, lines[0]), left + Lines(rest) + tail, end);
      FindsLater(r, r1, Search(mode, lines), Search(After(mode, lines[0]), rest), lines, tail, end);
    }
  }

  /** One line through the machine. */
  lemma LineStep(mode: Mode, junk: string, line: string, s: string, end: EndCode)
    requires Free(line) && Free(junk) && (junk == [] || mode.Swallow?)
    ensures var r := Reading(mode, (junk + line) + CRLF + s, end);
            var mode' := After(mode, line);
            if mode.AfterBlank? && line == "OK" then r == Scan(FOUND, [], s)
            else Same(r, Reading(mode', Leftover(mode, line) + s, end))
  {
    assert [] + s == s;
    match mode {
      case Swallow => SwallowLine(junk + line, s, end);
      case Ready => assert junk + line == line; ReadyLine(line, s, end);
      case AfterBlank => assert junk + line == line; AfterBlankLine(line, s, end);
    }
  }

  lemma EndsInJunk(junk: string, end: EndCode)
    requires Free(junk)
    ensures UntilOk(junk, end).res == end
    ensures MatchOk([], 0, end).res == end && MatchOk([], 2, end).res == end
  {
    CrlfConsumes(junk, end);
    var a := UntilCrlf(junk, end);
    assert (a.out + CRLF + a.rest)[|a.out|] == CR;
  }

  /** The body's own terminator is the one the search finds. */
  predicate Ends(body: seq<string>) {
    Search(Swallow, body + ["", "OK"]) == Some(|body| + 2)
  }

  lemma {:induction false} LinesConcat(a: seq<string>, b: seq<string>)
    ensures Lines(a + b) == Lines(a) + Lines(b)
  {
    if a == [] {
      assert a + b == b;
    } else {
      assert (a + b)[1..] == a[1..] + b;
      LinesConcat(a[1..], b);
    }
  }

  lemma BodyLines(body: seq<string>)
    ensures Lines(body + ["", "OK"]) == Lines(body) + OK
  {
    LinesConcat(body, ["", "OK"]);
    assert ["", "OK"][1..] == ["OK"] && Lines(["OK"]) == "OK" + CRLF + [];
  }

  /** Losslessness turns the place where the search stopped into the text it returned. */
  lemma TextFromRest(b: string, tail: string, end: EndCode)
    requires Same(UntilOk(b + OK + tail, end), Scan(FOUND, b, tail))
    ensures UntilOk(b + OK + tail, end) == Scan(FOUND, b, tail)
  {
    var r := UntilOk(b + OK + tail, end);
    UntilOkIsLossless(b + OK + tail, end);
    assert r.out + OK + tail == r.out + (OK + tail) && b + OK + tail == b + (OK + tail);
    SameLength(r.out, b, OK + tail);
  }

  lemma BodyFound(body: seq<string>, tail: string, end: EndCode)
    requires AllFree(body) && Ends(body)
    ensures UntilOk(Lines(body) + OK + tail, end) == Scan(FOUND, Lines(body), tail)
  {
    var all := body + ["", "OK"];
    BodyLines(body);
    SearchIsRead(Swallow, [], all, tail, end);
    assert [] + Lines(all) + tail == Lines(body) + OK + tail;
    assert all[|body| + 2..] == [] && Lines([]) + tail == tail;
    TextFromRest(Lines(body), tail, end);
  }

  lemma BodyMissed(body: seq<string>, end: EndCode)
    requires AllFree(body) && !Ends(body)
    ensures UntilOk(Lines(body) + OK, end) != Scan(FOUND, Lines(body), [])
  {
    var all := body + ["", "OK"];
    BodyLines(body);
    SearchIsRead(Swallow, [], all, [], end);
    assert [] + Lines(all) + [] == Lines(body) + OK;
    var n := Search(Swallow, all);
    assert n.Some? ==> all[n.value..] != [];
  }

  /** A +CMGR body is read back whole if and only if the line machine finds its terminator. */
  lemma BodyReadExactly(body: seq<string>, end: EndCode)
    requires AllFree(body)
    ensures UntilOk(Lines(body) + OK, end) == Scan(FOUND, Lines(body), []) <==> Ends(body)
  {
    if Ends(body) {
      BodyFound(body, [], end);
      assert Lines(body) + OK + [] == Lines(body) + OK;
    } else {
      BodyMissed(body, end);
    }
  }

  lemma SameLength(a: string, b: string, t: string)
    requires a + t == b + t
    ensures a == b
  {
    assert (a + t)[..|a|] == a && (b + t)[..|b|] == b;
  }

  function Blanks(n: nat): (r: seq<string>)
    ensures |r| == n
  {
    if n == 0 then [] else [""] + Blanks(n - 1)
  }

  function Offset(mode: Mode): nat {
    match mode case Ready => 0 case AfterBlank => 1 case Swallow => 2
  }

  function Shifted(r: Option<nat>, n: nat): Option<nat> {
    if r.Some? then Some(r.value + n) else None
  }

  lemma BlankStep(mode: Mode, lines: seq<string>)
    requires lines != [] && lines[0] == ""
    ensures Search(mode, lines) == Shifted(Search(After(mode, ""), lines[1..]), 1)
  {
  }

  lemma OkAlone(mode: Mode)
    ensures Search(mode, ["OK"]) == if mode.AfterBlank? then Some(1) else None
  {
    assert ["OK"][1..] == [];
  }

  lemma OffsetStep(mode: Mode, n: nat)
    requires n > 0
    ensures (n - 1 + Offset(After(mode, ""))) % 3 == (n + Offset(mode)) % 3
  {
  }

  lemma {:induction false} SearchBlanks(mode: Mode, n: nat)
    ensures Search(mode, Blanks(n) + ["OK"]) == if (n + Offset(mode)) % 3 == 1 then Some(n + 1) else None
    decreases n
  {
    var lines := Blanks(n) + ["OK"];
    if n == 0 {
      assert lines == ["OK"];
      OkAlone(mode);
    } else {
      assert lines[0] == "" && lines[1..] == Blanks(n - 1) + ["OK"];
      SearchBlanks(After(mode, ""), n - 1);
      OffsetStep(mode, n);
      BlankStep(mode, lines);
    }
  }

  lemma SearchSkips(lines: seq<string>)
    requires lines != [] && lines[0] != ""
    ensures Search(Ready, lines) == Shifted(Search(Ready, lines[1..]), 1)
  {
  }

  lemma {:induction false} SearchText(text: seq<string>, rest: seq<string>)
    requires forall i :: 0 <= i < |text| ==> text[i] != ""
    ensures Search(Ready, text + rest) == Shifted(Search(Ready, rest), |text|)
    decreases |text|
  {
    if text == [] {
      assert text + rest == rest;
    } else {
      SearchText(text[1..], rest);
      SearchSkips(text + rest);
      assert (text + rest)[1..] == text[1..] + rest;
    }
  }

  /** A text without empty lines that ends in `n` empty ones: its end is found exactly when three divides `n`. */
  lemma TrailingBlankLines(text: seq<string>, n: nat)
    requires text != [] && forall i :: 0 <= i < |text| ==> text[i] != ""
    ensures Ends(text + Blanks(n)) <==> n % 3 == 0
  {
    var rest := Blanks(n + 1) + ["OK"];
    SearchBlanks(Ready, n + 1);
    SearchText(text[1..], rest);
    BlanksSnoc(n);
    assert text + Blanks(n) + ["", "OK"] == [text[0]] + (text[1..] + rest);
    assert ([text[0]] + (text[1..] + rest))[1..] == text[1..] + rest;
  }

  lemma {:induction false} BlanksSnoc(n: nat)
    ensures Blanks(n) + [""] == Blanks(n + 1)
  {
    if n > 0 {
      BlanksSnoc(n - 1);
    }
  }

  // ---- Streams of messages -------------------------------------------------------------

  datatype Message = Result(payload: string) | Command(text: string) | SmsPrompt
                   | Sms(header: string, body: seq<string>)

  function Encode(m: Message): string {
    match m
    case Result(p) => "\r\n" + p + "\r\n"
    case Command(t) => t + "\r"
    case SmsPrompt => "\r\n> "
    case Sms(h, b) => "\r\n" + h + "\r\n" + Lines(b) + "\r\nOK\r\n"
  }

  /** What a reader with room enough is given. */
  function Text(m: Message): string {
    match m
    case Result(p) => p
    case Command(t) => t
    case SmsPrompt => "> "
    case Sms(h, b) => h + "\r\n" + Lines(b)
  }

  predicate IsText(p: string) {
    p != [] && p[0] != CR && p[0] != '>' && Quiet(p)
  }

  ghost predicate Readable(m: Message, count: nat) {
    match m
    case Result(p) => IsText(p) && !(count >= 5 && "+CMGR" <= p)
    case Command(t) => t != [] && Free(t)
    case SmsPrompt => true
    case Sms(h, b) => IsText(h) && count >= 5 && "+CMGR" <= h && AllFree(b) && Ends(b)
  }

  lemma {:induction false} CommandFrames(t: string, tail: string, end: EndCode)
    requires Free(t)
    ensures UntilCr(t + [CR] + tail, end) == Scan(FOUND, t, tail)
  {
    var s := t + [CR] + tail;
    if t == [] {
      assert s[1..] == tail;
    } else {
      assert s[1..] == t[1..] + [CR] + tail;
      CommandFrames(t[1..], tail, end);
    }
  }

  /** The text of a result code, given what follows its first CR LF. */
  lemma ResultTextFrames(p: string, tail: string, count: nat, end: EndCode)
    requires IsText(p)
    ensures ReadResult([LF] + (p + CRLF + tail), count, end)
         == if count >= 5 && "+CMGR" <= p then Emit(p + CRLF, UntilOk(tail, end)) else Scan(FOUND, p, tail)
  {
    var s := [LF] + (p + CRLF + tail);
    assert s[1] == p[0] && s[2..] == p[1..] + CRLF + tail;
    CrlfFramesExactlyQuiet(p[1..], tail, end);
    assert [p[0]] + p[1..] == p;
  }

  /** One message, whatever follows it: its text, and exactly its own bytes. */
  lemma ReadOne(m: Message, tail: string, count: nat, end: EndCode)
    requires Readable(m, count)
    ensures Read(Encode(m) + tail, count, end) == Scan(FOUND, Text(m), tail)
  {
    var s := Encode(m) + tail;
    match m {
      case Result(p) =>
        assert s[1..] == [LF] + (p + CRLF + tail);
        ResultTextFrames(p, tail, count, end);
      case Command(t) =>
        assert s[1..] == t[1..] + [CR] + tail;
        CommandFrames(t[1..], tail, end);
        assert [t[0]] + t[1..] == t;
      case SmsPrompt =>
        assert s[1..] == [LF] + "> " + tail && s[1..][2..] == " " + tail && (" " + tail)[1..] == tail;
      case Sms(h, b) =>
        ReadSms(h, b, tail, count, end);
    }
  }

  lemma ReadSms(h: string, b: seq<string>, tail: string, count: nat, end: EndCode)
    requires Readable(Sms(h, b), count)
    ensures Read(Encode(Sms(h, b)) + tail, count, end) == Scan(FOUND, Text(Sms(h, b)), tail)
  {
    var s, rest := Encode(Sms(h, b)) + tail, Lines(b) + OK + tail;
    assert s == [CR, LF] + (h + CRLF + rest);
    assert s[1..] == [LF] + (h + CRLF + rest);
    ResultTextFrames(h, rest, count, end);
    BodyFound(b, tail, end);
  }

  function EncodeAll(ms: seq<Message>): string {
    if ms == [] then [] else Encode(ms[0]) + EncodeAll(ms[1..])
  }

  /** Reading message after message until the stream is used up or a read fails. */
  function ReadAll(s: string, count: nat, end: EndCode): seq<string>
    decreases |s|
  {
    var a := Read(s, count, end);
    if a.res != FOUND || |a.rest| >= |s| then [] else [Fit(a.out, count)] + ReadAll(a.rest, count, end)
  }

  function Texts(ms: seq<Message>, count: nat): seq<string> {
    if ms == [] then [] else [Fit(Text(ms[0]), count)] + Texts(ms[1..], count)
  }

  /** The round trip: any list of messages, concatenated, is read back in order, each cut to the buffer. */
  lemma {:induction false} StreamRoundTrip(ms: seq<Message>, count: nat, end: EndCode)
    requires forall i :: 0 <= i < |ms| ==> Readable(ms[i], count)
    ensures ReadAll(EncodeAll(ms), count, end) == Texts(ms, count)
  {
    if ms != [] {
      ReadOne(ms[0], EncodeAll(ms[1..]), count, end);
      StreamRoundTrip(ms[1..], count, end);
    }
  }

  // ---- What is refused ------------------------------------------------------------------

  lemma NeverMismatched(s: string, end: EndCode)
    ensures UntilCrlf(s, end).res != MISMATCH && UntilOk(s, end).res != MISMATCH
  {
    CrlfConsumes(s, end);
    UntilOkIsLossless(s, end);
  }

  lemma {:induction false} CommandNeverMismatched(s: string, end: EndCode)
    ensures UntilCr(s, end).res != MISMATCH
  {
    if s != [] && s[0] != '\r' { CommandNeverMismatched(s[1..], end); }
  }

  /**
   * A read is refused if and only if a CR at the start is not followed by LF, or a '>' after them not by a
   * space; the character that was not expected is consumed.
   */
  lemma RefusedExactly(s: string, count: nat, end: EndCode)
    ensures Read(s, count, end).res == MISMATCH <==>
              || (|s| >= 2 && s[0] == '\r' && s[1] != '\n')
              || (|s| >= 4 && s[..3] == "\r\n>" && s[3] != ' ')
    ensures Read(s, count, end).res == MISMATCH ==> Read(s, count, end).rest == if s[1] != '\n' then s[2..] else s[4..]
  {
    if s == [] {
    } else if s[0] != '\r' {
      CommandNeverMismatched(s[1..], end);
    } else if |s| >= 3 && s[1] == '\n' {
      assert s[..3] == [s[0], s[1], s[2]];
      assert s[1..][2..] == s[3..];
      NeverMismatched(s[3..], end);
      NeverMismatched(UntilCrlf(s[3..], end).rest, end);
      if |s| >= 4 { assert s[3..][1..] == s[4..]; }
    }
  }
}
