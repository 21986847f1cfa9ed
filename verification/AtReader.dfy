/**
 The character-level reader of Hayes AT messages from a Bluetooth serial link: result
 codes framed by CR LF on both sides, commands ended by CR, the SMS prompt, and +CMGR
 responses that run until an OK result of their own.
 */
module AtReader {
  const CR: char := '\r'
  const LF: char := '\n'
  const CRLF: string := "\r\n"
  /** What ends a +CMGR response. */
  const OK: string := "\r\nOK\r\n"

  /** What one reading function does: its result code, the characters it appends, and what it leaves unread. */
  datatype Scan = Scan(res: int, out: string, rest: string)

  /** What read() gives when there is nothing left: end of file or an error. */
  type EndCode = c: int | c == 0 || c == -1

  const FOUND: int := 1
  const MISMATCH: int := -2

  function Emit(t: string, s: Scan): Scan {
    s.(out := t + s.out)
  }

  // ---- Specification: readers as functions of the unread input -----------------

  function UntilCrlf(s: string, end: EndCode): (r: Scan)
    ensures r.res == FOUND ==> |r.rest| < |s|
    decreases |s|
  {
    if s == [] then Scan(end, [], [])
    else if s[0] != CR then Emit([s[0]], UntilCrlf(s[1..], end))
    else AfterCr(s[1..], end)
  }

  /** A CR has been read: LF ends the search, and any other character is passed over together with the CR. */
  function AfterCr(s: string, end: EndCode): (r: Scan)
    ensures r.res == FOUND ==> |r.rest| <= |s|
    decreases |s|
  {
    if s == [] then Scan(end, [CR], [])
    else if s[0] == LF then Scan(FOUND, [], s[1..])
    else Emit([CR, s[0]], UntilCrlf(s[1..], end))
  }

  function UntilOk(s: string, end: EndCode): Scan
    decreases |s|, 1
  {
    var a := UntilCrlf(s, end);
    if a.res != FOUND then a
    else Emit(a.out + CRLF, MatchOk(a.rest, 0, end))
  }

  /** The first `k` characters of the terminator are matched; a mismatch puts them back into the text. */
  function MatchOk(s: string, k: nat, end: EndCode): Scan
    requires k <= |OK|
    decreases |s|, 0
  {
    if k == |OK| then Scan(FOUND, [], s)
    else if s == [] then Scan(end, [], [])
    else if s[0] == OK[k] then MatchOk(s[1..], k + 1, end)
    else Emit(OK[..k] + [s[0]], UntilOk(s[1..], end))
  }

  function UntilCr(s: string, end: EndCode): Scan {
    if s == [] then Scan(end, [], [])
    else if s[0] == CR then Scan(FOUND, [], s[1..])
    else Emit([s[0]], UntilCr(s[1..], end))
  }

  function Prompt(s: string, end: EndCode): Scan {
    if s == [] then Scan(end, [], [])
    else if s[0] == ' ' then Scan(FOUND, " ", s[1..])
    else Scan(MISMATCH, [], s[1..])
  }

  /** The part of the text that fits in the buffer. */
  function Fit(out: string, count: nat): string {
    if |out| <= count then out else out[..count]
  }

  /** The test for +CMGR looks at the buffer, so it needs five characters to have fitted. */
  predicate IsCmgr(out: string, count: nat) {
    count >= 5 && |out| >= 5 && out[..5] == "+CMGR"
  }

  /** A result code whose first character is `c`. */
  function ResultText(c: char, s: string, count: nat, end: EndCode): Scan {
    var a := Emit([c], UntilCrlf(s, end));
    if a.res == FOUND && IsCmgr(a.out, count) then Emit(a.out + CRLF, UntilOk(a.rest, end)) else a
  }

  /** A message whose first CR has been read. */
  function ReadResult(s: string, count: nat, end: EndCode): Scan {
    if s == [] then Scan(end, [], [])
    else if s[0] != LF then Scan(MISMATCH, [], s[1..])
    else if |s| == 1 then Scan(end, [], [])
    else if s[1] == '>' then Emit(">", Prompt(s[2..], end))
    else ResultText(s[1], s[2..], count, end)
  }

  function Read(s: string, count: nat, end: EndCode): Scan {
    if s == [] then Scan(end, [], [])
    else if s[0] == CR then ReadResult(s[1..], count, end)
    else Emit([s[0]], UntilCr(s[1..], end))
  }

  lemma Regroup(a: string, b: string, c: string, d: string, e: string)
    ensures a + b + (c + d + e) == a + b + c + d + e
  {
  }

  lemma EmitTwice(t: string, u: string, s: Scan)
    ensures Emit(t, Emit(u, s)) == Emit(t + u, s)
  {
    assert t + (u + s.out) == t + u + s.out;
  }

  /** The bytes consumed are the characters appended, then the mark if it was found. */
  ghost predicate Consumes(s: string, a: Scan, mark: string, end: EndCode) {
    if a.res == FOUND then s == a.out + mark + a.rest else a.res == end && a.rest == [] && s == a.out
  }

  lemma ConsumesMore(t: string, s: string, a: Scan, mark: string, end: EndCode)
    requires Consumes(s, a, mark, end)
    ensures Consumes(t + s, Emit(t, a), mark, end)
  {
    Regroup([], t, a.out, mark, a.rest);
  }

  lemma {:induction false} CrlfConsumes(s: string, end: EndCode)
    ensures Consumes(s, UntilCrlf(s, end), CRLF, end)
    decreases |s|
  {
    if s != [] {
      if s[0] == CR {
        AfterCrConsumes(s[1..], end);
        assert [CR] + s[1..] == s;
      } else {
        CrlfConsumes(s[1..], end);
        ConsumesMore([s[0]], s[1..], UntilCrlf(s[1..], end), CRLF, end);
        assert [s[0]] + s[1..] == s;
      }
    }
  }

  lemma {:induction false} AfterCrConsumes(s: string, end: EndCode)
    ensures Consumes([CR] + s, AfterCr(s, end), CRLF, end)
    decreases |s|
  {
    if s == [] {
      assert [CR] + s == [CR];
    } else if s[0] == LF {
      assert [CR] + s == [] + CRLF + s[1..];
    } else {
      CrlfConsumes(s[1..], end);
      ConsumesMore([CR, s[0]], s[1..], UntilCrlf(s[1..], end), CRLF, end);
      assert [CR] + s == [CR, s[0]] + s[1..];
    }
  }

  /** Nothing is lost: what was consumed is what was appended and the terminator. */
  ghost predicate Lossless(s: string, a: Scan, end: EndCode) {
    && (a.res == FOUND || a.res == end)
    && (a.res == FOUND ==> s == a.out + OK + a.rest)
    && (a.res != FOUND ==> a.rest == [])
  }

  lemma LosslessMore(t: string, s: string, a: Scan, end: EndCode)
    requires Lossless(s, a, end)
    ensures Lossless(t + s, Emit(t, a), end)
  {
    Regroup([], t, a.out, OK, a.rest);
  }

  /**
   Reading until OK loses nothing: whatever partial terminators occurred, the bytes
   consumed are the characters appended followed by the terminator.
   */
  lemma {:induction false} UntilOkIsLossless(s: string, end: EndCode)
    ensures Lossless(s, UntilOk(s, end), end)
    decreases |s|, 1
  {
    CrlfConsumes(s, end);
    var a := UntilCrlf(s, end);
    if a.res == FOUND {
      MatchOkIsLossless(a.rest, 0, end);
      assert OK[..0] + a.rest == a.rest;
      LosslessMore(a.out + CRLF, a.rest, MatchOk(a.rest, 0, end), end);
    }
  }

  lemma {:induction false} MatchOkIsLossless(s: string, k: nat, end: EndCode)
    requires k <= |OK|
    ensures Lossless(OK[..k] + s, MatchOk(s, k, end), end)
    decreases |s|, 0
  {
    if k == |OK| {
      assert OK[..k] + s == [] + OK + s;
    } else if s != [] {
      if s[0] == OK[k] {
        MatchOkIsLossless(s[1..], k + 1, end);
        assert OK[..k + 1] + s[1..] == OK[..k] + s;
      } else {
        UntilOkIsLossless(s[1..], end);
        LosslessMore(OK[..k] + [s[0]], s[1..], UntilOk(s[1..], end), end);
        assert OK[..k] + [s[0]] + s[1..] == OK[..k] + s;
      }
    }
  }

  // ---- The imperative reader ------------------------------------------------------

  /** A stream, the position read up to, and the caller's buffer with the count filled in so far. */
  class Reader {
    const input: string
    const end: EndCode
    var pos: nat
    const buf: array<char>
    var inCount: nat
    /** Everything handed to AppendBuf, whether or not it fitted. */
    ghost var appended: string

    ghost predicate Valid()
      reads this, buf
    {
      && pos <= |input|
      && inCount == (if |appended| < buf.Length then |appended| else buf.Length)
      && buf[..inCount] == appended[..inCount]
    }

    ghost function Unread(): string
      requires pos <= |input|
      reads this
    {
      input[pos..]
    }

    constructor (input: string, end: EndCode, count: nat)
      ensures Valid() && fresh(buf) && buf.Length == count
      ensures this.input == input && this.end == end && pos == 0 && appended == []
    {
      this.input, this.end, pos, inCount, appended := input, end, 0, 0, [];
      buf := new char[count];
    }

    /** What has been appended, continued by what a reading function would still do. */
    ghost function With(s: Scan): Scan
      reads this
    {
      Emit(appended, s)
    }

    /** The state a reading function left behind, as the outcome of all reading so far. */
    ghost function Done(res: int): Scan
      requires pos <= |input|
      reads this
    {
      Scan(res, appended, Unread())
    }

    method AppendBuf(c: char)
      requires Valid()
      modifies this, buf
      ensures Valid() && pos == old(pos) && appended == old(appended) + [c]
    {
      if inCount < buf.Length {
        buf[inCount] := c;
        inCount := inCount + 1;
      }
      appended := appended + [c];
    }

    method ReadChar() returns (res: int, c: char)
      requires Valid()
      modifies this
      ensures Valid() && appended == old(appended)
      ensures res == FOUND ==> old(pos) < |input| && c == input[old(pos)] && pos == old(pos) + 1
      ensures res != FOUND ==> res == end && pos == old(pos) == |input|
    {
      if pos == |input| {
        return end, ' ';
      }
      res, c, pos := FOUND, input[pos], pos + 1;
    }

    method ReadAndExpectChar(expected: char) returns (res: int, c: char)
      requires Valid()
      modifies this
      ensures Valid() && appended == old(appended)
      ensures old(pos) == |input| ==> res == end && pos == old(pos)
      ensures old(pos) < |input| ==>
                c == input[old(pos)] && pos == old(pos) + 1 && res == if c == expected then FOUND else MISMATCH
    {
      res, c := ReadChar();
      if res != FOUND { return; }
      if c != expected { res := MISMATCH; }
    }

    method ReadAndAppendChar(expected: char) returns (res: int, c: char)
      requires Valid()
      modifies this, buf
      ensures Valid()
      ensures old(pos) == |input| ==> res == end && pos == old(pos) && appended == old(appended)
      ensures old(pos) < |input| ==>
                && c == input[old(pos)] && pos == old(pos) + 1
                && res == (if c == expected then FOUND else MISMATCH)
                && appended == old(appended) + if c == expected then [c] else []
    {
      res, c := ReadAndExpectChar(expected);
      if res != FOUND { return; }
      AppendBuf(c);
    }

    /** After a CR. */
    method CrTurn() returns (res: int, more: bool)
      requires Valid()
      modifies this, buf
      ensures Valid() && pos >= old(pos)
      ensures more ==> pos > old(pos)
      ensures old(With(AfterCr(Unread(), end))) == if more then With(UntilCrlf(Unread(), end)) else Done(res)
    {
      more := false;
      var c;
      ghost var s := Unread();
      res, c := ReadAndExpectChar(LF);
      if res == FOUND { return; }
      AppendBuf(CR);
      if res != MISMATCH { return; }
      EmitTwice(old(appended), [CR, c], UntilCrlf(s[1..], end));
      AppendBuf(c);
      more := true;
    }

    /** One turn of the CR LF loop. */
    method CrlfTurn() returns (res: int, more: bool)
      requires Valid()
      modifies this, buf
      ensures Valid() && pos >= old(pos)
      ensures more ==> pos > old(pos)
      ensures old(With(UntilCrlf(Unread(), end))) == if more then With(UntilCrlf(Unread(), end)) else Done(res)
    {
      more := false;
      var c;
      ghost var s := Unread();
      res, c := ReadChar();
      if res != FOUND { return; }
      if c == CR {
        res, more := CrTurn();
      } else {
        EmitTwice(old(appended), [c], UntilCrlf(s[1..], end));
        AppendBuf(c);
        more := true;
      }
    }

    method ReadUntilCrlf() returns (res: int)
      requires Valid()
      modifies this, buf
      ensures Valid() && pos >= old(pos)
      ensures old(With(UntilCrlf(Unread(), end))) == Done(res)
    {
      var more := true;
      res := FOUND;
      ghost var goal := With(UntilCrlf(Unread(), end));
      while more
        invariant Valid() && pos >= old(pos)
        invariant goal == if more then With(UntilCrlf(Unread(), end)) else Done(res)
        decreases more, |input| - pos
      {
        res, more := CrlfTurn();
      }
    }

    /** Puts a partly matched terminator and the character that broke it into the buffer. */
    method PutBack(k: nat, c: char)
      requires Valid() && k <= |OK|
      modifies this, buf
      ensures Valid() && pos == old(pos) && appended == old(appended) + (OK[..k] + [c])
    {
      var i := 0;
      while i < k
        invariant i <= k && Valid() && pos == old(pos)
        invariant appended == old(appended) + OK[..i]
      {
        AppendBuf(OK[i]);
        i := i + 1;
      }
      AppendBuf(c);
    }

    /** Looks for the terminator, one expected character at a time. */
    method MatchTerminator() returns (res: int, more: bool)
      requires Valid()
      modifies this, buf
      ensures Valid() && pos >= old(pos)
      ensures old(With(MatchOk(Unread(), 0, end))) == if more then With(UntilOk(Unread(), end)) else Done(res)
    {
      more, res := false, FOUND;
      var k, c := 0, ' ';
      ghost var goal := MatchOk(Unread(), 0, end);
      while k < |OK|
        invariant k <= |OK| && Valid() && pos >= old(pos)
        invariant appended == old(appended)
        invariant goal == MatchOk(Unread(), k, end)
      {
        res, c := ReadAndExpectChar(OK[k]);
        if res == MISMATCH {
          EmitTwice(appended, OK[..k] + [c], UntilOk(Unread(), end));
          PutBack(k, c);
          more := true;
          return;
        }
        if res != FOUND { return; }
        k := k + 1;
      }
      res := FOUND;
    }

    /** One turn of the loop that looks for OK. */
    method OkTurn() returns (res: int, more: bool)
      requires Valid()
      modifies this, buf
      ensures Valid()
      ensures more ==> pos > old(pos)
      ensures old(With(UntilOk(Unread(), end))) == if more then With(UntilOk(Unread(), end)) else Done(res)
    {
      ghost var was, a := appended, UntilCrlf(Unread(), end);
      res := ReadUntilCrlf();
      more := false;
      if res != FOUND { return; }
      EmitTwice(was, a.out + CRLF, MatchOk(a.rest, 0, end));
      AppendBuf(CR);
      AppendBuf(LF);
      res, more := MatchTerminator();
    }

    method ReadUntilOk() returns (res: int)
      requires Valid()
      modifies this, buf
      ensures Valid()
      ensures old(With(UntilOk(Unread(), end))) == Done(res)
    {
      var more := true;
      res := FOUND;
      ghost var goal := With(UntilOk(Unread(), end));
      while more
        invariant Valid()
        invariant goal == if more then With(UntilOk(Unread(), end)) else Done(res)
        decreases more, |input| - pos
      {
        res, more := OkTurn();
      }
    }

    method ReadCommand() returns (res: int)
      requires Valid()
      modifies this, buf
      ensures Valid()
      ensures old(With(UntilCr(Unread(), end))) == Done(res)
    {
      var c;
      ghost var goal := With(UntilCr(Unread(), end));
      while true
        invariant Valid()
        invariant goal == With(UntilCr(Unread(), end))
        decreases |input| - pos
      {
        ghost var was := appended;
        res, c := ReadChar();
        if res != FOUND || c == CR { return; }
        EmitTwice(was, [c], UntilCr(Unread(), end));
        AppendBuf(c);
      }
    }

    method ReadSmsPrompt() returns (res: int)
      requires Valid()
      modifies this, buf
      ensures Valid()
      ensures old(With(Prompt(Unread(), end))) == Done(res)
    {
      var c;
      res, c := ReadAndAppendChar(' ');
    }

    /** The buffer's view of the text decides whether this is a +CMGR response. */
    method TestCmgr() returns (b: bool)
      requires Valid()
      ensures b == IsCmgr(appended, buf.Length)
    {
      b := inCount >= 5 && buf[..5] == "+CMGR";
      assert inCount >= 5 ==> buf[..inCount][..5] == buf[..5] && appended[..inCount][..5] == appended[..5];
    }

    method ReadCmgr() returns (res: int)
      requires Valid()
      modifies this, buf
      ensures Valid()
      ensures old(With(Emit(CRLF, UntilOk(Unread(), end)))) == Done(res)
    {
      EmitTwice(appended, CRLF, UntilOk(Unread(), end));
      AppendBuf(CR);
      AppendBuf(LF);
      res := ReadUntilOk();
    }

    /** The result code proper, after its first character `c`. */
    method ReadResultText(ghost c: char) returns (res: int)
      requires Valid() && appended == [c]
      modifies this, buf
      ensures Valid()
      ensures old(ResultText(c, Unread(), buf.Length, end)) == Done(res)
    {
      res := ReadUntilCrlf();
      if res != FOUND { return; }
      var cmgr := TestCmgr();
      if cmgr {
        EmitTwice(appended, CRLF, UntilOk(Unread(), end));
        res := ReadCmgr();
      }
    }

    method ReadResultCode() returns (res: int)
      requires Valid() && appended == []
      modifies this, buf
      ensures Valid()
      ensures old(ReadResult(Unread(), buf.Length, end)) == Done(res)
    {
      var c;
      res, c := ReadAndExpectChar(LF);
      if res != FOUND { return; }
      res, c := ReadAndAppendChar('>');
      if res == FOUND {
        res := ReadSmsPrompt();
        return;
      } else if res != MISMATCH {
        return;
      }
      AppendBuf(c);
      res := ReadResultText(c);
    }

    /** Either kind of message, told apart by its first character. */
    method ReadAny() returns (res: int)
      requires Valid() && appended == []
      modifies this, buf
      ensures Valid()
      ensures old(Read(Unread(), buf.Length, end)) == Done(res)
    {
      var c;
      res, c := ReadAndExpectChar(CR);
      if res == FOUND {
        res := ReadResultCode();
      } else if res == MISMATCH {
        AppendBuf(c);
        res := ReadCommand();
      }
    }

    /** rfcomm_read: the number of characters stored, or a code below one. */
    method ReadMessage() returns (n: int)
      requires Valid() && appended == []
      modifies this, buf
      ensures Valid()
      ensures var a := Read(old(Unread()), buf.Length, end);
              && Unread() == a.rest
              && (if a.res < 1 then n == a.res else n == inCount && buf[..inCount] == Fit(a.out, buf.Length))
    {
      var res := ReadAny();
      n := if res < 1 then res else inCount;
    }
  }
}
