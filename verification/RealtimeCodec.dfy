/**
 The value codec of the MySQL realtime driver: values are escaped before they are
 stored, and a stored column is split on ';' and each piece decoded in place.

 C strings are NUL-free sequences; the buffer the driver rewrites is an array in
 which the string is followed by a NUL.
 */
module RealtimeCodec {
  const NUL: char := '\0'

  predicate Free(s: string, c: char) {
    forall i :: 0 <= i < |s| ==> s[i] != c
  }

  type CString = s: string | Free(s, NUL)

  // ---- Specification -------------------------------------------------------

  function HexChar(n: nat): char
    requires n < 16
  {
    if n < 10 then '0' + n as char else 'A' + (n - 10) as char
  }

  predicate IsHex(c: char) {
    '0' <= c <= '9' || 'A' <= c <= 'F' || 'a' <= c <= 'f'
  }

  function HexValue(c: char): (v: nat)
    requires IsHex(c)
    ensures v < 16
  {
    if c <= '9' then c as int - '0' as int
    else if c <= 'F' then c as int - 'A' as int + 10
    else c as int - 'a' as int + 10
  }

  predicate Reserved(c: char) {
    c == ';' || c == '^'
  }

  /** "^%02hhX" for a reserved character, the character itself otherwise. */
  function EscapeChar(c: char): string {
    if Reserved(c) then ['^', HexChar(c as int / 16 % 16), HexChar(c as int % 16)] else [c]
  }

  function Escape(s: string): string {
    if s == [] then [] else EscapeChar(s[0]) + Escape(s[1..])
  }

  /** The head of `s` is a '^' followed by two hexadecimal digits. */
  predicate AtEscape(s: string) {
    |s| >= 3 && s[0] == '^' && IsHex(s[1]) && IsHex(s[2])
  }

  function Unhex(hi: char, lo: char): char
    requires IsHex(hi) && IsHex(lo)
  {
    (16 * HexValue(hi) + HexValue(lo)) as char
  }

  function Decode(s: string): string {
    if s == [] then []
    else if AtEscape(s) then [Unhex(s[1], s[2])] + Decode(s[3..])
    else [s[0]] + Decode(s[1..])
  }

  /** strchr("0123456789ABCDEFabcdef", c) also finds the terminator of its first argument. */
  predicate IsHexOrNul(c: char) {
    IsHex(c) || c == NUL
  }

  /** The character at `i`, counting the terminator. */
  function CharAt(s: string, i: nat): char
    requires i <= |s|
  {
    if i < |s| then s[i] else NUL
  }

  /**
   The decoder looks at the two characters after a '^' by a test that a NUL passes, and on success at
   what follows them: at the head of `s` that goes past the terminator.
   */
  predicate PastHere(s: string) {
    && s != [] && s[0] == '^' && IsHexOrNul(CharAt(s, 1))
    && (|s| == 1 || (|s| == 2 && IsHexOrNul(CharAt(s, 2))))
  }

  /** The decoder's loop over `s` looks past its terminator at some point. */
  predicate LooksPast(s: string) {
    s != [] && (PastHere(s) || LooksPast(if AtEscape(s) then s[3..] else s[1..]))
  }

  /** The string does not end in a '^', nor in a '^' and one digit. */
  predicate DecodesInBounds(s: string) {
    && (|s| >= 1 ==> s[|s| - 1] != '^')
    && (|s| >= 2 ==> !(s[|s| - 2] == '^' && IsHex(s[|s| - 1])))
  }

  /** What a C reader sees: everything before the first NUL. */
  function CRead(s: string): (r: CString)
  {
    if s == [] || s[0] == NUL then [] else [s[0]] + CRead(s[1..])
  }

  /** Pieces between ';' characters, as strsep yields them; never empty. */
  function Split(s: string): (r: seq<string>)
    ensures |r| > 0
  {
    if s == [] then [[]]
    else if s[0] == ';' then [[]] + Split(s[1..])
    else var rest := Split(s[1..]); [[s[0]] + rest[0]] + rest[1..]
  }

  function Join(parts: seq<string>): string
    requires |parts| > 0
  {
    if |parts| == 1 then parts[0] else parts[0] + ";" + Join(parts[1..])
  }

  function EscapeAll(values: seq<string>): (r: seq<string>)
    ensures |r| == |values|
  {
    if values == [] then [] else [Escape(values[0])] + EscapeAll(values[1..])
  }

  function DecodeAll(pieces: seq<string>): (r: seq<CString>)
    ensures |r| == |pieces|
  {
    if pieces == [] then [] else [CRead(Decode(pieces[0]))] + DecodeAll(pieces[1..])
  }

  /** The column text under which a list of values is stored. */
  function Store(values: seq<string>): string
    requires |values| > 0
  {
    Join(EscapeAll(values))
  }

  /** The variables a non-NULL column yields: a blank column becomes a single space first. */
  function ReadBack(column: string): seq<CString> {
    DecodeAll(Split(if column == "" then " " else column))
  }

  // ---- The imperative driver ----------------------------------------------

  method EscapeString(v: CString) returns (semi: string)
    ensures semi == Escape(v)
  {
    semi := "";
    var i := 0;
    while i < |v|
      invariant 0 <= i <= |v|
      invariant semi + Escape(v[i..]) == Escape(v)
    {
      var next := EscapeOne(v[i]);
      EscapeNext(semi, v, i);
      semi := semi + next;
      i := i + 1;
    }
    assert v[i..] == [];
  }

  method EscapeOne(c: char) returns (next: string)
    ensures next == EscapeChar(c)
  {
    if c == ';' || c == '^' {
      next := ['^', HexChar(c as int / 16 % 16), HexChar(c as int % 16)];
    } else {
      next := [c];
    }
  }

  lemma EscapeNext(semi: string, v: string, i: nat)
    requires i < |v|
    ensures semi + Escape(v[i..]) == semi + EscapeChar(v[i]) + Escape(v[i + 1..])
  {
    assert v[i..][1..] == v[i + 1..];
  }

  /** A string stored in `a` from `off`, followed by its NUL. */
  ghost predicate Holds(a: array<char>, off: nat, s: string)
    reads a
  {
    && off + |s| < a.Length
    && (forall i {:trigger s[i]} :: 0 <= i < |s| ==> a[off + i] == s[i])
    && a[off + |s|] == NUL
  }

  method StrLen(a: array<char>, off: nat, ghost s: CString) returns (n: nat)
    requires Holds(a, off, s)
    ensures n == |s|
  {
    n := 0;
    while a[off + n] != NUL
      invariant n <= |s| && (n < |s| ==> a[off + n] == s[n])
      decreases |s| - n
    {
      n := n + 1;
    }
  }

  /** memmove for a destination below the source. */
  method MoveDown(a: array<char>, dst: nat, src: nat, n: nat)
    requires dst <= src && src + n <= a.Length
    modifies a
    ensures forall k :: dst <= k < dst + n ==> a[k] == old(a[k - dst + src])
    ensures forall k :: 0 <= k < dst || dst + n <= k < a.Length ==> a[k] == old(a[k])
  {
    for i := 0 to n
      invariant forall k :: dst <= k < dst + i ==> a[k] == old(a[k - dst + src])
      invariant forall k :: 0 <= k < dst || dst + i <= k < a.Length ==> a[k] == old(a[k])
    {
      a[dst + i] := a[src + i];
    }
  }

  /** sscanf and memmove of one escape: its three characters become one. */
  method Collapse(a: array<char>, chunk: nat, ghost todo: CString)
    requires Holds(a, chunk, todo) && AtEscape(todo)
    modifies a
    ensures Holds(a, chunk + 1, todo[3..]) && a[chunk] == Unhex(todo[1], todo[2])
    ensures forall k :: 0 <= k < chunk || chunk + |todo| < k < a.Length ==> a[k] == old(a[k])
  {
    ghost var rest := todo[3..];
    assert forall i {:trigger rest[i]} :: 0 <= i < |rest| ==> rest[i] == todo[i + 3];
    assert a[chunk + 1] == todo[1] && a[chunk + 2] == todo[2];
    a[chunk] := Unhex(a[chunk + 1], a[chunk + 2]);
    var n := StrLen(a, chunk + 3, rest);
    MoveDown(a, chunk + 1, chunk + 3, n + 1);
  }

  /** The decoder's test; `past` when it has to look past the terminator. */
  method TestEscape(a: array<char>, chunk: nat, ghost todo: CString) returns (b: bool, past: bool)
    requires Holds(a, chunk, todo) && todo != []
    ensures past <==> PastHere(todo)
    ensures !past ==> (b <==> AtEscape(todo))
  {
    assert a[chunk] == todo[0];
    assert |todo| > 1 ==> a[chunk + 1] == todo[1];
    b, past := false, false;
    if a[chunk] == '^' && IsHexOrNul(a[chunk + 1]) {
      past := a[chunk + 1] == NUL;
      if !past {
        assert |todo| > 2 ==> a[chunk + 2] == todo[2];
        b := IsHexOrNul(a[chunk + 2]);
        past := a[chunk + 2] == NUL;
      }
    }
  }

  /** One turn of decode_chunk's loop at a position that is not the terminator. */
  method DecodeStep(a: array<char>, chunk: nat, ghost todo: CString) returns (past: bool, ghost rest: CString)
    requires Holds(a, chunk, todo) && todo != []
    modifies a
    ensures past <==> PastHere(todo)
    ensures !past ==> |rest| < |todo| && LooksPast(rest) == LooksPast(todo)
    ensures !past ==> Holds(a, chunk + 1, rest) && Decode(todo) == [a[chunk]] + Decode(rest)
    ensures forall k :: 0 <= k < chunk || chunk + |todo| < k < a.Length ==> a[k] == old(a[k])
  {
    assert a[chunk] == todo[0];
    var escape;
    escape, past := TestEscape(a, chunk, todo);
    rest := [];
    if past { return; }
    if escape {
      Collapse(a, chunk, todo);
      rest := todo[3..];
    } else {
      rest := todo[1..];
      assert forall i {:trigger rest[i]} :: 0 <= i < |rest| ==> rest[i] == todo[i + 1];
    }
  }

  /** The decoder has produced `done` and has `todo` left, where it started with `s`. */
  ghost predicate Decoding(a: array<char>, off: nat, s: string, done: string, todo: CString)
    reads a
  {
    && |done| + |todo| <= |s|
    && off + |done| + |todo| < a.Length
    && (forall i {:trigger done[i]} :: 0 <= i < |done| ==> a[off + i] == done[i])
    && Holds(a, off + |done|, todo) && LooksPast(todo) == LooksPast(s)
    && done + Decode(todo) == Decode(s)
  }

  method DecodeOne(a: array<char>, off: nat, ghost s: string, ghost done: string, ghost todo: CString, chunk: nat)
    returns (past: bool, ghost done': string, ghost todo': CString)
    requires chunk == off + |done| && Decoding(a, off, s, done, todo) && todo != []
    modifies a
    ensures past ==> LooksPast(s)
    ensures !past ==> |done'| == |done| + 1 && |todo'| < |todo| && Decoding(a, off, s, done', todo')
    ensures forall k :: 0 <= k < off || off + |s| < k < a.Length ==> a[k] == old(a[k])
  {
    past, todo' := DecodeStep(a, chunk, todo);
    done' := done + [a[chunk]];
    if !past { assert done + ([a[chunk]] + Decode(todo')) == done' + Decode(todo'); }
  }

  /**
   decode_chunk: rewrites the string at `off` in place.  Where it looks past the terminator nothing more
   is known, and `past` tells exactly when that is.
   */
  method DecodeChunk(a: array<char>, off: nat, ghost s: CString) returns (past: bool)
    requires Holds(a, off, s)
    modifies a
    ensures past <==> LooksPast(s)
    ensures !past ==> |Decode(s)| <= |s| && Holds(a, off, Decode(s))
    ensures forall k :: 0 <= k < off || off + |s| < k < a.Length ==> a[k] == old(a[k])
  {
    ghost var done: string, todo: CString := [], s;
    var chunk := off;
    past := false;
    while !past && a[chunk] != NUL
      invariant past ==> LooksPast(s)
      invariant !past ==> chunk == off + |done| && Decoding(a, off, s, done, todo)
      invariant forall k :: 0 <= k < off || off + |s| < k < a.Length ==> a[k] == old(a[k])
      decreases !past, |todo|
    {
      past, done, todo := DecodeOne(a, off, s, done, todo, chunk);
      chunk := chunk + 1;
    }
  }

  /** Copies the C string at `off` (ast_variable_new duplicates it). */
  method CopyOut(a: array<char>, off: nat, ghost s: string) returns (v: CString)
    requires Holds(a, off, s)
    ensures v == CRead(s)
  {
    v := "";
    var i := off;
    while a[i] != NUL
      invariant off <= i <= off + |s|
      invariant v + CRead(s[i - off..]) == CRead(s)
      decreases off + |s| - i
    {
      assert a[i] == s[i - off];
      assert s[i - off..][1..] == s[i + 1 - off..];
      v := v + [a[i]];
      i := i + 1;
    }
    assert i < off + |s| ==> a[i] == s[i - off];
  }

  /** strsep: the end of the piece that starts at `start`. */
  method FindSeparator(a: array<char>, start: nat, ghost rest: CString) returns (end: nat)
    requires Holds(a, start, rest)
    ensures start <= end <= start + |rest| && Free(rest[..end - start], ';')
    ensures if end < start + |rest| then a[end] == rest[end - start] == ';' else a[end] == NUL
  {
    end := start;
    while a[end] != NUL && a[end] != ';'
      invariant start <= end <= start + |rest|
      invariant Free(rest[..end - start], ';')
      decreases start + |rest| - end
    {
      assert rest[..end + 1 - start] == rest[..end - start] + [rest[end - start]];
      end := end + 1;
    }
  }

  /** Some piece makes the decoder look past its terminator. */
  predicate AnyPast(pieces: seq<string>) {
    pieces != [] && (LooksPast(pieces[0]) || AnyPast(pieces[1..]))
  }

  /** The piece before the separator at `n`, and what follows it. */
  lemma CutPieces(rest: CString, n: nat) returns (piece: CString, after: CString)
    requires n <= |rest| && Free(rest[..n], ';') && (n < |rest| ==> rest[n] == ';')
    ensures |piece| == n && forall i {:trigger piece[i]} :: 0 <= i < n ==> piece[i] == rest[i]
    ensures |after| == if n < |rest| then |rest| - n - 1 else 0
    ensures forall i {:trigger after[i]} :: 0 <= i < |after| ==> after[i] == rest[n + 1 + i]
    ensures Split(rest) == [piece] + if n < |rest| then Split(after) else []
  {
    piece := rest[..n];
    after := if n < |rest| then rest[n + 1..] else [];
    SplitFirst(rest, n);
    assert n == |rest| ==> piece == rest;
  }

  /** strsep: cuts the piece at `start` off by overwriting its separator. */
  method Cut(a: array<char>, start: nat, ghost rest: CString)
    returns (ghost piece: CString, next: nat, more: bool, ghost after: CString)
    requires Holds(a, start, rest)
    modifies a
    ensures Holds(a, start, piece) && next == start + |piece| + 1
    ensures more ==> |after| < |rest| && Holds(a, next, after)
    ensures Split(rest) == [piece] + if more then Split(after) else []
  {
    var end := FindSeparator(a, start, rest);
    piece, after := CutPieces(rest, end - start);
    more, next := a[end] == ';', end + 1;
    a[end] := NUL;
  }

  /** One turn of the strsep loop: the piece at `start` is cut off, decoded in place and copied. */
  method ReadPiece(a: array<char>, start: nat, ghost rest: CString)
    returns (v: CString, next: nat, more: bool, past: bool, ghost after: CString)
    requires Holds(a, start, rest)
    modifies a
    ensures past ==> AnyPast(Split(rest))
    ensures !past ==> AnyPast(Split(rest)) == AnyPast(Left(more, after))
    ensures !past && more ==> |after| < |rest| && Holds(a, next, after)
    ensures !past ==> DecodeAll(Split(rest)) == [v] + DecodeAll(Left(more, after))
  {
    ghost var piece;
    v := "";
    piece, next, more, after := Cut(a, start, rest);
    ghost var tail := if more then Split(after) else [];
    assert Split(rest)[0] == piece && Split(rest)[1..] == tail;
    past := DecodeChunk(a, start, piece);
    if !past { v := CopyOut(a, start, Decode(piece)); }
  }

  /** What reading the pieces that are left comes to. */
  ghost predicate Ahead(values: seq<CString>, pieces: seq<string>, all: seq<string>) {
    AnyPast(pieces) == AnyPast(all) && values + DecodeAll(pieces) == DecodeAll(all)
  }

  lemma Chained(values: seq<CString>, v: CString, rest: seq<CString>)
    ensures values + ([v] + rest) == values + [v] + rest
  {
  }

  lemma AheadStep(values: seq<CString>, pieces: seq<string>, all: seq<string>, v: CString, tail: seq<string>)
    requires Ahead(values, pieces, all) && AnyPast(pieces) == AnyPast(tail)
    requires DecodeAll(pieces) == [v] + DecodeAll(tail)
    ensures Ahead(values + [v], tail, all)
  {
    Chained(values, v, DecodeAll(tail));
  }

  /** The pieces that are left when there is more, or none. */
  ghost function Left(more: bool, rest: CString): seq<string> {
    if more then Split(rest) else []
  }

  /** The strsep loop over one column held in `a`; `past` tells exactly when a piece is looked past. */
  method ReadColumn(a: array<char>, ghost column: CString) returns (values: seq<CString>, past: bool)
    requires Holds(a, 0, column)
    modifies a
    ensures past <==> AnyPast(Split(column))
    ensures !past ==> values == DecodeAll(Split(column))
  {
    values, past := [], false;
    ghost var rest: CString := column;
    var start, more := 0, true;
    while more && !past
      invariant past ==> AnyPast(Split(column))
      invariant !past && more ==> Holds(a, start, rest)
      invariant !past ==> Ahead(values, Left(more, rest), Split(column))
      decreases !past, more, |rest|
    {
      var v, next, again;
      ghost var after;
      v, next, again, past, after := ReadPiece(a, start, rest);
      if !past {
        AheadStep(values, Split(rest), Split(column), v, Left(again, after));
        values, start, more, rest := values + [v], next, again, after;
      }
    }
  }

  // ---- Properties ----------------------------------------------------------

  /** Where the first ';' is, `Split` cuts. */
  lemma {:induction false} SplitFirst(s: string, n: nat)
    requires n <= |s| && Free(s[..n], ';')
    requires n < |s| ==> s[n] == ';'
    ensures n == |s| ==> Split(s) == [s]
    ensures n < |s| ==> Split(s) == [s[..n]] + Split(s[n + 1..])
  {
    if n == 0 {
      assert s[..n] == [];
    } else {
      assert s[0] == s[..n][0] && s[..n][1..] == s[1..][..n - 1];
      SplitFirst(s[1..], n - 1);
      assert n < |s| ==> s[1..][n..] == s[n + 1..];
      assert [s[0]] + s[1..][..n - 1] == s[..n] && [s[0]] + s[1..] == s;
    }
  }

  lemma EscapeCharProperties(c: char)
    ensures Reserved(c) ==> AtEscape(EscapeChar(c)) && Unhex(EscapeChar(c)[1], EscapeChar(c)[2]) == c
    ensures Free(EscapeChar(c), ';')
    ensures c != NUL ==> Free(EscapeChar(c), NUL)
  {
    if c == ';' { assert EscapeChar(c) == "^3B"; }
    else if c == '^' { assert EscapeChar(c) == "^5E"; }
  }

  /** The decoder looks past the terminator exactly of the strings that end in a '^', or in one and a digit. */
  lemma {:induction false} LooksPastExactly(s: CString)
    ensures LooksPast(s) <==> !DecodesInBounds(s)
    decreases |s|
  {
    if s != [] && !PastHere(s) {
      var t := if AtEscape(s) then s[3..] else s[1..];
      LooksPastExactly(t);
      assert |t| >= 1 ==> t[|t| - 1] == s[|s| - 1];
      assert |t| >= 2 ==> t[|t| - 2] == s[|s| - 2];
    }
  }

  /** The shortest such string. */
  lemma LoneCaret()
    ensures LooksPast("^") && !DecodesInBounds("^")
  {
  }

  /** An escaped value never holds a separator, nor a NUL its source did not, and is safe to decode. */
  lemma {:induction false} EscapeIsClean(s: string)
    ensures Free(Escape(s), ';')
    ensures Free(s, NUL) ==> Free(Escape(s), NUL)
    ensures DecodesInBounds(Escape(s))
    ensures s != [] ==> Escape(s) != []
  {
    if s != [] {
      EscapeCharProperties(s[0]);
      EscapeIsClean(s[1..]);
      var e, t := EscapeChar(s[0]), Escape(s[1..]);
      if |t| == 0 && Reserved(s[0]) {
        assert e + t == "^3B" || e + t == "^5E";
      }
      assert |t| >= 1 ==> (e + t)[|e + t| - 1] == t[|t| - 1];
      assert |t| >= 2 ==> (e + t)[|e + t| - 2] == t[|t| - 2];
      if |t| == 1 {
        EscapeOfShort(s[1..]);
      }
    }
  }

  lemma EscapeOfShort(s: string)
    requires |Escape(s)| == 1
    ensures |s| == 1 && !Reserved(s[0])
  {
    if |s| > 1 {
      EscapeIsClean(s[1..]);
    }
  }

  /** Decoding undoes escaping, for every string. */
  lemma {:induction false} DecodeEscape(s: string)
    ensures Decode(Escape(s)) == s
  {
    if s != [] {
      EscapeCharProperties(s[0]);
      DecodeEscape(s[1..]);
      var e, t := EscapeChar(s[0]), Escape(s[1..]);
      assert (e + t)[|e|..] == t;
    }
  }

  lemma {:induction false} CReadWhole(s: string)
    requires Free(s, NUL)
    ensures CRead(s) == s
  {
    if s != [] {
      CReadWhole(s[1..]);
    }
  }

  ghost predicate AllFree(parts: seq<string>, c: char) {
    forall i :: 0 <= i < |parts| ==> Free(parts[i], c)
  }

  /** Splitting undoes joining, for pieces without a separator. */
  lemma {:induction false} SplitJoin(parts: seq<string>)
    requires |parts| > 0 && AllFree(parts, ';')
    ensures Split(Join(parts)) == parts
  {
    var j, n := Join(parts), |parts[0]|;
    if |parts| == 1 {
      assert j[..n] == parts[0];
    } else {
      SplitJoin(parts[1..]);
      assert j[..n] == parts[0] && j[n + 1..] == Join(parts[1..]);
      assert [parts[0]] + parts[1..] == parts;
    }
    SplitFirst(j, n);
  }

  lemma {:induction false} EscapeAllIsClean(values: seq<string>)
    ensures AllFree(EscapeAll(values), ';')
    ensures AllFree(values, NUL) ==> !AnyPast(EscapeAll(values)) && DecodeAll(EscapeAll(values)) == values
  {
    if values != [] {
      EscapeIsClean(values[0]);
      EscapeAllIsClean(values[1..]);
      if AllFree(values, NUL) {
        LooksPastExactly(Escape(values[0]));
        DecodeEscape(values[0]);
        CReadWhole(values[0]);
      }
    }
  }

  lemma StoreIsEmpty(values: seq<string>)
    requires |values| > 0
    ensures Store(values) == "" <==> values == [""]
  {
    EscapeIsClean(values[0]);
    if |values| == 1 {
      assert EscapeAll(values) == [Escape(values[0])];
      assert values == [values[0]];
    }
  }

  /** Everything the driver stores is safe for the decoder to read. */
  lemma StoredColumnsDecodeInBounds(values: seq<string>)
    requires |values| > 0
    ensures Split(Store(values)) == EscapeAll(values)
    ensures AllFree(values, NUL) ==> !AnyPast(Split(Store(values)))
  {
    EscapeAllIsClean(values);
    SplitJoin(EscapeAll(values));
  }

  /**
   The round trip, exactly: a stored list of values reads back as itself if and only
   if it is not the list holding one empty value, which comes back as a space.
   */
  lemma RoundTrip(values: seq<string>)
    requires |values| > 0 && AllFree(values, NUL)
    ensures ReadBack(Store(values)) == values <==> values != [""]
    ensures values == [""] ==> ReadBack(Store(values)) == [" "]
  {
    StoreIsEmpty(values);
    if values == [""] {
      SplitFirst(" ", 1);
      assert Decode(" ") == " " && CRead(" ") == " ";
      assert DecodeAll([" "]) == [" "];
    } else {
      StoredColumnsDecodeInBounds(values);
      EscapeAllIsClean(values);
    }
  }

  /** Distinct lists of values are stored under distinct columns. */
  lemma StoreIsInjective(v: seq<string>, w: seq<string>)
    requires |v| > 0 && |w| > 0 && AllFree(v, NUL) && AllFree(w, NUL)
    requires Store(v) == Store(w)
    ensures v == w
  {
    StoredColumnsDecodeInBounds(v);
    StoredColumnsDecodeInBounds(w);
    EscapeAllIsClean(v);
    EscapeAllIsClean(w);
  }

  // ---- What the escapes are ---------------------------------------------------------------

  const UPPER: string := "0123456789ABCDEF"
  const LOWER: string := "0123456789abcdef"

  /** A caret and two hexadecimal digits, in either case, stand for the character of that number. */
  lemma EscapesStandForCharacters(n: nat, high: string, low: string, rest: string)
    requires n < 256 && high in {UPPER, LOWER} && low in {UPPER, LOWER}
    ensures Decode(['^', high[n / 16], low[n % 16]] + rest) == [n as char] + Decode(rest)
  {
    var s := ['^', high[n / 16], low[n % 16]] + rest;
    DigitValue(high, n / 16);
    DigitValue(low, n % 16);
    assert s[0] == '^' && s[1] == high[n / 16] && s[2] == low[n % 16] && s[3..] == rest;
  }

  lemma DigitValue(digits: string, n: nat)
    requires n < 16 && digits in {UPPER, LOWER}
    ensures IsHex(digits[n]) && HexValue(digits[n]) == n
  {
  }

  /** A character that does not begin an escape stands for itself. */
  lemma OthersStandForThemselves(c: char, rest: string)
    requires c != '^' || |rest| < 2 || !HexDigit(rest[0]) || !HexDigit(rest[1])
    ensures Decode([c] + rest) == [c] + Decode(rest)
  {
    var s := [c] + rest;
    assert s[1..] == rest;
    if |rest| >= 2 {
      assert s[1] == rest[0] && s[2] == rest[1];
      HexIsListed(rest[0]);
      HexIsListed(rest[1]);
    }
    assert !AtEscape(s);
  }

  predicate HexDigit(c: char) {
    c in UPPER || c in LOWER
  }

  lemma HexIsListed(c: char)
    ensures IsHex(c) ==> HexDigit(c)
  {
    if IsHex(c) {
      var n := HexValue(c);
      assert UPPER[n] == c || LOWER[n] == c;
    }
  }

  /** Semicolons and carets are escaped by their numbers, and nothing else is. */
  lemma {:induction false} OnlyTwoAreEscaped(s: string)
    ensures Escape(";") == "^3B" && Escape("^") == "^5E"
    ensures ';' !in s && '^' !in s ==> Escape(s) == s
    decreases |s|
  {
    assert ";"[1..] == [] && "^"[1..] == [];
    if s != [] && ';' !in s && '^' !in s {
      assert s[0] in s;
      OnlyTwoAreEscaped(s[1..]);
    }
  }
}
