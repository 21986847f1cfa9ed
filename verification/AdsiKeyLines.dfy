/**
 * Keys and displays and the lines they come from (apps/app_adsiprog.c), for every script: the names and return
 * codes that can be read out of a key's record are those of its own lines, and the displays are those of the
 * DISPLAY lines, in order.
 */
module AdsiKeyLines {
  import opened Options
  import opened AdsiTree
  import opened AdsiListing

  // ---- The return codes of a key -----------------------------------------------------------

  /** What a line says inside a key. */
  function ReturnOf(line: Line): Option<seq<nat>> {
    match line
    case Goto(_, code) => Some(code.bytes)
    case Command(ret, _) => if ret.Some? then Some(ret.value.bytes) else None
    case _ => None
  }

  /** The return codes in line order, each as a whole, as long as they stay within 20 bytes. */
  function Returned(body: seq<Line>): seq<nat>
    decreases |body|
  {
    if body == [] then []
    else
      var n := |body| - 1;
      var before, x := Returned(body[..n]), ReturnOf(body[n]);
      if x.Some? && |before| + |x.value| <= 20 then before + x.value else before
  }

  /** The name is that of the key of this number. */
  ghost predicate KeyKnownAs(ds: seq<KeyDef>, name: string, n: nat) {
    && n < |ds| && (SameName(ds[n].name, name) || (|name| > MAX_NAME && ds[n].name == name[..MAX_NAME]))
    && forall j :: 0 <= j < n ==> !SameName(ds[j].name, name)
  }

  ghost predicate KeyNamesKept(ds: seq<KeyDef>, es: seq<KeyDef>) {
    |ds| <= |es| && forall j :: 0 <= j < |ds| ==> es[j].name == ds[j].name
  }

  lemma {:induction false} ReferKeyNames(ds: seq<KeyDef>, names: seq<string>)
    ensures ds <= ReferKeys(ds, names)
    ensures forall i :: |ds| <= i < |ReferKeys(ds, names)| ==> !ReferKeys(ds, names)[i].defined
    decreases |names|
  {
    if names != [] { ReferKeyNames(ds, names[..|names| - 1]); }
  }

  /** What the names and codes of a key come to. */
  ghost predicate KeyIs(d: KeyDef, names: Names, body: seq<Line>) {
    && d.begun && d.full == Cut(names.full, 18) && d.short == Cut(names.short, 7)
    && d.codes == Returned(body)
  }

  ghost predicate KeyBody(key: Line, body: seq<Line>) {
    key.KeyLine? && key.rest.Some? && forall k :: 0 <= k < |body| ==> !body[k].EndKey?
  }

  /** The lines after the KEY line have been read into the key. */
  ghost predicate KeyRead(t: Tree, key: Line, body: seq<Line>, i: nat) {
    && Sound(t) && t.mode.InKey? && t.key == i && i < |t.keys|
    && KeyBody(key, body) && KeyKnownAs(t.keys, key.name, i) && KeyIs(t.keys[i], key.rest.value, body)
  }

  lemma ReturnedNext(body: seq<Line>, line: Line)
    ensures var before, x := Returned(body), ReturnOf(line);
            Returned(body + [line]) == if x.Some? && |before| + |x.value| <= 20 then before + x.value else before
  {
    assert (body + [line])[..|body|] == body;
  }

  lemma CodeRead(t: Tree, code: Code)
    requires t.key < |t.keys|
    ensures var t1 := ReturnCode(t, code);
            && t1.mode == t.mode && t1.key == t.key && KeyNamesKept(t.keys, t1.keys) && t.key < |t1.keys|
            && t1.keys[t.key] == AddReturn(t.keys[t.key], code.bytes)
  {
    ReferKeyNames(t.keys, code.keys);
  }

  lemma KeyReadNext(t: Tree, key: Line, body: seq<Line>, i: nat, line: Line)
    requires KeyRead(t, key, body, i) && !line.EndKey?
    ensures KeyRead(Grow(t, line), key, body + [line], i)
  {
    GrowKeepsSound(t, line);
    ReturnedNext(body, line);
    if line.Goto? {
      KeyCodeNext(t, key, body, i, line, line.code);
    } else if line.Command? && line.ret.Some? {
      KeyCodeNext(t, key, body, i, line, line.ret.value);
    }
  }

  lemma KeyCodeNext(t: Tree, key: Line, body: seq<Line>, i: nat, line: Line, code: Code)
    requires KeyRead(t, key, body, i) && !line.EndKey? && Sound(ReturnCode(t, code))
    requires Returned(body + [line])
          == if |Returned(body)| + |code.bytes| <= 20 then Returned(body) + code.bytes else Returned(body)
    ensures KeyRead(ReturnCode(t, code), key, body + [line], i)
  {
    CodeRead(t, code);
  }

  /** A KEY line finds its key not yet defined, or room for a new one. */
  predicate KeyBegins(t: Tree, line: Line) {
    && t.mode.Normal? && line.KeyLine? && line.rest.Some?
    && var n := FindKey(t.keys, line.name); n < |ReferKey(t.keys, line.name)| && (n < |t.keys| ==> !t.keys[n].defined)
  }

  lemma KeyStarts(t: Tree, line: Line)
    requires Sound(t) && KeyBegins(t, line)
    ensures KeyRead(Grow(t, line), line, [], FindKey(t.keys, line.name))
  {
    GrowKeepsSound(t, line);
  }

  lemma EntersByKey(t: Tree, line: Line)
    requires Sound(t) && !t.mode.InKey? && Grow(t, line).mode.InKey?
    ensures KeyBegins(t, line) && Grow(t, line).key == FindKey(t.keys, line.name)
  {
  }

  lemma StaysInKey(t: Tree, line: Line)
    requires Sound(t) && t.mode.InKey?
    ensures Grow(t, line).mode.InKey? <==> !line.EndKey?
    ensures !line.EndKey? ==> Grow(t, line).key == t.key
  {
  }

  ghost predicate InKeySince(lines: seq<Line>, t: Tree, p: nat) {
    p < |lines| && KeyRead(t, lines[p], lines[p + 1..], t.key)
  }

  lemma {:induction false} KeyBeganAt(lines: seq<Line>, t: Tree) returns (p: nat)
    requires t == GrowAll(lines) && t.mode.InKey?
    ensures InKeySince(lines, t, p)
    decreases |lines|
  {
    var n := |lines| - 1;
    var before, line := lines[..n], lines[n];
    var t0 := GrowAll(before);
    if t0.mode.InKey? {
      p := KeyBeganAt(before, t0);
      StaysInKey(t0, line);
      KeyReadNext(t0, before[p], before[p + 1..], t0.key, line);
      assert lines[p + 1..] == before[p + 1..] + [line];
    } else {
      EntersByKey(t0, line);
      KeyStarts(t0, line);
      p := n;
      assert lines[n + 1..] == [];
    }
  }

  lemma CommandKeys(t: Tree, code: Code)
    requires t.sub < |t.subs|
    ensures var es := Opcode(t, code).keys; t.keys <= es && forall i :: |t.keys| <= i < |es| ==> !es[i].defined
  {
    ReferKeyNames(t.keys, code.keys);
  }

  lemma KeyCodeKeys(t: Tree, code: Code)
    requires t.key < |t.keys|
    ensures var es := ReturnCode(t, code).keys;
            && |t.keys| <= |es| && KeyNamesKept(t.keys, es)
            && (forall i :: 0 <= i < |t.keys| && i != t.key ==> es[i] == t.keys[i])
            && (forall i :: |t.keys| <= i < |es| ==> !es[i].defined)
            && es[t.key].defined == t.keys[t.key].defined
  {
    ReferKeyNames(t.keys, code.keys);
  }

  /** A finished key stays as it is, and one is finished by its ENDKEY. */
  lemma KeysChange(t: Tree, line: Line)
    requires Sound(t)
    ensures var es := Grow(t, line).keys;
            && KeyNamesKept(t.keys, es)
            && (forall i :: 0 <= i < |t.keys| && t.keys[i].defined ==> es[i] == t.keys[i])
            && (forall i :: 0 <= i < |es| && es[i].defined && (i < |t.keys| ==> !t.keys[i].defined) ==>
                  t.mode.InKey? && line.EndKey? && t.key == i)
  {
    if t.mode.InKey? {
      assert KeySound(t.keys[t.key], ReadsKey(t, t.key));
      if line.Goto? {
        KeyCodeKeys(t, line.code);
      } else if line.Command? && line.ret.Some? {
        KeyCodeKeys(t, line.ret.value);
      }
    } else if !t.mode.Normal? && line.Command? && line.op.Some? {
      CommandKeys(t, line.op.value);
    }
  }

  /** A key that is defined is written from line `p` up to its ENDKEY, line `q`. */
  ghost predicate KeyWritten(lines: seq<Line>, ds: seq<KeyDef>, i: nat, p: nat, q: nat) {
    && p < q < |lines| && lines[q].EndKey? && KeyBody(lines[p], lines[p + 1..q])
    && KeyKnownAs(ds, lines[p].name, i) && ds[i].defined && KeyIs(ds[i], lines[p].rest.value, lines[p + 1..q])
  }

  lemma KeyWrittenLater(lines: seq<Line>, line: Line, ds: seq<KeyDef>, es: seq<KeyDef>, i: nat, p: nat, q: nat)
    requires KeyWritten(lines, ds, i, p, q) && KeyNamesKept(ds, es) && es[i] == ds[i]
    ensures KeyWritten(lines + [line], es, i, p, q)
  {
    assert (lines + [line])[p + 1..q] == lines[p + 1..q];
  }

  lemma KeyWrittenNow(lines: seq<Line>, t: Tree, p: nat, line: Line)
    requires InKeySince(lines, t, p) && line.EndKey?
    ensures KeyWritten(lines + [line], Grow(t, line).keys, t.key, p, |lines|)
  {
    assert (lines + [line])[p + 1..|lines|] == lines[p + 1..];
  }

  /** For every script and every key it defines: its names and codes are those of its own lines. */
  lemma {:induction false} KeyIsItsLines(lines: seq<Line>, i: nat, t: Tree) returns (p: nat, q: nat)
    requires t == GrowAll(lines) && i < |t.keys| && t.keys[i].defined
    ensures KeyWritten(lines, t.keys, i, p, q)
    decreases |lines|
  {
    var n := |lines| - 1;
    var before, line := lines[..n], lines[n];
    var t0 := GrowAll(before);
    assert lines == before + [line];
    KeysChange(t0, line);
    if i < |t0.keys| && t0.keys[i].defined {
      p, q := KeyIsItsLines(before, i, t0);
      KeyWrittenLater(before, line, t0.keys, t.keys, i, p, q);
    } else {
      p := KeyBeganAt(before, t0);
      q := n;
      KeyWrittenNow(before, t0, p, line);
    }
  }

  // ---- Reading a key's record --------------------------------------------------------------------

  /** The bytes before the first 0xff, and those after it. */
  function Field(s: seq<nat>): seq<nat> {
    if s == [] || s[0] == 0xff then [] else [s[0]] + Field(s[1..])
  }

  function Beyond(s: seq<nat>): seq<nat> {
    if s == [] then [] else if s[0] == 0xff then s[1..] else Beyond(s[1..])
  }

  lemma {:induction false} FieldEnds(a: seq<nat>, b: seq<nat>)
    requires 0xff !in a
    ensures Field(a + [0xff] + b) == a && Beyond(a + [0xff] + b) == b
    decreases |a|
  {
    var s := a + [0xff] + b;
    if a == [] {
      assert s[1..] == b;
    } else {
      assert a[0] in a;
      FieldEnds(a[1..], b);
      assert s[1..] == a[1..] + [0xff] + b;
    }
  }

  /**
   * The record of every key of a script: kind, length and number, then the full name and the short name of its
   * KEY line, cut, each ended by 0xff, and then its return codes in line order.  As long as the names have no
   * 0xff of their own, all three can be read back.
   */
  lemma KeyRecord(lines: seq<Line>, i: nat) returns (p: nat, q: nat)
    requires i < |GrowAll(lines).keys| && GrowAll(lines).keys[i].defined
    ensures KeyWritten(lines, GrowAll(lines).keys, i, p, q)
    ensures var r := KeyImage(i + 2, GrowAll(lines).keys[i]);
            var names, body := lines[p].rest.value, lines[p + 1..q];
            && 3 <= |r| && r[0] == 0x80 && r[1] == |r| - 2 && r[2] == i + 2
            && (0xff !in names.full && 0xff !in names.short ==>
                  && Field(r[3..]) == Cut(names.full, 18)
                  && Field(Beyond(r[3..])) == Cut(names.short, 7)
                  && Beyond(Beyond(r[3..])) == Returned(body))
  {
    var t := GrowAll(lines);
    p, q := KeyIsItsLines(lines, i, t);
    var d := t.keys[i];
    var r := KeyImage(i + 2, d);
    var names := lines[p].rest.value;
    assert r[3..] == d.full + [0xff] + (d.short + [0xff] + d.codes);
    if 0xff !in names.full && 0xff !in names.short {
      FieldEnds(d.full, d.short + [0xff] + d.codes);
      FieldEnds(d.short, d.codes);
    }
  }

  lemma {:induction false} KeyLinesRead(t: Tree, key: Line, i: nat, body: seq<Line>)
    requires KeyRead(t, key, [], i) && forall k :: 0 <= k < |body| ==> !body[k].EndKey?
    ensures KeyRead(GrowFrom(t, body), key, body, i)
    decreases |body|
  {
    if body != [] {
      var n := |body| - 1;
      KeyLinesRead(t, key, i, body[..n]);
      KeyReadNext(GrowFrom(t, body[..n]), key, body[..n], i, body[n]);
      assert body == body[..n] + [body[n]];
    }
  }

  /** From wherever a key can begin, its lines are read into one that is defined by the ENDKEY. */
  lemma KeyIsRead(lines: seq<Line>, key: Line, body: seq<Line>) returns (i: nat)
    requires KeyBegins(GrowAll(lines), key) && forall k :: 0 <= k < |body| ==> !body[k].EndKey?
    ensures var t := GrowAll(lines + [key] + body + [EndKey]);
            && t.mode.Normal? && i < |t.keys| && t.keys[i].defined
            && KeyKnownAs(t.keys, key.name, i) && KeyIs(t.keys[i], key.rest.value, body)
  {
    i := FindKey(GrowAll(lines).keys, key.name);
    GrowAllNext(lines, key);
    KeyStarts(GrowAll(lines), key);
    KeyLinesRead(GrowAll(lines + [key]), key, i, body);
    GrowAllFrom(lines + [key], body);
    GrowAllNext(lines + [key] + body, EndKey);
  }

  // ---- Displays -------------------------------------------------------------------------------------

  /** A DISPLAY line outside keys and subroutines, with a new name, while there is room. */
  predicate AddsDisplay(t: Tree, line: Line) {
    t.mode.Normal? && line.DisplayLine? && !HasDisplay(t.displays, line.name) && |t.displays| < 62
  }

  lemma DisplaysNext(t: Tree, line: Line)
    requires Sound(t)
    ensures Grow(t, line).displays ==
              if AddsDisplay(t, line) then t.displays + [DisplayDef(Kept(line.name), line.display)] else t.displays
  {
  }

  predicate AddsAfter(before: seq<Line>, line: Line) {
    AddsDisplay(GrowAll(before), line)
  }

  /** The displays are those of the lines that add one, all of them and in order. */
  ghost predicate ComeFrom(
    adds: (seq<Line>, Line) -> bool, lines: seq<Line>, displays: seq<DisplayDef>, ks: seq<nat>)
  {
    && |ks| == |displays|
    && (forall i :: 0 <= i < |ks| ==> ks[i] < |lines| && adds(lines[..ks[i]], lines[ks[i]]))
    && (forall i :: 0 <= i < |ks| ==> Describes(lines[ks[i]], displays[i]))
    && (forall i, j :: 0 <= i < j < |ks| ==> ks[i] < ks[j])
    && (forall k :: 0 <= k < |lines| && adds(lines[..k], lines[k]) ==> k in ks)
  }

  predicate Describes(line: Line, d: DisplayDef) {
    line.DisplayLine? && d == DisplayDef(Kept(line.name), line.display)
  }

  lemma ComeFromSame(
    adds: (seq<Line>, Line) -> bool, lines: seq<Line>, line: Line, displays: seq<DisplayDef>, ks: seq<nat>)
    requires ComeFrom(adds, lines, displays, ks) && !adds(lines, line)
    ensures ComeFrom(adds, lines + [line], displays, ks)
  {
    var next := lines + [line];
    assert next[..|lines|] == lines;
    assert forall k :: 0 <= k < |lines| ==> next[..k] == lines[..k] && next[k] == lines[k];
  }

  lemma ComeFromNew(
    adds: (seq<Line>, Line) -> bool, lines: seq<Line>, line: Line, displays: seq<DisplayDef>, ks: seq<nat>,
    d: DisplayDef)
    requires ComeFrom(adds, lines, displays, ks) && adds(lines, line) && Describes(line, d)
    ensures ComeFrom(adds, lines + [line], displays + [d], ks + [|lines|])
  {
    var next, ks1 := lines + [line], ks + [|lines|];
    assert next[..|lines|] == lines;
    assert forall k :: 0 <= k < |lines| ==> next[..k] == lines[..k] && next[k] == lines[k];
    forall k | 0 <= k < |next| && adds(next[..k], next[k])
      ensures k in ks1
    {
      if k < |lines| { assert k in ks; } else { assert ks1[|ks|] == k; }
    }
  }

  /** For every script, whatever its lines. */
  lemma {:induction false} DisplaysAreTheirLines(lines: seq<Line>) returns (ks: seq<nat>)
    ensures ComeFrom(AddsAfter, lines, GrowAll(lines).displays, ks)
    decreases |lines|
  {
    if lines == [] {
      ks := [];
    } else {
      var n := |lines| - 1;
      ks := DisplaysAreTheirLines(lines[..n]);
      ks := OneMoreLine(lines[..n], lines[n], ks);
      assert lines == lines[..n] + [lines[n]];
    }
  }

  lemma OneMoreLine(lines: seq<Line>, line: Line, ks: seq<nat>) returns (ks1: seq<nat>)
    requires ComeFrom(AddsAfter, lines, GrowAll(lines).displays, ks)
    ensures ComeFrom(AddsAfter, lines + [line], GrowAll(lines + [line]).displays, ks1)
  {
    var displays := GrowAll(lines).displays;
    GrowAllNext(lines, line);
    DisplaysNext(GrowAll(lines), line);
    if AddsAfter(lines, line) {
      ComeFromNew(AddsAfter, lines, line, displays, ks, DisplayDef(Kept(line.name), line.display));
      ks1 := ks + [|lines|];
    } else {
      ComeFromSame(AddsAfter, lines, line, displays, ks);
      ks1 := ks;
    }
  }
}
