/**
 * The compiler of apps/app_adsiprog.c at work on its tables.  Each line leaves the tables showing the
 * tree of the script so far, as long as no write has passed the end of its record.
 */
module AdsiCompiler {
  import opened Options
  import opened AdsiTree
  import opened AdsiBytes
  import opened AdsiRecords

  // ---- The tables -----------------------------------------------------------------------

  lemma FirstKey(keys: seq<KeyDef>, name: string, i: nat)
    requires i <= |keys| && (i < |keys| ==> SameName(keys[i].name, name))
    requires forall j :: 0 <= j < i ==> !SameName(keys[j].name, name)
    ensures FindKey(keys, name) == i
  {
  }

  lemma FirstSub(subs: seq<SubDef>, name: string, i: nat)
    requires i <= |subs| && (i < |subs| ==> SameName(subs[i].name, name))
    requires forall j :: 0 <= j < i ==> !SameName(subs[j].name, name)
    ensures FindSub(subs, name) == i
  {
  }

  datatype Disp = Disp(name: string, id: nat, data: seq<nat>)

  predicate DisplayShows(x: Disp, i: nat, d: DisplayDef) {
    x.name == d.name && x.id == i + 1 && x.data == DisplayImage(i + 1, d.display)
  }

  class Compiler {
    var mode: Mode
    var keys: seq<Key>
    var subs: seq<Sub>
    var key: nat
    var sub: nat
    var displays: seq<Disp>
    /** A write has passed the end of its record: nothing is known of the tables any more. */
    var overran: bool

    ghost predicate KeysShow(ds: seq<KeyDef>)
      reads this
    {
      |keys| == |ds| && forall i :: 0 <= i < |keys| ==> KeyShows(keys[i], i, ds[i])
    }

    ghost predicate SubsShow(ds: seq<SubDef>)
      reads this
    {
      |subs| == |ds| && forall i :: 0 <= i < |subs| ==> SubShows(subs[i], i, ds[i])
    }

    ghost predicate DisplaysShow(ds: seq<DisplayDef>)
      reads this
    {
      |displays| == |ds| && forall i :: 0 <= i < |displays| ==> DisplayShows(displays[i], i, ds[i])
    }

    /** The tables hold the bytes of the tree. */
    ghost predicate Shows(t: Tree)
      reads this
    {
      && mode == t.mode && key == t.key && sub == t.sub
      && KeysShow(t.keys) && SubsShow(t.subs) && DisplaysShow(t.displays)
    }

    constructor ()
      ensures Shows(Start()) && !overran
    {
      mode, keys, subs, displays := Normal, [], [Sub("main", 0, false, [], 0, 0, 0)], [];
      key, sub, overran := 0, 0, false;
    }

    method GetKeyByName(name: string, ghost ds: seq<KeyDef>) returns (i: nat)
      requires KeysShow(ds)
      modifies this`keys
      ensures KeysShow(ReferKey(ds, name)) && i == FindKey(ds, name)
    {
      i := 0;
      while i < |keys| && !SameName(keys[i].name, name)
        invariant i <= |keys|
        invariant forall j :: 0 <= j < i ==> !SameName(ds[j].name, name)
      {
        i := i + 1;
      }
      FirstKey(ds, name, i);
      if i == |keys| && |keys| <= 61 {
        keys := keys + [Key(Kept(name), |keys| + 2, false, [], 0)];
      }
    }

    method GetSubByName(name: string, ghost ds: seq<SubDef>) returns (i: nat)
      requires SubsShow(ds)
      modifies this`subs
      ensures SubsShow(ReferSub(ds, name)) && i == FindSub(ds, name)
    {
      i := 0;
      while i < |subs| && !SameName(subs[i].name, name)
        invariant i <= |subs|
        invariant forall j :: 0 <= j < i ==> !SameName(ds[j].name, name)
      {
        i := i + 1;
      }
      FirstSub(ds, name, i);
      if i == |subs| && |subs| <= 127 {
        subs := subs + [Sub(Kept(name), |subs|, false, [], 0, 0, 0)];
      }
    }

    method LookUpKeys(names: seq<string>, ghost ds: seq<KeyDef>)
      requires KeysShow(ds)
      modifies this`keys
      ensures KeysShow(ReferKeys(ds, names))
    {
      for j := 0 to |names|
        invariant KeysShow(ReferKeys(ds, names[..j]))
      {
        var _ := GetKeyByName(names[j], ReferKeys(ds, names[..j]));
        assert names[..j + 1][..j] == names[..j];
      }
      assert names[..|names|] == names;
    }

    method LookUpSubs(names: seq<string>, ghost ds: seq<SubDef>)
      requires SubsShow(ds)
      modifies this`subs
      ensures SubsShow(ReferSubs(ds, names))
    {
      for j := 0 to |names|
        invariant SubsShow(ReferSubs(ds, names[..j]))
      {
        var _ := GetSubByName(names[j], ReferSubs(ds, names[..j]));
        assert names[..j + 1][..j] == names[..j];
      }
      assert names[..|names|] == names;
    }

    /** An argument encoder looks up the names it is given. */
    method LookUp(code: Code, ghost t: Tree)
      requires Shows(t)
      modifies this`keys, this`subs
      ensures Shows(Refer(t, code))
    {
      LookUpKeys(code.keys, t.keys);
      LookUpSubs(code.subs, t.subs);
    }

    method ProcessReturnCode(code: Code, ghost t: Tree)
      requires Shows(t) && Sound(t) && t.mode.InKey?
      modifies this`keys, this`subs
      ensures Shows(ReturnCode(t, code))
    {
      LookUp(code, t);
      ReferKeysKeeps(t.keys, code.keys);
      var k := keys[key];
      AddReturnShows(k, key, t.keys[key], code.bytes);
      if |k.data| + |code.bytes| - k.initlen <= MAX_RET_CODE {
        keys := keys[key := k.(data := k.data + code.bytes)];
      }
    }

    /** There has to be room for the instruction and its separator. */
    method ProcessOpcode(code: Code, ghost t: Tree)
      requires Shows(t) && Sound(t) && (t.mode.InSub? || t.mode.InIf?)
      modifies this`keys, this`subs
      ensures Shows(Opcode(t, code))
    {
      LookUp(code, t);
      ReferSubsKeeps(t.subs, code.subs);
      var s := subs[sub];
      EmitShows(s, sub, t.subs[sub], code.bytes);
      var max := if s.id != 0 then MAX_SUB_LEN else MAX_MAIN_LEN;
      if |s.data| + |code.bytes| + 1 <= max {
        subs := subs[sub := EmitOp(s, code.bytes, mode.InIf?)];
      }
    }

    method BeginKeyLine(name: string, rest: Option<Names>, ghost t: Tree)
      requires Shows(t) && Sound(t) && t.mode.Normal?
      modifies this
      ensures Shows(GrowNormal(t, KeyLine(name, rest)))
      ensures overran == old(overran)
    {
      var i := GetKeyByName(name, t.keys);
      if i == |keys| || keys[i].defined || rest.None? { return; }
      ghost var ds := ReferKey(t.keys, name);
      StartKeyShows(keys[i], i, ds[i], rest.value);
      var full, short := Cut(rest.value.full, MAX_FULL_NAME), Cut(rest.value.short, MAX_SHORT_NAME);
      keys := keys[i := StartKey(keys[i], full, short)];
      key := i;
      mode := InKey;
    }

    method BeginSubLine(name: string, complete: bool, ghost t: Tree)
      requires Shows(t) && Sound(t) && t.mode.Normal?
      modifies this
      ensures Shows(GrowNormal(t, SubLine(name, complete)))
      ensures overran == old(overran)
    {
      var i := GetSubByName(name, t.subs);
      if i == |subs| || subs[i].defined { return; }
      ReferSubSound(t, name);
      ghost var ds := ReferSub(t.subs, name);
      assert SubSound(ds[i], false, false);
      StartSubShows(subs[i], i, ds[i]);
      subs := subs[i := StartSub(subs[i])];
      if complete {
        sub := i;
        mode := InSub;
      }
    }

    method EndKeyLine(ghost t: Tree)
      requires Shows(t) && Sound(t) && t.mode.InKey?
      modifies this
      ensures Shows(GrowKey(t, EndKey))
      ensures overran == old(overran)
    {
      assert KeySound(t.keys[key], true);
      FinishKeyShows(keys[key], key, t.keys[key]);
      keys := keys[key := FinishKey(keys[key])];
      mode := Normal;
    }

    method EndSubLine(ghost t: Tree)
      requires Shows(t) && Sound(t) && t.mode.InSub?
      modifies this
      ensures Shows(GrowSub(t, EndSub))
      ensures overran == old(overran)
    {
      assert SubSound(t.subs[sub], true, false);
      FinishSubShows(subs[sub], sub, t.subs[sub]);
      subs := subs[sub := FinishSub(subs[sub])];
      mode := Normal;
    }

    method IfEventLine(event: nat, ghost t: Tree)
      requires Shows(t) && Sound(t) && t.mode.InSub?
      modifies this
      ensures Shows(GrowSub(t, IfEvent(Some(event))))
      ensures overran == old(overran)
    {
      assert SubSound(t.subs[sub], true, false);
      StartIfShows(subs[sub], sub, t.subs[sub], event);
      subs := subs[sub := StartIf(subs[sub], event)];
      mode := InIf;
    }

    method EndIfLine(ghost t: Tree)
      requires Shows(t) && Sound(t) && t.mode.InIf?
      modifies this
      ensures Shows(GrowIf(t, EndIf))
      ensures overran == old(overran)
    {
      assert SubSound(t.subs[sub], true, true);
      FinishIfShows(subs[sub], sub, t.subs[sub]);
      subs := subs[sub := FinishIf(subs[sub])];
      mode := InSub;
    }

    method EventOfBranch(ghost d: SubDef) returns (event: nat)
      requires sub < |subs| && SubShows(subs[sub], sub, d) && InBranch(d)
      ensures event == Last(d).event
    {
      FinishIfShows(subs[sub], sub, d);
      event := subs[sub].data[subs[sub].ifAt + 1];
    }

    method EmitJump(code: seq<nat>, ghost ds: seq<SubDef>)
      requires SubsShow(ds) && sub < |ds| && InBranch(ds[sub])
      modifies this`subs
      ensures SubsShow(ds[sub := Emit(ds[sub], code)])
    {
      EmitShows(subs[sub], sub, ds[sub], code);
      subs := subs[sub := EmitOp(subs[sub], code, true)];
    }

    method GotoLine(target: string, ghost ds: seq<SubDef>)
      requires SubsShow(ds) && sub < |ds| && InBranch(ds[sub])
      modifies this`subs
      ensures SubsShow(JumpIn(ds, sub, target))
    {
      ghost var ds1 := ReferSub(ds, target);
      assert |ds| <= |ds1| && ds1[sub] == ds[sub];
      var event := EventOfBranch(ds[sub]);
      var i := GetSubByName(target, ds);
      if i < |subs| {
        EmitJump(JumpCode(event, i), ds1);
      }
    }

    method ProcessGoto(target: string, ghost t: Tree, ghost next: Tree)
      requires Shows(t) && Sound(t) && t.mode.InIf? && next == Jump(t, target)
      modifies this`subs
      ensures Shows(next)
    {
      assert InBranch(t.subs[sub]) by { assert SubSound(t.subs[sub], true, true); }
      GotoLine(target, t.subs);
    }

    method FindDisplay(name: string, ghost ds: seq<DisplayDef>) returns (found: bool)
      requires DisplaysShow(ds)
      ensures found <==> HasDisplay(ds, name)
    {
      found := false;
      var i := 0;
      while i < |displays| && !found
        invariant i <= |displays|
        invariant found <==> exists j :: 0 <= j < i && SameName(ds[j].name, name)
      {
        found := SameName(displays[i].name, name);
        i := i + 1;
      }
    }

    /** The text comes first, and the head when the qualifiers are in order. */
    method FillDisplay(id: nat, d: Display) returns (data: seq<nat>)
      requires id < 64
      ensures data == DisplayImage(id, d)
    {
      if d.Bare? { return []; }
      data := [0, 0, 0, 0, 0] + (Cut(d.one, MAX_COLUMN) + [0xff] + Cut(d.two, MAX_COLUMN));
      if d.style.Some? {
        var wrap := if d.style.value.wrap then 0x80 else 0;
        data := [0x81, |data| - 2, d.style.value.justify % 4 * 64 + id, wrap, 0xff] + data[5..];
      }
    }

    method DisplayTheLine(name: string, d: Display, ghost t: Tree)
      requires Shows(t) && Sound(t) && t.mode.Normal?
      modifies this`displays
      ensures Shows(GrowNormal(t, DisplayLine(name, d)))
    {
      var found := FindDisplay(name, t.displays);
      if found || |displays| > 61 { return; }
      var data := FillDisplay(|displays| + 1, d);
      displays := displays + [Disp(Kept(name), |displays| + 1, data)];
    }

    method ProcessNormal(line: Line, ghost t: Tree)
      requires Shows(t) && Sound(t) && t.mode.Normal?
      modifies this
      ensures Shows(GrowNormal(t, line))
      ensures overran == old(overran)
    {
      match line {
        case KeyLine(name, rest) => BeginKeyLine(name, rest, t);
        case SubLine(name, complete) => BeginSubLine(name, complete, t);
        case DisplayLine(name, d) => DisplayTheLine(name, d, t);
        case _ =>
      }
    }

    method ProcessInKey(line: Line, ghost t: Tree)
      requires Shows(t) && Sound(t) && t.mode.InKey?
      modifies this
      ensures Shows(GrowKey(t, line))
      ensures overran == old(overran)
    {
      match line {
        case EndKey => EndKeyLine(t);
        case Goto(_, code) => ProcessReturnCode(code, t);
        case Command(ret, _) => if ret.Some? { ProcessReturnCode(ret.value, t); }
        case _ =>
      }
    }

    method ProcessInSub(line: Line, ghost t: Tree)
      requires Shows(t) && Sound(t) && t.mode.InSub?
      modifies this
      ensures Shows(GrowSub(t, line)) && overran == old(overran)
    {
      match line {
        case EndSub => EndSubLine(t);
        case IfEvent(event) => if event.Some? { IfEventLine(event.value, t); }
        case Command(_, op) => if op.Some? { ProcessOpcode(op.value, t); }
        case _ =>
      }
    }

    method GotoInIf(line: Line, ghost t: Tree, ghost next: Tree)
      requires Shows(t) && Sound(t) && t.mode.InIf? && line.Goto? && next == GrowIf(t, line)
      modifies this`subs
      ensures Shows(next)
    {
      if line.target.Some? { ProcessGoto(line.target.value, t, next); }
    }

    method CommandInIf(line: Line, ghost t: Tree)
      requires Shows(t) && Sound(t) && t.mode.InIf? && line.Command?
      modifies this
      ensures Shows(GrowIf(t, line)) && overran == old(overran)
    {
      if line.op.Some? { ProcessOpcode(line.op.value, t); }
    }

    method ProcessInIf(line: Line, ghost t: Tree)
      requires Shows(t) && Sound(t) && t.mode.InIf?
      modifies this
      ensures Shows(GrowIf(t, line)) && overran == old(overran)
    {
      match line {
        case EndIf => EndIfLine(t);
        case Goto(_, _) => GotoInIf(line, t, GrowIf(t, line));
        case Command(_, _) => CommandInIf(line, t);
        case _ =>
      }
    }

    method ProcessByMode(line: Line, ghost t: Tree)
      requires Shows(t) && Sound(t)
      modifies this
      ensures Shows(Grow(t, line)) && overran == old(overran)
    {
      match mode {
        case Normal => ProcessNormal(line, t);
        case InKey => ProcessInKey(line, t);
        case InSub => ProcessInSub(line, t);
        case InIf => ProcessInIf(line, t);
      }
    }

    method KeyWritePasses(k: Key, line: Line, ghost d: KeyDef) returns (b: bool)
      requires KeyShows(k, key, d)
      ensures b <==> KeyLineScrap(key + 2, d, line)
    {
      match line {
        case Goto(_, code) => b := code.encoded && |k.data| + |code.bytes| > KEY_RECORD;
        case Command(ret, _) => b := ret.Some? && ret.value.encoded && |k.data| + |ret.value.bytes| > KEY_RECORD;
        case _ => b := false;
      }
    }

    method OpWritePasses(s: Sub, line: Line, ghost d: SubDef) returns (b: bool)
      requires SubShows(s, sub, d)
      ensures b <==> SubLineScrap(sub, d, line)
    {
      if !line.Command? || line.op.None? || !line.op.value.encoded { return false; }
      var end, max := |s.data| + |line.op.value.bytes|, if s.id != 0 then MAX_SUB_LEN else MAX_MAIN_LEN;
      b := end + 1 > max && end > SUB_RECORD;
    }

    method WillJump(line: Line, ghost ds: seq<SubDef>) returns (b: bool)
      requires SubsShow(ds)
      ensures b <==> Jumps(ds, line)
    {
      if !line.Goto? || line.target.None? { return false; }
      var name := line.target.value;
      var i := 0;
      while i < |subs| && !SameName(subs[i].name, name)
        invariant i <= |subs|
        invariant forall j :: 0 <= j < i ==> !SameName(ds[j].name, name)
      {
        i := i + 1;
      }
      FirstSub(ds, name, i);
      b := i < |subs| || |subs| <= 127;
    }

    /** Whether a write of the line passes the end of its record. */
    method PassesRecord(line: Line, ghost t: Tree) returns (b: bool)
      requires Shows(t) && Sound(t)
      ensures b <==> Overruns(t, line)
    {
      if mode.Normal? { return false; }
      if mode.InKey? {
        b := KeyWritePasses(keys[key], line, t.keys[key]);
        return;
      }
      b := OpWritePasses(subs[sub], line, t.subs[sub]);
      var unchecked := AppendsUnchecked(line, t);
      b := b || (unchecked && |subs[sub].data| + 4 > SUB_RECORD);
    }

    method AppendsUnchecked(line: Line, ghost t: Tree) returns (b: bool)
      requires Shows(t) && (mode.InSub? || mode.InIf?)
      ensures b <==> Unchecked(t, line)
    {
      if mode.InSub? { return line.IfEvent? && line.event.Some?; }
      b := WillJump(line, t.subs);
    }

    method AdsiProcess(line: Line, ghost t: Tree)
      requires Shows(t) && Sound(t)
      modifies this
      ensures Shows(Grow(t, line))
      ensures overran <==> old(overran) || Overruns(t, line)
    {
      var b := PassesRecord(line, t);
      overran := overran || b;
      ProcessByMode(line, t);
    }

    method AllDefinedNow() returns (ok: bool)
      ensures ok <==> (forall i :: 0 <= i < |keys| ==> keys[i].defined)
                      && (forall i :: 0 <= i < |subs| ==> subs[i].defined)
    {
      ok := true;
      for i := 0 to |keys|
        invariant ok <==> forall j :: 0 <= j < i ==> keys[j].defined
      {
        ok := ok && keys[i].defined;
      }
      ghost var keysOk := ok;
      for i := 0 to |subs|
        invariant ok <==> keysOk && forall j :: 0 <= j < i ==> subs[j].defined
      {
        ok := ok && subs[i].defined;
      }
    }

    /** The lines so far have been read. */
    ghost predicate HasRead(lines: seq<Line>)
      reads this
    {
      Shows(GrowAll(lines)) && (overran <==> !InRecord(lines))
    }

    method ReadLine(line: Line, ghost before: seq<Line>)
      requires HasRead(before)
      modifies this
      ensures HasRead(before + [line])
    {
      GrowAllNext(before, line);
      InRecordNext(before, line);
      AdsiProcess(line, GrowAll(before));
    }

    method ReadLines(lines: seq<Line>)
      requires HasRead([])
      modifies this
      ensures HasRead(lines)
    {
      ghost var done: seq<Line> := [];
      for j := 0 to |lines|
        invariant done == lines[..j] && HasRead(done)
      {
        ReadLine(lines[j], done);
        done := done + [lines[j]];
      }
      assert done == lines;
    }

    /**
     * Unless a write passes its record, which is exactly told: the script is accepted by the tree's
     * checks, and then every table entry holds the bytes of its part of the tree and fits its record,
     * with the last subroutine marked as the last.
     */
    method Compile(lines: seq<Line>) returns (ok: bool)
      requires Shows(Start()) && !overran
      modifies this
      ensures overran <==> !InRecord(lines)
      ensures !overran ==> (ok <==> Accepts(GrowAll(lines)))
      ensures !overran && ok ==> KeysShow(GrowAll(lines).keys) && DisplaysShow(GrowAll(lines).displays)
      ensures !overran && ok ==> SubsSent(GrowAll(lines))
      ensures !overran && ok ==> forall i :: 0 <= i < |subs| ==> |subs[i].data| <= SUB_RECORD
    {
      ReadLines(lines);
      ok := Conclude(GrowAll(lines));
      WritesStayExactly(lines);
    }

    ghost predicate SubsSent(t: Tree)
      reads this
    {
      |subs| == |t.subs| && forall i :: 0 <= i < |subs| ==> subs[i].data == Sent(t, i)
    }

    /** The checks at the end of the file. */
    method Conclude(ghost t: Tree) returns (ok: bool)
      requires Shows(t) && Sound(t)
      modifies this`subs
      ensures ok <==> Accepts(t)
      ensures ok ==> SubsSent(t) && forall i :: 0 <= i < |subs| ==> |subs[i].data| == Size(i, t.subs[i])
    {
      if mode.InSub? || mode.InKey? { return false; }
      ok := AllDefinedNow();
      if ok { MarkLast(t); }
    }

    method MarkLast(ghost t: Tree)
      requires Shows(t) && Sound(t) && AllDefined(t)
      modifies this`subs
      ensures SubsSent(t)
    {
      var n := |subs| - 1;
      assert SubSound(t.subs[n], ReadsSub(t, n), t.mode.InIf?);
      subs := subs[n := subs[n].(data := subs[n].data[2 := 0x80])];
    }
  }

  /** What is sent of a subroutine: the last one has its extension byte set. */
  function Sent(t: Tree, i: nat): (r: seq<nat>)
    requires i < |t.subs|
    ensures |r| == Size(i, t.subs[i])
  {
    var image := SubImage(i, t.subs[i]);
    if i == |t.subs| - 1 && 2 < |image| then image[2 := 0x80] else image
  }

  /** Of an accepted script's subroutines the last one alone has its extension byte set, and nothing else is changed. */
  lemma LastIsMarked(lines: seq<Line>, i: nat)
    requires Accepts(GrowAll(lines)) && i < |GrowAll(lines).subs|
    ensures var r, image := Sent(GrowAll(lines), i), SubImage(i, GrowAll(lines).subs[i]);
            && 3 <= |r| == |image| && r[..2] == image[..2] && r[3..] == image[3..]
            && r[2] == if i == |GrowAll(lines).subs| - 1 then 0x80 else 0
  {
    var t := GrowAll(lines);
    assert SubSound(t.subs[i], ReadsSub(t, i), t.mode.InIf?);
  }
}
