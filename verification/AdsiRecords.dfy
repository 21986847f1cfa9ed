/**
 * Where the compiler of apps/app_adsiprog.c writes: a subroutine has a record of 2048 bytes, a key one
 * of 80.  Instructions are checked against limits well below that, but an argument encoder has
 * written its bytes before the check, and IF headers and jumps are appended without one.
 */
module AdsiRecords {
  import opened Options
  import opened AdsiTree
  import opened AdsiBytes

  const SUB_RECORD: nat := 2048
  const KEY_RECORD: nat := 80

  function Size(id: nat, d: SubDef): nat {
    |SubImage(id, d)|
  }

  /** An encoder puts its bytes past the end of the record. */
  predicate KeyScrap(id: nat, d: KeyDef, code: Code) {
    code.encoded && |KeyImage(id, d)| + |code.bytes| > KEY_RECORD
  }

  predicate SubScrap(id: nat, d: SubDef, code: Code) {
    code.encoded && !Fits(id, d, code.bytes) && Size(id, d) + |code.bytes| > SUB_RECORD
  }

  predicate KeyLineScrap(id: nat, d: KeyDef, line: Line) {
    match line
    case Goto(_, code) => KeyScrap(id, d, code)
    case Command(ret, _) => ret.Some? && KeyScrap(id, d, ret.value)
    case _ => false
  }

  predicate SubLineScrap(id: nat, d: SubDef, line: Line) {
    match line
    case Command(_, op) => op.Some? && SubScrap(id, d, op.value)
    case _ => false
  }

  predicate ScrapPasses(t: Tree, line: Line)
    requires Placed(t)
  {
    match t.mode
    case Normal => false
    case InKey => KeyLineScrap(t.key + 2, t.keys[t.key], line)
    case _ => SubLineScrap(t.sub, t.subs[t.sub], line)
  }

  predicate JumpTaken(ds: seq<SubDef>, target: string) {
    FindSub(ds, target) < |ReferSub(ds, target)|
  }

  predicate Jumps(ds: seq<SubDef>, line: Line) {
    line.Goto? && line.target.Some? && JumpTaken(ds, line.target.value)
  }

  /** An IF header or a jump: the line appends four bytes, whatever room there is. */
  predicate Unchecked(t: Tree, line: Line) {
    (t.mode.InSub? && line.IfEvent? && line.event.Some?) || (t.mode.InIf? && Jumps(t.subs, line))
  }

  predicate AppendPasses(t: Tree, line: Line)
    requires Placed(t)
  {
    Unchecked(t, line) && Size(t.sub, t.subs[t.sub]) + 4 > SUB_RECORD
  }

  predicate Overruns(t: Tree, line: Line)
    requires Placed(t)
  {
    ScrapPasses(t, line) || AppendPasses(t, line)
  }

  predicate OverrunAfter(before: seq<Line>, line: Line) {
    Overruns(GrowAll(before), line)
  }

  predicate ScrapAfter(before: seq<Line>, line: Line) {
    ScrapPasses(GrowAll(before), line)
  }

  predicate AppendAfter(before: seq<Line>, line: Line) {
    AppendPasses(GrowAll(before), line)
  }

  /** That is not so of any line after those before it. */
  ghost predicate Never(bad: (seq<Line>, Line) -> bool, lines: seq<Line>) {
    forall k :: 0 <= k < |lines| ==> !bad(lines[..k], lines[k])
  }

  /** Every write of a script stays in its record. */
  ghost predicate InRecord(lines: seq<Line>) {
    Never(OverrunAfter, lines)
  }

  /** No encoder's bytes pass the end of a record. */
  ghost predicate ScrapsStay(lines: seq<Line>) {
    Never(ScrapAfter, lines)
  }

  lemma NeverNext(bad: (seq<Line>, Line) -> bool, lines: seq<Line>, line: Line, next: seq<Line>)
    requires next == lines + [line]
    ensures Never(bad, next) <==> Never(bad, lines) && !bad(lines, line)
  {
    assert next[..|lines|] == lines && next[|lines|] == line;
    assert forall k :: 0 <= k < |lines| ==> next[..k] == lines[..k] && next[k] == lines[k];
  }

  /** What a line spoils exactly when it is bad is good in the end exactly when none was. */
  lemma {:induction false} NeverSpoilt(bad: (seq<Line>, Line) -> bool, good: seq<Line> -> bool, lines: seq<Line>)
    requires good([])
    requires forall before, line :: good(before + [line]) <==> good(before) && !bad(before, line)
    ensures Never(bad, lines) <==> good(lines)
    decreases |lines|
  {
    if lines != [] {
      var n := |lines| - 1;
      NeverSpoilt(bad, good, lines[..n]);
      assert lines == lines[..n] + [lines[n]];
      NeverNext(bad, lines[..n], lines[n], lines);
    }
  }

  ghost predicate SizesFit(ds: seq<SubDef>) {
    forall i :: 0 <= i < |ds| ==> Size(i, ds[i]) <= SUB_RECORD
  }

  // ---- How a line changes sizes ----------------------------------------------------------

  /** A new size for one subroutine; those looked up for the first time are empty. */
  ghost predicate Resized(ds: seq<SubDef>, es: seq<SubDef>, sub: nat, size: nat) {
    && sub < |ds| <= |es| && Size(sub, es[sub]) == size
    && (forall i :: 0 <= i < |ds| && i != sub ==> Size(i, es[i]) == Size(i, ds[i]))
    && (forall i :: |ds| <= i < |es| ==> Size(i, es[i]) == 0)
  }

  function OpAdds(id: nat, d: SubDef, code: Code): nat {
    if Fits(id, d, code.bytes) then |code.bytes| + 1 else 0
  }

  /** How many bytes a line adds to the subroutine it is about. */
  function Added(t: Tree, line: Line): nat
    requires Placed(t) && (t.mode.InSub? || t.mode.InIf?)
  {
    if Unchecked(t, line) then 4
    else if line.Command? && line.op.Some? then OpAdds(t.sub, t.subs[t.sub], line.op.value)
    else 0
  }

  lemma ReferResizes(ds: seq<SubDef>, name: string, sub: nat)
    requires sub < |ds|
    ensures Resized(ds, ReferSub(ds, name), sub, Size(sub, ds[sub]))
  {
  }

  lemma {:induction false} ReferAllResizes(ds: seq<SubDef>, names: seq<string>, sub: nat)
    requires sub < |ds|
    ensures Resized(ds, ReferSubs(ds, names), sub, Size(sub, ds[sub]))
    decreases |names|
  {
    if names != [] {
      var n := |names| - 1;
      ReferAllResizes(ds, names[..n], sub);
      ReferResizes(ReferSubs(ds, names[..n]), names[n], sub);
    }
  }

  lemma SetResizes(ds: seq<SubDef>, es: seq<SubDef>, sub: nat, size: nat, d: SubDef)
    requires Resized(ds, es, sub, size)
    ensures Resized(ds, es[sub := d], sub, Size(sub, d))
  {
  }

  lemma EmitSize(id: nat, d: SubDef, code: seq<nat>)
    requires d.begun && !d.ended
    ensures Size(id, Emit(d, code)) == Size(id, d) + |code| + 1
  {
    EmitBytes(id, d, code);
  }

  lemma OpcodeSize(t: Tree, code: Code)
    requires Sound(t) && (t.mode.InSub? || t.mode.InIf?)
    ensures var d := t.subs[t.sub];
            Resized(t.subs, Opcode(t, code).subs, t.sub, Size(t.sub, d) + OpAdds(t.sub, d, code))
  {
    var d := t.subs[t.sub];
    assert d.begun && !d.ended by { assert SubSound(d, true, t.mode.InIf?); }
    var es := ReferSubs(t.subs, code.subs);
    ReferSubsKeeps(t.subs, code.subs);
    ReferAllResizes(t.subs, code.subs, t.sub);
    EmitSize(t.sub, d, code.bytes);
    SetResizes(t.subs, es, t.sub, Size(t.sub, d), AddOp(t.sub, d, code.bytes));
  }

  lemma JumpSize(t: Tree, target: string)
    requires Sound(t) && t.mode.InIf?
    ensures var size := Size(t.sub, t.subs[t.sub]);
            Resized(t.subs, Jump(t, target).subs, t.sub, size + if JumpTaken(t.subs, target) then 4 else 0)
  {
    var d := t.subs[t.sub];
    assert InBranch(d) by { assert SubSound(d, true, true); }
    var es := ReferSub(t.subs, target);
    ReferResizes(t.subs, target, t.sub);
    if JumpTaken(t.subs, target) {
      var jump := JumpCode(Last(d).event, FindSub(t.subs, target));
      EmitSize(t.sub, d, jump);
      SetResizes(t.subs, es, t.sub, Size(t.sub, d), Emit(d, jump));
    }
  }

  lemma EndSubSize(id: nat, d: SubDef)
    requires d.begun && !d.ended
    ensures Size(id, d.(defined := true, ended := true)) == Size(id, d)
  {
  }

  lemma OpenSize(id: nat, d: SubDef, event: nat)
    requires d.begun && !d.ended
    ensures Size(id, OpenBranch(d, event)) == Size(id, d) + 4
  {
    DraftBranch(id, d.items, event);
  }

  lemma CloseSize(id: nat, d: SubDef)
    requires InBranch(d)
    ensures Size(id, CloseBranch(d)) == Size(id, d)
  {
    CloseImage(id, d);
  }

  lemma ChangeResizes(ds: seq<SubDef>, sub: nat, d: SubDef)
    requires sub < |ds|
    ensures Resized(ds, ds[sub := d], sub, Size(sub, d))
  {
  }

  lemma NothingResizes(ds: seq<SubDef>, sub: nat)
    requires sub < |ds|
    ensures Resized(ds, ds, sub, Size(sub, ds[sub]))
  {
  }

  lemma EndSubLineSize(t: Tree)
    requires Sound(t) && t.mode.InSub?
    ensures Resized(t.subs, GrowSub(t, EndSub).subs, t.sub, Size(t.sub, t.subs[t.sub]))
  {
    var d := t.subs[t.sub];
    assert d.begun && !d.ended by { assert SubSound(d, true, false); }
    EndSubSize(t.sub, d);
    ChangeResizes(t.subs, t.sub, d.(defined := true, ended := true));
  }

  lemma IfEventLineSize(t: Tree, event: nat)
    requires Sound(t) && t.mode.InSub?
    ensures Resized(t.subs, GrowSub(t, IfEvent(Some(event))).subs, t.sub, Size(t.sub, t.subs[t.sub]) + 4)
  {
    var d := t.subs[t.sub];
    assert d.begun && !d.ended by { assert SubSound(d, true, false); }
    OpenSize(t.sub, d, event);
    ChangeResizes(t.subs, t.sub, OpenBranch(d, event));
  }

  lemma EndIfLineSize(t: Tree)
    requires Sound(t) && t.mode.InIf?
    ensures Resized(t.subs, GrowIf(t, EndIf).subs, t.sub, Size(t.sub, t.subs[t.sub]))
  {
    var d := t.subs[t.sub];
    assert InBranch(d) by { assert SubSound(d, true, true); }
    CloseSize(t.sub, d);
    ChangeResizes(t.subs, t.sub, CloseBranch(d));
  }

  lemma GrowSubSize(t: Tree, line: Line)
    requires Sound(t) && t.mode.InSub?
    ensures Resized(t.subs, GrowSub(t, line).subs, t.sub, Size(t.sub, t.subs[t.sub]) + Added(t, line))
  {
    if line.EndSub? {
      EndSubLineSize(t);
    } else if line.IfEvent? && line.event.Some? {
      IfEventLineSize(t, line.event.value);
    } else if line.Command? && line.op.Some? {
      OpcodeSize(t, line.op.value);
    } else {
      NothingResizes(t.subs, t.sub);
    }
  }

  lemma GotoLineSize(t: Tree, line: Line)
    requires Sound(t) && t.mode.InIf? && line.Goto?
    ensures Resized(t.subs, GrowIf(t, line).subs, t.sub, Size(t.sub, t.subs[t.sub]) + Added(t, line))
  {
    if line.target.Some? {
      JumpSize(t, line.target.value);
    } else {
      NothingResizes(t.subs, t.sub);
    }
  }

  lemma OpcodeLineSize(t: Tree, line: Line)
    requires Sound(t) && t.mode.InIf? && line.Command?
    ensures Resized(t.subs, GrowIf(t, line).subs, t.sub, Size(t.sub, t.subs[t.sub]) + Added(t, line))
  {
    if line.op.Some? {
      OpcodeSize(t, line.op.value);
    } else {
      NothingResizes(t.subs, t.sub);
    }
  }

  lemma GrowIfSize(t: Tree, line: Line)
    requires Sound(t) && t.mode.InIf?
    ensures Resized(t.subs, GrowIf(t, line).subs, t.sub, Size(t.sub, t.subs[t.sub]) + Added(t, line))
  {
    if line.EndIf? {
      EndIfLineSize(t);
    } else if line.Goto? {
      GotoLineSize(t, line);
    } else if line.Command? {
      OpcodeLineSize(t, line);
    } else {
      NothingResizes(t.subs, t.sub);
    }
  }

  /** Inside a subroutine a line adds its bytes to that one. */
  lemma GrowInsideSize(t: Tree, line: Line)
    requires Sound(t) && (t.mode.InSub? || t.mode.InIf?)
    ensures Resized(t.subs, Grow(t, line).subs, t.sub, Size(t.sub, t.subs[t.sub]) + Added(t, line))
  {
    if t.mode.InSub? { GrowSubSize(t, line); } else { GrowIfSize(t, line); }
  }

  /** Subroutines as they were, but for headers. */
  ghost predicate Headed(ds: seq<SubDef>, es: seq<SubDef>) {
    && |ds| <= |es|
    && (forall i :: 0 <= i < |ds| ==>
          Size(i, ds[i]) <= Size(i, es[i]) && (Size(i, es[i]) == Size(i, ds[i]) || Size(i, es[i]) == HeadLen(i)))
    && (forall i :: |ds| <= i < |es| ==> Size(i, es[i]) <= HeadLen(i))
  }

  lemma GrowKeySize(t: Tree, line: Line)
    requires Sound(t) && t.mode.InKey?
    ensures Headed(t.subs, GrowKey(t, line).subs)
  {
    match line {
      case Goto(_, code) => ReferAllResizes(t.subs, code.subs, 0);
      case Command(ret, _) => if ret.Some? { ReferAllResizes(t.subs, ret.value.subs, 0); }
      case _ =>
    }
  }

  lemma BeginSize(t: Tree, name: string, complete: bool)
    requires Sound(t) && t.mode.Normal?
    ensures Headed(t.subs, GrowNormal(t, SubLine(name, complete)).subs)
  {
    var es := ReferSub(t.subs, name);
    ReferResizes(t.subs, name, 0);
    var i := FindSub(t.subs, name);
    if i < |es| && !es[i].defined {
      assert i < |t.subs| ==> SubSound(t.subs[i], false, false);
      assert Size(i, es[i]) <= HeadLen(i);
      assert Size(i, es[i].(begun := true, items := [])) == HeadLen(i);
    }
  }

  /** Outside subroutines a line at most gives one its header. */
  lemma GrowOutsideSize(t: Tree, line: Line)
    requires Sound(t) && (t.mode.Normal? || t.mode.InKey?)
    ensures Headed(t.subs, Grow(t, line).subs)
  {
    if t.mode.InKey? {
      GrowKeySize(t, line);
    } else if line.SubLine? {
      BeginSize(t, line.name, line.complete);
    }
  }

  // ---- When every write stays --------------------------------------------------------------

  /** Sizes go past the record with the unchecked appends that do, and only with them. */
  lemma GrowFits(t: Tree, line: Line)
    requires Sound(t)
    ensures SizesFit(Grow(t, line).subs) <==> SizesFit(t.subs) && !AppendPasses(t, line)
  {
    if t.mode.Normal? || t.mode.InKey? {
      GrowOutsideSize(t, line);
    } else {
      GrowInsideSize(t, line);
      ResizedFits(t.subs, Grow(t, line).subs, t.sub, Size(t.sub, t.subs[t.sub]) + Added(t, line));
    }
  }

  lemma ResizedFits(ds: seq<SubDef>, es: seq<SubDef>, sub: nat, size: nat)
    requires Resized(ds, es, sub, size) && Size(sub, ds[sub]) <= size
    ensures SizesFit(es) <==> SizesFit(ds) && size <= SUB_RECORD
  {
    if SizesFit(es) {
      forall i | 0 <= i < |ds|
        ensures Size(i, ds[i]) <= SUB_RECORD
      {
        assert Size(i, es[i]) <= SUB_RECORD;
      }
    }
  }

  /**
   * Every write of a script stays in its record if and only if no encoder's bytes pass the end of one
   * and no subroutine comes out longer than its record.
   */
  lemma WritesStayExactly(lines: seq<Line>)
    ensures InRecord(lines) <==> ScrapsStay(lines) && SizesFit(GrowAll(lines).subs)
  {
    AppendsStayExactly(lines);
    OverrunsSplit(lines);
  }

  lemma OverrunsSplit(lines: seq<Line>)
    ensures InRecord(lines) <==> ScrapsStay(lines) && Never(AppendAfter, lines)
  {
    assert forall before, line :: OverrunAfter(before, line) <==> ScrapAfter(before, line) || AppendAfter(before, line);
  }

  lemma FitsNext(before: seq<Line>, line: Line)
    ensures SizesFit(GrowAll(before + [line]).subs) <==> SizesFit(GrowAll(before).subs) && !AppendAfter(before, line)
  {
    GrowAllNext(before, line);
    GrowFits(GrowAll(before), line);
  }

  lemma AppendsStayExactly(lines: seq<Line>)
    ensures Never(AppendAfter, lines) <==> SizesFit(GrowAll(lines).subs)
  {
    var good := (ls: seq<Line>) => SizesFit(GrowAll(ls).subs);
    forall before, line
      ensures good(before + [line]) <==> good(before) && !AppendAfter(before, line)
    {
      FitsNext(before, line);
    }
    NeverSpoilt(AppendAfter, good, lines);
  }

  lemma InRecordNext(lines: seq<Line>, line: Line)
    ensures InRecord(lines + [line]) <==> InRecord(lines) && !Overruns(GrowAll(lines), line)
  {
    NeverNext(OverrunAfter, lines, line, lines + [line]);
  }

  // ---- A bound ---------------------------------------------------------------------------------

  /** The IF and GOTO lines of a script. */
  function Appends(lines: seq<Line>): nat {
    if lines == [] then 0
    else
      var x := lines[|lines| - 1];
      Appends(lines[..|lines| - 1]) + if x.IfEvent? || x.Goto? then 1 else 0
  }

  ghost predicate Bounded(ds: seq<SubDef>, n: nat) {
    forall i :: 0 <= i < |ds| ==> Size(i, ds[i]) <= MaxLen(i) + 4 * n
  }

  lemma GrowBounded(t: Tree, line: Line, n: nat)
    requires Sound(t) && Bounded(t.subs, n)
    ensures Bounded(Grow(t, line).subs, n + if line.IfEvent? || line.Goto? then 1 else 0)
  {
    if t.mode.Normal? || t.mode.InKey? {
      GrowOutsideSize(t, line);
    } else {
      GrowInsideSize(t, line);
      AddedBounded(t, line, n);
    }
  }

  lemma AddedBounded(t: Tree, line: Line, n: nat)
    requires Sound(t) && (t.mode.InSub? || t.mode.InIf?) && Bounded(t.subs, n)
    ensures Size(t.sub, t.subs[t.sub]) + Added(t, line)
         <= MaxLen(t.sub) + 4 * (n + if line.IfEvent? || line.Goto? then 1 else 0)
  {
  }

  /** A subroutine is never longer than its limit and four bytes for each IF and GOTO of the script. */
  lemma {:induction false} SizesAreBounded(lines: seq<Line>)
    ensures Bounded(GrowAll(lines).subs, Appends(lines))
    decreases |lines|
  {
    if lines != [] {
      var n := |lines| - 1;
      SizesAreBounded(lines[..n]);
      GrowBounded(GrowAll(lines[..n]), lines[n], Appends(lines[..n]));
    }
  }

  /** Up to 112 IF and GOTO lines, only an encoder can write past a record. */
  lemma FewBranchesStay(lines: seq<Line>)
    requires Appends(lines) <= 112
    ensures InRecord(lines) <==> ScrapsStay(lines)
  {
    WritesStayExactly(lines);
    SizesAreBounded(lines);
    var ds := GrowAll(lines).subs;
    forall i | 0 <= i < |ds|
      ensures Size(i, ds[i]) <= SUB_RECORD
    {
      assert Size(i, ds[i]) <= MaxLen(i) + 4 * Appends(lines);
    }
  }

  // ---- Bounds on the script ------------------------------------------------------------------------

  function Encoded(code: Option<Code>): nat {
    if code.Some? && code.value.encoded then |code.value.bytes| else 0
  }

  /** How many bytes the line's encoder writes, as a return code and as an opcode. */
  function ReturnBytes(line: Line): nat {
    match line
    case Goto(_, code) => Encoded(Some(code))
    case Command(ret, _) => Encoded(ret)
    case _ => 0
  }

  function OpBytes(line: Line): nat {
    if line.Command? then Encoded(line.op) else 0
  }

  ghost predicate ReturnsUpTo(lines: seq<Line>, n: nat) {
    forall k :: 0 <= k < |lines| ==> ReturnBytes(lines[k]) <= n
  }

  ghost predicate OpsUpTo(lines: seq<Line>, n: nat) {
    forall k :: 0 <= k < |lines| ==> OpBytes(lines[k]) <= n
  }

  /** What the names and codes of a key leave of its record. */
  function Room(d: KeyDef): int {
    KEY_RECORD - 5 - |d.full| - |d.short| - |d.codes|
  }

  /** The line is a return code for which the key being read has no room. */
  predicate KeyFull(t: Tree, line: Line)
    requires Placed(t)
  {
    t.mode.InKey? && ReturnBytes(line) > Room(t.keys[t.key])
  }

  predicate KeyFullAfter(before: seq<Line>, line: Line) {
    KeyFull(GrowAll(before), line)
  }

  ghost predicate KeysHaveRoom(lines: seq<Line>) {
    Never(KeyFullAfter, lines)
  }

  lemma KeyLineDecides(t: Tree, line: Line)
    requires Sound(t) && t.mode.InKey?
    ensures Overruns(t, line) <==> KeyFull(t, line)
  {
    var d := t.keys[t.key];
    assert KeySound(d, true) by { assert KeySound(d, ReadsKey(t, t.key)); }
    assert |KeyImage(t.key + 2, d)| == KEY_RECORD - Room(d);
  }

  /** With this much space left in the main subroutine, only keys are overrun. */
  lemma LineDecides(t: Tree, line: Line, n: nat, op: nat)
    requires Sound(t) && Bounded(t.subs, n) && OpBytes(line) <= op
    requires MAX_MAIN_LEN + 4 * (n + if line.IfEvent? || line.Goto? then 1 else 0) + op <= SUB_RECORD
    ensures Overruns(t, line) <==> KeyFull(t, line)
  {
    if t.mode.InKey? {
      KeyLineDecides(t, line);
    } else if !t.mode.Normal? {
      assert Size(t.sub, t.subs[t.sub]) <= MaxLen(t.sub) + 4 * n;
    }
  }

  lemma {:induction false} AppendsOfPrefix(lines: seq<Line>, k: nat)
    requires k < |lines|
    ensures var x := lines[k]; Appends(lines[..k]) + (if x.IfEvent? || x.Goto? then 1 else 0) <= Appends(lines)
    decreases |lines|
  {
    var n := |lines| - 1;
    if k < n {
      AppendsOfPrefix(lines[..n], k);
      assert lines[..n][..k] == lines[..k];
    }
  }

  /**
   * With so few IF and GOTO lines for the length of its opcodes, every write of a script stays if and
   * only if each return code finds room in its key's record.
   */
  lemma KeysDecide(lines: seq<Line>, op: nat)
    requires OpsUpTo(lines, op) && MAX_MAIN_LEN + 4 * Appends(lines) + op <= SUB_RECORD
    ensures InRecord(lines) <==> KeysHaveRoom(lines)
  {
    forall k | 0 <= k < |lines|
      ensures OverrunAfter(lines[..k], lines[k]) <==> KeyFullAfter(lines[..k], lines[k])
    {
      AppendsOfPrefix(lines, k);
      SizesAreBounded(lines[..k]);
      LineDecides(GrowAll(lines[..k]), lines[k], Appends(lines[..k]), op);
    }
  }

  /** What a script writer can count: encoded bytes of return codes and opcodes, IF and GOTO lines. */
  ghost predicate Within(lines: seq<Line>, ret: nat, op: nat, m: nat) {
    ReturnsUpTo(lines, ret) && OpsUpTo(lines, op) && Appends(lines) <= m
  }

  predicate Safe(ret: nat, op: nat, m: nat) {
    ret <= 30 && 4 * m + op <= 448
  }

  lemma RoomForThirty(t: Tree)
    requires Sound(t) && t.mode.InKey?
    ensures Room(t.keys[t.key]) >= 30
  {
    assert KeySound(t.keys[t.key], ReadsKey(t, t.key));
  }

  /** Within these bounds every write stays in its record. */
  lemma ShortCodesStay(lines: seq<Line>, ret: nat, op: nat, m: nat)
    requires Within(lines, ret, op, m) && Safe(ret, op, m)
    ensures InRecord(lines)
  {
    KeysDecide(lines, op);
    forall k | 0 <= k < |lines|
      ensures !KeyFullAfter(lines[..k], lines[k])
    {
      if GrowAll(lines[..k]).mode.InKey? { RoomForThirty(GrowAll(lines[..k])); }
    }
  }

  // ---- Scripts that do not stay --------------------------------------------------------------------

  /** The same lines so many times more. */
  function Repeat(start: seq<Line>, step: seq<Line>, n: nat): seq<Line>
    decreases n
  {
    if n == 0 then start else Repeat(start + step, step, n - 1)
  }

  /** What these lines carry on, with so much more each time, they carry on together. */
  lemma {:induction false} RepeatCarries(
    P: (seq<Line>, nat) -> bool, start: seq<Line>, step: seq<Line>, n: nat, k: nat, more: nat)
    requires P(start, k)
    requires forall lines, i: nat :: P(lines, i) ==> P(lines + step, i + more)
    ensures P(Repeat(start, step, n), k + more * n)
    decreases n
  {
    if n > 0 {
      assert k + more + more * (n - 1) == k + more * n;
      RepeatCarries(P, start + step, step, n - 1, k + more, more);
    }
  }

  /** An empty IF. */
  function Pair(event: nat): seq<Line> {
    [IfEvent(Some(event)), EndIf]
  }

  ghost predicate OnlyMain(t: Tree, size: nat) {
    && t.mode.InSub? && t.sub == 0 && |t.subs| == 1 && t.keys == []
    && Size(0, t.subs[0]) == size
  }

  lemma IfGrows(t: Tree, event: nat, size: nat)
    requires Sound(t) && OnlyMain(t, size)
    ensures var t1 := Grow(t, IfEvent(Some(event)));
            t1.mode.InIf? && t1.sub == 0 && |t1.subs| == 1 && t1.keys == [] && Size(0, t1.subs[0]) == size + 4
  {
    GrowSubSize(t, IfEvent(Some(event)));
  }

  lemma PairGrows(t: Tree, event: nat, size: nat)
    requires Sound(t) && OnlyMain(t, size)
    ensures Sound(Grow(t, IfEvent(Some(event)))) && OnlyMain(Grow(Grow(t, IfEvent(Some(event))), EndIf), size + 4)
  {
    IfGrows(t, event, size);
    GrowKeepsSound(t, IfEvent(Some(event)));
    GrowIfSize(Grow(t, IfEvent(Some(event))), EndIf);
  }

  /** What has been read so far is the main subroutine, of that size. */
  ghost predicate MainSoFar(lines: seq<Line>, size: nat) {
    OnlyMain(GrowAll(lines), size)
  }

  lemma PairAppends(lines: seq<Line>, event: nat, size: nat, next: seq<Line>)
    requires MainSoFar(lines, size) && next == lines + Pair(event)
    ensures MainSoFar(next, size + 4)
  {
    var l1, l2 := IfEvent(Some(event)), EndIf;
    GrowAllNext(lines, l1);
    GrowAllNext(lines + [l1], l2);
    PairGrows(GrowAll(lines), event, size);
    assert next == lines + [l1] + [l2];
  }

  const MAIN: Line := SubLine("main", true)

  lemma MainStarts()
    ensures MainSoFar([MAIN], 3)
  {
    MainBegins();
    assert OnlyMain(Entered(), 3);
  }

  lemma PairsGrow(start: seq<Line>, size: nat, n: nat, event: nat)
    requires MainSoFar(start, size)
    ensures MainSoFar(Repeat(start, Pair(event), n), size + 4 * n)
  {
    var P := (lines: seq<Line>, i: nat) => MainSoFar(lines, i);
    forall lines, i: nat | P(lines, i)
      ensures P(lines + Pair(event), i + 4)
    {
      PairAppends(lines, event, i, lines + Pair(event));
    }
    RepeatCarries(P, start, Pair(event), n, size, 4);
  }

  lemma EndGrows(t: Tree, size: nat)
    requires Sound(t) && OnlyMain(t, size)
    ensures var t1 := Grow(t, EndSub); Accepts(t1) && t1.mode.Normal? && (SizesFit(t1.subs) <==> size <= SUB_RECORD)
  {
    GrowSubSize(t, EndSub);
  }

  lemma MainEnds(lines: seq<Line>, size: nat)
    requires MainSoFar(lines, size)
    ensures var t := GrowAll(lines + [EndSub]); Accepts(t) && Complete(t) && (SizesFit(t.subs) <==> size <= SUB_RECORD)
  {
    GrowAllNext(lines, EndSub);
    EndGrows(GrowAll(lines), size);
    AcceptedIsComplete(lines + [EndSub]);
  }

  /** Only commands have encoders. */
  ghost predicate Commandless(lines: seq<Line>) {
    forall k :: 0 <= k < |lines| ==> !lines[k].Command? && !lines[k].Goto?
  }

  lemma CommandlessStays(lines: seq<Line>)
    requires Commandless(lines)
    ensures ScrapsStay(lines + [EndSub])
  {
    var all := lines + [EndSub];
    forall k | 0 <= k < |all|
      ensures !ScrapAfter(all[..k], all[k])
    {
      assert !all[k].Command? && !all[k].Goto?;
    }
  }

  lemma PairsCommandless(n: nat, event: nat)
    ensures Commandless(Repeat([MAIN], Pair(event), n))
  {
    var P := (lines: seq<Line>, i: nat) => Commandless(lines);
    RepeatCarries(P, [MAIN], Pair(event), n, 0, 0);
  }

  /** A main subroutine of so many empty IFs. */
  function IfScript(n: nat, event: nat): seq<Line> {
    Repeat([MAIN], Pair(event), n) + [EndSub]
  }

  /** The script of so many IFs is accepted and complete, and from the 512th on it writes past its record. */
  lemma ManyIfsOverrun(n: nat, event: nat)
    ensures Accepts(GrowAll(IfScript(n, event))) && Complete(GrowAll(IfScript(n, event)))
    ensures InRecord(IfScript(n, event)) <==> n < 512
  {
    MainStarts();
    PairsGrow([MAIN], 3, n, event);
    MainEnds(Repeat([MAIN], Pair(event), n), 3 + 4 * n);
    PairsCommandless(n, event);
    CommandlessStays(Repeat([MAIN], Pair(event), n));
    WritesStayExactly(IfScript(n, event));
  }

  // ---- Return codes that are too long --------------------------------------------------------------

  /** SENDDTMF in a key: the tones are written before they are counted. */
  function Tones(tones: seq<nat>): Line {
    Command(Some(Code(tones, true, [], [])), None)
  }

  /** An empty main subroutine and one key with two strings of tones. */
  function KeyScript(name: string, names: Names, a: seq<nat>, b: seq<nat>): seq<Line> {
    [MAIN] + [EndSub] + [KeyLine(name, Some(names))] + [Tones(a)] + [Tones(b)] + [EndKey]
  }

  /** The main subroutine is finished, and this key is being read. */
  function Reading(d: KeyDef): (t: Tree)
    ensures Placed(t)
  {
    Tree(InKey, [d], [NewSub("main").(begun := true, defined := true, ended := true)], [], 0, 0)
  }

  lemma KeyBegins(name: string, names: Names)
    ensures var lines := [MAIN] + [EndSub] + [KeyLine(name, Some(names))];
            GrowAll(lines) == Reading(BeginKey(NewKey(name), names)) && InRecord(lines)
  {
    var k := KeyLine(name, Some(names));
    MainBegins();
    GrowAllNext([MAIN], EndSub);
    GrowAllNext([MAIN] + [EndSub], k);
    InRecordNext([], MAIN);
    assert [] + [MAIN] == [MAIN];
    InRecordNext([MAIN], EndSub);
    InRecordNext([MAIN] + [EndSub], k);
  }

  lemma TonesGrow(d: KeyDef, a: seq<nat>)
    requires d.begun
    ensures Grow(Reading(d), Tones(a)) == Reading(AddReturn(d, a))
    ensures Overruns(Reading(d), Tones(a)) <==> |a| > Room(d)
  {
  }

  lemma TonesAppend(lines: seq<Line>, d: KeyDef, a: seq<nat>)
    requires d.begun && GrowAll(lines) == Reading(d)
    ensures GrowAll(lines + [Tones(a)]) == Reading(AddReturn(d, a))
    ensures InRecord(lines + [Tones(a)]) <==> InRecord(lines) && |a| <= Room(d)
  {
    GrowAllNext(lines, Tones(a));
    InRecordNext(lines, Tones(a));
    TonesGrow(d, a);
  }

  lemma KeyEnds(lines: seq<Line>, d: KeyDef)
    requires GrowAll(lines) == Reading(d)
    ensures Accepts(GrowAll(lines + [EndKey])) && (InRecord(lines + [EndKey]) <==> InRecord(lines))
  {
    GrowAllNext(lines, EndKey);
    InRecordNext(lines, EndKey);
  }

  /**
   * The script is accepted.  Its writes stay if and only if each string fits what the names, and the first
   * string where it is kept, leave of the key's 80 bytes: after empty names, 75 tones do and 76 do not.
   */
  lemma LongTonesOverrun(name: string, names: Names, a: seq<nat>, b: seq<nat>)
    ensures Accepts(GrowAll(KeyScript(name, names, a, b)))
    ensures var head := 5 + |Cut(names.full, MAX_FULL_NAME)| + |Cut(names.short, MAX_SHORT_NAME)|;
            InRecord(KeyScript(name, names, a, b)) <==>
              head + |a| <= 80 && head + (if |a| <= 20 then |a| else 0) + |b| <= 80
  {
    var d := BeginKey(NewKey(name), names);
    var l0 := [MAIN] + [EndSub] + [KeyLine(name, Some(names))];
    KeyBegins(name, names);
    TonesAppend(l0, d, a);
    TonesAppend(l0 + [Tones(a)], AddReturn(d, a), b);
    KeyEnds(l0 + [Tones(a)] + [Tones(b)], AddReturn(AddReturn(d, a), b));
  }

  // ---- The bounds are exact ------------------------------------------------------------------------

  /** An opcode of so many encoded bytes; with none it stands for one whose argument is missing. */
  function Op(bytes: seq<nat>): Line {
    Command(None, Some(Code(bytes, true, [], [])))
  }

  lemma OpAppends(lines: seq<Line>, size: nat, next: seq<Line>)
    requires MainSoFar(lines, size) && size < MAX_MAIN_LEN && next == lines + [Op([])]
    ensures MainSoFar(next, size + 1)
  {
    GrowAllNext(lines, Op([]));
    GrowSubSize(GrowAll(lines), Op([]));
  }

  lemma FillGrows(n: nat)
    requires n + 3 <= MAX_MAIN_LEN
    ensures MainSoFar(Repeat([MAIN], [Op([])], n), n + 3)
  {
    var P := (lines: seq<Line>, i: nat) => i <= MAX_MAIN_LEN ==> MainSoFar(lines, i);
    forall lines, i: nat | P(lines, i)
      ensures P(lines + [Op([])], i + 1)
    {
      if i < MAX_MAIN_LEN { OpAppends(lines, i, lines + [Op([])]); }
    }
    MainStarts();
    RepeatCarries(P, [MAIN], [Op([])], n, 3, 1);
  }

  lemma WithinNext(lines: seq<Line>, line: Line, ret: nat, op: nat, m: nat)
    requires Within(lines, ret, op, m) && ReturnBytes(line) <= ret && OpBytes(line) <= op
    ensures Within(lines + [line], ret, op, m + if line.IfEvent? || line.Goto? then 1 else 0)
  {
    assert (lines + [line])[..|lines|] == lines;
  }

  lemma MainWithin(ret: nat, op: nat)
    ensures Within([MAIN], ret, op, 0)
  {
    assert [MAIN][..0] == [];
  }

  lemma FillWithin(n: nat, ret: nat, op: nat)
    ensures Within(Repeat([MAIN], [Op([])], n), ret, op, 0)
  {
    var P := (lines: seq<Line>, i: nat) => Within(lines, ret, op, i);
    forall lines, i: nat | P(lines, i)
      ensures P(lines + [Op([])], i + 0)
    {
      WithinNext(lines, Op([]), ret, op, i);
    }
    MainWithin(ret, op);
    RepeatCarries(P, [MAIN], [Op([])], n, 0, 0);
  }

  lemma PairWithin(lines: seq<Line>, event: nat, ret: nat, op: nat, m: nat)
    requires Within(lines, ret, op, m)
    ensures Within(lines + Pair(event), ret, op, m + 1)
  {
    var x := IfEvent(Some(event));
    WithinNext(lines, x, ret, op, m);
    WithinNext(lines + [x], EndIf, ret, op, m + 1);
    assert lines + Pair(event) == lines + [x] + [EndIf];
  }

  lemma PairsWithin(start: seq<Line>, n: nat, event: nat, ret: nat, op: nat)
    requires Within(start, ret, op, 0)
    ensures Within(Repeat(start, Pair(event), n), ret, op, n)
  {
    var P := (lines: seq<Line>, i: nat) => Within(lines, ret, op, i);
    forall lines, i: nat | P(lines, i)
      ensures P(lines + Pair(event), i + 1)
    {
      PairWithin(lines, event, ret, op, i);
    }
    RepeatCarries(P, start, Pair(event), n, 0, 1);
  }

  lemma OpPasses(lines: seq<Line>, size: nat, bytes: seq<nat>)
    requires MainSoFar(lines, size) && MAX_MAIN_LEN <= size && size + |bytes| > SUB_RECORD
    ensures GrowAll(lines + [Op(bytes)]) == GrowAll(lines) && OverrunAfter(lines, Op(bytes))
  {
    GrowAllNext(lines, Op(bytes));
  }

  lemma OpEnds(lines: seq<Line>, size: nat, bytes: seq<nat>)
    requires MainSoFar(lines, size) && MAX_MAIN_LEN <= size && size + |bytes| > SUB_RECORD
    ensures var all := lines + [Op(bytes)] + [EndSub]; Accepts(GrowAll(all)) && !InRecord(all)
  {
    OpPasses(lines, size, bytes);
    NeverNext(OverrunAfter, lines, Op(bytes), lines + [Op(bytes)]);
    NeverNext(OverrunAfter, lines + [Op(bytes)], EndSub, lines + [Op(bytes)] + [EndSub]);
    MainEnds(lines + [Op(bytes)], size);
  }

  /** A full main subroutine, the IFs, and an opcode that no longer fits. */
  lemma FullMainOverruns(start: seq<Line>, ret: nat, m: nat, bytes: seq<nat>) returns (lines: seq<Line>)
    requires MainSoFar(start, MAX_MAIN_LEN) && Within(start, ret, |bytes|, 0) && 4 * m + |bytes| > 448
    ensures Within(lines, ret, |bytes|, m) && Accepts(GrowAll(lines)) && !InRecord(lines)
  {
    var before := Repeat(start, Pair(1), m);
    PairsGrow(start, MAX_MAIN_LEN, m, 1);
    OpEnds(before, MAX_MAIN_LEN + 4 * m, bytes);
    PairsWithin(start, m, 1, ret, |bytes|);
    WithinNext(before, Op(bytes), ret, |bytes|, m);
    WithinNext(before + [Op(bytes)], EndSub, ret, |bytes|, m);
    lines := before + [Op(bytes)] + [EndSub];
  }

  lemma LongOpOverruns(ret: nat, op: nat, m: nat) returns (lines: seq<Line>)
    requires 4 * m + op > 448
    ensures Within(lines, ret, op, m) && Accepts(GrowAll(lines)) && !InRecord(lines)
  {
    var n: nat :| n + 3 == MAX_MAIN_LEN;
    FillGrows(n);
    FillWithin(n, ret, op);
    lines := FullMainOverruns(Repeat([MAIN], [Op([])], n), ret, m, seq(op, i => 0));
  }

  /** A key with the longest names and 20 bytes of codes, and 31 tones more. */
  lemma LongReturnOverruns(ret: nat, op: nat, m: nat) returns (lines: seq<Line>)
    requires ret > 30
    ensures Within(lines, ret, op, m) && Accepts(GrowAll(lines)) && !InRecord(lines)
  {
    var names := AdsiTree.Names(seq(18, i => 0x41), seq(7, i => 0x41));
    var a, b := seq(20, i => 0x31), seq(31, i => 0x31);
    lines := KeyScript("k", names, a, b);
    LongTonesOverrun("k", names, a, b);
    KeyScriptWithin("k", names, a, b, ret, op);
  }

  lemma KeyScriptWithin(name: string, names: Names, a: seq<nat>, b: seq<nat>, ret: nat, op: nat)
    requires |a| <= ret && |b| <= ret
    ensures Within(KeyScript(name, names, a, b), ret, op, 0)
  {
    var k := KeyLine(name, Some(names));
    MainWithin(ret, op);
    WithinNext([MAIN], EndSub, ret, op, 0);
    WithinNext([MAIN] + [EndSub], k, ret, op, 0);
    WithinNext([MAIN] + [EndSub] + [k], Tones(a), ret, op, 0);
    WithinNext([MAIN] + [EndSub] + [k] + [Tones(a)], Tones(b), ret, op, 0);
    WithinNext([MAIN] + [EndSub] + [k] + [Tones(a)] + [Tones(b)], EndKey, ret, op, 0);
  }

  /**
   * Bounds on return codes, opcodes and IF and GOTO lines keep the writes of every accepted script in
   * their records if and only if they allow at most 30 bytes for a return code and 448 for an opcode with
   * four for each IF and GOTO.
   */
  lemma BoundsAreExact(ret: nat, op: nat, m: nat)
    ensures (forall lines :: Within(lines, ret, op, m) && Accepts(GrowAll(lines)) ==> InRecord(lines))
       <==> Safe(ret, op, m)
  {
    if Safe(ret, op, m) {
      forall lines | Within(lines, ret, op, m) && Accepts(GrowAll(lines))
        ensures InRecord(lines)
      {
        ShortCodesStay(lines, ret, op, m);
      }
    } else if ret > 30 {
      var lines := LongReturnOverruns(ret, op, m);
    } else {
      var lines := LongOpOverruns(ret, op, m);
    }
  }

  // ---- What the records then hold ------------------------------------------------------------------

  /**
   * As long as every write stays, a finished subroutine fits its record as a header, with its length and
   * its number of instructions modulo 256, and the instructions; each IF counts those under it.
   */
  lemma EndedSubroutine(lines: seq<Line>, i: nat)
    requires InRecord(lines) && i < |GrowAll(lines).subs| && GrowAll(lines).subs[i].ended
    ensures var d := GrowAll(lines).subs[i];
            var image := SubImage(i, d);
            && HeadLen(i) <= |image| <= SUB_RECORD
            && image[..3] == [0x82, (|image| - 2) % 256, 0]
            && (i != 0 ==> image[3..7] == [9, i, |Instructions(d.items)| % 256, 0xff])
            && image[HeadLen(i)..] == Codes(Instructions(d.items))
            && (forall k :: 0 <= k < |d.items| && d.items[k].Branch? ==>
                  BranchHead(d.items[k])[2] == |d.items[k].body| % 256)
  {
    WritesStayExactly(lines);
    EndedImage(lines, i);
    assert Size(i, GrowAll(lines).subs[i]) <= SUB_RECORD;
  }
}
