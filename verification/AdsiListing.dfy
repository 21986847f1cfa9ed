/**
 * Scripts and what becomes of their lines (apps/app_adsiprog.c): the instructions of a subroutine listed line
 * by line, flat as the compiler writes them, against the tree, for every script; likewise the return codes of
 * a key and the displays.
 */
module AdsiListing {
  import opened Options
  import opened AdsiTree

  // ---- The listing of a subroutine -------------------------------------------------------

  /** The instructions so far, and which of them is the IF being read. */
  datatype Listing = Listing(code: seq<seq<nat>>, at: Option<nat>)

  ghost predicate Proper(l: Listing) {
    l.at.Some? ==> l.at.value < |l.code| && |l.code[l.at.value]| == 3
  }

  /** Each instruction is followed by one byte. */
  function Length(code: seq<seq<nat>>): nat {
    if code == [] then 0 else Length(code[..|code| - 1]) + |code[|code| - 1]| + 1
  }

  predicate HasSpace(id: nat, l: Listing, bytes: seq<nat>) {
    (if id == 0 then 3 else 7) + Length(l.code) + |bytes| + 1 <= if id == 0 then 1600 else 255
  }

  /**
   * What a line adds: an IF its event and a place for the number of instructions under it, which ENDIF fills
   * in; a GOTO under it the same event and the number of its target; any other command its bytes, if they fit.
   */
  function ListLine(id: nat, l: Listing, line: Line, number: Option<nat>): (r: Listing)
    requires Proper(l)
    ensures Proper(r)
  {
    match line
    case IfEvent(event) =>
      if l.at.Some? || event.None? then l else Listing(l.code + [[1, event.value, 0]], Some(|l.code|))
    case EndIf =>
      if l.at.None? then l
      else
        var k := l.at.value;
        Listing(l.code[k := [1, l.code[k][1], (|l.code| - 1 - k) % 256]], None)
    case Goto(target, _) =>
      if l.at.None? || target.None? || number.None? then l
      else l.(code := l.code + [[8, l.code[l.at.value][1], number.value]])
    case Command(_, op) =>
      if op.None? || !HasSpace(id, l, op.value.bytes) then l else l.(code := l.code + [op.value.bytes])
    case _ => l
  }

  function Listed(id: nat, body: seq<Line>, numbers: seq<Option<nat>>): (r: Listing)
    requires |body| == |numbers|
    ensures Proper(r)
    decreases |body|
  {
    if body == [] then Listing([], None)
    else
      var n := |body| - 1;
      ListLine(id, Listed(id, body[..n], numbers[..n]), body[n], numbers[n])
  }

  /** An IF is being read after these lines. */
  predicate IfOpen(body: seq<Line>)
    decreases |body|
  {
    if body == [] then false
    else
      var n := |body| - 1;
      match body[n]
      case IfEvent(event) => event.Some? || IfOpen(body[..n])
      case EndIf => false
      case _ => IfOpen(body[..n])
  }

  lemma {:induction false} ListedOpen(id: nat, body: seq<Line>, numbers: seq<Option<nat>>)
    requires |body| == |numbers|
    ensures Listed(id, body, numbers).at.Some? <==> IfOpen(body)
    decreases |body|
  {
    if body != [] { ListedOpen(id, body[..|body| - 1], numbers[..|body| - 1]); }
  }

  // ---- The tree against the listing --------------------------------------------------------

  /** The subroutine being read has just these instructions. */
  ghost predicate Shows(d: SubDef, l: Listing) {
    && d.begun && !d.ended && Instructions(d.items) == l.code
    && (Open(d) <==> l.at.Some?)
    && (Open(d) ==> l.at == Some(|Instructions(d.items[..|d.items| - 1])|))
  }

  lemma InstructionsNext(items: seq<Item>, x: Item)
    ensures Instructions(items + [x]) == Instructions(items) + Own(x)
  {
    assert (items + [x])[..|items|] == items;
  }

  lemma InstructionsLast(d: SubDef)
    requires Open(d)
    ensures var init, x := d.items[..|d.items| - 1], Last(d);
            Instructions(d.items) == Instructions(init) + ([[1, x.event, 0]] + x.body)
  {
    var init, x := d.items[..|d.items| - 1], Last(d);
    assert d.items == init + [x];
    InstructionsNext(init, x);
    assert BranchHead(x)[..3] == [1, x.event, 0];
  }

  lemma EmitListed(d: SubDef, l: Listing, code: seq<nat>)
    requires Shows(d, l)
    ensures Shows(Emit(d, code), l.(code := l.code + [code]))
  {
    if Open(d) {
      var init, x := d.items[..|d.items| - 1], Last(d);
      InstructionsLast(d);
      var e := Emit(d, code);
      assert e.items == init + [Branch(x.event, x.body + [code], false)];
      assert e.items[..|e.items| - 1] == init;
      InstructionsLast(e);
      assert [[1, x.event, 0]] + (x.body + [code]) == ([[1, x.event, 0]] + x.body) + [code];
    } else {
      InstructionsNext(d.items, Plain(code));
    }
  }

  lemma OpenListed(d: SubDef, l: Listing, event: nat)
    requires Shows(d, l) && !Open(d)
    ensures Shows(OpenBranch(d, event), Listing(l.code + [[1, event, 0]], Some(|l.code|)))
  {
    var e := OpenBranch(d, event);
    assert e.items[..|e.items| - 1] == d.items;
    InstructionsLast(e);
    assert [[1, event, 0]] + [] == [[1, event, 0]];
  }

  lemma EventListed(d: SubDef, l: Listing)
    requires Shows(d, l) && Open(d)
    ensures l.at.value < |l.code| && l.code[l.at.value] == [1, Last(d).event, 0]
    ensures |l.code| - 1 - l.at.value == |Last(d).body|
  {
    InstructionsLast(d);
  }

  lemma Patch(a: seq<seq<nat>>, x: seq<nat>, y: seq<nat>, b: seq<seq<nat>>)
    ensures (a + ([x] + b))[|a| := y] == a + ([y] + b)
  {
  }

  lemma CloseInstructions(d: SubDef)
    requires Open(d)
    ensures var init, x := d.items[..|d.items| - 1], Last(d);
            Instructions(CloseBranch(d).items) == Instructions(init) + ([[1, x.event, |x.body| % 256]] + x.body)
    ensures !Open(CloseBranch(d))
  {
    var init, x := d.items[..|d.items| - 1], Last(d);
    var y := Branch(x.event, x.body, true);
    assert CloseBranch(d).items == init + [y];
    InstructionsNext(init, y);
    assert BranchHead(y)[..3] == [1, x.event, |x.body| % 256];
  }

  lemma CloseListed(d: SubDef, l: Listing)
    requires Shows(d, l) && Open(d) && Proper(l)
    ensures Shows(CloseBranch(d), ListLine(0, l, EndIf, None))
  {
    var x := Last(d);
    InstructionsLast(d);
    EventListed(d, l);
    CloseInstructions(d);
    Patch(Instructions(d.items[..|d.items| - 1]), [1, x.event, 0], [1, x.event, |x.body| % 256], x.body);
  }

  lemma {:induction false} LengthOfCodes(code: seq<seq<nat>>)
    ensures |Codes(code)| == Length(code)
    decreases |code|
  {
    if code != [] { LengthOfCodes(code[..|code| - 1]); }
  }

  lemma SpaceIsFit(id: nat, d: SubDef, l: Listing, bytes: seq<nat>)
    requires Shows(d, l)
    ensures Fits(id, d, bytes) <==> HasSpace(id, l, bytes)
  {
    BodyIsInstructions(d.items);
    LengthOfCodes(l.code);
  }

  // ---- One line inside a subroutine -----------------------------------------------------------

  /** The subroutine of that number is being read, and has these instructions. */
  ghost predicate Reads(t: Tree, i: nat, l: Listing) {
    && Sound(t) && (t.mode.InSub? || t.mode.InIf?) && t.sub == i && i < |t.subs|
    && Shows(t.subs[i], l) && Proper(l)
  }

  /** The number a GOTO's target is looked up under, if the table has room for it. */
  function Target(ds: seq<SubDef>, line: Line): Option<nat> {
    if line.Goto? && line.target.Some? && FindSub(ds, line.target.value) < |ReferSub(ds, line.target.value)|
    then Some(FindSub(ds, line.target.value)) else None
  }

  lemma ModeIsOpen(t: Tree, i: nat, l: Listing)
    requires Reads(t, i, l)
    ensures t.mode.InIf? <==> l.at.Some?
  {
    assert SubSound(t.subs[i], true, t.mode.InIf?);
  }

  lemma OpLine(t: Tree, i: nat, l: Listing, line: Line)
    requires Reads(t, i, l) && line.Command?
    ensures Reads(Grow(t, line), i, ListLine(i, l, line, None))
  {
    GrowKeepsSound(t, line);
    if line.op.Some? { OpcodeListed(t, i, l, line.op.value); }
  }

  lemma OpcodeListed(t: Tree, i: nat, l: Listing, code: Code)
    requires i < |t.subs| && t.sub == i && Shows(t.subs[i], l)
    ensures var t1 := Opcode(t, code);
            t1.mode == t.mode && t1.sub == i && i < |t1.subs|
            && Shows(t1.subs[i], if HasSpace(i, l, code.bytes) then l.(code := l.code + [code.bytes]) else l)
  {
    ReferSubsKeeps(t.subs, code.subs);
    SpaceIsFit(i, t.subs[i], l, code.bytes);
    EmitListed(t.subs[i], l, code.bytes);
  }

  lemma GotoLine(t: Tree, i: nat, l: Listing, line: Line)
    requires Reads(t, i, l) && line.Goto?
    ensures Reads(Grow(t, line), i, ListLine(i, l, line, Target(t.subs, line)))
  {
    GrowKeepsSound(t, line);
    ModeIsOpen(t, i, l);
    if t.mode.InIf? && line.target.Some? {
      EventListed(t.subs[i], l);
      var n := Target(t.subs, line);
      if n.Some? { EmitListed(t.subs[i], l, [8, Last(t.subs[i]).event, n.value]); }
    }
  }

  lemma IfLine(t: Tree, i: nat, l: Listing, line: Line)
    requires Reads(t, i, l) && (line.IfEvent? || line.EndIf?)
    ensures Reads(Grow(t, line), i, ListLine(i, l, line, None))
  {
    if line.IfEvent? { IfEventLine(t, i, l, line); } else { EndIfLine(t, i, l, line); }
  }

  lemma IfEventLine(t: Tree, i: nat, l: Listing, line: Line)
    requires Reads(t, i, l) && line.IfEvent?
    ensures Reads(Grow(t, line), i, ListLine(i, l, line, None))
  {
    GrowKeepsSound(t, line);
    ModeIsOpen(t, i, l);
    if line.event.Some? && t.mode.InSub? { OpenListed(t.subs[i], l, line.event.value); }
  }

  lemma EndIfLine(t: Tree, i: nat, l: Listing, line: Line)
    requires Reads(t, i, l) && line.EndIf?
    ensures Reads(Grow(t, line), i, ListLine(i, l, line, None))
  {
    GrowKeepsSound(t, line);
    ModeIsOpen(t, i, l);
    if t.mode.InIf? { CloseListed(t.subs[i], l); }
  }

  lemma OtherLineIgnored(t: Tree, i: nat, l: Listing, line: Line)
    requires Reads(t, i, l) && !line.Command? && !line.Goto? && !line.IfEvent? && !line.EndIf?
    requires !(line.EndSub? && l.at.None?)
    ensures Grow(t, line) == t && ListLine(i, l, line, None) == l
  {
    ModeIsOpen(t, i, l);
  }

  /** A line inside a subroutine adds to it what it adds to the listing. */
  lemma LineListed(t: Tree, i: nat, l: Listing, line: Line)
    requires Reads(t, i, l) && !(line.EndSub? && l.at.None?)
    ensures Reads(Grow(t, line), i, ListLine(i, l, line, Target(t.subs, line)))
  {
    if line.Command? {
      OpLine(t, i, l, line);
    } else if line.Goto? {
      GotoLine(t, i, l, line);
    } else if line.IfEvent? || line.EndIf? {
      IfLine(t, i, l, line);
    } else {
      OtherLineIgnored(t, i, l, line);
    }
  }

  // ---- Numbers and names ----------------------------------------------------------------------------

  /** The entry of that number is the first of the name; one made for a name too long to keep has what is kept of it. */
  ghost predicate KnownAs(ds: seq<SubDef>, name: string, n: nat) {
    && n < |ds| && (SameName(ds[n].name, name) || (|name| > MAX_NAME && ds[n].name == name[..MAX_NAME]))
    && forall j :: 0 <= j < n ==> !SameName(ds[j].name, name)
  }

  ghost predicate NamesKept(ds: seq<SubDef>, es: seq<SubDef>) {
    |ds| <= |es| && forall j :: 0 <= j < |ds| ==> es[j].name == ds[j].name
  }

  /** The number of a target; without one the table is full and does not have it. */
  ghost predicate Numbered(ds: seq<SubDef>, target: string, number: Option<nat>) {
    match number
    case Some(n) => KnownAs(ds, target, n)
    case None => |ds| == MAX_SUBS && forall j :: 0 <= j < |ds| ==> !SameName(ds[j].name, target)
  }

  lemma ReferKnows(ds: seq<SubDef>, name: string)
    requires |ds| <= MAX_SUBS
    ensures NamesKept(ds, ReferSub(ds, name))
    ensures var n := FindSub(ds, name);
            Numbered(ReferSub(ds, name), name, if n < |ReferSub(ds, name)| then Some(n) else None)
  {
    var n := FindSub(ds, name);
    if n < |ds| { assert SameName(ds[n].name, name); }
  }

  lemma {:induction false} ReferAllNames(ds: seq<SubDef>, names: seq<string>)
    ensures NamesKept(ds, ReferSubs(ds, names))
    decreases |names|
  {
    if names != [] { ReferAllNames(ds, names[..|names| - 1]); }
  }

  lemma KeyLineNames(t: Tree, line: Line)
    requires t.mode.InKey? && t.key < |t.keys|
    ensures NamesKept(t.subs, GrowKey(t, line).subs)
  {
    if line.Goto? {
      ReferAllNames(t.subs, line.code.subs);
    } else if line.Command? && line.ret.Some? {
      ReferAllNames(t.subs, line.ret.value.subs);
    }
  }

  lemma OpcodeNames(t: Tree, code: Code)
    requires t.sub < |t.subs|
    ensures NamesKept(t.subs, Opcode(t, code).subs)
  {
    ReferAllNames(t.subs, code.subs);
  }

  lemma JumpNames(t: Tree, target: string)
    requires t.sub < |t.subs| && Open(t.subs[t.sub])
    ensures NamesKept(t.subs, Jump(t, target).subs)
  {
  }

  lemma SubLineNames(t: Tree, line: Line)
    requires Sound(t) && (t.mode.InSub? || t.mode.InIf?)
    ensures NamesKept(t.subs, Grow(t, line).subs)
  {
    if line.Command? && line.op.Some? {
      OpcodeNames(t, line.op.value);
    } else if line.Goto? && line.target.Some? && t.mode.InIf? {
      JumpNames(t, line.target.value);
    }
  }

  lemma GrowNames(t: Tree, line: Line)
    requires Sound(t)
    ensures NamesKept(t.subs, Grow(t, line).subs)
  {
    if t.mode.InKey? {
      KeyLineNames(t, line);
    } else if !t.mode.Normal? {
      SubLineNames(t, line);
    }
  }

  lemma NumberedStays(ds: seq<SubDef>, es: seq<SubDef>, target: string, number: Option<nat>)
    requires Numbered(ds, target, number) && NamesKept(ds, es) && |es| <= MAX_SUBS
    ensures Numbered(es, target, number)
  {
  }

  lemma TargetNumbered(t: Tree, line: Line)
    requires Sound(t) && t.mode.InIf? && line.Goto? && line.target.Some?
    ensures Numbered(Grow(t, line).subs, line.target.value, Target(t.subs, line))
  {
    ReferKnows(t.subs, line.target.value);
    assert NamesKept(ReferSub(t.subs, line.target.value), Grow(t, line).subs);
    GrowKeepsSound(t, line);
    NumberedStays(ReferSub(t.subs, line.target.value), Grow(t, line).subs, line.target.value, Target(t.subs, line));
  }

  // ---- A subroutine in a script -----------------------------------------------------------------------

  /** The SUB line, and the lines up to an ENDSUB outside any IF; every GOTO in an IF has its target's number. */
  ghost predicate Written(sub: Line, body: seq<Line>, i: nat, numbers: seq<Option<nat>>, ds: seq<SubDef>) {
    && sub.SubLine? && sub.complete && KnownAs(ds, sub.name, i) && |numbers| == |body|
    && (forall k :: 0 <= k < |body| && body[k].EndSub? ==> IfOpen(body[..k]))
    && (forall k :: 0 <= k < |body| && body[k].Goto? && body[k].target.Some? && IfOpen(body[..k]) ==>
          Numbered(ds, body[k].target.value, numbers[k]))
  }

  lemma WrittenNext(
    sub: Line, body: seq<Line>, i: nat, numbers: seq<Option<nat>>, ds: seq<SubDef>, line: Line, number: Option<nat>,
    es: seq<SubDef>)
    requires Written(sub, body, i, numbers, ds) && NamesKept(ds, es) && |es| <= MAX_SUBS
    requires line.EndSub? ==> IfOpen(body)
    requires line.Goto? && line.target.Some? && IfOpen(body) ==> Numbered(es, line.target.value, number)
    ensures Written(sub, body + [line], i, numbers + [number], es)
  {
    var next := body + [line];
    assert next[..|body|] == body;
    assert forall k :: 0 <= k < |body| ==> next[..k] == body[..k];
    forall k | 0 <= k < |next| && next[k].Goto? && next[k].target.Some? && IfOpen(next[..k])
      ensures Numbered(es, next[k].target.value, (numbers + [number])[k])
    {
      if k < |body| { NumberedStays(ds, es, body[k].target.value, numbers[k]); }
    }
  }

  lemma WrittenStays(sub: Line, body: seq<Line>, i: nat, numbers: seq<Option<nat>>, ds: seq<SubDef>, es: seq<SubDef>)
    requires Written(sub, body, i, numbers, ds) && NamesKept(ds, es) && |es| <= MAX_SUBS
    ensures Written(sub, body, i, numbers, es)
  {
    forall k | 0 <= k < |body| && body[k].Goto? && body[k].target.Some? && IfOpen(body[..k])
      ensures Numbered(es, body[k].target.value, numbers[k])
    {
      NumberedStays(ds, es, body[k].target.value, numbers[k]);
    }
  }

  /** The lines after the SUB line have been read into the subroutine. */
  ghost predicate HasRead(t: Tree, sub: Line, body: seq<Line>, i: nat, numbers: seq<Option<nat>>) {
    Written(sub, body, i, numbers, t.subs) && Reads(t, i, Listed(i, body, numbers))
  }

  lemma ListedNext(i: nat, body: seq<Line>, numbers: seq<Option<nat>>, line: Line, number: Option<nat>)
    requires |body| == |numbers|
    ensures Listed(i, body + [line], numbers + [number]) == ListLine(i, Listed(i, body, numbers), line, number)
  {
    assert (body + [line])[..|body|] == body && (numbers + [number])[..|body|] == numbers;
  }

  lemma ReadNext(t: Tree, sub: Line, body: seq<Line>, i: nat, numbers: seq<Option<nat>>, line: Line)
    requires HasRead(t, sub, body, i, numbers) && (line.EndSub? ==> IfOpen(body))
    ensures HasRead(Grow(t, line), sub, body + [line], i, numbers + [Target(t.subs, line)])
  {
    var l, number := Listed(i, body, numbers), Target(t.subs, line);
    ListedOpen(i, body, numbers);
    ModeIsOpen(t, i, l);
    LineListed(t, i, l, line);
    ListedNext(i, body, numbers, line, number);
    GrowNames(t, line);
    if line.Goto? && line.target.Some? && IfOpen(body) { TargetNumbered(t, line); }
    WrittenNext(sub, body, i, numbers, t.subs, line, number, Grow(t, line).subs);
  }

  /** A SUB line finds its subroutine not yet defined, or room for a new one. */
  predicate Begins(t: Tree, line: Line) {
    && t.mode.Normal? && line.SubLine? && line.complete
    && var n := FindSub(t.subs, line.name); n < |ReferSub(t.subs, line.name)| && (n < |t.subs| ==> !t.subs[n].defined)
  }

  lemma SubBegins(t: Tree, line: Line)
    requires Sound(t) && Begins(t, line)
    ensures var n := FindSub(t.subs, line.name); HasRead(Grow(t, line), line, [], n, [])
  {
    ReferKnows(t.subs, line.name);
    GrowKeepsSound(t, line);
    assert NamesKept(ReferSub(t.subs, line.name), Grow(t, line).subs);
  }

  lemma EntersBySub(t: Tree, line: Line)
    requires Sound(t) && !t.mode.InSub? && !t.mode.InIf? && (Grow(t, line).mode.InSub? || Grow(t, line).mode.InIf?)
    ensures Begins(t, line) && Grow(t, line).sub == FindSub(t.subs, line.name)
  {
  }

  lemma LeavesByEndSub(t: Tree, line: Line)
    requires Sound(t) && (t.mode.InSub? || t.mode.InIf?)
    ensures Grow(t, line).mode.Normal? <==> t.mode.InSub? && line.EndSub?
    ensures !Grow(t, line).mode.Normal? ==> Grow(t, line).sub == t.sub && !Grow(t, line).mode.InKey?
  {
  }

  /** The script so far ends inside a subroutine that began at line `p`. */
  ghost predicate InsideSince(lines: seq<Line>, t: Tree, p: nat, numbers: seq<Option<nat>>) {
    p < |lines| && HasRead(t, lines[p], lines[p + 1..], t.sub, numbers)
  }

  lemma InsideNext(lines: seq<Line>, t: Tree, p: nat, numbers: seq<Option<nat>>, line: Line)
    requires InsideSince(lines, t, p, numbers) && !Grow(t, line).mode.Normal?
    ensures InsideSince(lines + [line], Grow(t, line), p, numbers + [Target(t.subs, line)])
  {
    var body := lines[p + 1..];
    LeavesByEndSub(t, line);
    ListedOpen(t.sub, body, numbers);
    ModeIsOpen(t, t.sub, Listed(t.sub, body, numbers));
    ReadNext(t, lines[p], body, t.sub, numbers, line);
    assert (lines + [line])[p + 1..] == body + [line];
  }

  lemma InsideBegins(lines: seq<Line>, t: Tree, line: Line)
    requires Sound(t) && !t.mode.InSub? && !t.mode.InIf? && (Grow(t, line).mode.InSub? || Grow(t, line).mode.InIf?)
    ensures InsideSince(lines + [line], Grow(t, line), |lines|, [])
  {
    EntersBySub(t, line);
    SubBegins(t, line);
    assert (lines + [line])[|lines| + 1..] == [];
  }

  /** Where the subroutine being read began, and the numbers of its GOTOs so far. */
  lemma {:induction false} BeganAt(lines: seq<Line>, t: Tree) returns (p: nat, numbers: seq<Option<nat>>)
    requires t == GrowAll(lines) && (t.mode.InSub? || t.mode.InIf?)
    ensures InsideSince(lines, t, p, numbers)
    decreases |lines|
  {
    var n := |lines| - 1;
    var before, line := lines[..n], lines[n];
    var t0 := GrowAll(before);
    assert lines == before + [line];
    if t0.mode.InSub? || t0.mode.InIf? {
      p, numbers := BeganAt(before, t0);
      InsideNext(before, t0, p, numbers, line);
      numbers := numbers + [Target(t0.subs, line)];
    } else {
      InsideBegins(before, t0, line);
      p, numbers := n, [];
    }
  }

  /** A finished subroutine stays as it is. */
  lemma EndedStays(t: Tree, line: Line, i: nat)
    requires Sound(t) && i < |t.subs| && t.subs[i].ended
    ensures i < |Grow(t, line).subs| && Grow(t, line).subs[i] == t.subs[i]
  {
    assert SubSound(t.subs[i], ReadsSub(t, i), t.mode.InIf?);
    if t.mode.InKey? {
      if line.Goto? {
        ReferSubsKeeps(t.subs, line.code.subs);
      } else if line.Command? && line.ret.Some? {
        ReferSubsKeeps(t.subs, line.ret.value.subs);
      }
    } else if !t.mode.Normal? && line.Command? && line.op.Some? {
      ReferSubsKeeps(t.subs, line.op.value.subs);
    }
  }

  /** The line at which a subroutine is finished is its ENDSUB. */
  lemma EndsByEndSub(t: Tree, line: Line, i: nat)
    requires Sound(t) && i < |Grow(t, line).subs| && Grow(t, line).subs[i].ended && (i < |t.subs| ==> !t.subs[i].ended)
    ensures t.mode.InSub? && line.EndSub? && t.sub == i && Grow(t, line).subs[i].items == t.subs[i].items
  {
    if !(t.mode.InSub? && line.EndSub?) { NewAreNotEnded(t, line); }
  }

  lemma {:induction false} ReferAllFresh(ds: seq<SubDef>, names: seq<string>)
    ensures ds <= ReferSubs(ds, names)
    ensures forall i :: |ds| <= i < |ReferSubs(ds, names)| ==> !ReferSubs(ds, names)[i].ended
    decreases |names|
  {
    if names != [] { ReferAllFresh(ds, names[..|names| - 1]); }
  }

  /** Only what was there before can have ended. */
  ghost predicate NoneNewlyEnded(ds: seq<SubDef>, es: seq<SubDef>) {
    forall i :: 0 <= i < |es| && es[i].ended ==> i < |ds| && ds[i].ended
  }

  lemma KeyLineEndsNone(t: Tree, line: Line)
    requires t.mode.InKey? && t.key < |t.keys|
    ensures NoneNewlyEnded(t.subs, GrowKey(t, line).subs)
  {
    if line.Goto? {
      ReferAllFresh(t.subs, line.code.subs);
    } else if line.Command? && line.ret.Some? {
      ReferAllFresh(t.subs, line.ret.value.subs);
    }
  }

  lemma OpcodeEndsNone(t: Tree, code: Code)
    requires t.sub < |t.subs|
    ensures NoneNewlyEnded(t.subs, Opcode(t, code).subs)
  {
    ReferAllFresh(t.subs, code.subs);
  }

  lemma JumpEndsNone(t: Tree, target: string)
    requires t.sub < |t.subs| && Open(t.subs[t.sub])
    ensures NoneNewlyEnded(t.subs, Jump(t, target).subs)
  {
  }

  lemma NormalEndsNone(t: Tree, line: Line)
    requires t.mode.Normal?
    ensures NoneNewlyEnded(t.subs, GrowNormal(t, line).subs)
  {
  }

  lemma SubLineEndsNone(t: Tree, line: Line)
    requires Sound(t) && (t.mode.InSub? || t.mode.InIf?) && !(t.mode.InSub? && line.EndSub?)
    ensures NoneNewlyEnded(t.subs, Grow(t, line).subs)
  {
    if line.Command? && line.op.Some? {
      OpcodeEndsNone(t, line.op.value);
    } else if line.Goto? && line.target.Some? && t.mode.InIf? {
      JumpEndsNone(t, line.target.value);
    }
  }

  lemma NewAreNotEnded(t: Tree, line: Line)
    requires Sound(t) && !(t.mode.InSub? && line.EndSub?)
    ensures NoneNewlyEnded(t.subs, Grow(t, line).subs)
  {
    if t.mode.InKey? {
      KeyLineEndsNone(t, line);
    } else if t.mode.Normal? {
      NormalEndsNone(t, line);
    } else {
      SubLineEndsNone(t, line);
    }
  }

  /** A subroutine that has ended is written from line `p` up to its ENDSUB, line `q`, and has that listing. */
  ghost predicate WrittenAt(
    lines: seq<Line>, ds: seq<SubDef>, i: nat, p: nat, q: nat, numbers: seq<Option<nat>>)
  {
    && p < q < |lines| && lines[q].EndSub? && !IfOpen(lines[p + 1..q])
    && Written(lines[p], lines[p + 1..q], i, numbers, ds)
    && i < |ds| && ds[i].ended && Instructions(ds[i].items) == Listed(i, lines[p + 1..q], numbers).code
  }

  lemma WrittenAtLater(
    lines: seq<Line>, line: Line, ds: seq<SubDef>, es: seq<SubDef>, i: nat, p: nat, q: nat, numbers: seq<Option<nat>>)
    requires WrittenAt(lines, ds, i, p, q, numbers) && NamesKept(ds, es) && |es| <= MAX_SUBS && es[i] == ds[i]
    ensures WrittenAt(lines + [line], es, i, p, q, numbers)
  {
    assert (lines + [line])[p + 1..q] == lines[p + 1..q];
    WrittenStays(lines[p], lines[p + 1..q], i, numbers, ds, es);
  }

  lemma WrittenAtEnd(lines: seq<Line>, t: Tree, p: nat, numbers: seq<Option<nat>>, line: Line)
    requires InsideSince(lines, t, p, numbers) && t.mode.InSub? && line.EndSub?
    ensures WrittenAt(lines + [line], Grow(t, line).subs, t.sub, p, |lines|, numbers)
  {
    var body := lines[p + 1..];
    ListedOpen(t.sub, body, numbers);
    ModeIsOpen(t, t.sub, Listed(t.sub, body, numbers));
    assert (lines + [line])[p + 1..|lines|] == body;
    GrowKeepsSound(t, line);
    GrowNames(t, line);
    WrittenStays(lines[p], body, t.sub, numbers, t.subs, Grow(t, line).subs);
  }

  /**
   * For every script and every subroutine of it that has ended: its instructions are the listing of its own
   * lines, from its SUB line to its ENDSUB, with every GOTO under an IF giving the number its target has.
   */
  lemma {:induction false} SubroutineIsItsLines(lines: seq<Line>, i: nat, t: Tree)
    returns (p: nat, q: nat, numbers: seq<Option<nat>>)
    requires t == GrowAll(lines) && i < |t.subs| && t.subs[i].ended
    ensures WrittenAt(lines, t.subs, i, p, q, numbers)
    decreases |lines|
  {
    var n := |lines| - 1;
    var before, line := lines[..n], lines[n];
    var t0 := GrowAll(before);
    assert lines == before + [line];
    if i < |t0.subs| && t0.subs[i].ended {
      p, q, numbers := SubroutineIsItsLines(before, i, t0);
      GrowNames(t0, line);
      EndedStays(t0, line, i);
      WrittenAtLater(before, line, t0.subs, t.subs, i, p, q, numbers);
    } else {
      EndsByEndSub(t0, line, i);
      p, numbers := BeganAt(before, t0);
      q := n;
      WrittenAtEnd(before, t0, p, numbers, line);
    }
  }

  /** What the subroutine's record holds after its header. */
  lemma SubroutineBytes(lines: seq<Line>, i: nat) returns (p: nat, q: nat, numbers: seq<Option<nat>>)
    requires i < |GrowAll(lines).subs| && GrowAll(lines).subs[i].ended
    ensures WrittenAt(lines, GrowAll(lines).subs, i, p, q, numbers)
    ensures SubImage(i, GrowAll(lines).subs[i])[HeadLen(i)..] == Codes(Listed(i, lines[p + 1..q], numbers).code)
  {
    p, q, numbers := SubroutineIsItsLines(lines, i, GrowAll(lines));
    EndedImage(lines, i);
  }

  // ---- Scripts that are read --------------------------------------------------------------------------

  /** The lines up to an ENDSUB outside any IF. */
  ghost predicate SubBody(body: seq<Line>) {
    !IfOpen(body) && forall k :: 0 <= k < |body| && body[k].EndSub? ==> IfOpen(body[..k])
  }

  /** A tree grown further by these lines. */
  function GrowFrom(t: Tree, body: seq<Line>): (r: Tree)
    requires Sound(t)
    ensures Sound(r)
    decreases |body|
  {
    if body == [] then t
    else
      var t0 := GrowFrom(t, body[..|body| - 1]);
      GrowKeepsSound(t0, body[|body| - 1]);
      Grow(t0, body[|body| - 1])
  }

  lemma {:induction false} GrowAllFrom(lines: seq<Line>, body: seq<Line>)
    ensures GrowAll(lines + body) == GrowFrom(GrowAll(lines), body)
    decreases |body|
  {
    if body == [] {
      assert lines + body == lines;
    } else {
      var n := |body| - 1;
      GrowAllFrom(lines, body[..n]);
      GrowAllNext(lines + body[..n], body[n]);
      assert lines + body == (lines + body[..n]) + [body[n]];
    }
  }

  lemma {:induction false} BodyRead(t: Tree, sub: Line, i: nat, body: seq<Line>) returns (numbers: seq<Option<nat>>)
    requires HasRead(t, sub, [], i, [])
    requires forall k :: 0 <= k < |body| && body[k].EndSub? ==> IfOpen(body[..k])
    ensures HasRead(GrowFrom(t, body), sub, body, i, numbers)
    decreases |body|
  {
    if body == [] {
      numbers := [];
    } else {
      var n := |body| - 1;
      PrefixIsBody(body, n);
      numbers := BodyRead(t, sub, i, body[..n]);
      numbers := BodyReadNext(t, sub, i, body[..n], numbers, body[n]);
      assert body == body[..n] + [body[n]];
    }
  }

  lemma PrefixIsBody(body: seq<Line>, n: nat)
    requires n <= |body| && forall k :: 0 <= k < |body| && body[k].EndSub? ==> IfOpen(body[..k])
    ensures forall k :: 0 <= k < n && body[..n][k].EndSub? ==> IfOpen(body[..n][..k])
  {
    assert forall k :: 0 <= k < n ==> body[..n][..k] == body[..k];
  }

  lemma GrowFromNext(t: Tree, body: seq<Line>, line: Line)
    requires Sound(t)
    ensures GrowFrom(t, body + [line]) == Grow(GrowFrom(t, body), line)
  {
    assert (body + [line])[..|body|] == body;
  }

  lemma BodyReadNext(t: Tree, sub: Line, i: nat, body: seq<Line>, numbers: seq<Option<nat>>, line: Line)
    returns (numbers1: seq<Option<nat>>)
    requires Sound(t) && HasRead(GrowFrom(t, body), sub, body, i, numbers) && (line.EndSub? ==> IfOpen(body))
    ensures HasRead(GrowFrom(t, body + [line]), sub, body + [line], i, numbers1)
  {
    GrowFromNext(t, body, line);
    ReadNext(GrowFrom(t, body), sub, body, i, numbers, line);
    numbers1 := numbers + [Target(GrowFrom(t, body).subs, line)];
  }

  lemma BodyEnds(t: Tree, sub: Line, body: seq<Line>, i: nat, numbers: seq<Option<nat>>)
    requires HasRead(t, sub, body, i, numbers) && !IfOpen(body)
    ensures var t1 := Grow(t, EndSub);
            && t1.mode.Normal? && i < |t1.subs| && t1.subs[i].ended
            && Written(sub, body, i, numbers, t1.subs)
            && Instructions(t1.subs[i].items) == Listed(i, body, numbers).code
  {
    ListedOpen(i, body, numbers);
    ModeIsOpen(t, i, Listed(i, body, numbers));
    GrowKeepsSound(t, EndSub);
    GrowNames(t, EndSub);
    WrittenStays(sub, body, i, numbers, t.subs, Grow(t, EndSub).subs);
  }

  /** From wherever a subroutine can begin, its lines are read into one that ends with the ENDSUB. */
  lemma SubroutineIsRead(lines: seq<Line>, sub: Line, body: seq<Line>) returns (i: nat, numbers: seq<Option<nat>>)
    requires Begins(GrowAll(lines), sub) && SubBody(body)
    ensures var t := GrowAll(lines + [sub] + body + [EndSub]);
            && t.mode.Normal? && i < |t.subs| && t.subs[i].ended
            && Written(sub, body, i, numbers, t.subs)
            && Instructions(t.subs[i].items) == Listed(i, body, numbers).code
  {
    var t := GrowAll(lines + [sub] + body);
    i := FindSub(GrowAll(lines).subs, sub.name);
    GrowAllNext(lines, sub);
    SubBegins(GrowAll(lines), sub);
    numbers := BodyRead(GrowAll(lines + [sub]), sub, i, body);
    GrowAllFrom(lines + [sub], body);
    GrowAllNext(lines + [sub] + body, EndSub);
    BodyEnds(t, sub, body, i, numbers);
  }
}
