/**
 * What an ADSI script says (apps/app_adsiprog.c): keys, subroutines and displays, grown line by line.
 * Lines arrive tokenised; each argument encoder contributes the bytes it returned and the keys
 * and subroutines it looked up.
 */
module AdsiTree {
  import opened Options

  const MAX_RET_CODE: nat := 20
  const MAX_SUB_LEN: nat := 255
  const MAX_MAIN_LEN: nat := 1600
  const MAX_FULL_NAME: nat := 18
  const MAX_SHORT_NAME: nat := 7
  const MAX_KEYS: nat := 62
  const MAX_SUBS: nat := 128
  const MAX_DISPLAYS: nat := 62
  const MAX_COLUMN: nat := 20
  /** What a table entry keeps of a name. */
  const MAX_NAME: nat := 39

  /** What a command stands for; `encoded` when an argument encoder puts the bytes into the record itself. */
  datatype Code = Code(bytes: seq<nat>, encoded: bool, keys: seq<string>, subs: seq<string>)

  datatype Names = Names(full: seq<nat>, short: seq<nat>)

  datatype Line =
    | KeyLine(name: string, rest: Option<Names>)           // KEY; no rest when it is malformed
    | SubLine(name: string, complete: bool)                // SUB, with or without its IS
    | EndKey
    | EndSub
    | EndIf
    | IfEvent(event: Option<nat>)                          // no event when it is malformed
    | Goto(target: Option<string>, code: Code)
    | Command(ret: Option<Code>, op: Option<Code>)         // as a return code, as an opcode
    | DisplayLine(name: string, display: Display)
    | OtherLine

  datatype Style = Style(justify: nat, wrap: bool)

  /** A DISPLAY line may stop before its text, or after it with a qualifier it does not know. */
  datatype Display = Bare | Text(one: seq<nat>, two: seq<nat>, style: Option<Style>)

  datatype Mode = Normal | InKey | InSub | InIf

  /** An instruction, or a branch on an event with the instructions under it. */
  datatype Item = Plain(code: seq<nat>) | Branch(event: nat, body: seq<seq<nat>>, closed: bool)

  datatype KeyDef = KeyDef(
    name: string, begun: bool, full: seq<nat>, short: seq<nat>, codes: seq<nat>, defined: bool)

  datatype SubDef = SubDef(name: string, begun: bool, items: seq<Item>, defined: bool, ended: bool)

  datatype DisplayDef = DisplayDef(name: string, display: Display)

  datatype Tree = Tree(
    mode: Mode, keys: seq<KeyDef>, subs: seq<SubDef>, displays: seq<DisplayDef>, key: nat, sub: nat)

  // ---- The bytes a tree stands for ------------------------------------------------

  function Codes(body: seq<seq<nat>>): seq<nat> {
    if body == [] then [] else Codes(body[..|body| - 1]) + body[|body| - 1] + [0xff]
  }

  function BranchHead(b: Item): seq<nat>
    requires b.Branch?
  {
    [1, b.event, if b.closed then |b.body| % 256 else 0, 0xff]
  }

  function Encode(x: Item): seq<nat> {
    match x
    case Plain(code) => code + [0xff]
    case Branch(_, body, _) => BranchHead(x) + Codes(body)
  }

  function Body(items: seq<Item>): seq<nat> {
    if items == [] then [] else Body(items[..|items| - 1]) + Encode(items[|items| - 1])
  }

  /** How many instructions an item is. */
  function Weight(x: Item): nat {
    if x.Plain? then 1 else 1 + |x.body|
  }

  function Weights(items: seq<Item>): nat {
    if items == [] then 0 else Weights(items[..|items| - 1]) + Weight(items[|items| - 1])
  }

  function HeadLen(id: nat): nat {
    if id == 0 then 3 else 7
  }

  function SubHead(id: nat, len: nat, count: nat): (h: seq<nat>)
    ensures |h| == HeadLen(id)
  {
    [0x82, len, 0] + if id == 0 then [] else [9, id, count, 0xff]
  }

  /** A subroutine still being read. */
  function Draft(id: nat, items: seq<Item>): seq<nat> {
    SubHead(id, 0, 0) + Body(items)
  }

  /** A subroutine: its length and instruction count are known when it has ended. */
  function SubImage(id: nat, d: SubDef): seq<nat> {
    if !d.begun then []
    else if !d.ended then Draft(id, d.items)
    else SubHead(id, (HeadLen(id) + |Body(d.items)| - 2) % 256, Weights(d.items) % 256) + Body(d.items)
  }

  function KeyImage(id: nat, d: KeyDef): seq<nat> {
    if !d.begun then []
    else
      var text := d.full + [0xff] + d.short + [0xff] + d.codes;
      [0x80, if d.defined then 1 + |text| else 0, id] + text
  }

  function DisplayHead(id: nat, style: Option<Style>, len: nat): (h: seq<nat>)
    ensures |h| == 5
  {
    if style.None? then [0, 0, 0, 0, 0]
    else [0x81, len, style.value.justify % 4 * 64 + id, if style.value.wrap then 0x80 else 0, 0xff]
  }

  /** A display: its head, with its length, is there when its line was complete. */
  function DisplayImage(id: nat, d: Display): seq<nat> {
    if d.Bare? then []
    else
      var text := Cut(d.one, MAX_COLUMN) + [0xff] + Cut(d.two, MAX_COLUMN);
      DisplayHead(id, d.style, 3 + |text|) + text
  }

  function MaxLen(id: nat): nat {
    if id == 0 then MAX_MAIN_LEN else MAX_SUB_LEN
  }

  predicate Fits(id: nat, d: SubDef, code: seq<nat>) {
    |SubImage(id, d)| + |code| + 1 <= MaxLen(id)
  }

  // ---- Names ------------------------------------------------------------------------

  function Lower(c: char): char {
    if 'A' <= c <= 'Z' then (c as int + 32) as char else c
  }

  /** Names are compared without regard to case. */
  predicate SameName(a: string, b: string) {
    |a| == |b| && forall i :: 0 <= i < |a| ==> Lower(a[i]) == Lower(b[i])
  }

  predicate Cases(upper: char, lower: char) {
    'A' <= upper <= 'Z' && lower as int - 'a' as int == upper as int - 'A' as int
  }

  /** Two names are the same if and only if they differ at most in the case of letters. */
  lemma SameNameExactly(a: string, b: string)
    ensures SameName(a, b) <==>
              |a| == |b| && forall i :: 0 <= i < |a| ==> a[i] == b[i] || Cases(a[i], b[i]) || Cases(b[i], a[i])
  {
  }

  function Kept(name: string): (r: string)
    ensures r <= name && |r| == if |name| <= 39 then |name| else 39
  {
    if |name| <= MAX_NAME then name else name[..MAX_NAME]
  }

  function FindKey(keys: seq<KeyDef>, name: string): (i: nat)
    ensures i <= |keys| && (i < |keys| ==> SameName(keys[i].name, name))
    ensures forall j :: 0 <= j < i ==> !SameName(keys[j].name, name)
  {
    if keys == [] || SameName(keys[0].name, name) then 0 else 1 + FindKey(keys[1..], name)
  }

  function FindSub(subs: seq<SubDef>, name: string): (i: nat)
    ensures i <= |subs| && (i < |subs| ==> SameName(subs[i].name, name))
    ensures forall j :: 0 <= j < i ==> !SameName(subs[j].name, name)
  {
    if subs == [] || SameName(subs[0].name, name) then 0 else 1 + FindSub(subs[1..], name)
  }

  predicate HasDisplay(displays: seq<DisplayDef>, name: string) {
    exists i :: 0 <= i < |displays| && SameName(displays[i].name, name)
  }

  function NewKey(name: string): KeyDef {
    KeyDef(Kept(name), false, [], [], [], false)
  }

  function NewSub(name: string): SubDef {
    SubDef(Kept(name), false, [], false, false)
  }

  /** Looking a name up makes it known, while there is room. */
  function ReferKey(keys: seq<KeyDef>, name: string): seq<KeyDef> {
    if FindKey(keys, name) == |keys| < MAX_KEYS then keys + [NewKey(name)] else keys
  }

  function ReferSub(subs: seq<SubDef>, name: string): seq<SubDef> {
    if FindSub(subs, name) == |subs| < MAX_SUBS then subs + [NewSub(name)] else subs
  }

  function ReferKeys(keys: seq<KeyDef>, names: seq<string>): seq<KeyDef> {
    if names == [] then keys else ReferKey(ReferKeys(keys, names[..|names| - 1]), names[|names| - 1])
  }

  function ReferSubs(subs: seq<SubDef>, names: seq<string>): seq<SubDef> {
    if names == [] then subs else ReferSub(ReferSubs(subs, names[..|names| - 1]), names[|names| - 1])
  }

  function Refer(t: Tree, code: Code): Tree {
    t.(keys := ReferKeys(t.keys, code.keys), subs := ReferSubs(t.subs, code.subs))
  }

  // ---- One line -----------------------------------------------------------------------

  function Cut(s: seq<nat>, n: nat): (r: seq<nat>)
    ensures r <= s && |r| == if |s| <= n then |s| else n
  {
    if |s| <= n then s else s[..n]
  }

  function BeginKey(d: KeyDef, n: Names): KeyDef {
    d.(begun := true, full := Cut(n.full, MAX_FULL_NAME), short := Cut(n.short, MAX_SHORT_NAME), codes := [])
  }

  function AddReturn(d: KeyDef, bytes: seq<nat>): KeyDef {
    if |d.codes| + |bytes| <= MAX_RET_CODE then d.(codes := d.codes + bytes) else d
  }

  predicate Open(d: SubDef) {
    d.items != [] && d.items[|d.items| - 1].Branch? && !d.items[|d.items| - 1].closed
  }

  function Last(d: SubDef): (x: Item)
    requires Open(d)
    ensures x.Branch? && !x.closed
  {
    d.items[|d.items| - 1]
  }

  function SetLast(d: SubDef, x: Item): SubDef
    requires Open(d)
  {
    d.(items := d.items[..|d.items| - 1] + [x])
  }

  /** One more instruction, under the branch when one is open. */
  function Emit(d: SubDef, code: seq<nat>): SubDef {
    if Open(d) then SetLast(d, Branch(Last(d).event, Last(d).body + [code], false))
    else d.(items := d.items + [Plain(code)])
  }

  function AddOp(id: nat, d: SubDef, code: seq<nat>): SubDef {
    if Fits(id, d, code) then Emit(d, code) else d
  }

  function OpenBranch(d: SubDef, event: nat): SubDef {
    d.(items := d.items + [Branch(event, [], false)])
  }

  function CloseBranch(d: SubDef): SubDef
    requires Open(d)
  {
    SetLast(d, Branch(Last(d).event, Last(d).body, true)).(defined := true)
  }

  function GrowNormal(t: Tree, line: Line): Tree {
    match line
    case KeyLine(name, rest) =>
      var keys := ReferKey(t.keys, name);
      var i := FindKey(t.keys, name);
      if i == |keys| || keys[i].defined || rest.None? then t.(keys := keys)
      else t.(mode := InKey, key := i, keys := keys[i := BeginKey(keys[i], rest.value)])
    case SubLine(name, complete) =>
      var subs := ReferSub(t.subs, name);
      var i := FindSub(t.subs, name);
      if i == |subs| || subs[i].defined then t.(subs := subs)
      else
        t.(mode := if complete then InSub else Normal, sub := if complete then i else t.sub,
           subs := subs[i := subs[i].(begun := true, items := [])])
    case DisplayLine(name, d) =>
      if HasDisplay(t.displays, name) || |t.displays| >= MAX_DISPLAYS then t
      else t.(displays := t.displays + [DisplayDef(Kept(name), d)])
    case _ => t
  }

  predicate Placed(t: Tree) {
    && (t.mode.InKey? ==> t.key < |t.keys|)
    && (t.mode.InSub? ==> t.sub < |t.subs|)
    && (t.mode.InIf? ==> t.sub < |t.subs| && Open(t.subs[t.sub]))
  }

  function GrowKey(t: Tree, line: Line): Tree
    requires t.key < |t.keys|
  {
    match line
    case EndKey => t.(mode := Normal, keys := t.keys[t.key := t.keys[t.key].(defined := true)])
    case Goto(_, ret) => ReturnCode(t, ret)
    case Command(ret, _) => if ret.Some? then ReturnCode(t, ret.value) else t
    case _ => t
  }

  function ReturnCode(t: Tree, code: Code): Tree
    requires t.key < |t.keys|
  {
    ReferKeysKeeps(t.keys, code.keys);
    var t1 := Refer(t, code);
    t1.(keys := t1.keys[t.key := AddReturn(t1.keys[t.key], code.bytes)])
  }

  function Opcode(t: Tree, code: Code): Tree
    requires t.sub < |t.subs|
  {
    ReferSubsKeeps(t.subs, code.subs);
    var t1 := Refer(t, code);
    t1.(subs := t1.subs[t.sub := AddOp(t.sub, t1.subs[t.sub], code.bytes)])
  }

  function GrowSub(t: Tree, line: Line): Tree
    requires t.sub < |t.subs|
  {
    var d := t.subs[t.sub];
    match line
    case EndSub => t.(mode := Normal, subs := t.subs[t.sub := d.(defined := true, ended := true)])
    case IfEvent(event) =>
      if event.None? then t else t.(mode := InIf, subs := t.subs[t.sub := OpenBranch(d, event.value)])
    case Command(_, op) => if op.Some? then Opcode(t, op.value) else t
    case _ => t
  }

  function GrowIf(t: Tree, line: Line): Tree
    requires t.sub < |t.subs| && Open(t.subs[t.sub])
  {
    match line
    case EndIf => t.(mode := InSub, subs := t.subs[t.sub := CloseBranch(t.subs[t.sub])])
    case Goto(target, _) => if target.None? then t else Jump(t, target.value)
    case Command(_, op) => if op.Some? then Opcode(t, op.value) else t
    case _ => t
  }

  function JumpCode(event: nat, id: nat): seq<nat> {
    [8, event, id]
  }

  /** A jump is emitted with the branch's event, whatever room there is. */
  function JumpIn(ds: seq<SubDef>, sub: nat, target: string): seq<SubDef>
    requires sub < |ds| && Open(ds[sub])
  {
    var subs := ReferSub(ds, target);
    var i := FindSub(ds, target);
    if i == |subs| then subs else subs[sub := Emit(ds[sub], JumpCode(Last(ds[sub]).event, i))]
  }

  function Jump(t: Tree, target: string): Tree
    requires t.sub < |t.subs| && Open(t.subs[t.sub])
  {
    t.(subs := JumpIn(t.subs, t.sub, target))
  }

  function Grow(t: Tree, line: Line): Tree
    requires Placed(t)
  {
    match t.mode
    case Normal => GrowNormal(t, line)
    case InKey => GrowKey(t, line)
    case InSub => GrowSub(t, line)
    case InIf => GrowIf(t, line)
  }

  lemma {:induction false} ReferKeysKeeps(keys: seq<KeyDef>, names: seq<string>)
    ensures keys <= ReferKeys(keys, names)
    decreases |names|
  {
    if names != [] { ReferKeysKeeps(keys, names[..|names| - 1]); }
  }

  lemma {:induction false} ReferSubsKeeps(subs: seq<SubDef>, names: seq<string>)
    ensures subs <= ReferSubs(subs, names)
    decreases |names|
  {
    if names != [] { ReferSubsKeeps(subs, names[..|names| - 1]); }
  }

  // ---- What every script keeps --------------------------------------------------------

  ghost predicate Closed(items: seq<Item>) {
    forall i :: 0 <= i < |items| ==> items[i].Branch? ==> items[i].closed
  }

  ghost predicate KeySound(d: KeyDef, current: bool) {
    && |d.full| <= MAX_FULL_NAME && |d.short| <= MAX_SHORT_NAME && |d.codes| <= MAX_RET_CODE
    && (d.begun <==> d.defined || current)
    && !(d.defined && current)
  }

  /** Only the subroutine being read is unfinished, and only its last branch can be open. */
  ghost predicate SubSound(d: SubDef, current: bool, inIf: bool) {
    && (d.defined || current ==> d.begun)
    && (current ==> !d.ended)
    && (!current ==> d.defined == d.ended && (!d.ended ==> d.items == []))
    && (if current && inIf then Open(d) && Closed(d.items[..|d.items| - 1]) else Closed(d.items))
  }

  predicate ReadsKey(t: Tree, i: nat) {
    t.mode.InKey? && t.key == i
  }

  predicate ReadsSub(t: Tree, i: nat) {
    (t.mode.InSub? || t.mode.InIf?) && t.sub == i
  }

  ghost predicate Sound(t: Tree) {
    && Placed(t) && 0 < |t.subs| <= MAX_SUBS && |t.keys| <= MAX_KEYS && |t.displays| <= MAX_DISPLAYS
    && (forall i :: 0 <= i < |t.keys| ==> KeySound(t.keys[i], ReadsKey(t, i)))
    && (forall i :: 0 <= i < |t.subs| ==> SubSound(t.subs[i], ReadsSub(t, i), t.mode.InIf?))
  }

  lemma ReferKeySound(t: Tree, name: string)
    requires Sound(t)
    ensures Sound(t.(keys := ReferKey(t.keys, name)))
  {
  }

  lemma ReferSubSound(t: Tree, name: string)
    requires Sound(t)
    ensures Sound(t.(subs := ReferSub(t.subs, name)))
  {
  }

  lemma {:induction false} ReferKeysSound(t: Tree, names: seq<string>)
    requires Sound(t)
    ensures Sound(t.(keys := ReferKeys(t.keys, names)))
    decreases |names|
  {
    if names != [] {
      var n := |names| - 1;
      ReferKeysSound(t, names[..n]);
      ReferKeySound(t.(keys := ReferKeys(t.keys, names[..n])), names[n]);
    }
  }

  lemma {:induction false} ReferSubsSound(t: Tree, names: seq<string>)
    requires Sound(t)
    ensures Sound(t.(subs := ReferSubs(t.subs, names)))
    decreases |names|
  {
    if names != [] {
      var n := |names| - 1;
      ReferSubsSound(t, names[..n]);
      ReferSubSound(t.(subs := ReferSubs(t.subs, names[..n])), names[n]);
    }
  }

  lemma ReferSound(t: Tree, code: Code)
    requires Sound(t)
    ensures Sound(Refer(t, code))
  {
    ReferKeysSound(t, code.keys);
    ReferSubsSound(t.(keys := ReferKeys(t.keys, code.keys)), code.subs);
  }

  /** Changing one subroutine is a matter of that subroutine. */
  lemma SetSubSound(t: Tree, i: nat, d: SubDef)
    requires Sound(t) && i < |t.subs| && SubSound(d, ReadsSub(t, i), t.mode.InIf?)
    ensures Sound(t.(subs := t.subs[i := d]))
  {
  }

  lemma EmitSound(d: SubDef, code: seq<nat>, inIf: bool)
    requires SubSound(d, true, inIf)
    ensures SubSound(Emit(d, code), true, inIf)
  {
    var e := Emit(d, code);
    if Open(d) {
      assert e.items[..|e.items| - 1] == d.items[..|d.items| - 1];
      assert inIf;
    }
  }

  lemma OpcodeSound(t: Tree, code: Code)
    requires Sound(t) && (t.mode.InSub? || t.mode.InIf?)
    ensures Sound(Opcode(t, code))
  {
    ReferSound(t, code);
    ReferSubsKeeps(t.subs, code.subs);
    var t1 := Refer(t, code);
    EmitSound(t1.subs[t.sub], code.bytes, t.mode.InIf?);
    SetSubSound(t1, t.sub, AddOp(t.sub, t1.subs[t.sub], code.bytes));
  }

  lemma JumpSound(t: Tree, target: string)
    requires Sound(t) && t.mode.InIf?
    ensures Sound(Jump(t, target))
  {
    ReferSubSound(t, target);
    var t1 := t.(subs := ReferSub(t.subs, target));
    var i := FindSub(t.subs, target);
    if i < |t1.subs| {
      var code := JumpCode(Last(t.subs[t.sub]).event, i);
      EmitSound(t.subs[t.sub], code, true);
      SetSubSound(t1, t.sub, Emit(t.subs[t.sub], code));
    }
  }

  lemma CloseSound(d: SubDef)
    requires SubSound(d, true, true)
    ensures SubSound(CloseBranch(d), true, false)
  {
  }

  lemma GrowNormalSound(t: Tree, line: Line)
    requires Sound(t) && t.mode.Normal?
    ensures Sound(GrowNormal(t, line))
  {
    match line {
      case KeyLine(name, _) => ReferKeySound(t, name);
      case SubLine(name, _) => ReferSubSound(t, name);
      case _ =>
    }
  }

  lemma GrowKeySound(t: Tree, line: Line)
    requires Sound(t) && t.mode.InKey?
    ensures Sound(GrowKey(t, line))
  {
    match line {
      case Goto(_, code) => ReturnCodeSound(t, code);
      case Command(ret, _) => if ret.Some? { ReturnCodeSound(t, ret.value); }
      case _ =>
    }
  }

  lemma ReturnCodeSound(t: Tree, code: Code)
    requires Sound(t) && t.mode.InKey?
    ensures Sound(ReturnCode(t, code))
  {
    ReferSound(t, code);
    ReferKeysKeeps(t.keys, code.keys);
  }

  lemma GrowSubSound(t: Tree, line: Line)
    requires Sound(t) && t.mode.InSub?
    ensures Sound(GrowSub(t, line))
  {
    match line {
      case IfEvent(event) =>
        if event.Some? {
          var d := t.subs[t.sub];
          assert OpenBranch(d, event.value).items[..|d.items|] == d.items;
        }
      case Command(_, op) => if op.Some? { OpcodeSound(t, op.value); }
      case _ =>
    }
  }

  lemma GrowIfSound(t: Tree, line: Line)
    requires Sound(t) && t.mode.InIf?
    ensures Sound(GrowIf(t, line))
  {
    match line {
      case EndIf => CloseSound(t.subs[t.sub]);
      case Goto(target, _) => if target.Some? { JumpSound(t, target.value); }
      case Command(_, op) => if op.Some? { OpcodeSound(t, op.value); }
      case _ =>
    }
  }

  lemma GrowKeepsSound(t: Tree, line: Line)
    requires Sound(t)
    ensures Sound(Grow(t, line))
  {
    match t.mode {
      case Normal => GrowNormalSound(t, line);
      case InKey => GrowKeySound(t, line);
      case InSub => GrowSubSound(t, line);
      case InIf => GrowIfSound(t, line);
    }
  }

  /** A script starts out with the main subroutine known. */
  function Start(): Tree {
    Tree(Normal, [], [NewSub("main")], [], 0, 0)
  }

  function GrowAll(lines: seq<Line>): (t: Tree)
    ensures Sound(t)
    decreases |lines|
  {
    if lines == [] then Start()
    else
      var t := GrowAll(lines[..|lines| - 1]);
      GrowKeepsSound(t, lines[|lines| - 1]);
      Grow(t, lines[|lines| - 1])
  }

  // ---- Instruction accounting ------------------------------------------------------------

  /** The instructions of an item; a branch is one itself, with the number of those under it. */
  function Own(x: Item): seq<seq<nat>> {
    if x.Plain? then [x.code] else [BranchHead(x)[..3]] + x.body
  }

  /** All instructions in the order emitted. */
  function Instructions(items: seq<Item>): seq<seq<nat>> {
    if items == [] then [] else Instructions(items[..|items| - 1]) + Own(items[|items| - 1])
  }

  lemma CodesAppend(body: seq<seq<nat>>, code: seq<nat>)
    ensures Codes(body + [code]) == Codes(body) + code + [0xff]
  {
    assert (body + [code])[..|body|] == body;
  }

  lemma Chained(a: seq<nat>, b: seq<nat>, c: seq<nat>, d: seq<nat>)
    ensures a + b + c + d == a + (b + c + d)
  {
  }

  lemma {:induction false} CodesConcat(a: seq<seq<nat>>, b: seq<seq<nat>>)
    ensures Codes(a + b) == Codes(a) + Codes(b)
    decreases |b|
  {
    if b == [] {
      assert a + b == a;
    } else {
      var init, x := b[..|b| - 1], b[|b| - 1];
      CodesConcat(a, init);
      assert a + b == (a + init) + [x];
      CodesAppend(a + init, x);
      Chained(Codes(a), Codes(init), x, [0xff]);
    }
  }

  lemma CodesOne(code: seq<nat>)
    ensures Codes([code]) == code + [0xff]
  {
    assert [code][..0] == [];
  }

  lemma EncodeIsOwn(x: Item)
    ensures Encode(x) == Codes(Own(x)) && Weight(x) == |Own(x)|
  {
    if x.Plain? {
      CodesOne(x.code);
    } else {
      CodesOne(BranchHead(x)[..3]);
      CodesConcat([BranchHead(x)[..3]], x.body);
    }
  }

  /** A subroutine's body is its instructions, each ended by 0xff, and its weight is how many. */
  lemma {:induction false} BodyIsInstructions(items: seq<Item>)
    ensures Body(items) == Codes(Instructions(items)) && Weights(items) == |Instructions(items)|
    decreases |items|
  {
    if items != [] {
      var n := |items| - 1;
      BodyIsInstructions(items[..n]);
      EncodeIsOwn(items[n]);
      CodesConcat(Instructions(items[..n]), Own(items[n]));
    }
  }

  lemma ImageParts(i: nat, d: SubDef)
    requires d.begun && d.ended
    ensures var image := SubImage(i, d);
            && HeadLen(i) <= |image|
            && image[..3] == [0x82, (|image| - 2) % 256, 0]
            && (i != 0 ==> image[3..7] == [9, i, Weights(d.items) % 256, 0xff])
            && image[HeadLen(i)..] == Body(d.items)
  {
    var h := SubHead(i, (HeadLen(i) + |Body(d.items)| - 2) % 256, Weights(d.items) % 256);
    assert SubImage(i, d) == h + Body(d.items);
  }

  lemma ClosedHeads(items: seq<Item>)
    requires Closed(items)
    ensures forall k :: 0 <= k < |items| && items[k].Branch? ==> BranchHead(items[k])[2] == |items[k].body| % 256
  {
  }

  /**
   * What a finished subroutine stands for: a header, with its length and its number of instructions
   * modulo 256, and the instructions; each IF among them counts the instructions under it modulo 256.
   */
  lemma EndedImage(lines: seq<Line>, i: nat)
    requires i < |GrowAll(lines).subs| && GrowAll(lines).subs[i].ended
    ensures var d := GrowAll(lines).subs[i];
            var image := SubImage(i, d);
            && HeadLen(i) <= |image|
            && image[..3] == [0x82, (|image| - 2) % 256, 0]
            && (i != 0 ==> image[3..7] == [9, i, |Instructions(d.items)| % 256, 0xff])
            && image[HeadLen(i)..] == Codes(Instructions(d.items))
            && (forall k :: 0 <= k < |d.items| && d.items[k].Branch? ==>
                  BranchHead(d.items[k])[2] == |d.items[k].body| % 256)
  {
    var t := GrowAll(lines);
    var d := t.subs[i];
    assert d.begun && Closed(d.items) by { assert SubSound(d, ReadsSub(t, i), t.mode.InIf?); }
    BodyIsInstructions(d.items);
    ImageParts(i, d);
    ClosedHeads(d.items);
  }

  // ---- What is accepted -----------------------------------------------------------------

  ghost predicate AllDefined(t: Tree) {
    && (forall i :: 0 <= i < |t.keys| ==> t.keys[i].defined)
    && (forall i :: 0 <= i < |t.subs| ==> t.subs[i].defined)
  }

  /** The checks at the end of the file: an open IF is not among what they look for. */
  ghost predicate Accepts(t: Tree) {
    !t.mode.InSub? && !t.mode.InKey? && AllDefined(t)
  }

  ghost predicate Complete(t: Tree) {
    && (forall i :: 0 <= i < |t.keys| ==> t.keys[i].begun && t.keys[i].defined)
    && (forall i :: 0 <= i < |t.subs| ==> t.subs[i].ended && Closed(t.subs[i].items))
  }

  /** An accepted script is complete exactly when it does not end inside an IF. */
  lemma AcceptedIsComplete(lines: seq<Line>)
    requires Accepts(GrowAll(lines))
    ensures Complete(GrowAll(lines)) <==> !GrowAll(lines).mode.InIf?
  {
    var t := GrowAll(lines);
    if t.mode.InIf? { assert !t.subs[t.sub].ended; }
  }

  /** Everything is defined but the subroutine being read. */
  ghost predicate OnlyCurrentMissing(t: Tree) {
    && t.mode.InSub?
    && (forall i :: 0 <= i < |t.keys| ==> t.keys[i].defined)
    && (forall i :: 0 <= i < |t.subs| && i != t.sub ==> t.subs[i].defined)
  }

  lemma GrowAllNext(lines: seq<Line>, line: Line)
    ensures GrowAll(lines + [line]) == Grow(GrowAll(lines), line)
  {
    assert (lines + [line])[..|lines|] == lines;
  }

  /** A finished IF and an unfinished one, and the file may end there. */
  lemma UnfinishedScriptAccepted(lines: seq<Line>, event: nat)
    requires OnlyCurrentMissing(GrowAll(lines))
    ensures var t := GrowAll(lines + [IfEvent(Some(event))] + [EndIf] + [IfEvent(Some(event))]);
            Accepts(t) && !Complete(t)
  {
    GrowAllNext(lines, IfEvent(Some(event)));
    GrowAllNext(lines + [IfEvent(Some(event))], EndIf);
    GrowAllNext(lines + [IfEvent(Some(event))] + [EndIf], IfEvent(Some(event)));
    var t := GrowAll(lines + [IfEvent(Some(event))] + [EndIf] + [IfEvent(Some(event))]);
    assert t.subs[t.sub].defined && !t.subs[t.sub].ended;
  }

  lemma MainFound()
    ensures FindSub(Start().subs, "main") == 0
  {
    assert SameName(Start().subs[0].name, "main");
  }

  /** The main subroutine has been entered. */
  function Entered(): Tree {
    Tree(InSub, [], [NewSub("main").(begun := true)], [], 0, 0)
  }

  lemma MainBegins()
    ensures GrowAll([SubLine("main", true)]) == Entered()
  {
    MainFound();
    GrowAllNext([], SubLine("main", true));
    assert [SubLine("main", true)] == [] + [SubLine("main", true)];
  }

  /** The shortest such script begins with the main subroutine. */
  lemma MainAlone()
    ensures OnlyCurrentMissing(GrowAll([SubLine("main", true)]))
  {
    MainBegins();
  }
}
