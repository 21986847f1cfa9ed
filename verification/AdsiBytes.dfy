/**
 * The byte strings of the compiler's tables (apps/app_adsiprog.c), grown in place, with lengths and
 * counts filled in once they are known: each step on them is a step of the tree they show.
 * A byte that is reserved but not yet filled in is taken to be 0.
 */
module AdsiBytes {
  import opened AdsiTree

  datatype Key = Key(name: string, id: nat, defined: bool, data: seq<nat>, initlen: nat)

  datatype Sub = Sub(name: string, id: nat, defined: bool, data: seq<nat>, inscount: nat, ifinscount: nat, ifAt: nat)

  predicate KeyShows(k: Key, i: nat, d: KeyDef) {
    && k.name == d.name && k.id == i + 2 && k.defined == d.defined && k.data == KeyImage(i + 2, d)
    && (d.begun ==> k.initlen == 5 + |d.full| + |d.short|)
  }

  predicate SubShows(s: Sub, i: nat, d: SubDef) {
    && s.name == d.name && s.id == i && s.defined == d.defined && s.data == SubImage(i, d)
    && s.inscount == Weights(d.items)
    && (Open(d) ==> s.ifinscount == |Last(d).body| && s.ifAt == |Draft(i, Front(d))|)
  }

  // ---- Steps of one record ------------------------------------------------------------

  lemma BodyAppend(items: seq<Item>, x: Item)
    ensures Body(items + [x]) == Body(items) + Encode(x) && Weights(items + [x]) == Weights(items) + Weight(x)
  {
    assert (items + [x])[..|items|] == items;
  }

  lemma UpdateLeft(a: seq<nat>, b: seq<nat>, i: nat, v: nat)
    requires i < |a|
    ensures (a + b)[i := v] == a[i := v] + b
  {
  }

  lemma BranchAppend(init: seq<Item>, x: Item)
    requires x.Branch?
    ensures Body(init + [x]) == Body(init) + (BranchHead(x) + Codes(x.body))
    ensures Weights(init + [x]) == Weights(init) + 1 + |x.body|
  {
    BodyAppend(init, x);
  }

  function Front(d: SubDef): seq<Item>
    requires Open(d)
  {
    d.items[..|d.items| - 1]
  }

  predicate InBranch(d: SubDef) {
    d.begun && !d.ended && Open(d)
  }

  function EmitOp(s: Sub, code: seq<nat>, inIf: bool): Sub {
    s.(data := s.data + code + [0xff], inscount := s.inscount + 1, ifinscount := s.ifinscount + if inIf then 1 else 0)
  }

  lemma Regroup(h: seq<nat>, b: seq<nat>, c: seq<nat>, e: seq<nat>)
    ensures h + b + c + e == h + (b + (c + e))
  {
  }

  lemma RegroupDeep(h: seq<nat>, b: seq<nat>, x: seq<nat>, y: seq<nat>, c: seq<nat>, e: seq<nat>)
    ensures h + (b + (x + y)) + c + e == h + (b + (x + (y + c + e)))
  {
  }

  lemma DraftPlain(i: nat, items: seq<Item>, code: seq<nat>)
    ensures Draft(i, items + [Plain(code)]) == Draft(i, items) + code + [0xff]
    ensures Weights(items + [Plain(code)]) == Weights(items) + 1
  {
    BodyAppend(items, Plain(code));
    Regroup(SubHead(i, 0, 0), Body(items), code, [0xff]);
  }

  lemma DraftInBranch(i: nat, front: seq<Item>, x: Item, code: seq<nat>)
    requires x.Branch? && !x.closed
    ensures var y := Branch(x.event, x.body + [code], false);
            && Draft(i, front + [y]) == Draft(i, front + [x]) + code + [0xff]
            && Weights(front + [y]) == Weights(front + [x]) + 1
  {
    CodesAppend(x.body, code);
    BranchAppend(front, x);
    BranchAppend(front, Branch(x.event, x.body + [code], false));
    RegroupDeep(SubHead(i, 0, 0), Body(front), BranchHead(x), Codes(x.body), code, [0xff]);
  }

  /** An unfinished subroutine grows by just the bytes of what is emitted. */
  lemma EmitBytes(i: nat, d: SubDef, code: seq<nat>)
    requires d.begun && !d.ended
    ensures SubImage(i, Emit(d, code)) == SubImage(i, d) + code + [0xff]
    ensures Weights(Emit(d, code).items) == Weights(d.items) + 1
  {
    if Open(d) {
      EmitInBranchBytes(i, d, code);
    } else {
      DraftPlain(i, d.items, code);
    }
  }

  lemma EmitInBranchBytes(i: nat, d: SubDef, code: seq<nat>)
    requires d.begun && !d.ended && Open(d)
    ensures SubImage(i, Emit(d, code)) == SubImage(i, d) + code + [0xff]
    ensures Weights(Emit(d, code).items) == Weights(d.items) + 1
  {
    assert Front(d) + [Last(d)] == d.items;
    DraftInBranch(i, Front(d), Last(d), code);
  }

  lemma EmitShows(s: Sub, i: nat, d: SubDef, code: seq<nat>)
    requires SubShows(s, i, d) && d.begun && !d.ended
    ensures SubShows(EmitOp(s, code, Open(d)), i, Emit(d, code))
  {
    EmitBytes(i, d, code);
    if Open(d) { EmitKeepsFront(d, code); }
  }

  lemma EmitKeepsFront(d: SubDef, code: seq<nat>)
    requires Open(d)
    ensures var e := Emit(d, code);
            Open(e) && e.items[..|e.items| - 1] == d.items[..|d.items| - 1] && Last(e).body == Last(d).body + [code]
  {
  }

  function StartIf(s: Sub, event: nat): Sub {
    s.(ifinscount := 0, ifAt := |s.data|, data := s.data + [1, event, 0, 0xff], inscount := s.inscount + 1)
  }

  lemma DraftBranch(i: nat, items: seq<Item>, event: nat)
    ensures var x := Branch(event, [], false);
            Draft(i, items + [x]) == Draft(i, items) + [1, event, 0, 0xff] && Weights(items + [x]) == Weights(items) + 1
  {
    var x := Branch(event, [], false);
    BranchAppend(items, x);
    Regroup(SubHead(i, 0, 0), Body(items), BranchHead(x), []);
  }

  lemma StartIfShows(s: Sub, i: nat, d: SubDef, event: nat)
    requires SubShows(s, i, d) && d.begun && !d.ended
    ensures SubShows(StartIf(s, event), i, OpenBranch(d, event))
  {
    DraftBranch(i, d.items, event);
    assert Front(OpenBranch(d, event)) == d.items;
  }

  function FinishIf(s: Sub): Sub
    requires s.ifAt + 2 < |s.data|
  {
    s.(defined := true, data := s.data[s.ifAt + 2 := s.ifinscount % 256])
  }

  /** Closing the branch fills in one byte. */
  lemma DraftClose(i: nat, front: seq<Item>, x: Item)
    requires x.Branch? && !x.closed
    ensures var y, at := Branch(x.event, x.body, true), |Draft(i, front)|;
            && at + 2 < |Draft(i, front + [x])| && Draft(i, front + [x])[at + 1] == x.event
            && Draft(i, front + [y]) == Draft(i, front + [x])[at + 2 := |x.body| % 256]
            && Weights(front + [y]) == Weights(front + [x])
  {
    var y := Branch(x.event, x.body, true);
    BranchAppend(front, x);
    BranchAppend(front, y);
    PatchDeep(SubHead(i, 0, 0), Body(front), BranchHead(x), Codes(x.body), |x.body| % 256);
    assert BranchHead(x)[2 := |x.body| % 256] == BranchHead(y);
  }

  lemma PatchDeep(h: seq<nat>, b: seq<nat>, x: seq<nat>, y: seq<nat>, v: nat)
    requires |x| == 4
    ensures var all := h + (b + (x + y));
            |h| + |b| + 2 < |all| && all[|h| + |b| + 1] == x[1] && all[|h| + |b| + 2 := v] == h + (b + (x[2 := v] + y))
  {
  }

  lemma CloseImage(i: nat, d: SubDef)
    requires d.begun && !d.ended && Open(d)
    ensures var image, at := SubImage(i, d), |Draft(i, Front(d))|;
            && at + 2 < |image| && image[at + 1] == Last(d).event
            && SubImage(i, CloseBranch(d)) == image[at + 2 := |Last(d).body| % 256]
            && Weights(CloseBranch(d).items) == Weights(d.items)
  {
    assert Front(d) + [Last(d)] == d.items;
    DraftClose(i, Front(d), Last(d));
  }

  lemma FinishIfShows(s: Sub, i: nat, d: SubDef)
    requires SubShows(s, i, d) && d.begun && !d.ended && Open(d)
    ensures s.ifAt + 2 < |s.data| && s.data[s.ifAt + 1] == Last(d).event && SubShows(FinishIf(s), i, CloseBranch(d))
  {
    CloseImage(i, d);
    assert !Open(CloseBranch(d));
  }

  /** The length, and outside the main subroutine the number of instructions. */
  function FinishSub(s: Sub): Sub
    requires HeadLen(s.id) <= |s.data|
  {
    var data: seq<nat> := s.data[1 := (|s.data| - 2) % 256];
    s.(defined := true, data := if s.id == 0 then data else data[5 := s.inscount % 256])
  }

  lemma FinishSubShows(s: Sub, i: nat, d: SubDef)
    requires SubShows(s, i, d) && d.begun && !d.ended && !Open(d)
    ensures HeadLen(s.id) <= |s.data| && SubShows(FinishSub(s), i, d.(defined := true, ended := true))
  {
    var h: seq<nat>, b: seq<nat> := SubHead(i, 0, 0), Body(d.items);
    var len: nat := (|s.data| - 2) % 256;
    UpdateLeft(h, b, 1, len);
    if i != 0 {
      var h1: seq<nat> := h[1 := len];
      UpdateLeft(h1, b, 5, s.inscount % 256);
      assert h1[5 := s.inscount % 256] == SubHead(i, len, s.inscount % 256);
    } else {
      assert h[1 := len] == SubHead(i, len, s.inscount % 256);
    }
  }

  function StartSub(s: Sub): Sub {
    s.(data := [0x82, 0, 0] + if s.id == 0 then [] else [9, s.id, 0, 0xff])
  }

  lemma StartSubShows(s: Sub, i: nat, d: SubDef)
    requires SubShows(s, i, d) && !d.ended && d.items == []
    ensures SubShows(StartSub(s), i, d.(begun := true, items := []))
  {
  }

  function StartKey(k: Key, full: seq<nat>, short: seq<nat>): Key {
    k.(data := [0x80, 0, k.id] + full + [0xff] + short + [0xff], initlen := 5 + |full| + |short|)
  }

  lemma StartKeyShows(k: Key, i: nat, d: KeyDef, n: Names)
    requires KeyShows(k, i, d) && !d.defined
    ensures KeyShows(StartKey(k, Cut(n.full, MAX_FULL_NAME), Cut(n.short, MAX_SHORT_NAME)), i, BeginKey(d, n))
  {
    var full, short := Cut(n.full, MAX_FULL_NAME), Cut(n.short, MAX_SHORT_NAME);
    assert [0x80, 0, k.id] + full + [0xff] + short + [0xff] == [0x80, 0, k.id] + (full + [0xff] + short + [0xff] + []);
  }

  lemma KeyGrows(h: seq<nat>, names: seq<nat>, codes: seq<nat>, code: seq<nat>)
    ensures h + (names + codes) + code == h + (names + (codes + code))
  {
  }

  lemma AddReturnShows(k: Key, i: nat, d: KeyDef, code: seq<nat>)
    requires KeyShows(k, i, d) && d.begun && !d.defined
    ensures |k.data| - k.initlen == |d.codes|
    ensures KeyShows(k.(data := k.data + code), i, d.(codes := d.codes + code))
  {
    KeyGrows([0x80, 0, i + 2], d.full + [0xff] + d.short + [0xff], d.codes, code);
  }

  function FinishKey(k: Key): Key
    requires 2 <= |k.data|
  {
    k.(defined := true, data := k.data[1 := (|k.data| - 2) % 256])
  }

  lemma FinishKeyShows(k: Key, i: nat, d: KeyDef)
    requires KeyShows(k, i, d) && d.begun && !d.defined && KeySound(d, true)
    ensures 2 <= |k.data| && KeyShows(FinishKey(k), i, d.(defined := true))
  {
  }
}
