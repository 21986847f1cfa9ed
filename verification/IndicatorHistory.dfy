/**
 * The indicator table agrees with what the phone has reported (addons/chan_mobile.c): from the text
 * of the two lists, character by character, through every sequence of events.
 */
module IndicatorHistory {
  import opened Options
  import opened HfpIndicators

  // ---- The texts a phone sends -----------------------------------------------------------

  datatype Entry = Entry(name: string, range: string)

  predicate WellFormed(e: Entry) {
    e.name != "" && '"' !in e.name && e.range != "" && ')' !in e.range
  }

  function EntryText(e: Entry): string {
    "(\"" + e.name + "\",(" + e.range + "))"
  }

  function EntriesText(es: seq<Entry>): string {
    if es == [] then "" else if |es| == 1 then EntryText(es[0]) else EntryText(es[0]) + "," + EntriesText(es[1..])
  }

  function ListText(es: seq<Entry>): string {
    "+CIND: " + EntriesText(es)
  }

  function Digit(d: nat): (c: char)
    requires d < 10
    ensures IsDigit(c) && c as int - '0' as int == d
  {
    ('0' as int + d) as char
  }

  function Decimal(n: nat): (s: string)
    ensures s != "" && forall i :: 0 <= i < |s| ==> IsDigit(s[i])
  {
    if n < 10 then [Digit(n)] else Decimal(n / 10) + [Digit(n % 10)]
  }

  function ValuesText(vs: seq<nat>): string {
    if vs == [] then "" else if |vs| == 1 then Decimal(vs[0]) else Decimal(vs[0]) + "," + ValuesText(vs[1..])
  }

  function StateText(vs: seq<nat>): string {
    "+CIND: " + ValuesText(vs)
  }

  // ---- Reading the names back ---------------------------------------------------------------

  lemma {:induction false} NamesConcat(a: Names, x: string, y: string)
    ensures NamesAfter(a, x + y) == NamesAfter(NamesAfter(a, x), y)
    decreases |x|
  {
    if x == [] {
      assert x + y == y;
    } else {
      assert (x + y)[0] == x[0] && (x + y)[1..] == x[1..] + y;
      NamesConcat(NamesNext(a, x[0]), x[1..], y);
    }
  }

  /** Characters outside an entry, inside its name and inside its range. */
  lemma {:induction false} OutsideEntry(found: seq<string>, x: string)
    requires '(' !in x
    ensures NamesAfter(Names(Scan(0, ""), found), x) == Names(Scan(0, ""), found)
    decreases |x|
  {
    if x != [] {
      assert x[0] in x;
      OutsideEntry(found, x[1..]);
    }
  }

  lemma {:induction false} InName(found: seq<string>, begun: string, x: string)
    requires '"' !in x
    ensures NamesAfter(Names(Scan(3, begun), found), x) == Names(Scan(3, begun + x), found)
    decreases |x|
  {
    if x == [] {
      assert begun + x == begun;
    } else {
      assert x[0] in x;
      InName(found, begun + [x[0]], x[1..]);
      assert begun + [x[0]] + x[1..] == begun + x;
    }
  }

  lemma {:induction false} InRange(found: seq<string>, name: string, x: string)
    requires ')' !in x
    ensures NamesAfter(Names(Scan(6, name), found), x) == Names(Scan(6, name), found)
    decreases |x|
  {
    if x != [] {
      assert x[0] in x;
      InRange(found, name, x[1..]);
    }
  }

  lemma FirstChar(a: Names, x: string)
    requires x != ""
    ensures NamesAfter(a, x) == NamesAfter(NamesNext(a, x[0]), x[1..])
  {
  }

  lemma TwoChars(a: Names, c: char, d: char)
    ensures NamesAfter(a, [c, d]) == NamesNext(NamesNext(a, c), d)
  {
    FirstChar(a, [c, d]);
    assert [c, d][1..] == [d];
    FirstChar(NamesNext(a, c), [d]);
  }

  lemma ThreeChars(a: Names, c: char, d: char, e: char)
    ensures NamesAfter(a, [c, d, e]) == NamesNext(NamesNext(NamesNext(a, c), d), e)
  {
    FirstChar(a, [c, d, e]);
    assert [c, d, e][1..] == [d, e];
    TwoChars(NamesNext(a, c), d, e);
  }

  lemma NameRead(found: seq<string>, name: string)
    requires name != "" && '"' !in name
    ensures NamesAfter(Names(Scan(2, ""), found), name) == Names(Scan(3, name), found)
  {
    InName(found, [name[0]], name[1..]);
    assert [name[0]] + name[1..] == name;
  }

  lemma RangeRead(found: seq<string>, name: string, range: string)
    requires range != "" && ')' !in range
    ensures NamesAfter(Names(Scan(5, name), found), range) == Names(Scan(6, name), found)
  {
    InRange(found, name, range[1..]);
  }

  /** One entry adds its name. */
  lemma EntryRead(found: seq<string>, e: Entry)
    requires WellFormed(e)
    ensures NamesAfter(Names(Scan(0, ""), found), EntryText(e)) == Names(Scan(0, ""), found + [e.name])
  {
    var a := Names(Scan(0, ""), found);
    TwoChars(a, '(', '"');
    NamesConcat(a, "(\"", e.name);
    NameRead(found, e.name);
    NamesConcat(a, "(\"" + e.name, "\",(");
    ThreeChars(Names(Scan(3, e.name), found), '"', ',', '(');
    NamesConcat(a, "(\"" + e.name + "\",(", e.range);
    RangeRead(found, e.name, e.range);
    NamesConcat(a, "(\"" + e.name + "\",(" + e.range, "))");
    TwoChars(Names(Scan(6, e.name), found), ')', ')');
  }

  function NamesOf(es: seq<Entry>): (r: seq<string>)
    ensures |r| == |es| && forall i :: 0 <= i < |r| ==> r[i] == es[i].name
  {
    seq(|es|, i requires 0 <= i < |es| => es[i].name)
  }

  lemma Regroup<T>(a: seq<T>, x: T, b: seq<T>)
    ensures a + [x] + b == a + ([x] + b)
  {
  }

  lemma NamesOfHead(es: seq<Entry>)
    requires es != []
    ensures NamesOf(es) == [es[0].name] + NamesOf(es[1..])
  {
  }

  lemma EntryThenRest(found: seq<string>, e: Entry, rest: string)
    requires WellFormed(e)
    ensures NamesAfter(Names(Scan(0, ""), found), EntryText(e) + "," + rest)
         == NamesAfter(Names(Scan(0, ""), found + [e.name]), rest)
  {
    var a := Names(Scan(0, ""), found);
    EntryRead(found, e);
    NamesConcat(a, EntryText(e), ",");
    OutsideEntry(found + [e.name], ",");
    NamesConcat(a, EntryText(e) + ",", rest);
  }

  lemma {:induction false} EntriesRead(found: seq<string>, es: seq<Entry>)
    requires forall i :: 0 <= i < |es| ==> WellFormed(es[i])
    ensures NamesAfter(Names(Scan(0, ""), found), EntriesText(es)) == Names(Scan(0, ""), found + NamesOf(es))
    decreases |es|
  {
    if es == [] {
      assert found + NamesOf(es) == found;
    } else if |es| == 1 {
      EntryRead(found, es[0]);
      assert NamesOf(es) == [es[0].name];
    } else {
      var found1 := found + [es[0].name];
      EntryThenRest(found, es[0], EntriesText(es[1..]));
      EntriesRead(found1, es[1..]);
      NamesOfHead(es);
      Regroup(found, es[0].name, NamesOf(es[1..]));
    }
  }

  /** The scan finds just the names of the list, in order. */
  lemma ListReadBack(es: seq<Entry>)
    requires forall i :: 0 <= i < |es| ==> WellFormed(es[i])
    ensures NamesIn(ListText(es)) == NamesOf(es)
  {
    NamesConcat(Names(Scan(0, ""), []), "+CIND: ", EntriesText(es));
    OutsideEntry([], "+CIND: ");
    EntriesRead([], es);
    assert [] + NamesOf(es) == NamesOf(es);
  }

  // ---- Lists that are too long ----------------------------------------------------------------

  /** A list makes the driver write past its table if and only if it has 16 entries or more. */
  lemma LongListsOverrun(es: seq<Entry>)
    requires forall i :: 0 <= i < |es| ==> WellFormed(es[i])
    ensures |NamesIn(ListText(es))| >= SLOTS <==> |es| >= 16
  {
    ListReadBack(es);
  }

  /** The same short indicator so many times over. */
  function Repeated(n: nat): (es: seq<Entry>)
    ensures |es| == n && forall i :: 0 <= i < n ==> es[i] == Entry("x", "0") && WellFormed(es[i])
  {
    seq(n, i => Entry("x", "0"))
  }

  lemma {:induction false} RepeatedLength(n: nat)
    ensures |EntriesText(Repeated(n))| == if n == 0 then 0 else 10 * n - 1
    decreases n
  {
    if n > 1 {
      assert Repeated(n)[1..] == Repeated(n - 1);
      RepeatedLength(n - 1);
    }
  }

  /** Sixteen of these are enough, in a line of 166 characters; the driver reads lines of up to 349. */
  lemma SixteenOverrun()
    ensures |NamesIn(ListText(Repeated(16)))| == SLOTS && |ListText(Repeated(16))| == 166
  {
    ListReadBack(Repeated(16));
    RepeatedLength(16);
  }

  // ---- Reading the values back ----------------------------------------------------------------

  lemma {:induction false} ItemsConcat(a: Items, x: string, y: string)
    ensures ItemsAfter(a, x + y) == ItemsAfter(ItemsAfter(a, x), y)
    decreases |x|
  {
    if x == [] {
      assert x + y == y;
    } else {
      assert (x + y)[0] == x[0] && (x + y)[1..] == x[1..] + y;
      ItemsConcat(ItemsNext(a, x[0]), x[1..], y);
    }
  }

  lemma {:induction false} BeforeItems(x: string)
    requires ' ' !in x
    ensures ItemsAfter(Items(Skip, []), x) == Items(Skip, [])
    decreases |x|
  {
    if x != [] {
      assert x[0] in x;
      BeforeItems(x[1..]);
    }
  }

  lemma {:induction false} InItem(done: seq<string>, begun: string, x: string)
    requires forall i :: 0 <= i < |x| ==> IsDigit(x[i])
    ensures ItemsAfter(Items(In(begun), done), x) == Items(In(begun + x), done)
    decreases |x|
  {
    if x == [] {
      assert begun + x == begun;
    } else {
      InItem(done, begun + [x[0]], x[1..]);
      assert begun + [x[0]] + x[1..] == begun + x;
    }
  }

  lemma NumberRead(done: seq<string>, n: nat)
    ensures ItemsAfter(Items(Mark, done), Decimal(n)) == Items(In(Decimal(n)), done)
  {
    var x := Decimal(n);
    InItem(done, [x[0]], x[1..]);
    assert [x[0]] + x[1..] == x;
  }

  function Decimals(vs: seq<nat>): (r: seq<string>)
    ensures |r| == |vs| && forall i :: 0 <= i < |r| ==> r[i] == Decimal(vs[i])
  {
    seq(|vs|, i requires 0 <= i < |vs| => Decimal(vs[i]))
  }

  lemma DecimalsHead(vs: seq<nat>)
    requires vs != []
    ensures Decimals(vs) == [Decimal(vs[0])] + Decimals(vs[1..])
  {
  }

  lemma NumberThenRest(done: seq<string>, n: nat, rest: string)
    ensures ItemsAfter(Items(Mark, done), Decimal(n) + "," + rest) == ItemsAfter(Items(Mark, done + [Decimal(n)]), rest)
  {
    var a := Items(Mark, done);
    NumberRead(done, n);
    ItemsConcat(a, Decimal(n), ",");
    assert ","[1..] == "";
    assert ItemsAfter(Items(In(Decimal(n)), done), ",") == Items(Mark, done + [Decimal(n)]);
    ItemsConcat(a, Decimal(n) + ",", rest);
  }

  lemma {:induction false} ValuesRead(done: seq<string>, vs: seq<nat>)
    ensures AllItems(ItemsAfter(Items(Mark, done), ValuesText(vs))) == done + Decimals(vs)
    decreases |vs|
  {
    if vs == [] {
      assert done + Decimals(vs) == done;
    } else if |vs| == 1 {
      NumberRead(done, vs[0]);
      assert Decimals(vs) == [Decimal(vs[0])];
    } else {
      var done1 := done + [Decimal(vs[0])];
      NumberThenRest(done, vs[0], ValuesText(vs[1..]));
      ValuesRead(done1, vs[1..]);
      DecimalsHead(vs);
      Regroup(done, Decimal(vs[0]), Decimals(vs[1..]));
    }
  }

  lemma StateReadBack(vs: seq<nat>)
    ensures ItemsIn(StateText(vs)) == Decimals(vs)
  {
    ItemsConcat(Items(Skip, []), "+CIND:", " ");
    BeforeItems("+CIND:");
    assert "+CIND: " == "+CIND:" + " ";
    ItemsConcat(Items(Skip, []), "+CIND: ", ValuesText(vs));
    ValuesRead([], vs);
    assert [] + Decimals(vs) == Decimals(vs);
  }

  lemma {:induction false} DigitsAppend(s: string, d: nat, sum: int)
    requires d < 10 && forall i :: 0 <= i < |s| ==> IsDigit(s[i])
    ensures Digits(s + [Digit(d)], sum) == Digits(s, sum) * 10 + d
    decreases |s|
  {
    if s == [] {
      assert s + [Digit(d)] == [Digit(d)];
    } else {
      assert (s + [Digit(d)])[1..] == s[1..] + [Digit(d)];
      DigitsAppend(s[1..], d, sum * 10 + (s[0] as int - '0' as int));
    }
  }

  lemma {:induction false} DigitsThenRest(s: string, rest: string, sum: int)
    requires forall i :: 0 <= i < |s| ==> IsDigit(s[i])
    requires rest == "" || !IsDigit(rest[0])
    ensures Digits(s + rest, sum) == Digits(s, sum) && AfterDigits(s + rest) == rest
    decreases |s|
  {
    if s == [] {
      assert s + rest == rest;
    } else {
      assert (s + rest)[0] == s[0] && (s + rest)[1..] == s[1..] + rest;
      DigitsThenRest(s[1..], rest, sum * 10 + (s[0] as int - '0' as int));
    }
  }

  lemma {:induction false} DigitsOfDecimal(n: nat)
    ensures Digits(Decimal(n), 0) == n
  {
    if n >= 10 {
      DigitsOfDecimal(n / 10);
      DigitsAppend(Decimal(n / 10), n % 10, 0);
    }
  }

  /** Every number is read back from its digits, whatever follows them. */
  lemma DecimalReadBack(n: nat, rest: string)
    requires rest == "" || !IsDigit(rest[0])
    ensures ScanInt(Decimal(n) + rest) == Number(n, rest)
  {
    DigitsOfDecimal(n);
    DigitsThenRest(Decimal(n), rest, 0);
    assert (Decimal(n) + rest)[0] == Decimal(n)[0];
  }

  function CievText(i: nat, value: nat): string {
    "+CIEV: " + (Decimal(i) + ("," + Decimal(value)))
  }

  lemma SpaceThen(s: string)
    ensures ScanInt(" " + s) == ScanInt(s)
  {
    assert (" " + s)[1..] == s;
  }

  /** An event is read back from its line. */
  lemma CievReadBack(i: nat, value: nat, unset: Event)
    ensures EventOf(CievText(i, value), unset) == Some(Event(i, value))
  {
    var rest := "," + Decimal(value);
    var numbers := Decimal(i) + rest;
    assert CievText(i, value) == CIEV + (" " + numbers);
    assert CievText(i, value)[|CIEV|..] == " " + numbers;
    SpaceThen(numbers);
    DecimalReadBack(i, rest);
    assert rest[1..] == Decimal(value) + "";
    DecimalReadBack(value, "");
  }

  // ---- The table against the history -------------------------------------------------------------

  /** The last group with a code, or 0. */
  function LastOf(names: seq<string>, code: int): (g: nat)
    ensures g <= |names| && (g > 0 ==> CodeOf(names[g - 1]) == code)
    ensures forall i :: g <= i < |names| ==> CodeOf(names[i]) != code
  {
    if names == [] then 0
    else if CodeOf(names[|names| - 1]) == code then |names|
    else LastOf(names[..|names| - 1], code)
  }

  /** The latest value reported for a group, after the one the state list had for it. */
  function Latest(first: int, events: seq<Event>, g: nat): int {
    if events == [] then first
    else if events[|events| - 1].i == g then events[|events| - 1].value
    else Latest(first, events[..|events| - 1], g)
  }

  lemma {:induction false} RecordedIndex(t: Table, names: seq<string>, g: nat)
    requires Valid(t) && |names| < SLOTS && 1 <= g <= |names|
    ensures RecordAll(t, names).index[g] == CodeOf(names[g - 1])
    decreases |names|
  {
    if g < |names| { RecordedIndex(t, names[..|names| - 1], g); }
  }

  lemma {:induction false} RecordedGroup(t: Table, names: seq<string>, code: int)
    requires Valid(t) && |names| < SLOTS && SERVICE <= code <= BATTCHG
    ensures RecordAll(t, names).groups[code] == if LastOf(names, code) == 0 then t.groups[code] else LastOf(names, code)
    decreases |names|
  {
    if names != [] { RecordedGroup(t, names[..|names| - 1], code); }
  }

  lemma {:induction false} StoredValue(t: Table, vs: seq<nat>, items: seq<string>, unset: nat -> int, g: nat)
    requires Valid(t) && items == Decimals(vs) && |vs| < SLOTS && 1 <= g <= |vs|
    ensures StoreAll(t, items, unset).state[g] == vs[g - 1]
    decreases |vs|
  {
    var n := |vs| - 1;
    if g == |vs| {
      DecimalReadBack(vs[n], "");
      assert Decimal(vs[n]) + "" == items[n];
    } else {
      StoredValue(t, vs[..n], items[..n], unset, g);
    }
  }

  lemma {:induction false} AppliedEvents(t: Table, events: seq<Event>, g: nat)
    requires Valid(t) && g < SLOTS
    ensures ApplyAll(t, events).state[g] == Latest(t.state[g], events, g)
    decreases |events|
  {
    if events != [] { AppliedEvents(t, events[..|events| - 1], g); }
  }

  /** A zeroed record, both lists and then the events. */
  function Zeroed(): (t: Table)
    ensures Valid(t) && t.groups == [0, 0, 0, 0, 0, 0, 0, 0]
  {
    Table(seq(SLOTS, _ => 0), seq(SLOTS, _ => 0), [0, 0, 0, 0, 0, 0, 0, 0], false)
  }

  function Told(es: seq<Entry>, vs: seq<nat>, unset: nat -> int, events: seq<Event>): (t: Table)
    requires |NamesIn(ListText(es))| < SLOTS
    ensures Valid(t)
  {
    var named := RecordAll(Zeroed().(noCallSetup := true), NamesIn(ListText(es)));
    ApplyAll(StoreAll(named, ItemsIn(StateText(vs)), unset), events)
  }

  ghost predicate Session(es: seq<Entry>, vs: seq<nat>) {
    |es| == |vs| < SLOTS && forall i :: 0 <= i < |es| ==> WellFormed(es[i])
  }

  /** A group has its name's code and its latest value. */
  lemma GroupFollowsHistory(es: seq<Entry>, vs: seq<nat>, unset: nat -> int, events: seq<Event>, g: nat)
    requires Session(es, vs) && 1 <= g <= |es|
    ensures |NamesIn(ListText(es))| < SLOTS
    ensures Told(es, vs, unset, events).index[g] == CodeOf(es[g - 1].name)
    ensures Told(es, vs, unset, events).state[g] == Latest(vs[g - 1], events, g)
  {
    ListReadBack(es);
    StateReadBack(vs);
    var named := RecordAll(Zeroed().(noCallSetup := true), NamesOf(es));
    RecordedIndex(Zeroed().(noCallSetup := true), NamesOf(es), g);
    StoredValue(named, vs, Decimals(vs), unset, g);
    AppliedEvents(StoreAll(named, Decimals(vs), unset), events, g);
  }

  /** A code leads to the last group that has it, if any. */
  lemma CodeFindsGroup(es: seq<Entry>, vs: seq<nat>, unset: nat -> int, events: seq<Event>, code: int)
    requires Session(es, vs) && SERVICE <= code <= BATTCHG
    ensures |NamesIn(ListText(es))| < SLOTS
    ensures Told(es, vs, unset, events).groups[code] == LastOf(NamesOf(es), code)
  {
    ListReadBack(es);
    RecordedGroup(Zeroed().(noCallSetup := true), NamesOf(es), code);
  }

  /** There is service when the latest service value is 1, or when the phone does not report it. */
  lemma ServiceFollowsHistory(es: seq<Entry>, vs: seq<nat>, unset: nat -> int, events: seq<Event>)
    requires Session(es, vs)
    ensures |NamesIn(ListText(es))| < SLOTS
    ensures var g := LastOf(NamesOf(es), SERVICE);
            HasService(Told(es, vs, unset, events), true) <==> g == 0 || Latest(vs[g - 1], events, g) == 1
  {
    CodeFindsGroup(es, vs, unset, events, SERVICE);
    var g := LastOf(NamesOf(es), SERVICE);
    if g > 0 { GroupFollowsHistory(es, vs, unset, events, g); }
  }
}
