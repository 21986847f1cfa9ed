/**
 * The indicator table of the hands-free driver (addons/chan_mobile.c): +CIND=? tells the names,
 * +CIND? their values and +CIEV the changes (sections 8.9 and 8.10 of 3GPP TS 27.007).
 */
module HfpIndicators {
  import opened Options

  const SLOTS: nat := 16

  const UNKNOWN: int := -1
  const NONE: int := 0
  const SERVICE: int := 1
  const CALL: int := 2
  const CALLSETUP: int := 3
  const CALLHELD: int := 4
  const SIGNAL: int := 5
  const ROAM: int := 6
  const BATTCHG: int := 7

  function CodeOf(name: string): (c: int)
    ensures c == UNKNOWN || SERVICE <= c <= BATTCHG
  {
    if name == "service" then SERVICE
    else if name == "call" then CALL
    else if name == "callsetup" || name == "call_setup" then CALLSETUP
    else if name == "callheld" then CALLHELD
    else if name == "signal" then SIGNAL
    else if name == "roam" then ROAM
    else if name == "battchg" then BATTCHG
    else UNKNOWN
  }

  /** Code and value by group, group by code, and whether call setup is not reported. */
  datatype Table = Table(index: seq<int>, state: seq<int>, groups: seq<nat>, noCallSetup: bool)

  ghost predicate Valid(t: Table) {
    |t.index| == SLOTS && |t.state| == SLOTS && |t.groups| == 8 && forall c :: 0 <= c < 8 ==> t.groups[c] < SLOTS
  }

  // ---- The list of names, character by character ---------------------------------------

  /** Where in an entry of the list the scan is, and the name read so far. */
  datatype Scan = Scan(state: nat, name: string)

  function ScanNext(s: Scan, c: char): Scan {
    if s.state == 0 then (if c == '(' then Scan(1, "") else s)
    else if s.state == 1 then (if c == '"' then Scan(2, "") else s)
    else if s.state == 2 then Scan(3, [c])
    else if s.state == 3 then (if c == '"' then Scan(4, s.name) else Scan(3, s.name + [c]))
    else if s.state == 4 then (if c == '(' then Scan(5, s.name) else s)
    else if s.state == 5 then Scan(6, s.name)
    else if s.state == 6 then (if c == ')' then Scan(7, s.name) else s)
    else Scan(0, "")
  }

  /** The scan, and the names found so far; a name counts once its entry is over. */
  datatype Names = Names(scan: Scan, found: seq<string>)

  function NamesNext(a: Names, c: char): Names {
    Names(ScanNext(a.scan, c), if a.scan.state == 7 then a.found + [a.scan.name] else a.found)
  }

  function NamesAfter(a: Names, buf: string): (r: Names)
    ensures |a.found| <= |r.found|
    decreases |buf|
  {
    if buf == [] then a else NamesAfter(NamesNext(a, buf[0]), buf[1..])
  }

  function NamesIn(buf: string): seq<string> {
    NamesAfter(Names(Scan(0, ""), []), buf).found
  }

  function Record(t: Table, group: nat, name: string): (r: Table)
    requires Valid(t) && group < SLOTS
    ensures Valid(r)
  {
    var c := CodeOf(name);
    t.(index := t.index[group := c], groups := if c == UNKNOWN then t.groups else t.groups[c := group],
       noCallSetup := t.noCallSetup && c != CALLSETUP)
  }

  function RecordAll(t: Table, names: seq<string>): (r: Table)
    requires Valid(t) && |names| < SLOTS
    ensures Valid(r) && r.state == t.state
    decreases |names|
  {
    if names == [] then t else Record(RecordAll(t, names[..|names| - 1]), |names|, names[|names| - 1])
  }

  // ---- The list of values ---------------------------------------------------------------

  datatype Read = Skip | Mark | In(item: string)

  function ReadNext(r: Read, c: char): Read {
    match r
    case Skip => if c == ' ' then Mark else Skip
    case Mark => In([c])
    case In(item) => if c == ',' then Mark else In(item + [c])
  }

  datatype Items = Items(read: Read, done: seq<string>)

  function ItemsNext(a: Items, c: char): Items {
    Items(ReadNext(a.read, c), if a.read.In? && c == ',' then a.done + [a.read.item] else a.done)
  }

  function ItemsAfter(a: Items, buf: string): Items
    decreases |buf|
  {
    if buf == [] then a else ItemsAfter(ItemsNext(a, buf[0]), buf[1..])
  }

  function AllItems(a: Items): seq<string> {
    if a.read.In? then a.done + [a.read.item] else a.done
  }

  /** The items between the commas; the last one ends with the line. */
  function ItemsIn(buf: string): seq<string> {
    AllItems(ItemsAfter(Items(Skip, []), buf))
  }

  predicate IsDigit(c: char) {
    '0' <= c <= '9'
  }

  function Digits(s: string, sum: int): int
    decreases |s|
  {
    if s == [] || !IsDigit(s[0]) then sum else Digits(s[1..], sum * 10 + (s[0] as int - '0' as int))
  }

  function AfterDigits(s: string): string {
    if s == [] || !IsDigit(s[0]) then s else AfterDigits(s[1..])
  }

  predicate IsSpace(c: char) {
    c == ' ' || '\t' <= c <= '\r'
  }

  function AfterSpaces(s: string): string {
    if s == [] || !IsSpace(s[0]) then s else AfterSpaces(s[1..])
  }

  /** What sscanf makes of %d: a number and what follows it, something else, or the end of the text. */
  datatype Scanned = Number(value: int, rest: string) | NoMatch | AtEnd

  function ScanInt(text: string): Scanned {
    var s := AfterSpaces(text);
    if s == [] then AtEnd
    else
      var digits := if s[0] == '-' || s[0] == '+' then s[1..] else s;
      if digits == [] || !IsDigit(digits[0]) then NoMatch
      else Number(if s[0] == '-' then -Digits(digits, 0) else Digits(digits, 0), AfterDigits(digits))
  }

  /** The number stored for an item; sscanf leaves the variable alone, `unset`, when the text ends before one. */
  function Stored(item: string, unset: int): Option<int> {
    match ScanInt(item)
    case Number(v, _) => Some(v)
    case NoMatch => None
    case AtEnd => Some(unset)
  }

  function Store(t: Table, group: nat, item: string, unset: int): (r: Table)
    requires Valid(t)
    ensures Valid(r)
  {
    if group >= SLOTS || Stored(item, unset).None? then t
    else t.(state := t.state[group := Stored(item, unset).value])
  }

  function StoreAll(t: Table, items: seq<string>, unset: nat -> int): (r: Table)
    requires Valid(t)
    ensures Valid(r) && r == t.(state := r.state)
    decreases |items|
  {
    var n := |items|;
    if n == 0 then t else Store(StoreAll(t, items[..n - 1], unset), n, items[n - 1], unset(n))
  }

  // ---- Changes ----------------------------------------------------------------------------

  datatype Event = Event(i: int, value: int)

  function Apply(t: Table, e: Event): (r: Table)
    requires Valid(t)
    ensures Valid(r) && r == t.(state := r.state)
  {
    if 0 <= e.i < SLOTS then t.(state := t.state[e.i := e.value]) else t
  }

  function ApplyAll(t: Table, events: seq<Event>): (r: Table)
    requires Valid(t)
    ensures Valid(r) && r == t.(state := r.state)
    decreases |events|
  {
    if events == [] then t else Apply(ApplyAll(t, events[..|events| - 1]), events[|events| - 1])
  }

  const CIEV: string := "+CIEV:"

  /** What sscanf makes of "+CIEV: %d,%d". */
  datatype CievScan = Refused | Ended | One(i: int) | Both(i: int, value: int)

  function ScanCiev(buf: string): CievScan {
    if buf < CIEV then Ended
    else if !(CIEV <= buf) then Refused
    else
      match ScanInt(buf[|CIEV|..])
      case NoMatch => Refused
      case AtEnd => Ended
      case Number(i, rest) =>
        if rest == [] || rest[0] != ',' then One(i)
        else
          var second := ScanInt(rest[1..]);
          if second.Number? then Both(i, second.value) else One(i)
  }

  /** The event a line stands for, if any; what sscanf does not find keeps its value from before. */
  function EventOf(buf: string, unset: Event): Option<Event> {
    match ScanCiev(buf)
    case Refused => None
    case Ended => Some(unset)
    case One(i) => Some(Event(i, unset.value))
    case Both(i, v) => Some(Event(i, v))
  }

  predicate HasService(t: Table, phone: bool)
    requires Valid(t)
  {
    !phone || t.groups[SERVICE] == 0 || t.state[t.groups[SERVICE]] == 1
  }

  // ---- In place -----------------------------------------------------------------------------

  class HfpPvt {
    var cindIndex: seq<int>
    var cindState: seq<int>
    var cindMap: seq<nat>
    var noCallSetup: bool
    /** A write has passed the end of the table: nothing is known of it any more. */
    var overran: bool

    ghost function View(): Table
      reads this
    {
      Table(cindIndex, cindState, cindMap, noCallSetup)
    }

    /** The source takes groups up to its table's size in bytes, which is 64. */
    method StoreName(group: nat, name: string)
      requires Valid(View())
      modifies this
      ensures Valid(View())
      ensures group < SLOTS ==> View() == Record(old(View()), group, name) && overran == old(overran)
      ensures group == SLOTS ==> overran
      ensures old(overran) ==> overran
    {
      if group >= 64 { return; }
      if group >= SLOTS {
        overran := true;
        return;
      }
      var c := CodeOf(name);
      cindIndex := cindIndex[group := c];
      if c != UNKNOWN { cindMap := cindMap[c := group]; }
      if c == CALLSETUP { noCallSetup := false; }
    }

    /** How far the names found have been recorded. */
    ghost predicate Recorded(start: Table, found: seq<string>, before: bool)
      requires Valid(start)
      reads this
    {
      && Valid(View())
      && (|found| < SLOTS ==> View() == RecordAll(start, found) && overran == before)
      && (|found| >= SLOTS ==> overran)
    }

    method RecordOne(group: nat, name: string, ghost start: Table, ghost found: seq<string>, ghost before: bool)
      requires Valid(start) && Recorded(start, found, before) && group == |found| + 1
      modifies this
      ensures Recorded(start, found + [name], before)
    {
      assert (found + [name])[..|found|] == found;
      StoreName(group, name);
    }

    /** +CIND=?: the names are recorded, in order, as long as there are less than 16. */
    method ParseCindTest(buf: string)
      requires Valid(View())
      modifies this
      ensures |NamesIn(buf)| < SLOTS ==>
                View() == RecordAll(old(View()).(noCallSetup := true), NamesIn(buf)) && overran == old(overran)
      ensures |NamesIn(buf)| >= SLOTS ==> overran
    {
      noCallSetup := true;
      ghost var start, before := View(), overran;
      var group, scan := 0, Scan(0, "");
      ghost var names := Names(scan, []);
      ghost var goal := NamesAfter(names, buf);
      for i := 0 to |buf|
        invariant names.scan == scan && scan.state <= 7 && group == |names.found| + if scan.state == 0 then 0 else 1
        invariant NamesAfter(names, buf[i..]) == goal && Recorded(start, names.found, before)
      {
        assert buf[i..][1..] == buf[i + 1..];
        ghost var next := NamesNext(names, buf[i]);
        if scan.state == 7 {
          RecordOne(group, scan.name, start, names.found, before);
        } else if scan.state == 0 && buf[i] == '(' {
          group := group + 1;
        }
        scan := ScanNext(scan, buf[i]);
        names := next;
      }
    }

    method StoreIndicator(group: nat, item: string, unset: int)
      requires Valid(View())
      modifies this
      ensures View() == Store(old(View()), group, item, unset) && overran == old(overran)
    {
      if group >= SLOTS { return; }
      var value := unset;
      match ScanInt(item) {
        case NoMatch => return;
        case Number(v, _) => value := v;
        case AtEnd =>
      }
      cindState := cindState[group := value];
    }

    method StoreNext(group: nat, item: string, unset: nat -> int, ghost start: Table, ghost done: seq<string>)
      requires Valid(start) && View() == StoreAll(start, done, unset) && group == |done| + 1
      modifies this
      ensures View() == StoreAll(start, done + [item], unset) && overran == old(overran)
    {
      assert (done + [item])[..|done|] == done;
      StoreIndicator(group, item, unset(group));
    }

    /** +CIND?: the values in the order of the names. */
    method ParseCind(buf: string, unset: nat -> int)
      requires Valid(View())
      modifies this
      ensures View() == StoreAll(old(View()), ItemsIn(buf), unset) && overran == old(overran)
    {
      ghost var start := View();
      var group, read := 0, Skip;
      ghost var items := Items(read, []);
      ghost var goal := ItemsAfter(items, buf);
      for i := 0 to |buf|
        invariant items.read == read && group == |items.done| + if read.Skip? then 0 else 1
        invariant ItemsAfter(items, buf[i..]) == goal
        invariant View() == StoreAll(start, items.done, unset) && overran == old(overran)
      {
        assert buf[i..][1..] == buf[i + 1..];
        ghost var next := ItemsNext(items, buf[i]);
        if read.In? && buf[i] == ',' {
          StoreNext(group, read.item, unset, start, items.done);
          group := group + 1;
        } else if read.Skip? && buf[i] == ' ' {
          group := group + 1;
        }
        read := ReadNext(read, buf[i]);
        items := next;
      }
      if read.In? {
        StoreNext(group, read.item, unset, start, items.done);
      }
    }

    /** +CIEV: an index outside the table is refused. */
    method ParseCiev(buf: string, unset: Event) returns (code: int)
      requires Valid(View())
      modifies this
      ensures var e := EventOf(buf, unset);
              && View() == (if e.None? then old(View()) else Apply(old(View()), e.value))
              && code == if e.None? || !(0 <= e.value.i < SLOTS) then NONE else old(View()).index[e.value.i]
    {
      var i, value := unset.i, unset.value;
      match ScanCiev(buf) {
        case Refused => return NONE;
        case Ended =>
        case One(n) => i := n;
        case Both(n, v) => i, value := n, v;
      }
      if i < 0 || i >= SLOTS { return NONE; }
      cindState := cindState[i := value];
      code := cindIndex[i];
    }

    method MblHasService(phone: bool) returns (has: bool)
      requires Valid(View())
      ensures has == HasService(View(), phone)
    {
      if !phone { return true; }
      if cindMap[SERVICE] == 0 { return true; }
      has := cindState[cindMap[SERVICE]] == 1;
    }
  }
}
