/**
 * Packing key and display records into transmissions (apps/app_adsiprog.c, adsi_prog), and reading
 * the keys back by their length bytes.
 */
module AdsiPacking {
  import opened Options
  import opened AdsiTree

  const CHUNK: nat := 253

  function Flat<T>(parts: seq<seq<T>>): seq<T> {
    if parts == [] then [] else parts[0] + Flat(parts[1..])
  }

  lemma {:induction false} FlatAppend<T>(parts: seq<seq<T>>, x: seq<T>)
    ensures Flat(parts + [x]) == Flat(parts) + x
    decreases |parts|
  {
    if parts == [] {
      assert parts + [x] == [x] && [x][1..] == [];
    } else {
      FlatAppend(parts[1..], x);
      assert (parts + [x])[1..] == parts[1..] + [x];
    }
  }

  ghost predicate Fit(records: seq<seq<nat>>) {
    forall i :: 0 <= i < |records| ==> |records[i]| <= CHUNK
  }

  /** A way to cut the records, in order, into groups that can each be sent at once. */
  ghost predicate Split(records: seq<seq<nat>>, groups: seq<seq<seq<nat>>>) {
    Flat(groups) == records && forall i :: 0 <= i < |groups| ==> |Flat(groups[i])| <= CHUNK
  }

  /** How many transmissions are still to come, with so many bytes collected. */
  function Pending(bytes: nat, records: seq<seq<nat>>): nat
    decreases |records|
  {
    if records == [] then (if bytes > 0 then 1 else 0)
    else if bytes + |records[0]| > CHUNK then 1 + Pending(|records[0]|, records[1..])
    else Pending(bytes + |records[0]|, records[1..])
  }

  /** One record is collected, sending first what it does not fit with. */
  ghost predicate Packed(
    records: seq<seq<nat>>, sent: seq<seq<nat>>, buf: seq<nat>, groups: seq<seq<seq<nat>>>, group: seq<seq<nat>>)
  {
    && Flat(groups) + group == records && |groups| == |sent|
    && buf == Flat(group) && |buf| <= CHUNK
    && forall i :: 0 <= i < |sent| ==> sent[i] == Flat(groups[i]) && 0 < |sent[i]| <= CHUNK
  }

  lemma PackedSend(
    records: seq<seq<nat>>, sent: seq<seq<nat>>, buf: seq<nat>, groups: seq<seq<seq<nat>>>, group: seq<seq<nat>>)
    requires Packed(records, sent, buf, groups, group) && buf != []
    ensures Packed(records, sent + [buf], [], groups + [group], [])
  {
    FlatAppend(groups, group);
    assert Flat(groups + [group]) + [] == records;
  }

  lemma PackedAdd(
    records: seq<seq<nat>>, sent: seq<seq<nat>>, buf: seq<nat>, groups: seq<seq<seq<nat>>>, group: seq<seq<nat>>,
    r: seq<nat>)
    requires Packed(records, sent, buf, groups, group) && |buf| + |r| <= CHUNK
    ensures Packed(records + [r], sent, buf + r, groups, group + [r])
  {
    FlatAppend(group, r);
    assert Flat(groups) + (group + [r]) == records + [r];
  }

  lemma PendingStep(bytes: nat, records: seq<seq<nat>>, x: nat)
    requires x < |records|
    ensures var n, rest := |records[x]|, records[x + 1..];
            Pending(bytes, records[x..]) == if bytes + n > CHUNK then 1 + Pending(n, rest) else Pending(bytes + n, rest)
    ensures records[..x + 1] == records[..x] + [records[x]]
  {
    assert records[x..][1..] == records[x + 1..];
  }

  /** One turn: what does not fit with the bytes collected so far is sent after them. */
  method Collect(
    sent: seq<seq<nat>>, buf: seq<nat>, r: seq<nat>,
    ghost done: seq<seq<nat>>, ghost groups: seq<seq<seq<nat>>>, ghost group: seq<seq<nat>>)
    returns (sent1: seq<seq<nat>>, buf1: seq<nat>, ghost groups1: seq<seq<seq<nat>>>, ghost group1: seq<seq<nat>>)
    requires Packed(done, sent, buf, groups, group) && |r| <= CHUNK
    ensures Packed(done + [r], sent1, buf1, groups1, group1)
    ensures |sent1| == |sent| + if |buf| + |r| > CHUNK then 1 else 0
    ensures |buf1| == |r| + if |buf| + |r| > CHUNK then 0 else |buf|
  {
    sent1, buf1, groups1, group1 := sent, buf, groups, group;
    if |buf| + |r| > CHUNK {
      PackedSend(done, sent, buf, groups, group);
      sent1, groups1 := sent + [buf], groups + [group];
      buf1, group1 := [], [];
    }
    PackedAdd(done, sent1, buf1, groups1, group1, r);
    buf1, group1 := buf1 + r, group1 + [r];
  }

  /** The loop over the records. */
  method Gather(records: seq<seq<nat>>)
    returns (sent: seq<seq<nat>>, buf: seq<nat>, ghost groups: seq<seq<seq<nat>>>, ghost group: seq<seq<nat>>)
    requires Fit(records)
    ensures Packed(records, sent, buf, groups, group)
    ensures |sent| + (if buf == [] then 0 else 1) == Pending(0, records)
  {
    sent, groups, buf, group := [], [], [], [];
    for x := 0 to |records|
      invariant Packed(records[..x], sent, buf, groups, group)
      invariant |sent| + Pending(|buf|, records[x..]) == Pending(0, records)
    {
      PendingStep(|buf|, records, x);
      sent, buf, groups, group := Collect(sent, buf, records[x], records[..x], groups, group);
    }
    assert records[..|records|] == records;
  }

  /**
   * The transmissions are the records in order, cut between records, non-empty and at most 253
   * bytes long, and no other split makes do with fewer.  Only empty records may go unsent.
   */
  method Pack(records: seq<seq<nat>>) returns (sent: seq<seq<nat>>, ghost groups: seq<seq<seq<nat>>>)
    requires Fit(records)
    ensures |groups| == |sent| && forall i :: 0 <= i < |sent| ==> sent[i] == Flat(groups[i]) && 0 < |sent[i]| <= CHUNK
    ensures exists rest :: Flat(groups) + rest == records && Flat(rest) == []
    ensures forall other :: Split(records, other) ==> |sent| <= |other|
  {
    var buf: seq<nat>;
    ghost var group: seq<seq<nat>>;
    sent, buf, groups, group := Gather(records);
    if buf != [] {
      PackedSend(records, sent, buf, groups, group);
      sent, groups := sent + [buf], groups + [group];
      group := [];
    }
    assert Flat(groups) + group == records && Flat(group) == [];
    forall other | Split(records, other)
      ensures |sent| <= |other|
    {
      GreedyIsOptimal(records, other);
    }
  }

  /** A fuller buffer never needs fewer transmissions, and at most one more. */
  lemma {:induction false} PendingIsClose(a: nat, c: nat, records: seq<seq<nat>>)
    requires Fit(records) && a <= c <= CHUNK
    ensures Pending(a, records) <= Pending(c, records) <= 1 + Pending(a, records)
    decreases |records|
  {
    if records != [] {
      var n := |records[0]|;
      assert n <= CHUNK;
      if c + n <= CHUNK {
        PendingIsClose(a + n, c + n, records[1..]);
      } else if a + n <= CHUNK {
        PendingIsClose(n, a + n, records[1..]);
      }
    }
  }

  /** What fits together goes into the buffer without sending. */
  lemma {:induction false} PendingFits(bytes: nat, group: seq<seq<nat>>, rest: seq<seq<nat>>)
    requires bytes + |Flat(group)| <= CHUNK
    ensures Pending(bytes, group + rest) == Pending(bytes + |Flat(group)|, rest)
    decreases |group|
  {
    if group == [] {
      assert group + rest == rest;
    } else {
      assert (group + rest)[0] == group[0] && (group + rest)[1..] == group[1..] + rest;
      PendingFits(bytes + |group[0]|, group[1..], rest);
    }
  }

  /** No way of cutting the records, in order, into groups of at most 253 bytes makes do with less. */
  lemma {:induction false} GreedyIsOptimal(records: seq<seq<nat>>, groups: seq<seq<seq<nat>>>)
    requires Fit(records) && Split(records, groups)
    ensures Pending(0, records) <= |groups|
    decreases |groups|
  {
    if groups != [] {
      var rest := Flat(groups[1..]);
      assert records == groups[0] + rest;
      assert forall i :: 0 <= i < |rest| ==> rest[i] == records[|groups[0]| + i];
      PendingFits(0, groups[0], rest);
      PendingIsClose(0, |Flat(groups[0])|, rest);
      GreedyIsOptimal(rest, groups[1..]);
    }
  }

  // ---- Reading records back ------------------------------------------------------------

  /** A record starts with its kind and the number of bytes after the second. */
  predicate Sized(r: seq<nat>) {
    2 <= |r| && r[1] == |r| - 2
  }

  function Parse(bytes: seq<nat>): Option<seq<seq<nat>>>
    decreases |bytes|
  {
    if bytes == [] then Some([])
    else if |bytes| < 2 || |bytes| < bytes[1] + 2 then None
    else
      var n := bytes[1] + 2;
      var rest := Parse(bytes[n..]);
      if rest.None? then None else Some([bytes[..n]] + rest.value)
  }

  lemma {:induction false} ParseFlat(records: seq<seq<nat>>)
    requires forall i :: 0 <= i < |records| ==> Sized(records[i])
    ensures Parse(Flat(records)) == Some(records)
    decreases |records|
  {
    if records != [] {
      var bytes := Flat(records);
      ParseFlat(records[1..]);
      assert bytes[1] == records[0][1];
      assert bytes[..|records[0]|] == records[0] && bytes[|records[0]|..] == Flat(records[1..]);
      assert records == [records[0]] + records[1..];
    }
  }

  function KeyRecords(t: Tree): (r: seq<seq<nat>>)
    ensures |r| == |t.keys| && forall i :: 0 <= i < |r| ==> r[i] == KeyImage(i + 2, t.keys[i])
  {
    seq(|t.keys|, i requires 0 <= i < |t.keys| => KeyImage(i + 2, t.keys[i]))
  }

  /** Every key that an accepted script describes is a record of at most 50 bytes that tells its own length. */
  lemma KeysAreRecords(lines: seq<Line>)
    requires Accepts(GrowAll(lines))
    ensures var rs := KeyRecords(GrowAll(lines));
            forall i :: 0 <= i < |rs| ==> Sized(rs[i]) && 5 <= |rs[i]| <= 50 && rs[i][0] == 0x80 && rs[i][2] == i + 2
  {
    var t := GrowAll(lines);
    forall i | 0 <= i < |t.keys|
      ensures var r := KeyImage(i + 2, t.keys[i]); Sized(r) && 5 <= |r| <= 50 && r[0] == 0x80 && r[2] == i + 2
    {
      assert KeySound(t.keys[i], ReadsKey(t, i));
    }
  }

  /** The keys that an accepted script describes can be packed, and are read back from their bytes. */
  lemma KeysParseBack(lines: seq<Line>)
    requires Accepts(GrowAll(lines))
    ensures var rs := KeyRecords(GrowAll(lines)); Fit(rs) && Parse(Flat(rs)) == Some(rs)
  {
    KeysAreRecords(lines);
    ParseFlat(KeyRecords(GrowAll(lines)));
  }

  // ---- Display records -----------------------------------------------------------------

  function DisplayRecords(t: Tree): (r: seq<seq<nat>>)
    ensures |r| == |t.displays|
    ensures forall i :: 0 <= i < |r| ==> r[i] == DisplayImage(i + 1, t.displays[i].display)
  {
    seq(|t.displays|, i requires 0 <= i < |t.displays| => DisplayImage(i + 1, t.displays[i].display))
  }

  /** The head of a complete display: kind, length, justification over its number, wrapping. */
  predicate HeadOf(r: seq<nat>, id: nat, style: Style) {
    && 5 <= |r| && r[0] == 0x81 && Sized(r) && r[4] == 0xff
    && r[2] / 64 == style.justify % 4 && r[2] % 64 == id
    && r[3] == if style.wrap then 0x80 else 0
  }

  lemma DisplayIsRecord(id: nat, d: Display)
    requires id < 64
    ensures var r := DisplayImage(id, d);
            && |r| <= 46 && (r == [] <==> d.Bare?)
            && (d.Text? ==> 5 <= |r| && r[5..] == Cut(d.one, MAX_COLUMN) + [0xff] + Cut(d.two, MAX_COLUMN))
            && (d.Text? && d.style.Some? ==> HeadOf(r, id, d.style.value))
  {
  }

  /**
   * Every display of a script has its number below 64 and is at most 46 bytes, so that the displays can
   * be packed; one whose line was complete has its head and tells its own length.
   */
  lemma DisplaysAreRecords(lines: seq<Line>)
    ensures var t := GrowAll(lines);
            var rs := DisplayRecords(t);
            && Fit(rs) && |rs| <= MAX_DISPLAYS
            && forall i :: 0 <= i < |rs| ==>
                 var d := t.displays[i].display;
                 && |rs[i]| <= 46 && (rs[i] == [] <==> d.Bare?)
                 && (d.Text? ==> |rs[i]| >= 5 && rs[i][5..] == Cut(d.one, 20) + [0xff] + Cut(d.two, 20))
                 && (d.Text? && d.style.Some? ==> HeadOf(rs[i], i + 1, d.style.value))
  {
    var t := GrowAll(lines);
    forall i | 0 <= i < |t.displays|
      ensures var d := t.displays[i].display;
              var r := DisplayImage(i + 1, d);
              && |r| <= 46 && (r == [] <==> d.Bare?)
              && (d.Text? ==> |r| >= 5 && r[5..] == Cut(d.one, 20) + [0xff] + Cut(d.two, 20))
              && (d.Text? && d.style.Some? ==> HeadOf(r, i + 1, d.style.value))
    {
      DisplayIsRecord(i + 1, t.displays[i].display);
    }
  }
}
