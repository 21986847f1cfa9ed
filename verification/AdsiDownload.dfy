/**
 * Programming a phone with an ADSI script (apps/app_adsiprog.c, adsi_prog), from the lines of the script
 * to the transmissions with its keys and displays.
 */
module AdsiDownload {
  import opened Options
  import opened AdsiTree
  import opened AdsiRecords
  import opened AdsiPacking
  import AdsiCompiler

  /** The records are what is sent, in order, in transmissions of at most 253 bytes and no more than are needed. */
  ghost predicate Delivers(sent: seq<seq<nat>>, records: seq<seq<nat>>) {
    && Flat(sent) == Flat(records)
    && (forall i :: 0 <= i < |sent| ==> 0 < |sent[i]| <= CHUNK)
    && forall other :: Split(records, other) ==> |sent| <= |other|
  }

  lemma {:induction false} FlatConcat<T>(a: seq<seq<T>>, b: seq<seq<T>>)
    ensures Flat(a + b) == Flat(a) + Flat(b)
    decreases |a|
  {
    if a == [] {
      assert a + b == b;
    } else {
      FlatConcat(a[1..], b);
      assert (a + b)[1..] == a[1..] + b;
    }
  }

  lemma {:induction false} FlatGroups<T>(sent: seq<seq<T>>, groups: seq<seq<seq<T>>>)
    requires |sent| == |groups| && forall i :: 0 <= i < |sent| ==> sent[i] == Flat(groups[i])
    ensures Flat(sent) == Flat(Flat(groups))
    decreases |sent|
  {
    if sent != [] {
      FlatGroups(sent[1..], groups[1..]);
      FlatConcat(groups[0], Flat(groups[1..]));
    }
  }

  method Send(records: seq<seq<nat>>) returns (sent: seq<seq<nat>>)
    requires Fit(records)
    ensures Delivers(sent, records)
  {
    ghost var groups;
    sent, groups := Pack(records);
    ghost var rest :| Flat(groups) + rest == records && Flat(rest) == [];
    FlatGroups(sent, groups);
    FlatConcat(Flat(groups), rest);
  }

  /**
   * Unless a write passes its record, which is exactly told, the script goes through exactly when it is
   * accepted.  Then its keys and its displays are delivered, and the phone can read the keys back by their
   * length bytes.
   */
  method Program(lines: seq<Line>)
    returns (overran: bool, ok: bool, keys: seq<seq<nat>>, displays: seq<seq<nat>>)
    ensures overran <==> !InRecord(lines)
    ensures !overran ==> (ok <==> Accepts(GrowAll(lines)))
    ensures !overran && ok ==>
              var t := GrowAll(lines);
              && Delivers(keys, KeyRecords(t)) && Parse(Flat(keys)) == Some(KeyRecords(t))
              && Delivers(displays, DisplayRecords(t))
  {
    keys, displays := [], [];
    var c := new AdsiCompiler.Compiler();
    ok := c.Compile(lines);
    overran := c.overran;
    if overran || !ok { return; }
    var ks, ds := c.keys, c.displays;
    var keyData := seq(|ks|, i requires 0 <= i < |ks| => ks[i].data);
    var displayData := seq(|ds|, i requires 0 <= i < |ds| => ds[i].data);
    assert keyData == KeyRecords(GrowAll(lines));
    assert displayData == DisplayRecords(GrowAll(lines));
    KeysParseBack(lines);
    DisplaysAreRecords(lines);
    keys := Send(keyData);
    displays := Send(displayData);
  }
}
