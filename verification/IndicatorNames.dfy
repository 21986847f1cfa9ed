/**
 * What the hands-free driver makes of the indicators' names (addons/chan_mobile.c), said with the names
 * themselves: which group each is found under, what an event for it is taken for, and what follows for
 * service and call setup.
 */
module IndicatorNames {
  import opened Options
  import opened HfpIndicators
  import opened IndicatorHistory

  const CALL_SETUP_NAMES: set<string> := {"callsetup", "call_setup"}

  /** The names the driver knows. */
  const KNOWN_NAMES: set<string> :=
    {"service", "call", "callsetup", "call_setup", "callheld", "signal", "roam", "battchg"}

  predicate Listed(es: seq<Entry>, names: set<string>) {
    exists i :: 0 <= i < |es| && es[i].name in names
  }

  /** The number of the last entry with one of the names; entries count from 1, and 0 says that there is none. */
  ghost predicate LastListed(es: seq<Entry>, names: set<string>, g: nat) {
    && g <= |es| && (g > 0 ==> es[g - 1].name in names)
    && forall i :: g <= i < |es| ==> es[i].name !in names
  }

  /** Which code belongs to which name, by the code. */
  lemma CodesOfNames(name: string)
    ensures CodeOf(name) == SERVICE <==> name == "service"
    ensures CodeOf(name) == CALL <==> name == "call"
    ensures CodeOf(name) == CALLSETUP <==> name in CALL_SETUP_NAMES
    ensures CodeOf(name) == CALLHELD <==> name == "callheld"
    ensures CodeOf(name) == SIGNAL <==> name == "signal"
    ensures CodeOf(name) == ROAM <==> name == "roam"
    ensures CodeOf(name) == BATTCHG <==> name == "battchg"
    ensures CodeOf(name) == UNKNOWN <==> name !in KNOWN_NAMES
  {
  }

  /**
   * Whatever the phone has listed, reported and changed: an event for an entry is read back with the
   * entry's number, and the driver takes it for the indicator of that entry's name.
   */
  lemma EventIsOfItsName(
    es: seq<Entry>, vs: seq<nat>, unset: nat -> int, events: seq<Event>, g: nat, value: nat, other: Event)
    requires Session(es, vs) && 1 <= g <= |es|
    ensures EventOf(CievText(g, value), other) == Some(Event(g, value)) && g < SLOTS
    ensures |NamesIn(ListText(es))| < SLOTS
    ensures var code, name := Told(es, vs, unset, events).index[g], es[g - 1].name;
            && (code == SERVICE <==> name == "service")
            && (code == CALL <==> name == "call")
            && (code == CALLSETUP <==> name == "callsetup" || name == "call_setup")
            && (code == CALLHELD <==> name == "callheld")
            && (code == SIGNAL <==> name == "signal")
            && (code == ROAM <==> name == "roam")
            && (code == BATTCHG <==> name == "battchg")
            && (code == UNKNOWN <==> name !in KNOWN_NAMES)
  {
    CievReadBack(g, value, other);
    GroupFollowsHistory(es, vs, unset, events, g);
    CodesOfNames(es[g - 1].name);
  }

  /** The names that have a code. */
  ghost predicate Stands(names: set<string>, code: int) {
    SERVICE <= code <= BATTCHG && forall name :: name in names <==> CodeOf(name) == code
  }

  lemma GroupOfNames(
    es: seq<Entry>, vs: seq<nat>, unset: nat -> int, events: seq<Event>, names: set<string>, code: int)
    requires Session(es, vs) && Stands(names, code)
    ensures |NamesIn(ListText(es))| < SLOTS
    ensures LastListed(es, names, Told(es, vs, unset, events).groups[code])
  {
    CodeFindsGroup(es, vs, unset, events, code);
    var g := LastOf(NamesOf(es), code);
    forall i | g <= i < |es|
      ensures es[i].name !in names
    {
      assert CodeOf(NamesOf(es)[i]) != code;
    }
  }

  lemma NamesStand()
    ensures Stands({"service"}, SERVICE) && Stands({"call"}, CALL) && Stands(CALL_SETUP_NAMES, CALLSETUP)
    ensures Stands({"callheld"}, CALLHELD) && Stands({"signal"}, SIGNAL) && Stands({"roam"}, ROAM)
    ensures Stands({"battchg"}, BATTCHG)
  {
    forall name: string
      ensures name in {"service"} <==> CodeOf(name) == SERVICE
      ensures name in {"call"} <==> CodeOf(name) == CALL
      ensures name in CALL_SETUP_NAMES <==> CodeOf(name) == CALLSETUP
      ensures name in {"callheld"} <==> CodeOf(name) == CALLHELD
      ensures name in {"signal"} <==> CodeOf(name) == SIGNAL
      ensures name in {"roam"} <==> CodeOf(name) == ROAM
      ensures name in {"battchg"} <==> CodeOf(name) == BATTCHG
    {
      CodesOfNames(name);
    }
  }

  /** Each indicator is found under the number of the last entry that has its name. */
  lemma IndicatorsFoundByName(es: seq<Entry>, vs: seq<nat>, unset: nat -> int, events: seq<Event>)
    requires Session(es, vs)
    ensures |NamesIn(ListText(es))| < SLOTS
    ensures var groups := Told(es, vs, unset, events).groups;
            && LastListed(es, {"service"}, groups[SERVICE])
            && LastListed(es, {"call"}, groups[CALL])
            && LastListed(es, {"callsetup", "call_setup"}, groups[CALLSETUP])
            && LastListed(es, {"callheld"}, groups[CALLHELD])
            && LastListed(es, {"signal"}, groups[SIGNAL])
            && LastListed(es, {"roam"}, groups[ROAM])
            && LastListed(es, {"battchg"}, groups[BATTCHG])
  {
    NamesStand();
    GroupOfNames(es, vs, unset, events, {"service"}, SERVICE);
    GroupOfNames(es, vs, unset, events, {"call"}, CALL);
    GroupOfNames(es, vs, unset, events, CALL_SETUP_NAMES, CALLSETUP);
    GroupOfNames(es, vs, unset, events, {"callheld"}, CALLHELD);
    GroupOfNames(es, vs, unset, events, {"signal"}, SIGNAL);
    GroupOfNames(es, vs, unset, events, {"roam"}, ROAM);
    GroupOfNames(es, vs, unset, events, {"battchg"}, BATTCHG);
  }

  /**
   * A phone has service if and only if it lists no entry named "service", or the latest value of the last
   * one so named is 1; a headset always has.
   */
  lemma ServiceByName(es: seq<Entry>, vs: seq<nat>, unset: nat -> int, events: seq<Event>, g: nat)
    requires Session(es, vs) && LastListed(es, {"service"}, g)
    ensures |NamesIn(ListText(es))| < SLOTS
    ensures HasService(Told(es, vs, unset, events), true) <==> g == 0 || Latest(vs[g - 1], events, g) == 1
    ensures HasService(Told(es, vs, unset, events), false)
  {
    IndicatorsFoundByName(es, vs, unset, events);
    var found := Told(es, vs, unset, events).groups[SERVICE];
    assert found == g;
    if g > 0 { GroupFollowsHistory(es, vs, unset, events, g); }
  }

  lemma {:induction false} SetupRecorded(t: Table, names: seq<string>)
    requires Valid(t) && |names| < SLOTS
    ensures RecordAll(t, names).noCallSetup <==>
              t.noCallSetup && forall i :: 0 <= i < |names| ==> names[i] !in CALL_SETUP_NAMES
    decreases |names|
  {
    if names != [] {
      var n := |names| - 1;
      SetupRecorded(t, names[..n]);
      CodesOfNames(names[n]);
      assert forall i :: 0 <= i < n ==> names[..n][i] == names[i];
    }
  }

  /** The driver does without call setup if and only if neither of its two names is listed. */
  lemma CallSetupByName(es: seq<Entry>, vs: seq<nat>, unset: nat -> int, events: seq<Event>)
    requires Session(es, vs)
    ensures |NamesIn(ListText(es))| < SLOTS
    ensures Told(es, vs, unset, events).noCallSetup <==> !Listed(es, {"callsetup", "call_setup"})
  {
    ListReadBack(es);
    SetupRecorded(Zeroed().(noCallSetup := true), NamesOf(es));
    assert forall i :: 0 <= i < |es| ==> NamesOf(es)[i] == es[i].name;
  }

  // ---- Numbers and lines that are odd ---------------------------------------------------------

  /** What sscanf passes over: spaces, tabs, line feeds, vertical tabs, form feeds and carriage returns. */
  predicate White(c: char) {
    c == ' ' || 9 <= c as int <= 13
  }

  lemma WhiteIsSpace(c: char)
    ensures White(c) <==> IsSpace(c)
  {
  }

  lemma {:induction false} SpacesSkipped(spaces: string, s: string)
    requires (forall i :: 0 <= i < |spaces| ==> White(spaces[i])) && (s == "" || !White(s[0]))
    ensures AfterSpaces(spaces + s) == s
    decreases |spaces|
  {
    if spaces == "" {
      assert spaces + s == s;
      if s != "" { WhiteIsSpace(s[0]); }
    } else {
      WhiteIsSpace(spaces[0]);
      assert (spaces + s)[1..] == spaces[1..] + s;
      SpacesSkipped(spaces[1..], s);
    }
  }

  /** White space and a sign may come before a number. */
  lemma SignedReadBack(spaces: string, sign: string, n: nat, rest: string)
    requires forall i :: 0 <= i < |spaces| ==> White(spaces[i])
    requires sign in {"", "-", "+"} && (rest == "" || !IsDigit(rest[0]))
    ensures var value: int := if sign == "-" then -(n as int) else n;
            ScanInt(spaces + (sign + Decimal(n) + rest)) == Number(value, rest)
  {
    var number := Decimal(n) + rest;
    var s := sign + Decimal(n) + rest;
    assert Decimal(n)[0] == number[0];
    if sign != "" {
      assert s[1..] == number && s[0] == sign[0];
    } else {
      assert s == number;
    }
    SpacesSkipped(spaces, s);
    DigitsOfDecimal(n);
    DigitsThenRest(Decimal(n), rest, 0);
  }

  /** An item of white space alone stores what the variable held before. */
  lemma BlankItem(spaces: string, unset: int)
    requires forall i :: 0 <= i < |spaces| ==> White(spaces[i])
    ensures Stored(spaces, unset) == Some(unset)
  {
    SpacesSkipped(spaces, "");
    assert spaces + "" == spaces;
  }

  /** An item that begins with anything but a digit, white space or a sign stores nothing, nor does a sign alone. */
  lemma WordItem(spaces: string, word: string, unset: int)
    requires (forall i :: 0 <= i < |spaces| ==> White(spaces[i])) && word != "" && !White(word[0]) && !IsDigit(word[0])
    requires (word[0] == '-' || word[0] == '+') && |word| > 1 ==> !IsDigit(word[1])
    ensures Stored(spaces + word, unset).None?
  {
    SpacesSkipped(spaces, word);
  }

  /** A line that is no event is refused; one cut off before its numbers keeps what was there before. */
  lemma OddEvents(buf: string, i: nat, other: Event)
    ensures !(buf <= "+CIEV:") && !("+CIEV:" <= buf) ==> EventOf(buf, other).None?
    ensures buf <= "+CIEV:" ==> EventOf(buf, other) == Some(other)
    ensures EventOf("+CIEV: " + Decimal(i), other) == Some(Event(i, other.value))
  {
    if buf == "+CIEV:" { assert buf[6..] == ""; }
    var s := "+CIEV: " + Decimal(i);
    assert s[6..] == " " + Decimal(i);
    SpaceThen(Decimal(i));
    DecimalReadBack(i, "");
    assert Decimal(i) + "" == Decimal(i);
  }
}
