/**
 * What a panel has to send to have its message taken (apps/app_alarmreceiver.c), said with the ticks and
 * the digits of its attempts: what is heard, when it is a whole message, and when that is queued,
 * acknowledged and ends the call.
 */
module AlarmCalls {
  import opened Options
  import opened AlarmChecksum
  import opened AlarmReceiver

  // ---- What is heard in an attempt ---------------------------------------------------

  predicate Stops(x: Tick) {
    x.TimedOut? || x.NoFrame? || x.Hangup?
  }

  /** Where the wait for digits ends, if they do not end it. */
  function FirstStop(ticks: seq<Tick>): (k: nat)
    ensures k <= |ticks| && (k < |ticks| ==> Stops(ticks[k]))
    ensures forall i :: 0 <= i < k ==> !Stops(ticks[i])
  {
    if ticks == [] || Stops(ticks[0]) then 0 else 1 + FirstStop(ticks[1..])
  }

  function Heard(ticks: seq<Tick>): string {
    DigitsOf(ticks[..FirstStop(ticks)])
  }

  predicate TimesOut(ticks: seq<Tick>) {
    var k := FirstStop(ticks);
    k < |ticks| && ticks[k] == TimedOut
  }

  function Cut(digits: string, n: nat): string {
    if |digits| <= n then digits else digits[..n]
  }

  lemma HeardNext(ticks: seq<Tick>)
    requires ticks != [] && !Stops(ticks[0])
    ensures Heard(ticks) == (if ticks[0].Dtmf? then [ticks[0].digit] else []) + Heard(ticks[1..])
    ensures TimesOut(ticks) <==> TimesOut(ticks[1..])
  {
    var k := FirstStop(ticks[1..]);
    assert ticks[..k + 1][1..] == ticks[1..][..k];
  }

  /** All that is asked for, or what came before the wait ended. */
  lemma {:induction false} ReceiveIsHeard(ticks: seq<Tick>, n: nat, got: string)
    requires |got| <= n <= BUFFER
    ensures var all := got + Heard(ticks);
            Receive(ticks, n, got) ==
              if |all| >= n then Received(0, all[..n]) else Received(if TimesOut(ticks) then 1 else -1, all)
    decreases |ticks|
  {
    if |got| == n {
      assert (got + Heard(ticks))[..n] == got;
    } else if ticks == [] || Stops(ticks[0]) {
      assert ticks[..0] == [];
      assert got + Heard(ticks) == got;
    } else {
      HeardNext(ticks);
      var more := if ticks[0].Dtmf? then got + [ticks[0].digit] else got;
      ReceiveIsHeard(ticks[1..], n, more);
      assert more + Heard(ticks[1..]) == got + Heard(ticks);
    }
  }

  // ---- Messages, by their type codes ---------------------------------------------------

  /** The two digits after the account number. */
  function TypeCode(digits: string): string {
    if |digits| >= 6 then digits[4..6] else ""
  }

  function CodesOf(f: Format): set<string> {
    match f
    case Unknown => {}
    case ContactId => {"18", "98"}
    case Express41 => {"17"}
    case Express42 => {"27"}
    case HighSpeed => {"55"}
    case SuperFast => {"56"}
  }

  /** How many digits make a whole message; 0 for a type that is not known. */
  function Whole(code: string): nat {
    if code == "17" then 8
    else if code == "27" then 9
    else if code == "56" then 15
    else if code == "18" || code == "98" || code == "55" then 16
    else 0
  }

  /** An Express message may come without its check digit. */
  predicate WithoutSum(digits: string) {
    (TypeCode(digits) == "17" && |digits| == 7) || (TypeCode(digits) == "27" && |digits| == 8)
  }

  lemma CodesDecide(digits: string)
    ensures forall f :: TypeCode(digits) in CodesOf(f) <==> !f.Unknown? && FormatOf(digits) == f
    ensures FormatOf(digits).Unknown? <==> Whole(TypeCode(digits)) == 0
    ensures !FormatOf(digits).Unknown? ==> LengthOf(FormatOf(digits)) == Whole(TypeCode(digits)) && |digits| >= 6
    ensures WithoutSum(digits) <==> ExpressShort(FormatOf(digits), digits)
    ensures WithoutSum(digits) <==> LacksSum(digits)
    ensures TypeCode(digits) == "56" <==> TypeIs(digits, "56")
  {
    var code := TypeCode(digits);
    if |digits| >= 6 { assert code == [digits[4], digits[5]]; }
  }

  // ---- One attempt ------------------------------------------------------------------------

  /** The digits of the attempt. */
  function Message(s: Rx, a: Attempt): string {
    Cut(Heard(a.ticks), s.expected)
  }

  /** A message that came before the wait ran out, told by its own type as long as no format is known. */
  predicate Rescued(s: Rx, a: Attempt) {
    var d := Heard(a.ticks);
    && s.format.Unknown? && |d| < s.expected && TimesOut(a.ticks)
    && ((Whole(TypeCode(d)) != 0 && |d| == Whole(TypeCode(d))) || WithoutSum(d))
  }

  predicate AllCame(s: Rx, a: Attempt) {
    |Heard(a.ticks)| >= s.expected || Rescued(s, a)
  }

  predicate Lost(s: Rx, a: Attempt) {
    |Heard(a.ticks)| < s.expected && !TimesOut(a.ticks)
  }

  /** The time for the call is up, or this is one try too many. */
  predicate OverLimit(s: Rx, a: Attempt) {
    a.callExpired ||
    (a.retriesLimit.Some? && (if Rescued(s, a) then 0 else s.limitRetries) + 1 >= a.retriesLimit.value)
  }

  predicate TypeFits(s: Rx, d: string) {
    if s.format.Unknown? then Whole(TypeCode(d)) != 0 else TypeCode(d) in CodesOf(s.format)
  }

  /** Which digits are summed. */
  function Summed(s: Rx, d: string): string {
    Cut(d, if s.format.Unknown? then Whole(TypeCode(d)) else s.expected)
  }

  /** All of it came, its type is the call's and its sum is right or not asked for. */
  predicate GoodMessage(s: Rx, a: Attempt, unsummed: bool) {
    var d := Message(s, a);
    AllCame(s, a) && TypeFits(s, d) && (unsummed || ChecksumOk(Summed(s, d)))
  }

  predicate Audible(s: Rx, a: Attempt) {
    (s.gotSomeDigits || a.ackSent) && !Lost(s, a) && !OverLimit(s, a)
  }

  /** An audio call follows. */
  predicate AudioNext(d: string) {
    TypeCode(d) in {"18", "98"} && |d| >= 10 && d[7..10] == "606"
  }

  /** The attempt makes the receiver stop summing for the rest of the call. */
  predicate StopsSums(s: Rx, a: Attempt) {
    && (s.gotSomeDigits || a.ackSent) && !Lost(s, a) && s.format.Unknown?
    && (TypeCode(Message(s, a)) == "56" || (TimesOut(a.ticks) && WithoutSum(Heard(a.ticks))))
  }

  /** What holds between the attempts of a call. */
  predicate Waiting(s: Rx) {
    && (s.format.Unknown? ==> s.expected == 16)
    && 7 <= s.expected <= 16
    && s.eventsReceived == |s.queue| == s.kissoffs
  }

  lemma HeardInTurn(s: Rx, a: Attempt)
    requires Waiting(s)
    ensures var r := Receive(a.ticks, s.expected, []);
            && r.digits == Message(s, a)
            && r.res == if |Heard(a.ticks)| >= s.expected then 0 else if TimesOut(a.ticks) then 1 else -1
  {
    ReceiveIsHeard(a.ticks, s.expected, []);
    assert [] + Heard(a.ticks) == Heard(a.ticks);
  }

  /** What detection makes of the attempt, by the type code of its digits. */
  ghost predicate DetectsByCode(s: Rx, a: Attempt, s1: Rx, res: int) {
    var d := Message(s, a);
    && (res == 0 <==> AllCame(s, a))
    && s1 == s.(format := s1.format, expected := s1.expected, noChecksum := s1.noChecksum,
                limitRetries := s1.limitRetries)
    && s1.limitRetries == (if Rescued(s, a) then 0 else s.limitRetries)
    && (s1.noChecksum <==> s.noChecksum || StopsSums(s, a))
    && (AllCame(s, a) ==> (TypeCode(d) in CodesOf(s1.format) <==> TypeFits(s, d)))
    && (AllCame(s, a) && TypeFits(s, d) && !s1.noChecksum ==> s1.expected <= |d| && d[..s1.expected] == Summed(s, d))
    && (!s.format.Unknown? ==> s1.format == s.format && s1.expected == s.expected)
  }

  lemma KnownFormat(s: Rx, a: Attempt, r: Received)
    requires Waiting(s) && !s.format.Unknown? && !Lost(s, a) && r == Receive(a.ticks, s.expected, [])
    ensures DetectsByCode(s, a, Detected(s, r), DetectedRes(s, r))
  {
    HeardInTurn(s, a);
    CodesDecide(r.digits);
  }

  lemma NewFormat(s: Rx, a: Attempt, r: Received)
    requires Waiting(s) && s.format.Unknown? && !Lost(s, a) && r == Receive(a.ticks, s.expected, [])
    requires s.gotSomeDigits || a.ackSent
    ensures DetectsByCode(s, a, Detected(s, r), DetectedRes(s, r))
  {
    HeardInTurn(s, a);
    CodesDecide(r.digits);
  }

  lemma Detects(s: Rx, a: Attempt, r: Received)
    requires Waiting(s) && !Lost(s, a) && r == Receive(a.ticks, s.expected, []) && (s.gotSomeDigits || a.ackSent)
    ensures DetectsByCode(s, a, Detected(s, r), DetectedRes(s, r)) && r.digits == Message(s, a) && r.res >= 0
  {
    HeardInTurn(s, a);
    if s.format.Unknown? { NewFormat(s, a, r); } else { KnownFormat(s, a, r); }
  }

  // ---- What a turn does ---------------------------------------------------------------------

  ghost predicate Extends(before: seq<Item>, after: seq<Item>, d: string) {
    |after| == |before| + 1 && before <= after && after[|before|].event == d
  }

  /** The attempt's message is good and the call is not at an end before it. */
  predicate Good(s: Rx, a: Attempt) {
    Audible(s, a) && GoodMessage(s, a, s.noChecksum || StopsSums(s, a))
  }

  /** Queued exactly when good, then acknowledged; and when the call ends. */
  ghost predicate TurnLaw(s: Rx, a: Attempt, o: Outcome) {
    var d, good := Message(s, a), Good(s, a);
    && (if good && a.hasMemory then Extends(s.queue, o.rx.queue, d) else o.rx.queue == s.queue)
    && o.rx.kissoffs == s.kissoffs + (if good && a.hasMemory && a.kissedOff then 1 else 0)
    && (o.Exit? <==> !Audible(s, a) || (good && (!a.hasMemory || !a.kissedOff || AudioNext(d))))
  }

  lemma GoodIsAccepted(s: Rx, a: Attempt, s1: Rx, d: string)
    requires DetectsByCode(s, a, s1, 0) && d == Message(s, a)
    ensures Accepted(s1, d) <==> GoodMessage(s, a, s.noChecksum || StopsSums(s, a))
    ensures Accepted(s1, d) ==> (AudioCallNext(s1, d) <==> AudioNext(d))
  {
    CodesDecide(d);
    CheckValidIsFormat(s1.format, d);
    if s1.expected <= |d| { assert Cut(d, s1.expected) == d[..s1.expected]; }
  }

  lemma WholeDecides(s: Rx, a: Attempt, s1: Rx, d: string)
    requires DetectsByCode(s, a, s1, 0) && d == Message(s, a) && Audible(s, a)
    ensures TurnLaw(s, a, Complete(s1, d, a, false))
  {
    GoodIsAccepted(s, a, s1, d);
  }

  lemma PartDecides(s: Rx, a: Attempt, s1: Rx, d: string)
    requires DetectsByCode(s, a, s1, 1) && Audible(s, a)
    ensures TurnLaw(s, a, Next(Incomplete(s1, d)))
  {
  }

  lemma LimitIsOver(s: Rx, a: Attempt, s1: Rx, res: int)
    requires DetectsByCode(s, a, s1, res)
    ensures LimitHit(s1, a) <==> OverLimit(s, a)
  {
  }

  /** The attempt's message is queued, acknowledged and followed by another attempt as its digits say. */
  lemma TurnDecides(s: Rx, a: Attempt)
    requires Waiting(s)
    ensures TurnLaw(s, a, Iterate(s, a, false))
  {
    HeardInTurn(s, a);
    if (s.gotSomeDigits || a.ackSent) && !Lost(s, a) {
      var r := Receive(a.ticks, s.expected, []);
      Detects(s, a, r);
      var s1, res := Detected(s, r), DetectedRes(s, r);
      LimitIsOver(s, a, s1, res);
      if !OverLimit(s, a) {
        if res == 0 { WholeDecides(s, a, s1, r.digits); } else { PartDecides(s, a, s1, r.digits); }
      }
    }
  }

  /** What the receiver goes on with after an attempt that does not end the call. */
  ghost predicate NextLaw(s: Rx, a: Attempt, s1: Rx) {
    var d := Message(s, a);
    && Waiting(s1)
    && (s1.gotSomeDigits <==> s.gotSomeDigits || Heard(a.ticks) != "")
    && (s1.noChecksum <==> s.noChecksum || StopsSums(s, a))
    && s1.limitRetries == (if Rescued(s, a) then 0 else s.limitRetries) + (if AllCame(s, a) then 0 else 1)
    && s1.ackRetries == s.ackRetries + (if AllCame(s, a) || s.gotSomeDigits then 0 else 1)
    && (if !AllCame(s, a) && s.queue == [] then s1.format == Unknown && s1.expected == 16
        else if !s.format.Unknown? then s1.format == s.format && s1.expected == s.expected
        else if Whole(TypeCode(d)) == 0 then s1.format == Unknown && s1.expected == 16
        else TypeCode(d) in CodesOf(s1.format)
             && s1.expected == if Rescued(s, a) && WithoutSum(d) then |d| else Whole(TypeCode(d)))
  }

  /** The format detection leaves. */
  ghost predicate FormatLaw(s: Rx, a: Attempt, s1: Rx) {
    var d := Message(s, a);
    if !s.format.Unknown? then s1.format == s.format && s1.expected == s.expected
    else if Whole(TypeCode(d)) == 0 then s1.format == Unknown && s1.expected == 16
    else TypeCode(d) in CodesOf(s1.format)
         && s1.expected == if Rescued(s, a) && WithoutSum(d) then |d| else Whole(TypeCode(d))
  }

  lemma DetectsFormat(s: Rx, a: Attempt, r: Received)
    requires Waiting(s) && !Lost(s, a) && r == Receive(a.ticks, s.expected, [])
    ensures FormatLaw(s, a, Detected(s, r))
  {
    HeardInTurn(s, a);
    CodesDecide(r.digits);
  }

  lemma WholeGoesOn(s: Rx, a: Attempt, s1: Rx, d: string)
    requires Waiting(s) && DetectsByCode(s, a, s1, 0) && FormatLaw(s, a, s1) && d == Message(s, a)
    requires Complete(s1, d, a, false).Next?
    ensures NextLaw(s, a, Complete(s1, d, a, false).rx)
  {
    assert d != "" && Heard(a.ticks) != "";
  }

  lemma PartGoesOn(s: Rx, a: Attempt, s1: Rx, d: string)
    requires Waiting(s) && (s.queue != [] ==> !s.format.Unknown?)
    requires DetectsByCode(s, a, s1, 1) && FormatLaw(s, a, s1) && d == Message(s, a)
    ensures NextLaw(s, a, Incomplete(s1, d))
  {
    assert d != "" <==> Heard(a.ticks) != "";
  }

  lemma TurnGoesOn(s: Rx, a: Attempt)
    requires Waiting(s) && (s.queue != [] ==> !s.format.Unknown?) && Iterate(s, a, false).Next?
    ensures NextLaw(s, a, Iterate(s, a, false).rx)
  {
    HeardInTurn(s, a);
    var r := Receive(a.ticks, s.expected, []);
    Detects(s, a, r);
    DetectsFormat(s, a, r);
    var s1, res := Detected(s, r), DetectedRes(s, r);
    if res == 0 { WholeGoesOn(s, a, s1, r.digits); } else { PartGoesOn(s, a, s1, r.digits); }
  }

  // ---- Whole calls -----------------------------------------------------------------------------

  /** Where a call stands after so many attempts. */
  function So(attempts: seq<Attempt>, n: nat): Rx
    requires n <= |attempts|
  {
    Run(START, attempts[..n], false).rx
  }

  /** Some attempt so far has made the receiver stop summing. */
  ghost predicate SumsStopped(attempts: seq<Attempt>) {
    exists i :: 0 <= i < |attempts| && StopsSums(So(attempts, i), attempts[i])
  }

  /** What every call still going has come to. */
  ghost predicate CallLaw(attempts: seq<Attempt>, s: Rx) {
    && Waiting(s) && (s.queue != [] ==> !s.format.Unknown?)
    && (s.gotSomeDigits <==> exists i :: 0 <= i < |attempts| && Heard(attempts[i].ticks) != "")
    && (s.noChecksum <==> SumsStopped(attempts))
  }

  lemma SumsStoppedNext(attempts: seq<Attempt>, a: Attempt)
    ensures SumsStopped(attempts + [a]) <==> SumsStopped(attempts) || StopsSums(Run(START, attempts, false).rx, a)
  {
    var next := attempts + [a];
    assert next[..|attempts|] == attempts && next[|attempts|] == a;
    assert forall i :: 0 <= i < |attempts| ==> next[..i] == attempts[..i] && next[i] == attempts[i];
    if StopsSums(Run(START, attempts, false).rx, a) { assert StopsSums(So(next, |attempts|), next[|attempts|]); }
    if SumsStopped(attempts) {
      var i :| 0 <= i < |attempts| && StopsSums(So(attempts, i), attempts[i]);
      assert StopsSums(So(next, i), next[i]);
    }
  }

  lemma HeardNextAttempt(attempts: seq<Attempt>, a: Attempt)
    ensures (exists i :: 0 <= i <= |attempts| && Heard((attempts + [a])[i].ticks) != "")
       <==> Heard(a.ticks) != "" || exists i :: 0 <= i < |attempts| && Heard(attempts[i].ticks) != ""
  {
    var next := attempts + [a];
    assert next[|attempts|] == a && forall i :: 0 <= i < |attempts| ==> next[i] == attempts[i];
  }

  lemma {:induction false} StillGoing(s: Rx, attempts: seq<Attempt>, a: Attempt)
    requires Run(s, attempts + [a], false).Next?
    ensures Run(s, attempts, false).Next?
    decreases |attempts|
  {
    if attempts != [] {
      assert (attempts + [a])[0] == attempts[0] && (attempts + [a])[1..] == attempts[1..] + [a];
      StillGoing(Iterate(s, attempts[0], false).rx, attempts[1..], a);
    }
  }

  lemma {:induction false} CallFollows(attempts: seq<Attempt>)
    requires Run(START, attempts, false).Next?
    ensures CallLaw(attempts, Run(START, attempts, false).rx)
    decreases |attempts|
  {
    if attempts != [] {
      var n := |attempts| - 1;
      var before, a := attempts[..n], attempts[n];
      assert attempts == before + [a];
      StillGoing(START, before, a);
      CallFollows(before);
      RunOneMore(START, before, a);
      var s := Run(START, before, false).rx;
      TurnGoesOn(s, a);
      RunKeepsInv(START, attempts);
      SumsStoppedNext(before, a);
      HeardNextAttempt(before, a);
    }
  }

  /**
   * Of every call and every next attempt: the digits heard are queued if and only if some digit came before
   * or the acknowledgement went out, the wait did not fail, no limit is reached, all digits came, their type
   * is the call's, and their sum is right or an attempt so far, this one included, stopped the summing.  A
   * queued event is acknowledged unless the tone fails.  The call goes on exactly when none of that ends it.
   */
  lemma MessageTakenExactly(attempts: seq<Attempt>, a: Attempt)
    requires Run(START, attempts, false).Next?
    ensures var s, o := Run(START, attempts, false).rx, Run(START, attempts + [a], false);
            var d := Message(s, a);
            var acked := a.ackSent || exists i :: 0 <= i < |attempts| && Heard(attempts[i].ticks) != "";
            var going := acked && !Lost(s, a) && !OverLimit(s, a);
            var good := going && GoodMessage(s, a, SumsStopped(attempts + [a]));
            && (if good && a.hasMemory then Extends(s.queue, o.rx.queue, d) else o.rx.queue == s.queue)
            && o.rx.kissoffs == s.kissoffs + (if good && a.hasMemory && a.kissedOff then 1 else 0)
            && (o.Exit? <==> !going || (good && (!a.hasMemory || !a.kissedOff || AudioNext(d))))
  {
    CallFollows(attempts);
    RunOneMore(START, attempts, a);
    var s := Run(START, attempts, false).rx;
    TurnDecides(s, a);
    SumsStoppedNext(attempts, a);
  }

  /** What a call that goes on has to go on with. */
  lemma CallGoesOnWith(attempts: seq<Attempt>, a: Attempt)
    requires Run(START, attempts + [a], false).Next?
    ensures Run(START, attempts, false).Next?
    ensures NextLaw(Run(START, attempts, false).rx, a, Run(START, attempts + [a], false).rx)
  {
    StillGoing(START, attempts, a);
    CallFollows(attempts);
    RunOneMore(START, attempts, a);
    TurnGoesOn(Run(START, attempts, false).rx, a);
  }

  // ---- Events logged one by one -------------------------------------------------------------------

  /** Every message is then taken as the first of a call, and failing to log it is like failing to acknowledge it. */
  lemma IndividualTurn(s: Rx, a: Attempt)
    ensures Iterate(s, a, true) == Iterate(Reset(s, true), a.(kissedOff := a.logged && a.kissedOff), false)
  {
  }

  predicate Counted(s: Rx) {
    s.eventsReceived == |s.queue| == s.kissoffs
  }

  lemma TurnKeepsCounted(s: Rx, a: Attempt)
    requires Counted(s) && Iterate(s, a, true).Next?
    ensures Counted(Iterate(s, a, true).rx)
  {
  }

  lemma {:induction false} IndividualRun(s: Rx, attempts: seq<Attempt>, a: Attempt)
    requires Counted(s) && Run(s, attempts, true).Next?
    ensures Counted(Run(s, attempts, true).rx)
    ensures Run(s, attempts + [a], true) == Iterate(Run(s, attempts, true).rx, a, true)
    decreases |attempts|
  {
    if attempts == [] {
      assert attempts + [a] == [a];
    } else {
      assert (attempts + [a])[1..] == attempts[1..] + [a];
      TurnKeepsCounted(s, attempts[0]);
      IndividualRun(Iterate(s, attempts[0], true).rx, attempts[1..], a);
    }
  }

  lemma IndividualMessageTaken(attempts: seq<Attempt>, a: Attempt)
    requires Run(START, attempts, true).Next?
    ensures var s := Run(START, attempts, true).rx.(format := Unknown, expected := 16, noChecksum := false);
            TurnLaw(s, a.(kissedOff := a.logged && a.kissedOff), Run(START, attempts + [a], true))
  {
    IndividualRun(START, attempts, a);
    var s := Run(START, attempts, true).rx;
    IndividualTurn(s, a);
    TurnDecides(Reset(s, true), a.(kissedOff := a.logged && a.kissedOff));
  }

  // ---- First messages ------------------------------------------------------------------------

  lemma {:induction false} HeardKeys(digits: string, k: nat)
    requires k == |digits|
    ensures FirstStop(Keys(digits) + [TimedOut]) == k && DigitsOf(Keys(digits)) == digits
    decreases |digits|
  {
    var ticks := Keys(digits) + [TimedOut];
    if digits != [] {
      assert ticks[1..] == Keys(digits[1..]) + [TimedOut] && Keys(digits)[1..] == Keys(digits[1..]);
      HeardKeys(digits[1..], k - 1);
      assert digits == [digits[0]] + digits[1..];
    }
  }

  /**
   * The first message of a call, of up to 16 digits and then silence, is taken if and only if it has its
   * type's number of digits, 8 for "17", 9 for "27", 15 for "56" and 16 for "18", "98" and "55", with a right
   * sum except for "56"; or 16 digits all the same for a shorter type; or is a "17" or "27" without its sum.
   */
  lemma FirstMessageTaken(digits: string, a: Attempt)
    requires |digits| <= 16
    requires a == Attempt(true, Keys(digits) + [TimedOut], false, None, true, true, true)
    ensures var code := TypeCode(digits);
            var n := Whole(code);
            Extends([], Run(START, [a], false).rx.queue, digits) <==>
              || (n != 0 && |digits| in {n, 16} && (code == "56" || ChecksumOk(digits[..n])))
              || (code == "17" && |digits| == 7)
              || (code == "27" && |digits| == 8)
  {
    HeardKeys(digits, |digits|);
    assert (Keys(digits) + [TimedOut])[..|digits|] == Keys(digits);
    assert [] + [a] == [a] && Run(START, [], false) == Next(START);
    MessageTakenExactly([], a);
    FirstSumsStopped(a, digits);
    FirstGood(a, digits, TypeCode(digits));
  }

  lemma FirstGood(a: Attempt, digits: string, code: string)
    requires Heard(a.ticks) == digits && |digits| <= 16 && TimesOut(a.ticks) && code == TypeCode(digits)
    ensures Message(START, a) == digits && !Lost(START, a)
    ensures GoodMessage(START, a, code == "56" || WithoutSum(digits)) <==>
              || (Whole(code) != 0 && |digits| in {Whole(code), 16}
                  && (code == "56" || ChecksumOk(digits[..Whole(code)])))
              || (code == "17" && |digits| == 7)
              || (code == "27" && |digits| == 8)
  {
    if Whole(code) != 0 && |digits| == Whole(code) { assert digits[..Whole(code)] == digits; }
  }

  lemma FirstSumsStopped(a: Attempt, digits: string)
    requires a.ackSent && Heard(a.ticks) == digits && |digits| <= 16 && TimesOut(a.ticks)
    ensures SumsStopped([] + [a]) <==> TypeCode(digits) == "56" || WithoutSum(digits)
  {
    SumsStoppedNext([], a);
    assert Run(START, [], false).rx == START && !SumsStopped([]);
  }
}
