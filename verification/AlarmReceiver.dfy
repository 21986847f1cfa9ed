/**
 One call to the Ademco alarm receiver: the panel sends DTMF messages, each is
 received, its format detected, its check digit and type verified, and it is
 queued before the kissoff tone acknowledges it.
 */
module AlarmReceiver {
  import opened Options
  import opened AlarmChecksum

  // ---- Receiving one string of digits --------------------------------------

  /** What one turn of the digit loop meets. */
  datatype Tick = TimedOut | WaitError | NoFrame | Hangup | OtherFrame | Dtmf(digit: char)

  const BUFFER: nat := 16

  datatype Received = Received(res: int, digits: string)

  /** receive_dtmf_digits; a channel with no more ticks yields no frame. */
  function Receive(ticks: seq<Tick>, expected: nat, got: string): Received
    decreases |ticks|
  {
    if |got| >= expected || |got| >= BUFFER then Received(0, got)
    else if ticks == [] then Received(-1, got)
    else match ticks[0]
      case TimedOut => Received(1, got)
      case NoFrame => Received(-1, got)
      case Hangup => Received(-1, got)
      case Dtmf(c) => Receive(ticks[1..], expected, got + [c])
      case _ => Receive(ticks[1..], expected, got)
  }

  method ReceiveDigits(ticks: seq<Tick>, expected: nat) returns (res: int, digits: string)
    ensures Received(res, digits) == Receive(ticks, expected, [])
  {
    res, digits := 0, [];
    var i := 0;
    while |digits| < expected && |digits| < BUFFER
      invariant 0 <= i <= |ticks|
      invariant Receive(ticks[i..], expected, digits) == Receive(ticks, expected, [])
      decreases |ticks| - i
    {
      if i == |ticks| {
        return -1, digits;
      }
      assert ticks[i..][1..] == ticks[i + 1..];
      match ticks[i] {
        case TimedOut => return 1, digits;
        case NoFrame => return -1, digits;
        case Hangup => return -1, digits;
        case Dtmf(c) => digits := digits + [c];
        case _ =>
      }
      i := i + 1;
    }
  }

  /** The DTMF digits among the ticks, in order. */
  function DigitsOf(ticks: seq<Tick>): string {
    if ticks == [] then []
    else (if ticks[0].Dtmf? then [ticks[0].digit] else []) + DigitsOf(ticks[1..])
  }

  /** The digits are those the panel sent in this attempt; full length means success. */
  lemma {:induction false} ReceiveProperties(ticks: seq<Tick>, expected: nat, got: string)
    requires |got| <= expected <= BUFFER
    ensures var r := Receive(ticks, expected, got);
            && got <= r.digits <= got + DigitsOf(ticks)
            && -1 <= r.res <= 1
            && |r.digits| <= expected
            && (r.res == 0 <==> |r.digits| == expected)
  {
    if |got| < expected && ticks != [] {
      var d := DigitsOf(ticks[1..]);
      match ticks[0] {
        case TimedOut =>
        case NoFrame =>
        case Hangup =>
        case Dtmf(c) =>
          ReceiveProperties(ticks[1..], expected, got + [c]);
          assert got + [c] + d == got + DigitsOf(ticks);
        case _ =>
          ReceiveProperties(ticks[1..], expected, got);
      }
    }
  }

  // ---- Formats -------------------------------------------------------------

  datatype Format = Unknown | ContactId | Express41 | Express42 | HighSpeed | SuperFast

  /** The two type digits that follow the account number. */
  predicate TypeIs(event: string, code: string) {
    |event| >= 6 && event[4..6] == code
  }

  function FormatOf(event: string): Format {
    if TypeIs(event, "18") || TypeIs(event, "98") then ContactId
    else if TypeIs(event, "17") then Express41
    else if TypeIs(event, "27") then Express42
    else if TypeIs(event, "55") then HighSpeed
    else if TypeIs(event, "56") then SuperFast
    else Unknown
  }

  function LengthOf(f: Format): nat {
    match f
    case Express41 => 8
    case Express42 => 9
    case SuperFast => 15
    case _ => 16
  }

  /** ademco_detect_format, entered with an unknown format. */
  method DetectFormat(event: string) returns (format: Format, expected: nat, setsNoChecksum: bool)
    ensures format == FormatOf(event) && expected == LengthOf(format)
    ensures setsNoChecksum == format.SuperFast?
  {
    format, expected, setsNoChecksum := Unknown, 16, false;
    if TypeIs(event, "18") || TypeIs(event, "98") { format := ContactId; }
    if TypeIs(event, "17") { format, expected := Express41, 8; }
    if TypeIs(event, "27") { format, expected := Express42, 9; }
    if TypeIs(event, "55") { format := HighSpeed; }
    if TypeIs(event, "56") { format, setsNoChecksum, expected := SuperFast, true, 15; }
  }

  /** ademco_check_valid returns zero. */
  predicate CheckValid(format: Format, event: string) {
    match format
    case Unknown => false
    case ContactId => TypeIs(event, "18") || TypeIs(event, "98")
    case Express41 => TypeIs(event, "17")
    case Express42 => TypeIs(event, "27")
    case HighSpeed => TypeIs(event, "55")
    case SuperFast => TypeIs(event, "56")
  }

  /** The type check accepts exactly the events whose own type gives the expected format. */
  lemma CheckValidIsFormat(format: Format, event: string)
    ensures CheckValid(format, event) <==> !format.Unknown? && FormatOf(event) == format
  {
  }

  // ---- The receive loop ----------------------------------------------------

  /** What the channel and the settings supply to one turn of the loop. */
  datatype Attempt = Attempt(
    ackSent: bool, ticks: seq<Tick>, callExpired: bool, retriesLimit: Option<int>,
    hasMemory: bool, logged: bool, kissedOff: bool)

  /** A queued event, the format it was accepted under, how many digits that asked for, and whether it was summed. */
  datatype Item = Item(event: string, format: Format, length: nat, summed: bool)

  datatype Rx = Rx(
    queue: seq<Item>, format: Format, noChecksum: bool, expected: nat, gotSomeDigits: bool,
    eventsReceived: nat, ackRetries: nat, limitRetries: nat, kissoffs: nat)

  const START: Rx := Rx([], Unknown, false, 16, false, 0, 0, 0, 0)

  datatype Outcome = Next(rx: Rx) | Exit(rx: Rx)

  function Reset(s: Rx, individual: bool): Rx {
    if individual then s.(format := Unknown, expected := 16, noChecksum := false) else s
  }

  predicate ExpressShort(format: Format, digits: string) {
    (format.Express41? || format.Express42?) && |digits| == LengthOf(format) - 1
  }

  /** Format detection after a receive that did not fail, and the result it leaves. */
  function Detected(s: Rx, r: Received): Rx {
    if !(s.format.Unknown? && |r.digits| > 5) then s else
    var f := FormatOf(r.digits);
    var s1 := s.(format := f, expected := LengthOf(f), noChecksum := s.noChecksum || f.SuperFast?);
    if r.res > 0 && |r.digits| == s1.expected then s1.(limitRetries := 0)
    else if r.res > 0 && ExpressShort(f, r.digits) then
      s1.(limitRetries := 0, expected := s1.expected - 1, noChecksum := true)
    else s1
  }

  function DetectedRes(s: Rx, r: Received): int {
    if s.format.Unknown? && |r.digits| > 5 && r.res > 0
       && (|r.digits| == LengthOf(FormatOf(r.digits)) || ExpressShort(FormatOf(r.digits), r.digits))
    then 0 else r.res
  }

  predicate LimitHit(s: Rx, a: Attempt) {
    a.callExpired || (a.retriesLimit.Some? && s.limitRetries + 1 >= a.retriesLimit.value)
  }

  function Incomplete(s: Rx, digits: string): Rx {
    var s1 := s.(limitRetries := s.limitRetries + 1);
    var s2 := if s.eventsReceived == 0 && !s.format.Unknown? then s1.(format := Unknown, expected := 16) else s1;
    if s.gotSomeDigits then s2 else s2.(gotSomeDigits := digits != [], ackRetries := s.ackRetries + 1)
  }

  predicate Accepted(s: Rx, digits: string) {
    && (s.noChecksum || (s.expected <= |digits| && ChecksumOk(digits[..s.expected])))
    && CheckValid(s.format, digits)
  }

  predicate AudioCallNext(s: Rx, digits: string) {
    s.format.ContactId? && |digits| >= 10 && digits[7..10] == "606"
  }

  function Queued(s: Rx, digits: string): Rx {
    s.(gotSomeDigits := true, eventsReceived := s.eventsReceived + 1,
       queue := s.queue + [Item(digits, s.format, s.expected, !s.noChecksum)])
  }

  function Complete(s: Rx, digits: string, a: Attempt, individual: bool): Outcome {
    if !Accepted(s, digits) then Next(s.(gotSomeDigits := true))
    else if !a.hasMemory then Exit(s.(gotSomeDigits := true, eventsReceived := s.eventsReceived + 1))
    else
      var s1 := Queued(s, digits);
      if (individual && !a.logged) || !a.kissedOff then Exit(s1)
      else
        var s2 := s1.(kissoffs := s1.kissoffs + 1);
        if AudioCallNext(s, digits) then Exit(s2) else Next(s2)
  }

  /** What becomes of a string of digits that was received. */
  function Handle(s: Rx, r: Received, a: Attempt, individual: bool): Outcome {
    var s1 := Detected(s, r);
    if LimitHit(s1, a) then Exit(s1)
    else if DetectedRes(s, r) != 0 then Next(Incomplete(s1, r.digits))
    else Complete(s1, r.digits, a, individual)
  }

  function Iterate(s: Rx, a: Attempt, individual: bool): Outcome {
    var s0 := Reset(s, individual);
    if !s0.gotSomeDigits && !a.ackSent then Exit(s0)
    else
      var r := Receive(a.ticks, s0.expected, []);
      if r.res < 0 then Exit(s0) else Handle(s0, r, a, individual)
  }

  /** A whole call: it ends at the first exit, or is still going when the attempts run out. */
  function Run(s: Rx, attempts: seq<Attempt>, individual: bool): Outcome
    decreases |attempts|
  {
    if attempts == [] then Next(s)
    else
      var o := Iterate(s, attempts[0], individual);
      if o.Exit? then o else Run(o.rx, attempts[1..], individual)
  }

  // ---- The invariant of a call ----------------------------------------------

  ghost predicate ItemOk(x: Item) {
    && !x.format.Unknown? && FormatOf(x.event) == x.format
    && x.length <= |x.event| <= BUFFER
    && (x.summed ==> ChecksumOk(x.event[..x.length]))
  }

  /** How many digits are asked for follows from the format. */
  ghost predicate Sized(s: Rx) {
    || s.expected == LengthOf(s.format)
    || (s.expected == LengthOf(s.format) - 1 && (s.format.Express41? || s.format.Express42?))
  }

  ghost predicate Inv(s: Rx) {
    && Sized(s)
    && s.eventsReceived >= |s.queue|
    && (forall i :: 0 <= i < |s.queue| ==> ItemOk(s.queue[i]) && s.queue[i].format == s.format)
    && (s.queue != [] ==> !s.format.Unknown?)
    && (!s.noChecksum ==> forall i :: 0 <= i < |s.queue| ==> s.queue[i].summed)
  }

  /** Between two turns every queued event has been acknowledged. */
  ghost predicate Acknowledged(o: Outcome) {
    && |o.rx.queue| - 1 <= o.rx.kissoffs <= |o.rx.queue|
    && (o.Next? ==> o.rx.kissoffs == |o.rx.queue|)
  }

  lemma DetectedKeepsInv(s: Rx, r: Received)
    requires Inv(s) && Plausible(s, r)
    ensures Inv(Detected(s, r))
    ensures Detected(s, r).queue == s.queue && Detected(s, r).eventsReceived == s.eventsReceived
    ensures Detected(s, r).kissoffs == s.kissoffs
    ensures DetectedRes(s, r) == 0 ==> Detected(s, r).expected <= |r.digits|
  {
  }

  lemma HandleKeepsSized(s: Rx, r: Received, a: Attempt, individual: bool)
    requires Sized(s)
    ensures Sized(Handle(s, r, a, individual).rx)
  {
    var s1 := Detected(s, r);
    assert Sized(s1);
    assert Sized(Incomplete(s1, r.digits));
    assert Sized(Complete(s1, r.digits, a, individual).rx);
  }

  lemma IterateKeepsSized(s: Rx, a: Attempt, individual: bool)
    requires Sized(s) || individual
    ensures Sized(Iterate(s, a, individual).rx)
  {
    var s0 := Reset(s, individual);
    HandleKeepsSized(s0, Receive(a.ticks, s0.expected, []), a, individual);
  }

  /** What receiving leaves: up to the digits asked for, and all of them exactly on success. */
  predicate Plausible(s: Rx, r: Received) {
    |r.digits| <= s.expected && 0 <= r.res <= 1 && (r.res == 0 <==> |r.digits| == s.expected)
  }

  lemma HandleKeepsInv(s: Rx, r: Received, a: Attempt)
    requires Inv(s) && s.kissoffs == |s.queue| && Plausible(s, r)
    ensures var o := Handle(s, r, a, false);
            && Inv(o.rx) && Acknowledged(o)
            && s.queue <= o.rx.queue && |o.rx.queue| <= |s.queue| + 1
  {
    DetectedKeepsInv(s, r);
    var s1 := Detected(s, r);
    if DetectedRes(s, r) == 0 {
      CompleteKeepsInv(s1, r.digits, a);
    }
  }

  /** Every turn keeps the invariant, extends the queue only at its tail, and acknowledges only what it queued. */
  lemma IterateKeepsInv(s: Rx, a: Attempt)
    requires Inv(s) && s.kissoffs == |s.queue|
    ensures var o := Iterate(s, a, false);
            && Inv(o.rx) && Acknowledged(o)
            && s.queue <= o.rx.queue && |o.rx.queue| <= |s.queue| + 1
  {
    ReceiveProperties(a.ticks, s.expected, []);
    var r := Receive(a.ticks, s.expected, []);
    if r.res >= 0 {
      HandleKeepsInv(s, r, a);
    }
  }

  lemma CompleteKeepsInv(s: Rx, digits: string, a: Attempt)
    requires Inv(s) && s.kissoffs == |s.queue| && s.expected <= |digits| <= BUFFER
    ensures var o := Complete(s, digits, a, false);
            && Inv(o.rx) && Acknowledged(o)
            && s.queue <= o.rx.queue && |o.rx.queue| <= |s.queue| + 1
  {
    CheckValidIsFormat(s.format, digits);
  }

  /** The call as a whole, for every sequence of attempts. */
  lemma {:induction false} RunKeepsInv(s: Rx, attempts: seq<Attempt>)
    requires Inv(s) && s.kissoffs == |s.queue|
    ensures var o := Run(s, attempts, false);
            Inv(o.rx) && Acknowledged(o) && s.queue <= o.rx.queue
    decreases |attempts|
  {
    if attempts != [] {
      IterateKeepsInv(s, attempts[0]);
      var o := Iterate(s, attempts[0], false);
      if o.Next? {
        RunKeepsInv(o.rx, attempts[1..]);
      }
    }
  }

  // ---- Where queued events come from -----------------------------------------

  /** The events were sent by the panel, each in an attempt of its own and in the order of the attempts. */
  ghost predicate Sourced(attempts: seq<Attempt>, items: seq<Item>, ks: seq<nat>) {
    && |ks| == |items|
    && (forall i :: 0 <= i < |ks| ==> ks[i] < |attempts| && items[i].event <= DigitsOf(attempts[ks[i]].ticks))
    && (forall i, j :: 0 <= i < j < |ks| ==> ks[i] < ks[j])
  }

  function Later(ks: seq<nat>): (r: seq<nat>)
    ensures |r| == |ks| && forall i :: 0 <= i < |r| ==> r[i] == ks[i] + 1
  {
    seq(|ks|, i requires 0 <= i < |ks| => ks[i] + 1)
  }

  lemma SourcedLater(a: Attempt, attempts: seq<Attempt>, items: seq<Item>, ks: seq<nat>)
    requires Sourced(attempts, items, ks)
    ensures Sourced([a] + attempts, items, Later(ks))
  {
    var ks1 := Later(ks);
    forall i | 0 <= i < |ks1|
      ensures ks1[i] < |[a] + attempts| && items[i].event <= DigitsOf(([a] + attempts)[ks1[i]].ticks)
    {
      assert ([a] + attempts)[ks1[i]] == attempts[ks[i]];
    }
  }

  lemma SourcedFirst(a: Attempt, attempts: seq<Attempt>, x: Item, items: seq<Item>, ks: seq<nat>)
    requires Sourced(attempts, items, ks) && x.event <= DigitsOf(a.ticks)
    ensures Sourced([a] + attempts, [x] + items, [0] + Later(ks))
  {
    SourcedLater(a, attempts, items, ks);
    var all, ks1, items1 := [a] + attempts, [0] + Later(ks), [x] + items;
    forall i | 0 <= i < |ks1|
      ensures ks1[i] < |all| && items1[i].event <= DigitsOf(all[ks1[i]].ticks)
    {
      assert i > 0 ==> ks1[i] == Later(ks)[i - 1] && items1[i] == items[i - 1];
    }
  }

  /** The queue grew by at most one event, which came in this attempt. */
  ghost predicate Grew(before: seq<Item>, after: seq<Item>, a: Attempt) {
    || after == before
    || (|after| == |before| + 1 && before <= after && after[|before|].event <= DigitsOf(a.ticks))
  }

  lemma SourcedOnce(attempts: seq<Attempt>, before: seq<Item>, after: seq<Item>, items: seq<Item>, ks: seq<nat>)
    returns (items1: seq<Item>, ks1: seq<nat>)
    requires attempts != [] && Grew(before, after, attempts[0]) && Sourced(attempts[1..], items, ks)
    ensures after + items == before + items1 && Sourced(attempts, items1, ks1)
  {
    var a, rest := attempts[0], attempts[1..];
    assert [a] + rest == attempts;
    if after == before {
      SourcedLater(a, rest, items, ks);
      items1, ks1 := items, Later(ks);
    } else {
      var x := after[|before|];
      SourcedFirst(a, rest, x, items, ks);
      items1, ks1 := [x] + items, [0] + Later(ks);
    }
  }

  /** What a turn adds to the queue was received in it. */
  lemma IterateQueuesReceived(s: Rx, a: Attempt)
    requires Inv(s)
    ensures Grew(s.queue, Iterate(s, a, false).rx.queue, a)
  {
    ReceiveProperties(a.ticks, s.expected, []);
    var r := Receive(a.ticks, s.expected, []);
    assert [] + DigitsOf(a.ticks) == DigitsOf(a.ticks);
    if r.res >= 0 {
      HandleQueuesReceived(s, r, a);
    }
  }

  lemma HandleQueuesReceived(s: Rx, r: Received, a: Attempt)
    requires r.digits <= DigitsOf(a.ticks)
    ensures Grew(s.queue, Handle(s, r, a, false).rx.queue, a)
  {
    var s1 := Detected(s, r);
    assert s1.queue == s.queue && Incomplete(s1, r.digits).queue == s.queue;
    CompleteQueues(s1, r.digits, a);
  }

  lemma CompleteQueues(s: Rx, digits: string, a: Attempt)
    ensures var queue := Complete(s, digits, a, false).rx.queue;
            queue == s.queue || queue == s.queue + [Item(digits, s.format, s.expected, !s.noChecksum)]
  {
  }

  /** The rest of a call after a turn. */
  function Onward(o: Outcome, attempts: seq<Attempt>): Outcome {
    if o.Exit? then o else Run(o.rx, attempts, false)
  }

  lemma OneTurn(o: Outcome, attempts: seq<Attempt>) returns (next: Outcome)
    requires o.Next? && Inv(o.rx) && Acknowledged(o) && attempts != []
    ensures Inv(next.rx) && Acknowledged(next) && Grew(o.rx.queue, next.rx.queue, attempts[0])
    ensures Onward(o, attempts) == Onward(next, attempts[1..])
  {
    next := Iterate(o.rx, attempts[0], false);
    IterateKeepsInv(o.rx, attempts[0]);
    IterateQueuesReceived(o.rx, attempts[0]);
  }

  lemma {:induction false} OnwardSources(o: Outcome, attempts: seq<Attempt>, final: seq<Item>)
    returns (items: seq<Item>, ks: seq<nat>)
    requires Inv(o.rx) && Acknowledged(o) && final == Onward(o, attempts).rx.queue
    ensures final == o.rx.queue + items && Sourced(attempts, items, ks)
    decreases |attempts|
  {
    items, ks := [], [];
    if o.Next? && attempts != [] {
      var next := OneTurn(o, attempts);
      items, ks := OnwardSources(next, attempts[1..], final);
      items, ks := SourcedOnce(attempts, o.rx.queue, next.rx.queue, items, ks);
    }
  }

  /**
   * A call from its first attempt on: one format, every event typed for it, and every event a prefix of
   * what the panel sent in one attempt, a later event in a later attempt.
   */
  lemma CallQueuesOnlyValidEvents(attempts: seq<Attempt>)
    ensures var o := Run(START, attempts, false);
            && Acknowledged(o)
            && (forall i :: 0 <= i < |o.rx.queue| ==> ItemOk(o.rx.queue[i]))
            && (forall i, j :: 0 <= i < |o.rx.queue| && 0 <= j < |o.rx.queue| ==>
                  o.rx.queue[i].format == o.rx.queue[j].format)
            && exists ks :: Sourced(attempts, o.rx.queue, ks)
  {
    RunKeepsInv(START, attempts);
    var items, ks := OnwardSources(Next(START), attempts, Run(START, attempts, false).rx.queue);
    assert START.queue + items == items;
  }

  // ---- When the check digit is skipped ---------------------------------------

  /** An Express message without its last digit. */
  predicate LacksSum(digits: string) {
    (TypeIs(digits, "17") && |digits| == 7) || (TypeIs(digits, "27") && |digits| == 8)
  }

  lemma LacksSumIsShort(digits: string)
    ensures LacksSum(digits) <==> ExpressShort(FormatOf(digits), digits)
    ensures TypeIs(digits, "56") <==> FormatOf(digits) == SuperFast
  {
    if |digits| >= 6 { assert digits[4..6] == [digits[4], digits[5]]; }
  }

  /** The attempt makes the receiver stop summing: a Super Fast type, or an Express message one digit short. */
  predicate Disables(s: Rx, a: Attempt) {
    var r := Receive(a.ticks, s.expected, []);
    && (s.gotSomeDigits || a.ackSent) && r.res >= 0
    && s.format.Unknown? && |r.digits| > 5
    && (TypeIs(r.digits, "56") || (r.res > 0 && LacksSum(r.digits)))
  }

  predicate EverDisables(s: Rx, attempts: seq<Attempt>)
    decreases |attempts|
  {
    attempts != [] &&
    (Disables(s, attempts[0]) ||
     (Iterate(s, attempts[0], false).Next? && EverDisables(Iterate(s, attempts[0], false).rx, attempts[1..])))
  }

  lemma DetectedSetsNoChecksum(s: Rx, a: Attempt, r: Received)
    requires r == Receive(a.ticks, s.expected, []) && r.res >= 0 && (s.gotSomeDigits || a.ackSent)
    ensures Detected(s, r).noChecksum <==> s.noChecksum || Disables(s, a)
    ensures Detected(s, r).queue == s.queue
  {
    LacksSumIsShort(r.digits);
  }

  lemma IterateSetsNoChecksum(s: Rx, a: Attempt)
    ensures var rx := Iterate(s, a, false).rx;
            && (rx.noChecksum <==> s.noChecksum || Disables(s, a))
            && (|rx.queue| > |s.queue| ==> rx.queue[|s.queue|].summed == !rx.noChecksum)
  {
    var r := Receive(a.ticks, s.expected, []);
    if r.res >= 0 && (s.gotSomeDigits || a.ackSent) {
      DetectedSetsNoChecksum(s, a, r);
      var s1 := Detected(s, r);
      assert Incomplete(s1, r.digits).noChecksum == s1.noChecksum;
      CompleteQueues(s1, r.digits, a);
    }
  }

  /** Nothing ever turns the sums back on: the flag is set exactly when some attempt set it. */
  lemma {:induction false} NoChecksumIsSticky(s: Rx, attempts: seq<Attempt>)
    ensures Run(s, attempts, false).rx.noChecksum <==> s.noChecksum || EverDisables(s, attempts)
    decreases |attempts|
  {
    if attempts != [] {
      IterateSetsNoChecksum(s, attempts[0]);
      var o := Iterate(s, attempts[0], false);
      if o.Next? {
        NoChecksumIsSticky(o.rx, attempts[1..]);
      }
    }
  }

  lemma {:induction false} RunOneMore(s: Rx, attempts: seq<Attempt>, a: Attempt)
    requires Run(s, attempts, false).Next?
    ensures Run(s, attempts + [a], false) == Iterate(Run(s, attempts, false).rx, a, false)
    decreases |attempts|
  {
    if attempts == [] {
      assert attempts + [a] == [a];
    } else {
      assert (attempts + [a])[1..] == attempts[1..] + [a];
      RunOneMore(Iterate(s, attempts[0], false).rx, attempts[1..], a);
    }
  }

  /**
   * An event is queued without its check digit being summed if and only if some attempt of the call,
   * up to its own, disabled the sum.
   */
  lemma EventSummedExactlyWhenNeverDisabled(attempts: seq<Attempt>, a: Attempt)
    requires Run(START, attempts, false).Next?
    requires var s := Run(START, attempts, false).rx; |Iterate(s, a, false).rx.queue| > |s.queue|
    ensures var s := Run(START, attempts, false).rx;
            Iterate(s, a, false).rx.queue[|s.queue|].summed <==> !EverDisables(START, attempts + [a])
  {
    RunOneMore(START, attempts, a);
    NoChecksumIsSticky(START, attempts + [a]);
    IterateSetsNoChecksum(Run(START, attempts, false).rx, a);
  }

  function Keys(digits: string): (ticks: seq<Tick>)
    ensures |ticks| == |digits|
    ensures forall i :: 0 <= i < |digits| ==> ticks[i] == Dtmf(digits[i])
  {
    seq(|digits|, i requires 0 <= i < |digits| => Dtmf(digits[i]))
  }

  lemma {:induction false} ReceiveKeys(digits: string, tail: seq<Tick>, expected: nat, got: string)
    requires |got| + |digits| <= expected <= BUFFER
    ensures Receive(Keys(digits) + tail, expected, got) == Receive(tail, expected, got + digits)
    decreases |digits|
  {
    if digits == [] {
      assert Keys(digits) + tail == tail && got + digits == got;
    } else {
      var rest := digits[1..];
      ReceiveKeys(rest, tail, expected, got + [digits[0]]);
      assert (Keys(digits) + tail)[1..] == Keys(rest) + tail;
      assert got + [digits[0]] + rest == got + digits;
    }
  }

  lemma CutShort(cut: string)
    requires |cut| == 7
    ensures Receive(Keys(cut) + [TimedOut], 16, []) == Received(1, cut)
  {
    ReceiveKeys(cut, [TimedOut], 16, []);
    assert [] + cut == cut;
  }

  lemma SuperFastFormat(cut: string)
    requires TypeIs(cut, "56")
    ensures FormatOf(cut) == SuperFast
  {
    assert cut[4..6][0] == '5' && cut[4..6][1] == '6';
  }

  lemma SuperFastDetected(cut: string)
    requires |cut| == 7 && TypeIs(cut, "56")
    ensures Detected(START, Received(1, cut)) == START.(format := SuperFast, expected := 15, noChecksum := true)
    ensures DetectedRes(START, Received(1, cut)) == 1
  {
    SuperFastFormat(cut);
  }

  /** Seven digits of an abandoned Super Fast message leave only the flag behind. */
  lemma AbandonedSuperFast(cut: string, a: Attempt)
    requires |cut| == 7 && TypeIs(cut, "56")
    requires a.ticks == Keys(cut) + [TimedOut] && a.ackSent && !a.callExpired && a.retriesLimit.None?
    ensures Iterate(START, a, false)
         == Next(START.(noChecksum := true, limitRetries := 1, gotSomeDigits := true, ackRetries := 1))
  {
    CutShort(cut);
    SuperFastDetected(cut);
  }

  lemma SuperFastStart() returns (cut: string)
    ensures |cut| == 7 && TypeIs(cut, "56")
  {
    cut := "1234567";
    assert cut[4..6] == [cut[4], cut[5]] == "56";
  }

  /** With the flag set, a Contact ID message is queued whatever its last digit. */
  lemma UnsummedContactId(s: Rx, digits: string, a: Attempt)
    requires s.noChecksum && s.format.Unknown? && s.expected == 16 && s.gotSomeDigits
    requires |digits| == 16 && TypeIs(digits, "18")
    requires a == Attempt(true, Keys(digits) + [], false, None, true, true, true)
    ensures Iterate(s, a, false).rx.queue == s.queue + [Item(digits, ContactId, 16, false)]
  {
    ReceiveKeys(digits, [], 16, []);
    assert [] + digits == digits;
  }

  lemma BadContactId() returns (bad: string)
    ensures |bad| == 16 && TypeIs(bad, "18") && !ChecksumOk(bad)
  {
    var prefix := "123418113101000";
    var last := if CheckDigit(prefix) == '0' then '1' else '0';
    bad := prefix + [last];
    UniqueCheckDigit(prefix, last);
    assert bad[4..6] == [bad[4], bad[5]] == "18";
  }

  /**
   The flag survives the reset of the format: after an abandoned Super Fast message,
   a Contact ID message is queued although its sum is wrong.
   */
  lemma StaleFlagAdmitsBadSum() returns (attempts: seq<Attempt>)
    ensures var queue := Run(START, attempts, false).rx.queue;
            |queue| == 1 && queue[0].format.ContactId? && !ChecksumOk(queue[0].event)
  {
    var bad := BadContactId();
    var cut := SuperFastStart();
    var a0 := Attempt(true, Keys(cut) + [TimedOut], false, None, true, true, true);
    var a1 := Attempt(true, Keys(bad) + [], false, None, true, true, true);
    AbandonedSuperFast(cut, a0);
    RunOneMore(START, [], a0);
    assert [] + [a0] == [a0];
    UnsummedContactId(Run(START, [a0], false).rx, bad, a1);
    RunOneMore(START, [a0], a1);
    attempts := [a0] + [a1];
  }

  // ---- The imperative receiver ----------------------------------------------

  class Receiver {
    var queue: seq<Item>
    var format: Format
    var noChecksum: bool
    var expected: nat
    var gotSomeDigits: bool
    var eventsReceived: nat
    var ackRetries: nat
    var limitRetries: nat
    var kissoffs: nat

    ghost function View(): Rx
      reads this
    {
      Rx(queue, format, noChecksum, expected, gotSomeDigits, eventsReceived, ackRetries, limitRetries, kissoffs)
    }

    constructor ()
      ensures View() == START
    {
      queue, format, noChecksum, expected, gotSomeDigits := [], Unknown, false, 16, false;
      eventsReceived, ackRetries, limitRetries, kissoffs := 0, 0, 0, 0;
    }

    /** The detection block of the loop: may turn a timed-out receive into a whole message. */
    method Detect(res0: int, event: string) returns (res: int)
      modifies this
      ensures View() == Detected(old(View()), Received(res0, event))
      ensures res == DetectedRes(old(View()), Received(res0, event))
    {
      res := res0;
      if format == Unknown && |event| > 5 {
        var skip;
        format, expected, skip := DetectFormat(event);
        if skip { noChecksum := true; }
        if res > 0 {
          if |event| == expected {
            res, limitRetries := 0, 0;
          } else if |event| == expected - 1 && (format == Express42 || format == Express41) {
            res, limitRetries := 0, 0;
            expected := expected - 1;
            noChecksum := true;
          }
        }
      }
    }

    /** Not all of the digits came. */
    method TryAgain(event: string)
      modifies this
      ensures View() == Incomplete(old(View()), event)
    {
      limitRetries := limitRetries + 1;
      if eventsReceived == 0 && format != Unknown {
        format, expected := Unknown, 16;
      }
      if !gotSomeDigits {
        gotSomeDigits := event != [];
        ackRetries := ackRetries + 1;
      }
    }

    /** Checks, queues and acknowledges a whole message. */
    method Take(event: string, a: Attempt, individual: bool) returns (more: bool)
      requires Sized(View()) && expected <= |event|
      modifies this
      ensures (if more then Next(View()) else Exit(View())) == Complete(old(View()), event, a, individual)
    {
      gotSomeDigits := true;
      if !noChecksum {
        var ok := VerifyChecksum(event, expected);
        if !ok { return true; }
      }
      if !CheckValid(format, event) { return true; }
      eventsReceived := eventsReceived + 1;
      if !a.hasMemory { return false; }
      queue := queue + [Item(event, format, expected, !noChecksum)];
      if individual && !a.logged { return false; }
      if !a.kissedOff { return false; }
      kissoffs := kissoffs + 1;
      if format == ContactId && event[7..10] == "606" { return false; }
      return true;
    }

    /** What is done with a string of digits. */
    method Judge(res0: int, event: string, a: Attempt, individual: bool) returns (more: bool)
      requires Sized(View()) && Plausible(View(), Received(res0, event))
      modifies this
      ensures (if more then Next(View()) else Exit(View()))
           == Handle(old(View()), Received(res0, event), a, individual)
    {
      var res := Detect(res0, event);
      if a.callExpired { return false; }
      if a.retriesLimit.Some? && limitRetries + 1 >= a.retriesLimit.value { return false; }
      if res != 0 {
        TryAgain(event);
        return true;
      }
      more := Take(event, a, individual);
    }

    /** One turn of receive_ademco_event's loop. */
    method Turn(a: Attempt, individual: bool) returns (more: bool)
      requires Sized(View()) || individual
      modifies this
      ensures (if more then Next(View()) else Exit(View())) == Iterate(old(View()), a, individual)
    {
      if individual {
        format, expected, noChecksum := Unknown, 16, false;
      }
      if !gotSomeDigits && !a.ackSent { return false; }
      var res, event := ReceiveDigits(a.ticks, expected);
      if res < 0 { return false; }
      ReceiveProperties(a.ticks, expected, []);
      more := Judge(res, event, a, individual);
    }

    /** receive_ademco_event over the attempts of one call. */
    method ReceiveEvents(attempts: seq<Attempt>, individual: bool) returns (more: bool)
      requires Sized(View()) || individual
      modifies this
      ensures (if more then Next(View()) else Exit(View())) == Run(old(View()), attempts, individual)
    {
      more := true;
      var i := 0;
      while more && i < |attempts|
        invariant 0 <= i <= |attempts|
        invariant Sized(View()) || individual
        invariant (if more then Run(View(), attempts[i..], individual) else Exit(View()))
               == Run(old(View()), attempts, individual)
      {
        assert attempts[i..][1..] == attempts[i + 1..];
        IterateKeepsSized(View(), attempts[i], individual);
        more := Turn(attempts[i], individual);
        i := i + 1;
      }
    }
  }
}
