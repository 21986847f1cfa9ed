/**
 * The handshake of the hands-free driver gets on (addons/chan_mobile.c): what answers it, what ends it, and
 * that a phone which answers everything in turn is always set up.
 */
module HfpProgress {
  import opened Options
  import opened HfpHandshake

  /** Parsing, sending and channels work out, and no call is up. */
  predicate Lucky(luck: Luck) {
    luck.parsed && luck.sent && luck.channelOk && !luck.callActive
  }

  const LUCKY: Luck := Luck(true, true, false, true, false)

  predicate IsError(m: At) {
    m == Error || m == CmsError
  }

  /** The messages that answer the nine stages. */
  function Answers(blackberry: bool): (r: seq<At>)
    ensures |r| == STAGES
  {
    if blackberry then [Brsf, Ok, Ok, Cind, Ok, Cind, Ok, Ok, Ok] else [Brsf, Ok, Cind, Ok, Cind, Ok, Ok, Ok, Ok]
  }

  /** What the stages are about. */
  function Topics(blackberry: bool): (r: seq<At>)
    ensures |r| == STAGES
  {
    if blackberry then [Brsf, Brsf, Cmer, CindTest, CindTest, Cind, Cind, Clip, Ecam]
    else [Brsf, Brsf, CindTest, CindTest, Cind, Cind, Cmer, Clip, Ecam]
  }

  lemma ScriptIsLiteral(blackberry: bool, k: nat)
    requires k < STAGES
    ensures ScriptAt(blackberry, k) == Entry(Answers(blackberry)[k], Topics(blackberry)[k])
  {
  }

  // ---- One message ---------------------------------------------------------------------

  /** The message answers the outstanding stage. */
  predicate AnswersStage(l: Link, m: At) {
    l.queue != [] && Initial(l.queue[0]) && m == l.queue[0].expected
  }

  /** The request that follows the head's answer. */
  function Following(l: Link): Option<Entry>
    requires l.queue != []
  {
    var h := l.queue[0];
    match h.expected
    case Ok => AfterOk(l, h.responseTo)
    case Brsf => Some(Entry(Ok, h.responseTo))
    case Cind => Some(Entry(Ok, h.responseTo))
    case SmsPrompt => Some(Entry(Ok, Cmgs))
    case _ => None
  }

  /** The head is answered: it is logged and dropped, and what follows is queued behind everything. */
  ghost predicate Taken(l: Link, l1: Link, m: At, next: Option<Entry>)
    requires l.queue != []
  {
    && l1.phase == l.phase && l1.blackberry == l.blackberry
    && l1.queue == Advance(l, m, next).queue && l1.log == Advance(l, m, next).log
  }

  lemma DataTaken(l: Link, m: At, luck: Luck)
    requires l.queue != [] && Known(l.queue[0]) && m == l.queue[0].expected && (m == Brsf || m == Cind)
    requires luck.parsed && luck.sent
    ensures Taken(l, Receive(l, m, luck), m, Following(l))
  {
  }

  lemma OkTaken(l: Link, luck: Luck)
    requires l.queue != [] && l.queue[0].expected == Ok && luck.sent && !luck.callActive
    ensures Taken(l, Receive(l, Ok, luck), Ok, Following(l))
  {
  }

  lemma OthersTaken(l: Link, m: At, luck: Luck)
    requires l.queue != [] && Known(l.queue[0]) && m == l.queue[0].expected && !Replies(m)
    requires Lucky(luck)
    ensures Taken(l, Receive(l, m, luck), m, Following(l))
  {
  }

  lemma TakenStage(l: Link, l1: Link, m: At, next: Option<Entry>)
    requires l.queue != [] && Taken(l, l1, m, next)
    ensures Stage(l1) == Stage(l) + (if Initial(l.queue[0]) then 1 else 0) && l.queue[1..] <= l1.queue
  {
    InLogAppend(l.log, Answer(l.queue[0], m));
    if next.Some? { assert (l.queue + [next.value])[1..] == l.queue[1..] + [next.value]; }
  }

  lemma InitialReplies(e: Entry)
    requires Initial(e)
    ensures e.expected == Ok || e.expected == Brsf || e.expected == Cind
  {
  }

  lemma HeadStage(l: Link)
    requires Inv(l) && l.phase.Open? && l.queue != [] && Initial(l.queue[0])
    ensures Stage(l) < STAGES
    ensures l.queue[0] == Entry(Answers(l.blackberry)[Stage(l)], Topics(l.blackberry)[Stage(l)])
  {
    HeadIsStage(l, Script(l.blackberry));
    ScriptIsLiteral(l.blackberry, Stage(l));
  }

  lemma InitializedAtLast(l: Link)
    requires Inv(l) && l.phase.Open?
    ensures Stage(l) <= STAGES && (l.initialized <==> Stage(l) == STAGES)
  {
  }

  /**
   * In every reachable open link, the message the outstanding stage expects, with luck on its side and no
   * call up, moves one stage on and leaves the link open; after the ninth it is initialized.
   */
  lemma StageAnswered(l: Link, luck: Luck)
    requires Inv(l) && l.phase.Open? && l.queue != [] && Initial(l.queue[0])
    requires luck.parsed && luck.sent && !luck.callActive
    ensures Stage(l) < STAGES
    ensures l.queue[0] == Entry(Answers(l.blackberry)[Stage(l)], Topics(l.blackberry)[Stage(l)])
    ensures var l1 := Receive(l, l.queue[0].expected, luck);
            && l1.phase.Open? && Inv(l1) && Stage(l1) == Stage(l) + 1
            && (l1.initialized <==> Stage(l1) == STAGES)
            && l.queue[1..] <= l1.queue
  {
    var m := l.queue[0].expected;
    var l1 := Receive(l, m, luck);
    HeadStage(l);
    InitialReplies(l.queue[0]);
    ReceiveKeepsInv(l, m, luck);
    if m == Ok { OkTaken(l, luck); } else { DataTaken(l, m, luck); }
    TakenStage(l, l1, m, Following(l));
    InitializedAtLast(l1);
  }

  /** An entry of a call, a message or the console is settled by what it expects, and the stages stay as they are. */
  lemma OtherSettled(l: Link, luck: Luck)
    requires Inv(l) && l.phase.Open? && l.queue != [] && !Initial(l.queue[0]) && Lucky(luck)
    ensures var l1 := Receive(l, l.queue[0].expected, luck);
            l1.phase.Open? && Inv(l1) && Stage(l1) == Stage(l) && l.queue[1..] <= l1.queue
  {
    var m := l.queue[0].expected;
    assert Known(l.queue[0]);
    ReceiveKeepsInv(l, m, luck);
    if m == Ok { OkTaken(l, luck); } else { OthersTaken(l, m, luck); }
    TakenStage(l, Receive(l, m, luck), m, Following(l));
  }

  lemma UnrelatedLeaves(l: Link, m: At, luck: Luck)
    requires Lucky(luck) && !IsError(m) && !(l.queue != [] && m == l.queue[0].expected)
    ensures var l1 := Receive(l, m, luck); l1.phase == l.phase && l1.log == l.log && l.queue <= l1.queue
  {
  }

  /** A message that is not what the head expects, and no error, leaves the stages and the head alone. */
  lemma Unrelated(l: Link, m: At, luck: Luck)
    requires Inv(l) && l.phase.Open? && Lucky(luck) && !IsError(m) && !(l.queue != [] && m == l.queue[0].expected)
    ensures var l1 := Receive(l, m, luck);
            l1.phase.Open? && Inv(l1) && Stage(l1) == Stage(l) && l.queue <= l1.queue
  {
    UnrelatedLeaves(l, m, luck);
    ReceiveKeepsInv(l, m, luck);
  }

  // ---- Runs in which nothing goes wrong -------------------------------------------------

  /** Anything but an error, with luck, in any order; others may queue entries of their own. */
  predicate Smooth(ev: Event) {
    ev.Push? || (ev.Message? && Lucky(ev.luck) && !IsError(ev.m))
  }

  ghost predicate AllSmooth(evs: seq<Event>) {
    forall i :: 0 <= i < |evs| ==> Smooth(evs[i])
  }

  /** How many stages are answered on the way. */
  function StagesAnswered(l: Link, evs: seq<Event>): nat
    decreases |evs|
  {
    if evs == [] then 0
    else (if evs[0].Message? && AnswersStage(l, evs[0].m) then 1 else 0) + StagesAnswered(Step(l, evs[0]), evs[1..])
  }

  lemma SmoothStep(l: Link, ev: Event)
    requires Inv(l) && l.phase.Open? && Enabled(l, ev) && Smooth(ev)
    ensures var l1 := Step(l, ev);
            && l1.phase.Open? && Inv(l1)
            && Stage(l1) == Stage(l) + if ev.Message? && AnswersStage(l, ev.m) then 1 else 0
  {
    if ev.Push? {
      PushKeepsInv(l, ev.e);
    } else if l.queue != [] && ev.m == l.queue[0].expected {
      if Initial(l.queue[0]) { StageAnswered(l, ev.luck); } else { OtherSettled(l, ev.luck); }
    } else {
      Unrelated(l, ev.m, ev.luck);
    }
  }

  lemma {:induction false} SmoothRun(l: Link, evs: seq<Event>)
    requires Inv(l) && l.phase.Open? && Runs(l, evs) && AllSmooth(evs)
    ensures var l1 := After(l, evs);
            l1.phase.Open? && Inv(l1) && Stage(l1) == Stage(l) + StagesAnswered(l, evs)
    decreases |evs|
  {
    if evs != [] {
      SmoothStep(l, evs[0]);
      SmoothRun(Step(l, evs[0]), evs[1..]);
    }
  }

  /**
   * A connection in which nothing goes wrong, whatever else is queued, asked and answered in between, stays
   * open, and is initialized if and only if all nine stages have been answered.
   */
  lemma InitializedAfterNine(l: Link, evs: seq<Event>)
    requires Idle(l) && evs != [] && evs[0] == Connect(true) && Runs(l, evs) && AllSmooth(evs[1..])
    ensures var l1 := After(l, evs);
            var n := StagesAnswered(Step(l, evs[0]), evs[1..]);
            l1.phase.Open? && Stage(l1) == n <= STAGES && (l1.initialized <==> n == STAGES)
  {
    ConnectKeepsInv(l);
    SmoothRun(Step(l, evs[0]), evs[1..]);
    InitializedAtLast(After(l, evs));
  }

  // ---- Every connection can be completed ----------------------------------------------------

  /** Where in the queue the outstanding stage is. */
  function Position(q: seq<Entry>): (p: nat)
    ensures p <= |q| && (p < |q| ==> Initial(q[p]))
  {
    if q == [] || Initial(q[0]) then 0 else 1 + Position(q[1..])
  }

  lemma {:induction false} PositionInLonger(q: seq<Entry>, r: seq<Entry>)
    requires q <= r && Position(q) < |q|
    ensures Position(r) == Position(q)
    decreases |q|
  {
    if !Initial(q[0]) {
      assert q[1..] <= r[1..];
      PositionInLonger(q[1..], r[1..]);
    }
  }

  lemma {:induction false} StageIsQueued(q: seq<Entry>)
    requires InQueue(q) != []
    ensures Position(q) < |q|
    decreases |q|
  {
    InQueueHead(q);
    if !Initial(q[0]) { StageIsQueued(q[1..]); }
  }

  lemma SettlingBringsItNearer(l: Link, l1: Link)
    requires l.queue != [] && !Initial(l.queue[0]) && l.queue[1..] <= l1.queue && Position(l.queue) < |l.queue|
    ensures Position(l1.queue) == Position(l.queue) - 1
  {
    PositionInLonger(l.queue[1..], l1.queue);
  }

  lemma OutstandingIsQueued(l: Link)
    requires Inv(l) && l.phase.Open? && !l.initialized
    ensures Stage(l) < STAGES && Position(l.queue) < |l.queue|
  {
    assert |Script(l.blackberry)| == STAGES;
    assert InQueue(l.queue) == [Script(l.blackberry)[Stage(l)]];
    StageIsQueued(l.queue);
  }

  /** The outstanding stage is answered, or one entry nearer to the head. */
  ghost predicate Nearer(l: Link, l1: Link) {
    Stage(l) < Stage(l1) <= STAGES || (Stage(l) == Stage(l1) && Position(l1.queue) < Position(l.queue))
  }

  lemma AnswerStage(l: Link, l1: Link)
    requires Inv(l) && l.phase.Open? && l.queue != [] && Initial(l.queue[0])
    requires l1 == Receive(l, l.queue[0].expected, LUCKY)
    ensures Inv(l1) && l1.phase.Open? && Nearer(l, l1)
  {
    StageAnswered(l, LUCKY);
  }

  lemma AnswerOther(l: Link, l1: Link)
    requires Inv(l) && l.phase.Open? && l.queue != [] && !Initial(l.queue[0]) && Position(l.queue) < |l.queue|
    requires l1 == Receive(l, l.queue[0].expected, LUCKY)
    ensures Inv(l1) && l1.phase.Open? && Nearer(l, l1)
  {
    OtherSettled(l, LUCKY);
    SettlingBringsItNearer(l, l1);
  }

  lemma AnswerHead(l: Link) returns (ev: Event, l1: Link)
    requires Inv(l) && l.phase.Open? && !l.initialized
    ensures Smooth(ev) && Enabled(l, ev) && l1 == Step(l, ev) && Inv(l1) && l1.phase.Open? && Nearer(l, l1)
  {
    OutstandingIsQueued(l);
    ev, l1 := Message(l.queue[0].expected, LUCKY), Receive(l, l.queue[0].expected, LUCKY);
    if Initial(l.queue[0]) { AnswerStage(l, l1); } else { AnswerOther(l, l1); }
  }

  /** A smooth way to an initialized connection. */
  ghost predicate Completes(l: Link, evs: seq<Event>) {
    Runs(l, evs) && AllSmooth(evs) && After(l, evs).initialized && After(l, evs).phase.Open?
  }

  lemma CompletesNext(l: Link, ev: Event, rest: seq<Event>)
    requires Enabled(l, ev) && Smooth(ev) && Completes(Step(l, ev), rest)
    ensures Completes(l, [ev] + rest)
  {
    assert ([ev] + rest)[1..] == rest;
  }

  /** From every reachable open link, answering the head of the queue in turn ends in an initialized connection. */
  lemma {:induction false} CanBeCompleted(l: Link) returns (evs: seq<Event>)
    requires Inv(l) && l.phase.Open?
    ensures Completes(l, evs)
    decreases STAGES - Stage(l), Position(l.queue)
  {
    if l.initialized {
      evs := [];
    } else {
      var ev, l1 := AnswerHead(l);
      var rest := CanBeCompleted(l1);
      CompletesNext(l, ev, rest);
      evs := [ev] + rest;
    }
  }

  // ---- The handshake by itself --------------------------------------------------------------

  /** The phone answers with these messages. */
  function Say(ms: seq<At>, luck: Luck): (evs: seq<Event>)
    ensures |evs| == |ms| && forall i :: 0 <= i < |evs| ==> evs[i] == Message(ms[i], luck)
  {
    seq(|ms|, i requires 0 <= i < |ms| => Message(ms[i], luck))
  }

  /** The stage is all that is awaited. */
  predicate Alone(l: Link, e: Entry) {
    l.phase.Open? && l.queue == [e]
  }

  lemma AloneData(l: Link, e: Entry, luck: Luck)
    requires Alone(l, e) && Lucky(luck)
    requires e.expected == Brsf || (e.expected == Cind && (e.responseTo == CindTest || e.responseTo == Cind))
    ensures var l1 := Receive(l, e.expected, luck);
            && Alone(l1, Entry(Ok, if e.expected == Brsf then Brsf else e.responseTo))
            && l1.hasSms == l.hasSms && l1.initialized == l.initialized
  {
  }

  lemma AloneOk(l: Link, e: Entry, luck: Luck, next: Entry)
    requires Alone(l, e) && e.expected == Ok && AfterOk(l, e.responseTo) == Some(next) && Lucky(luck)
    ensures var l1 := Receive(l, Ok, luck);
            && Alone(l1, next) && l1.hasSms == (l.hasSms || e.responseTo == Cnmi)
            && l1.initialized == (l.initialized || e.responseTo == Ecam)
  {
  }

  /** What is awaited at a stage, and then VGS. */
  function Awaited(blackberry: bool, k: nat): Entry {
    if k < STAGES then ScriptAt(blackberry, k) else Entry(Ok, Vgs)
  }

  lemma AloneMoves(l: Link, luck: Luck, k: nat)
    requires k < STAGES && Alone(l, Awaited(l.blackberry, k)) && Lucky(luck)
    ensures var l1 := Receive(l, Answers(l.blackberry)[k], luck);
            && Alone(l1, Awaited(l.blackberry, k + 1)) && l1.hasSms == l.hasSms
            && l1.initialized == (l.initialized || k + 1 == STAGES)
  {
    var e := ScriptAt(l.blackberry, k);
    ScriptIsLiteral(l.blackberry, k);
    ScriptNext(l, k);
    if e.expected == Ok { AloneOk(l, e, luck, Awaited(l.blackberry, k + 1)); } else { AloneData(l, e, luck); }
  }

  /** The link after these answers. */
  ghost predicate SetUp(l: Link, evs: seq<Event>, sms: bool) {
    Runs(l, evs) && After(l, evs).initialized && Alone(After(l, evs), Entry(Ok, Vgs)) && After(l, evs).hasSms == sms
  }

  lemma SetUpNext(l: Link, evs: seq<Event>, sms: bool)
    requires evs != [] && Enabled(l, evs[0]) && SetUp(Step(l, evs[0]), evs[1..], sms)
    ensures SetUp(l, evs, sms)
  {
  }

  lemma {:induction false} StagesInTurn(l: Link, luck: Luck, k: nat)
    requires k <= STAGES && Alone(l, Awaited(l.blackberry, k)) && Lucky(luck) && (k == STAGES ==> l.initialized)
    ensures SetUp(l, Say(Answers(l.blackberry)[k..], luck), l.hasSms)
    decreases STAGES - k
  {
    var evs := Say(Answers(l.blackberry)[k..], luck);
    if k < STAGES {
      AloneMoves(l, luck, k);
      StagesInTurn(Step(l, evs[0]), luck, k + 1);
      assert evs[1..] == Say(Answers(l.blackberry)[k + 1..], luck);
      SetUpNext(l, evs, l.hasSms);
    }
  }

  /** Connecting and the nine answers, in the order of either kind of phone, set the connection up. */
  lemma NineAnswers(l: Link, luck: Luck)
    requires Idle(l) && Lucky(luck)
    ensures var evs := [Connect(true)] + Say(Answers(l.blackberry), luck);
            && Runs(l, evs) && After(l, evs).initialized && After(l, evs).phase.Open?
            && After(l, evs).queue == [Entry(Ok, Vgs)] && After(l, evs).hasSms == l.hasSms
  {
    var evs := [Connect(true)] + Say(Answers(l.blackberry), luck);
    var l1 := Step(l, evs[0]);
    assert evs[1..] == Say(Answers(l.blackberry), luck) && Answers(l.blackberry)[0..] == Answers(l.blackberry);
    StagesInTurn(l1, luck, 0);
    SetUpNext(l, evs, l.hasSms);
  }

  lemma ThreeSteps(l: Link, e0: Event, e1: Event, e2: Event)
    requires Enabled(l, e0) && Enabled(Step(l, e0), e1) && Enabled(Step(Step(l, e0), e1), e2)
    ensures Runs(l, [e0, e1, e2]) && After(l, [e0, e1, e2]) == Step(Step(Step(l, e0), e1), e2)
  {
    TwoSteps(Step(l, e0), e1, e2);
    assert [e0, e1, e2][1..] == [e1, e2];
  }

  lemma VgsRefused(l: Link, m: At, luck: Luck)
    requires Alone(l, Entry(Ok, Vgs)) && IsError(m) && Lucky(luck)
    ensures Alone(Receive(l, m, luck), Entry(Ok, Cmgf))
  {
  }

  lemma LastAnswer(l: Link, luck: Luck)
    requires Alone(l, Entry(Ok, Cnmi)) && Lucky(luck)
    ensures var l1 := Receive(l, Ok, luck); l1.phase.Open? && l1.queue == [] && l1.hasSms
  {
  }

  /** Text messages are then set up by the answers to VGS, which may be refused, CMGF and CNMI. */
  lemma MessagesSetUp(l: Link, luck: Luck, m: At)
    requires Alone(l, Entry(Ok, Vgs)) && Lucky(luck) && (if m == Ok then l.hasSms else IsError(m))
    ensures var evs := [Message(m, luck), Message(Ok, luck), Message(Ok, luck)];
            Runs(l, evs) && After(l, evs).hasSms && After(l, evs).queue == [] && After(l, evs).phase.Open?
  {
    if m == Ok { AloneOk(l, Entry(Ok, Vgs), luck, Entry(Ok, Cmgf)); } else { VgsRefused(l, m, luck); }
    var l1 := Receive(l, m, luck);
    AloneOk(l1, Entry(Ok, Cmgf), luck, Entry(Ok, Cnmi));
    LastAnswer(Receive(l1, Ok, luck), luck);
    ThreeSteps(l, Message(m, luck), Message(Ok, luck), Message(Ok, luck));
  }

  // ---- What ends a connection -----------------------------------------------------------------

  predicate HeadExpects(l: Link, m: At) {
    l.queue != [] && l.queue[0].expected == m
  }

  /** The head is about one of these. */
  predicate About(l: Link, topics: set<At>) {
    l.queue != [] && l.queue[0].responseTo in topics
  }

  /** What is asked next when the head is answered by OK. */
  predicate AsksNext(l: Link) {
    About(l, {Brsf, CindTest, Cind, Cmer, Clip, Ecam, Cmgf}) || (About(l, {Vgs}) && l.hasSms)
  }

  ghost predicate HeadKnown(l: Link) {
    l.queue != [] ==> Known(l.queue[0])
  }

  /** What a message has to meet to end the connection. */
  predicate Ending(l: Link, m: At, luck: Luck) {
    match m
    case Brsf => HeadExpects(l, Brsf) && !(luck.parsed && luck.sent)
    case Cind => HeadExpects(l, Cind) && !(luck.parsed && luck.sent)
    case Ok => HeadExpects(l, Ok) && ((AsksNext(l) && !luck.sent) || (About(l, {Cind}) && luck.callActive))
    case Error => Refusing(l, luck)
    case CmsError => Refusing(l, luck)
    case Ring => l.needCallerId && !luck.sent
    case Ciev => !luck.channelOk
    case Clip => HeadExpects(l, Clip) && !luck.channelOk
    case Cmti => !(luck.parsed && luck.sent)
    case Cmgr => HeadExpects(l, Cmgr) && !(luck.parsed && luck.channelOk)
    case _ => false
  }

  /** What is refused cannot be done without, or cannot be followed up. */
  predicate Refusing(l: Link, luck: Luck) {
    && (HeadExpects(l, Ok) || HeadExpects(l, Cmgr) || HeadExpects(l, SmsPrompt))
    && (About(l, {Brsf, CindTest, Cind, Cmer, Clip, Chup}) || (About(l, {Ecam, Vgs}) && !luck.sent))
  }

  lemma DataEnds(l: Link, m: At, luck: Luck)
    requires l.phase.Open? && HeadKnown(l) && (m == Brsf || m == Cind)
    ensures !Receive(l, m, luck).phase.Open? <==> Ending(l, m, luck)
  {
  }

  lemma OkEnds(l: Link, m: At, luck: Luck)
    requires l.phase.Open? && m == Ok
    ensures !Receive(l, m, luck).phase.Open? <==> Ending(l, m, luck)
  {
  }

  lemma ErrorEnds(l: Link, m: At, luck: Luck)
    requires l.phase.Open? && HeadKnown(l) && IsError(m)
    ensures !Receive(l, m, luck).phase.Open? <==> Ending(l, m, luck)
  {
  }

  lemma OthersEnd(l: Link, m: At, luck: Luck)
    requires l.phase.Open? && !Replies(m)
    ensures !Receive(l, m, luck).phase.Open? <==> Ending(l, m, luck)
  {
  }

  /**
   * A message ends the connection if and only if: the awaited BRSF or CIND cannot be read or answered; an
   * awaited OK cannot be followed up, or ends the reading of the indicators while a call is up; an error
   * answers BRSF, either CIND, CMER, CLIP or a hang-up, or cannot be followed up after ECAM or VGS; or a call
   * or a text message cannot be dealt with.
   */
  lemma EndsExactly(l: Link, m: At, luck: Luck)
    requires Inv(l) && l.phase.Open?
    ensures !Receive(l, m, luck).phase.Open? <==> Ending(l, m, luck)
  {
    HeadIsKnown(l);
    if Replies(m) { RepliesEnd(l, m, luck); } else { OthersEnd(l, m, luck); }
  }

  lemma RepliesEnd(l: Link, m: At, luck: Luck)
    requires l.phase.Open? && HeadKnown(l) && Replies(m)
    ensures !Receive(l, m, luck).phase.Open? <==> Ending(l, m, luck)
  {
    if m == Brsf || m == Cind {
      DataEnds(l, m, luck);
    } else if m == Ok {
      OkEnds(l, m, luck);
    } else {
      ErrorEnds(l, m, luck);
    }
  }

  lemma HeadIsKnown(l: Link)
    requires Inv(l)
    ensures HeadKnown(l)
  {
  }

  lemma RepliesChangeSms(l: Link, m: At, luck: Luck)
    requires HeadKnown(l) && (m == Ok || IsError(m))
    ensures Receive(l, m, luck).hasSms ==
              if m == Ok && HeadExpects(l, Ok) && About(l, {Cnmi}) then true
              else if IsError(m) && HeadExpects(l, Ok) && About(l, {Cmgf, Cnmi}) then false
              else l.hasSms
  {
  }

  /** Whether text messages work changes with the answers to CNMI and CMGF alone. */
  lemma SmsChangesExactly(l: Link, m: At, luck: Luck)
    requires Inv(l) && l.phase.Open?
    ensures Receive(l, m, luck).hasSms ==
              if m == Ok && HeadExpects(l, Ok) && About(l, {Cnmi}) then true
              else if IsError(m) && HeadExpects(l, Ok) && About(l, {Cmgf, Cnmi}) then false
              else l.hasSms
  {
    HeadIsKnown(l);
    if m == Ok || IsError(m) { RepliesChangeSms(l, m, luck); }
  }

  /** Caller id is waited for from the event that asks for it until it has come. */
  lemma CallerIdChangesExactly(l: Link, m: At, luck: Luck)
    ensures Receive(l, m, luck).needCallerId ==
              if m == Ciev && luck.channelOk then luck.wantsCallerId
              else if m == Clip && HeadExpects(l, Clip) then false
              else l.needCallerId
  {
  }

  // ---- Calls and messages -----------------------------------------------------------------------

  /** Open, with nothing awaited. */
  predicate Quiet(l: Link) {
    l.phase.Open? && l.queue == []
  }

  /** A call is announced, rings, and its caller id comes: nothing is awaited any more. */
  lemma CallComes(l: Link, luck: Luck)
    requires Quiet(l) && Lucky(luck) && luck.wantsCallerId
    ensures var evs := [Message(Ciev, luck), Message(Ring, luck), Message(Clip, luck)];
            && Runs(l, evs) && Quiet(After(l, evs)) && !After(l, evs).needCallerId
            && After(l, evs).log == l.log + [Answer(Entry(Clip, Unknown), Clip)]
  {
    var l1 := Step(l, Message(Ciev, luck));
    var l2 := Step(l1, Message(Ring, luck));
    assert l2.queue == [Entry(Clip, Unknown)] && l2.phase.Open?;
    ThreeSteps(l, Message(Ciev, luck), Message(Ring, luck), Message(Clip, luck));
  }

  lemma TwoSteps(l: Link, e0: Event, e1: Event)
    requires Enabled(l, e0) && Enabled(Step(l, e0), e1)
    ensures Runs(l, [e0, e1]) && After(l, [e0, e1]) == Step(Step(l, e0), e1)
  {
    assert [e0, e1][1..] == [e1];
    OneStep(Step(l, e0), e1);
  }

  lemma OneStep(l: Link, e: Event)
    requires Enabled(l, e)
    ensures Runs(l, [e]) && After(l, [e]) == Step(l, e)
  {
    assert [e][1..] == [];
    assert After(Step(l, e), []) == Step(l, e);
  }

  /** A stored message is announced, asked for and read. */
  lemma MessageComes(l: Link, luck: Luck)
    requires Quiet(l) && Lucky(luck)
    ensures var evs := [Message(Cmti, luck), Message(Cmgr, luck)];
            && Runs(l, evs) && Quiet(After(l, evs))
            && After(l, evs).log == l.log + [Answer(Entry(Cmgr, Cmgr), Cmgr)]
  {
    TwoSteps(l, Message(Cmti, luck), Message(Cmgr, luck));
  }

  /** A message to be sent is asked for by the prompt and then confirmed. */
  lemma MessageGoes(l: Link, luck: Luck)
    requires Quiet(l) && Lucky(luck)
    ensures var evs := [Push(Entry(SmsPrompt, Cmgs)), Message(SmsPrompt, luck), Message(Ok, luck)];
            && Runs(l, evs) && Quiet(After(l, evs))
            && After(l, evs).log == l.log + [Answer(Entry(SmsPrompt, Cmgs), SmsPrompt)] + [Answer(Entry(Ok, Cmgs), Ok)]
  {
    var e := Entry(SmsPrompt, Cmgs);
    var l1 := Step(l, Push(e));
    var l2 := Step(l1, Message(SmsPrompt, luck));
    assert l1.queue == [e] && l2.queue == [Entry(Ok, Cmgs)] && l2.phase.Open?;
    ThreeSteps(l, Push(e), Message(SmsPrompt, luck), Message(Ok, luck));
  }
}
