/**
 Setting up the service level connection of the Bluetooth Hands-Free Profile. The
 driver keeps a FIFO of replies it expects; each initialisation reply queues the next
 request, while calls, messages and console commands queue entries of their own.
 */
module HfpHandshake {
  import opened Options

  datatype At = Ok | Error | CmsError | Ring | Brsf | Cind | CindTest | Ciev | Clip | Cmti | Cmgr | SmsPrompt
              | Cusd | Busy | NoDialtone | NoCarrier | Ecam
              | A | D | Chup | Cmgs | Vgs | Vts | Cmgf | Cnmi | Cmer | Unknown

  datatype Entry = Entry(expected: At, responseTo: At)

  /** An entry taken off the queue, and the message that answered it. */
  datatype Answer = Answer(entry: Entry, message: At)

  datatype Phase = Closed | Open | Failed

  /** `log` records the answers of the current connection. */
  datatype Link = Link(
    phase: Phase, queue: seq<Entry>, initialized: bool, log: seq<Answer>,
    blackberry: bool, hasSms: bool, needCallerId: bool)

  /**
   What the driver cannot decide: whether parsing, sending with queueing, or setting up a channel works,
   and whether a call is up.
   */
  datatype Luck = Luck(parsed: bool, sent: bool, callActive: bool, channelOk: bool, wantsCallerId: bool)

  // ---- Queue operations -------------------------------------------------------

  function Pop(q: seq<Entry>): seq<Entry> {
    if q == [] then [] else q[1..]
  }

  predicate Heads(l: Link, expected: At) {
    l.queue != [] && l.queue[0].expected == expected
  }

  function Fail(l: Link): Link {
    l.(queue := Pop(l.queue), phase := Failed)
  }

  /** The head is answered by `m`; `next` is queued behind everything before the head is dropped. */
  function Advance(l: Link, m: At, next: Option<Entry>): Link
    requires l.queue != []
  {
    var q := if next.Some? then l.queue + [next.value] else l.queue;
    l.(queue := q[1..], log := l.log + [Answer(l.queue[0], m)])
  }

  // ---- Handlers -----------------------------------------------------------------

  function OnBrsf(l: Link, luck: Luck): (r: Link)
    ensures r.blackberry == l.blackberry
  {
    if !Heads(l, Brsf) then l
    else if luck.parsed && luck.sent then Advance(l, Brsf, Some(Entry(Ok, Brsf)))
    else Fail(l)
  }

  function OnCind(l: Link, luck: Luck): (r: Link)
    ensures r.blackberry == l.blackberry
  {
    if !Heads(l, Cind) then l
    else
      var r := l.queue[0].responseTo;
      if (r.CindTest? || r.Cind?) && luck.parsed && luck.sent then Advance(l, Cind, Some(Entry(Ok, r)))
      else Fail(l)
  }

  /** The request that follows an OK, if any. */
  function AfterOk(l: Link, r: At): Option<Entry> {
    match r
    case Brsf => Some(if l.blackberry then Entry(Ok, Cmer) else Entry(Cind, CindTest))
    case CindTest => Some(Entry(Cind, Cind))
    case Cind => Some(if l.blackberry then Entry(Ok, Clip) else Entry(Ok, Cmer))
    case Cmer => Some(if l.blackberry then Entry(Cind, CindTest) else Entry(Ok, Clip))
    case Clip => Some(Entry(Ok, Ecam))
    case Ecam => Some(Entry(Ok, Vgs))
    case Vgs => if l.hasSms then Some(Entry(Ok, Cmgf)) else None
    case Cmgf => Some(Entry(Ok, Cnmi))
    case _ => None
  }

  function OnOk(l: Link, luck: Luck): (r: Link)
    ensures r.blackberry == l.blackberry
  {
    if !Heads(l, Ok) then l
    else
      var r := l.queue[0].responseTo;
      var next := AfterOk(l, r);
      if (r.Cind? && luck.callActive) || (next.Some? && !luck.sent) then Fail(l)
      else
        var l1 := Advance(l, Ok, next);
        l1.(initialized := l.initialized || r.Ecam?, hasSms := l.hasSms || r.Cnmi?)
  }

  predicate TakesError(e: At) {
    e.Ok? || e.Error? || e.CmsError? || e.Cmgr? || e.SmsPrompt?
  }

  /** Replies whose failure ends the connection. */
  predicate Fatal(r: At) {
    r.Brsf? || r.CindTest? || r.Cind? || r.Cmer? || r.Clip? || r.Chup?
  }

  function AfterError(r: At): Option<Entry> {
    if r.Vgs? then Some(Entry(Ok, Cmgf)) else if r.Ecam? then Some(Entry(Ok, Vgs)) else None
  }

  /** The mark that an error reply to `r` leaves. */
  function Refusal(l: Link, r: At): Link {
    l.(initialized := if r.Ecam? then true else l.initialized, hasSms := if r.Cmgf? || r.Cnmi? then false else l.hasSms)
  }

  function Refused(l: Link, m: At, sent: bool, r: At): Link
    requires l.queue != []
  {
    var next := AfterError(r);
    if next.Some? && !sent then Fail(l) else Refusal(Advance(l, m, next), r)
  }

  function OnError(l: Link, m: At, luck: Luck): (l1: Link)
    ensures l1.blackberry == l.blackberry
  {
    if l.queue == [] || !TakesError(l.queue[0].expected) then l
    else
      var r := l.queue[0].responseTo;
      if Fatal(r) then Fail(l) else Refused(l, m, luck.sent, r)
  }

  function OnRing(l: Link, luck: Luck): (r: Link)
    ensures r.blackberry == l.blackberry
  {
    if !l.needCallerId then l
    else if luck.sent then l.(queue := l.queue + [Entry(Clip, Unknown)])
    else l.(phase := Failed)
  }

  function OnClip(l: Link, luck: Luck): (r: Link)
    ensures r.blackberry == l.blackberry
  {
    if !Heads(l, Clip) then l
    else
      var l1 := Advance(l, Clip, None).(needCallerId := false);
      if luck.channelOk then l1
      else l1.(phase := Failed, queue := if luck.sent then l1.queue + [Entry(Ok, Chup)] else l1.queue)
  }

  function OnCmti(l: Link, luck: Luck): (r: Link)
    ensures r.blackberry == l.blackberry
  {
    if luck.parsed && luck.sent then l.(queue := l.queue + [Entry(Cmgr, Cmgr)]) else l.(phase := Failed)
  }

  function OnCmgr(l: Link, luck: Luck): (r: Link)
    ensures r.blackberry == l.blackberry
  {
    if !Heads(l, Cmgr) then l
    else
      var l1 := Advance(l, Cmgr, None);
      if luck.parsed && luck.channelOk then l1 else l1.(phase := Failed)
  }

  function OnSmsPrompt(l: Link, luck: Luck): (r: Link)
    ensures r.blackberry == l.blackberry
  {
    if !Heads(l, SmsPrompt) then l
    else Advance(l, SmsPrompt, if luck.sent then Some(Entry(Ok, Cmgs)) else None)
  }

  /** An indicator event may announce a call, or end the connection. */
  function OnCiev(l: Link, luck: Luck): (r: Link)
    ensures r.blackberry == l.blackberry
  {
    if luck.channelOk then l.(needCallerId := luck.wantsCallerId) else l.(phase := Failed)
  }

  function Receive(l: Link, m: At, luck: Luck): (l1: Link)
    ensures l1.blackberry == l.blackberry
  {
    match m
    case Brsf => OnBrsf(l, luck)
    case Cind => OnCind(l, luck)
    case Ok => OnOk(l, luck)
    case Error => OnError(l, m, luck)
    case CmsError => OnError(l, m, luck)
    case Ring => OnRing(l, luck)
    case Ciev => OnCiev(l, luck)
    case Clip => OnClip(l, luck)
    case Cmti => OnCmti(l, luck)
    case Cmgr => OnCmgr(l, luck)
    case SmsPrompt => OnSmsPrompt(l, luck)
    case _ => l
  }

  // ---- The connection as a state machine -------------------------------------------

  datatype Event = Connect(sent: bool) | Message(m: At, luck: Luck) | Push(e: Entry) | LinkLost | Cleanup

  /** What callers, the console and the text message application queue. */
  predicate External(e: Entry) {
    if e.expected.SmsPrompt? then e.responseTo.Cmgs?
    else
      var r := e.responseTo;
      e.expected.Ok? && (r.Unknown? || r.Cusd? || r.D? || r.Chup? || r.A? || r.Vts?)
  }

  predicate Enabled(l: Link, ev: Event) {
    match ev
    case Connect(_) => l.phase.Closed?
    case Message(_, _) => l.phase.Open?
    case Push(e) => External(e)
    case LinkLost => l.phase.Open?
    case Cleanup => l.phase.Failed?
  }

  function Step(l: Link, ev: Event): Link {
    match ev
    case Connect(sent) =>
      if sent then l.(phase := Open, log := [], queue := l.queue + [Entry(Brsf, Brsf)])
      else l.(phase := Failed, log := [])
    case Message(m, luck) => Receive(l, m, luck)
    case Push(e) => l.(queue := l.queue + [e])
    case LinkLost => l.(phase := Failed)
    case Cleanup => l.(phase := Closed, queue := [], initialized := false)
  }

  // ---- The script the handshake follows -----------------------------------------------

  const STAGES: nat := 9

  /** The initialisation entry of each stage; a blackberry turns on event reporting early. */
  function ScriptAt(blackberry: bool, k: nat): Entry {
    if k == 0 then Entry(Brsf, Brsf)
    else if k == 1 then Entry(Ok, Brsf)
    else if blackberry && k == 2 then Entry(Ok, Cmer)
    else
      var j := if blackberry then k - 1 else k;
      if j == 2 then Entry(Cind, CindTest)
      else if j == 3 then Entry(Ok, CindTest)
      else if j == 4 then Entry(Cind, Cind)
      else if j == 5 then Entry(Ok, Cind)
      else if !blackberry && j == 6 then Entry(Ok, Cmer)
      else if k == 7 then Entry(Ok, Clip)
      else Entry(Ok, Ecam)
  }

  function Script(blackberry: bool): (s: seq<Entry>)
    ensures |s| == STAGES && forall i :: 0 <= i < STAGES ==> s[i] == ScriptAt(blackberry, i)
  {
    seq(STAGES, i requires 0 <= i => ScriptAt(blackberry, i))
  }

  /** The entries that belong to the initialisation. */
  predicate Initial(e: Entry) {
    var r := e.responseTo;
    match e.expected
    case Brsf => r.Brsf?
    case Cind => r.CindTest? || r.Cind?
    case Ok => r.Brsf? || r.CindTest? || r.Cind? || r.Cmer? || r.Clip? || r.Ecam?
    case _ => false
  }

  function InQueue(q: seq<Entry>): seq<Entry> {
    if q == [] then []
    else InQueue(q[..|q| - 1]) + if Initial(q[|q| - 1]) then [q[|q| - 1]] else []
  }

  function InLog(log: seq<Answer>): seq<Entry> {
    if log == [] then []
    else InLog(log[..|log| - 1]) + if Initial(log[|log| - 1].entry) then [log[|log| - 1].entry] else []
  }

  /** Initialisation entries were answered by what they expected, except that ECAM may be refused. */
  predicate Answered(a: Answer) {
    Initial(a.entry) ==>
      a.message == a.entry.expected || (a.entry.responseTo.Ecam? && (a.message.Error? || a.message.CmsError?))
  }

  // ---- The invariant ------------------------------------------------------------------

  /** Every entry ever queued is one of these. */
  predicate Known(e: Entry) {
    var r := e.responseTo;
    || Initial(e) || External(e)
    || (e.expected.Clip? && r.Unknown?) || (e.expected.Cmgr? && r.Cmgr?)
    || (e.expected.Ok? && (r.Cmgs? || r.Vgs? || r.Cmgf? || r.Cnmi?))
  }

  ghost predicate AllKnown(q: seq<Entry>) {
    forall i :: 0 <= i < |q| ==> Known(q[i])
  }

  ghost predicate AllAnswered(log: seq<Answer>) {
    forall i :: 0 <= i < |log| ==> Answered(log[i])
  }

  /** How far the handshake has come: the initialisation entries answered so far. */
  function Stage(l: Link): nat {
    |InLog(l.log)|
  }

  /** The stages done are the first of the script, and the next one alone is awaited. */
  ghost predicate OnTrack(done: seq<Entry>, awaited: seq<Entry>, initialized: bool, script: seq<Entry>) {
    && done <= script
    && awaited == (if |done| < |script| then [script[|done|]] else [])
    && (initialized <==> |done| == |script|)
  }

  /** The stages are answered in script order, and the next one alone is outstanding. */
  ghost predicate OnScript(l: Link, script: seq<Entry>) {
    OnTrack(InLog(l.log), InQueue(l.queue), l.initialized, script)
  }

  ghost predicate Inv(l: Link) {
    && AllKnown(l.queue) && AllAnswered(l.log)
    && (l.phase.Open? ==> OnScript(l, Script(l.blackberry)))
    && (l.phase.Closed? ==> InQueue(l.queue) == [] && !l.initialized)
    && (l.initialized ==> InLog(l.log) == Script(l.blackberry))
  }

  lemma InQueueAppend(q: seq<Entry>, e: Entry)
    ensures InQueue(q + [e]) == InQueue(q) + if Initial(e) then [e] else []
  {
    assert (q + [e])[..|q|] == q;
  }

  lemma {:induction false} InQueueHead(q: seq<Entry>)
    requires q != []
    ensures InQueue(q) == (if Initial(q[0]) then [q[0]] else []) + InQueue(q[1..])
  {
    var n := |q| - 1;
    if n == 0 {
      assert q[..n] == [] && q[1..] == [];
    } else {
      InQueueHead(q[..n]);
      assert q[..n][1..] == q[1..][..n - 1];
    }
  }

  lemma InLogAppend(log: seq<Answer>, a: Answer)
    ensures InLog(log + [a]) == InLog(log) + if Initial(a.entry) then [a.entry] else []
  {
    assert (log + [a])[..|log|] == log;
  }

  /** What answering the head does to the initialisation entries. */
  lemma AdvanceEffect(l: Link, m: At, next: Option<Entry>)
    requires l.queue != []
    ensures var l1, h := Advance(l, m, next), l.queue[0];
            && InLog(l1.log) == InLog(l.log) + (if Initial(h) then [h] else [])
            && InQueue(l.queue) == (if Initial(h) then [h] else []) + InQueue(l.queue[1..])
            && InQueue(l1.queue)
               == InQueue(l.queue[1..]) + if next.Some? && Initial(next.value) then [next.value] else []
  {
    InLogAppend(l.log, Answer(l.queue[0], m));
    InQueueHead(l.queue);
    if next.Some? {
      InQueueAppend(l.queue[1..], next.value);
      assert (l.queue + [next.value])[1..] == l.queue[1..] + [next.value];
    }
  }

  /** A head outside the initialisation comes and goes without touching the script. */
  lemma OtherHead(l: Link, m: At, next: Option<Entry>, script: seq<Entry>)
    requires OnScript(l, script) && l.queue != [] && !Initial(l.queue[0])
    requires next.Some? ==> !Initial(next.value)
    ensures var l1 := Advance(l, m, next); OnScript(l1, script) && Stage(l1) == Stage(l)
  {
    AdvanceEffect(l, m, next);
  }

  lemma HeadIsStage(l: Link, script: seq<Entry>)
    requires OnScript(l, script) && l.queue != [] && Initial(l.queue[0])
    ensures Stage(l) < |script| && l.queue[0] == script[Stage(l)] && InQueue(l.queue[1..]) == []
    ensures !l.initialized
  {
    InQueueHead(l.queue);
    assert InQueue(l.queue)[0] == l.queue[0];
  }

  lemma NextOnTrack(done: seq<Entry>, h: Entry, next: Entry, script: seq<Entry>)
    requires done <= script && |done| < |script| && h == script[|done|]
    requires |done| + 1 < |script| ==> next == script[|done| + 1]
    ensures OnTrack(done + [h], if |done| + 1 < |script| then [next] else [], |done| + 1 == |script|, script)
  {
  }

  /** The head is the outstanding stage: answering it moves one stage on. */
  lemma ScriptHead(l: Link, m: At, next: Entry, script: seq<Entry>)
    requires OnScript(l, script) && l.queue != [] && Initial(l.queue[0])
    requires if Stage(l) + 1 < |script| then next == script[Stage(l) + 1] && Initial(next) else !Initial(next)
    ensures var l1 := Advance(l, m, Some(next)).(initialized := Stage(l) + 1 == |script|);
            OnScript(l1, script) && Stage(l1) == Stage(l) + 1
  {
    HeadIsStage(l, script);
    NextOnTrack(InLog(l.log), l.queue[0], next, script);
    AdvanceEffect(l, m, Some(next));
  }

  lemma AdvanceKeepsKnown(l: Link, m: At, next: Option<Entry>)
    requires AllKnown(l.queue) && AllAnswered(l.log) && l.queue != [] && Answered(Answer(l.queue[0], m))
    requires next.Some? ==> Known(next.value)
    ensures var l1 := Advance(l, m, next); AllKnown(l1.queue) && AllAnswered(l1.log)
  {
  }

  /** The script is what the handlers' replies make of it. */
  lemma ScriptNext(l: Link, k: nat)
    requires k < STAGES
    ensures var script := Script(l.blackberry);
            var e := script[k];
            && Initial(e)
            && (k + 1 < STAGES && e.expected == Ok ==> AfterOk(l, e.responseTo) == Some(script[k + 1]))
            && (k + 1 < STAGES && e.expected != Ok ==> Entry(Ok, e.responseTo) == script[k + 1])
            && (k + 1 < STAGES ==> Initial(script[k + 1]) && !e.responseTo.Ecam?)
            && (k + 1 < STAGES && TakesError(e.expected) ==> Fatal(e.responseTo))
            && (k + 1 == STAGES ==> e == Entry(Ok, Ecam))
  {
  }

  /** The stage never goes back, nor skips one. */
  ghost predicate Progress(l: Link, l1: Link) {
    Stage(l) <= Stage(l1) <= Stage(l) + 1
  }

  lemma BrsfKeepsInv(l: Link, luck: Luck)
    requires Inv(l) && l.phase.Open?
    ensures Inv(OnBrsf(l, luck)) && Progress(l, OnBrsf(l, luck))
  {
    if Heads(l, Brsf) {
      DataKeepsInv(l);
    }
  }

  lemma CindKeepsInv(l: Link, luck: Luck)
    requires Inv(l) && l.phase.Open?
    ensures Inv(OnCind(l, luck)) && Progress(l, OnCind(l, luck))
  {
    if Heads(l, Cind) {
      DataKeepsInv(l);
    }
  }

  lemma DataIsInitial(h: Entry)
    requires Known(h) && (h.expected == Brsf || h.expected == Cind)
    ensures Initial(h) && Initial(Entry(Ok, h.responseTo))
  {
  }

  /** A stage that expects data is answered by it and then expects the OK. */
  lemma DataKeepsInv(l: Link)
    requires Inv(l) && l.phase.Open? && l.queue != [] && (Heads(l, Brsf) || Heads(l, Cind))
    ensures var l1 := Advance(l, l.queue[0].expected, Some(Entry(Ok, l.queue[0].responseTo)));
            Inv(l1) && Stage(l1) == Stage(l) + 1
  {
    var h, script := l.queue[0], Script(l.blackberry);
    DataIsInitial(h);
    AdvanceKeepsKnown(l, h.expected, Some(Entry(Ok, h.responseTo)));
    HeadIsStage(l, script);
    ScriptNext(l, Stage(l));
    ScriptHead(l, h.expected, Entry(Ok, h.responseTo), script);
  }

  /** `next` is the request a reply to `h` leads to: the script's, or one outside it. */
  predicate Leads(l: Link, h: Entry, next: Option<Entry>) {
    && (next.Some? ==> Known(next.value))
    && (if !Initial(h) then !h.responseTo.Ecam? && (next.Some? ==> !Initial(next.value))
        else if h.responseTo.Ecam? then next == Some(Entry(Ok, Vgs))
        else h.expected == Ok && next == AfterOk(l, h.responseTo) && next.Some?)
  }

  lemma AfterOkLeads(l: Link, h: Entry)
    requires Known(h) && h.expected == Ok
    ensures Leads(l, h, AfterOk(l, h.responseTo))
  {
  }

  lemma AfterErrorLeads(l: Link, h: Entry)
    requires Known(h) && TakesError(h.expected) && !Fatal(h.responseTo)
    ensures Leads(l, h, AfterError(h.responseTo)) && (Initial(h) ==> h.responseTo.Ecam?)
  {
  }

  /** A reply that does not end the connection keeps the handshake on its script. */
  lemma ReplyKeepsInv(l: Link, m: At, next: Option<Entry>)
    requires Inv(l) && l.phase.Open? && l.queue != [] && Answered(Answer(l.queue[0], m))
    requires Leads(l, l.queue[0], next)
    ensures var l1 := Advance(l, m, next).(initialized := l.initialized || l.queue[0].responseTo.Ecam?);
            Inv(l1) && Progress(l, l1)
  {
    var script := Script(l.blackberry);
    AdvanceKeepsKnown(l, m, next);
    if Initial(l.queue[0]) {
      HeadIsStage(l, script);
      ScriptNext(l, Stage(l));
      ScriptHead(l, m, next.value, script);
    } else {
      OtherHead(l, m, next, script);
    }
  }

  lemma FailKeepsInv(l: Link)
    requires Inv(l)
    ensures Inv(Fail(l)) && Progress(l, Fail(l))
  {
  }

  lemma SmsIsIrrelevant(l: Link, b: bool)
    requires Inv(l)
    ensures Inv(l.(hasSms := b)) && Stage(l.(hasSms := b)) == Stage(l)
  {
  }

  lemma OkKeepsInv(l: Link, luck: Luck)
    requires Inv(l) && l.phase.Open? && Heads(l, Ok)
    ensures Inv(OnOk(l, luck)) && Progress(l, OnOk(l, luck))
  {
    FailKeepsInv(l);
    var r := l.queue[0].responseTo;
    AfterOkLeads(l, l.queue[0]);
    var next := AfterOk(l, r);
    ReplyKeepsInv(l, Ok, next);
    var l1 := Advance(l, Ok, next).(initialized := l.initialized || r.Ecam?);
    SmsIsIrrelevant(l1, l.hasSms || r.Cnmi?);
    assert OnOk(l, luck) == Fail(l) || OnOk(l, luck) == l1.(hasSms := l.hasSms || r.Cnmi?);
  }

  lemma RefusedKeepsInv(l: Link, m: At, sent: bool, r: At)
    requires Inv(l) && l.phase.Open? && (m == Error || m == CmsError)
    requires l.queue != [] && TakesError(l.queue[0].expected)
    requires r == l.queue[0].responseTo && !Fatal(r)
    ensures Inv(Refused(l, m, sent, r)) && Progress(l, Refused(l, m, sent, r))
  {
    FailKeepsInv(l);
    AfterErrorLeads(l, l.queue[0]);
    var next := AfterError(r);
    ReplyKeepsInv(l, m, next);
    var l1 := Advance(l, m, next).(initialized := l.initialized || r.Ecam?);
    var sms := if r.Cmgf? || r.Cnmi? then false else l.hasSms;
    SmsIsIrrelevant(l1, sms);
    assert Refusal(Advance(l, m, next), r) == l1.(hasSms := sms);
  }

  lemma ErrorKeepsInv(l: Link, m: At, luck: Luck)
    requires Inv(l) && l.phase.Open? && (m == Error || m == CmsError)
    ensures Inv(OnError(l, m, luck)) && Progress(l, OnError(l, m, luck))
  {
    if l.queue != [] && TakesError(l.queue[0].expected) {
      var r := l.queue[0].responseTo;
      if Fatal(r) {
        FailKeepsInv(l);
      } else {
        RefusedKeepsInv(l, m, luck.sent, r);
      }
    }
  }

  lemma PushKeepsInv(l: Link, e: Entry)
    requires Inv(l) && Known(e) && !Initial(e)
    ensures Inv(l.(queue := l.queue + [e]))
  {
    InQueueAppend(l.queue, e);
  }

  lemma FailureKeepsInv(l: Link)
    requires Inv(l)
    ensures Inv(l.(phase := Failed))
  {
  }

  /** An entry outside the initialisation is taken by its own kind of message. */
  lemma TakeKeepsInv(l: Link, m: At, next: Option<Entry>)
    requires Inv(l) && l.phase.Open? && Heads(l, m) && (m == Clip || m == Cmgr || m == SmsPrompt)
    requires next.Some? ==> Known(next.value) && !Initial(next.value)
    ensures var l1 := Advance(l, m, next); Inv(l1) && Stage(l1) == Stage(l)
    ensures Inv(Advance(l, m, next).(needCallerId := false))
  {
    assert Known(l.queue[0]);
    OtherHead(l, m, next, Script(l.blackberry));
    AdvanceKeepsKnown(l, m, next);
  }

  lemma ClipKeepsInv(l: Link, luck: Luck)
    requires Inv(l) && l.phase.Open?
    ensures Inv(OnClip(l, luck)) && Progress(l, OnClip(l, luck))
  {
    if Heads(l, Clip) {
      TakeKeepsInv(l, Clip, None);
      var l1 := Advance(l, Clip, None).(needCallerId := false);
      FailureKeepsInv(l1);
      PushKeepsInv(l1.(phase := Failed), Entry(Ok, Chup));
    }
  }

  lemma RingKeepsInv(l: Link, luck: Luck)
    requires Inv(l) && l.phase.Open?
    ensures Inv(OnRing(l, luck)) && Progress(l, OnRing(l, luck))
  {
    FailureKeepsInv(l);
    PushKeepsInv(l, Entry(Clip, Unknown));
  }

  lemma CmtiKeepsInv(l: Link, luck: Luck)
    requires Inv(l) && l.phase.Open?
    ensures Inv(OnCmti(l, luck)) && Progress(l, OnCmti(l, luck))
  {
    FailureKeepsInv(l);
    PushKeepsInv(l, Entry(Cmgr, Cmgr));
  }

  lemma CievKeepsInv(l: Link, luck: Luck)
    requires Inv(l) && l.phase.Open?
    ensures Inv(OnCiev(l, luck)) && Progress(l, OnCiev(l, luck))
  {
    FailureKeepsInv(l);
  }

  lemma CmgrKeepsInv(l: Link, luck: Luck)
    requires Inv(l) && l.phase.Open?
    ensures Inv(OnCmgr(l, luck)) && Progress(l, OnCmgr(l, luck))
  {
    if Heads(l, Cmgr) {
      TakeKeepsInv(l, Cmgr, None);
      FailureKeepsInv(Advance(l, Cmgr, None));
    }
  }

  lemma SmsPromptKeepsInv(l: Link, luck: Luck)
    requires Inv(l) && l.phase.Open?
    ensures Inv(OnSmsPrompt(l, luck)) && Progress(l, OnSmsPrompt(l, luck))
  {
    if Heads(l, SmsPrompt) {
      TakeKeepsInv(l, SmsPrompt, if luck.sent then Some(Entry(Ok, Cmgs)) else None);
    }
  }

  /** Messages that may answer an initialisation entry. */
  predicate Replies(m: At) {
    m.Brsf? || m.Cind? || m.Ok? || m.Error? || m.CmsError?
  }

  lemma ReplyMessageKeepsInv(l: Link, m: At, luck: Luck)
    requires Inv(l) && l.phase.Open? && Replies(m)
    ensures Inv(Receive(l, m, luck)) && Progress(l, Receive(l, m, luck))
  {
    if m.Brsf? {
      BrsfKeepsInv(l, luck);
    } else if m.Cind? {
      CindKeepsInv(l, luck);
    } else if m.Ok? {
      if Heads(l, Ok) { OkKeepsInv(l, luck); }
    } else {
      ErrorKeepsInv(l, m, luck);
    }
  }

  lemma ClipMessage(l: Link, m: At, luck: Luck)
    requires Inv(l) && l.phase.Open? && m.Clip?
    ensures Inv(Receive(l, m, luck)) && Progress(l, Receive(l, m, luck))
  {
    ClipKeepsInv(l, luck);
  }

  lemma RingMessage(l: Link, m: At, luck: Luck)
    requires Inv(l) && l.phase.Open? && m.Ring?
    ensures Inv(Receive(l, m, luck)) && Progress(l, Receive(l, m, luck))
  {
    RingKeepsInv(l, luck);
  }

  lemma CievMessage(l: Link, m: At, luck: Luck)
    requires Inv(l) && l.phase.Open? && m.Ciev?
    ensures Inv(Receive(l, m, luck)) && Progress(l, Receive(l, m, luck))
  {
    CievKeepsInv(l, luck);
  }

  lemma CmtiMessage(l: Link, m: At, luck: Luck)
    requires Inv(l) && l.phase.Open? && m.Cmti?
    ensures Inv(Receive(l, m, luck)) && Progress(l, Receive(l, m, luck))
  {
    CmtiKeepsInv(l, luck);
  }

  lemma CmgrMessage(l: Link, m: At, luck: Luck)
    requires Inv(l) && l.phase.Open? && m.Cmgr?
    ensures Inv(Receive(l, m, luck)) && Progress(l, Receive(l, m, luck))
  {
    CmgrKeepsInv(l, luck);
  }

  lemma PromptMessage(l: Link, m: At, luck: Luck)
    requires Inv(l) && l.phase.Open? && m.SmsPrompt?
    ensures Inv(Receive(l, m, luck)) && Progress(l, Receive(l, m, luck))
  {
    SmsPromptKeepsInv(l, luck);
  }

  lemma ReceiveKeepsInv(l: Link, m: At, luck: Luck)
    requires Inv(l) && l.phase.Open?
    ensures Inv(Receive(l, m, luck)) && Progress(l, Receive(l, m, luck))
  {
    if Replies(m) {
      ReplyMessageKeepsInv(l, m, luck);
    } else if m.Clip? {
      ClipMessage(l, m, luck);
    } else if m.Ring? {
      RingMessage(l, m, luck);
    } else if m.Ciev? {
      CievMessage(l, m, luck);
    } else if m.Cmti? {
      CmtiMessage(l, m, luck);
    } else if m.Cmgr? {
      CmgrMessage(l, m, luck);
    } else if m.SmsPrompt? {
      PromptMessage(l, m, luck);
    } else {
      assert Receive(l, m, luck) == l;
    }
  }

  lemma ConnectKeepsInv(l: Link)
    requires Inv(l) && l.phase.Closed?
    ensures Inv(Step(l, Connect(true)))
  {
    InQueueAppend(l.queue, Entry(Brsf, Brsf));
    assert Script(l.blackberry)[0] == Entry(Brsf, Brsf);
  }

  lemma StepKeepsInv(l: Link, ev: Event)
    requires Inv(l) && Enabled(l, ev)
    ensures Inv(Step(l, ev))
    ensures !ev.Connect? ==> Progress(l, Step(l, ev))
  {
    match ev {
      case Connect(sent) => if sent { ConnectKeepsInv(l); }
      case Message(m, luck) => ReceiveKeepsInv(l, m, luck);
      case Push(e) => PushKeepsInv(l, e);
      case LinkLost => FailureKeepsInv(l);
      case Cleanup =>
    }
  }

  lemma StepKeepsKind(l: Link, ev: Event)
    ensures Step(l, ev).blackberry == l.blackberry
  {
  }

  // ---- Whole runs -----------------------------------------------------------------------

  predicate Runs(l: Link, evs: seq<Event>)
    decreases |evs|
  {
    evs == [] || (Enabled(l, evs[0]) && Runs(Step(l, evs[0]), evs[1..]))
  }

  function After(l: Link, evs: seq<Event>): Link
    decreases |evs|
  {
    if evs == [] then l else After(Step(l, evs[0]), evs[1..])
  }

  /** A device that has not connected yet. */
  predicate Idle(l: Link) {
    l.phase.Closed? && l.queue == [] && !l.initialized && l.log == []
  }

  lemma {:induction false} RunKeepsInv(l: Link, evs: seq<Event>)
    requires Inv(l) && Runs(l, evs)
    ensures Inv(After(l, evs)) && After(l, evs).blackberry == l.blackberry
    decreases |evs|
  {
    if evs != [] {
      StepKeepsInv(l, evs[0]);
      StepKeepsKind(l, evs[0]);
      RunKeepsInv(Step(l, evs[0]), evs[1..]);
    }
  }

  lemma {:induction false} LoggedSomewhere(log: seq<Answer>, j: nat)
    requires j < |InLog(log)|
    ensures exists i :: 0 <= i < |log| && log[i].entry == InLog(log)[j]
  {
    var n := |log| - 1;
    if j < |InLog(log[..n])| {
      LoggedSomewhere(log[..n], j);
      var i :| 0 <= i < n && log[..n][i].entry == InLog(log[..n])[j];
      assert log[i].entry == InLog(log)[j];
    } else {
      assert log[n].entry == InLog(log)[j];
    }
  }

  /**
   However messages, calls and losses interleave: while a connection is being set up
   exactly one initialisation entry is queued, and it is the script's next stage.
   */
  lemma OneStageOutstanding(l: Link, evs: seq<Event>)
    requires Idle(l) && Runs(l, evs) && After(l, evs).phase.Open?
    ensures var l1 := After(l, evs);
            && InLog(l1.log) <= Script(l.blackberry)
            && (!l1.initialized ==>
                  Stage(l1) < STAGES && InQueue(l1.queue) == [ScriptAt(l.blackberry, Stage(l1))])
            && (l1.initialized ==> InQueue(l1.queue) == [])
  {
    RunKeepsInv(l, evs);
  }

  /** `initialized` means that every stage of the script was answered, in order, as it asked. */
  lemma InitializedMeansAnswered(l: Link, evs: seq<Event>)
    requires Idle(l) && Runs(l, evs) && After(l, evs).initialized
    ensures var log := After(l, evs).log;
            && InLog(log) == Script(l.blackberry)
            && forall k :: 0 <= k < STAGES ==>
                 exists i :: 0 <= i < |log| && log[i].entry == ScriptAt(l.blackberry, k) && Answered(log[i])
  {
    RunKeepsInv(l, evs);
    var log := After(l, evs).log;
    forall k | 0 <= k < STAGES
      ensures exists i :: 0 <= i < |log| && log[i].entry == ScriptAt(l.blackberry, k) && Answered(log[i])
    {
      LoggedSomewhere(log, k);
    }
  }

  // ---- The imperative driver ---------------------------------------------------------------

  /** The fields of a device that the handlers update under its lock. */
  class Device {
    var phase: Phase
    var queue: seq<Entry>
    var initialized: bool
    var log: seq<Answer>
    const blackberry: bool
    var hasSms: bool
    var needCallerId: bool

    ghost function View(): Link
      reads this
    {
      Link(phase, queue, initialized, log, blackberry, hasSms, needCallerId)
    }

    constructor (blackberry: bool, hasSms: bool)
      ensures Idle(View()) && this.blackberry == blackberry && this.hasSms == hasSms
    {
      this.blackberry, this.hasSms := blackberry, hasSms;
      phase, queue, initialized, log, needCallerId := Closed, [], false, [], false;
    }

    method QueuePush(e: Entry)
      modifies this`queue
      ensures queue == old(queue) + [e]
    {
      queue := queue + [e];
    }

    method QueueFreeAndPop()
      modifies this`queue
      ensures queue == Pop(old(queue))
    {
      if queue != [] {
        queue := queue[1..];
      }
    }

    /** The reply is recorded and its entry dropped. */
    method Settle(m: At)
      requires queue != []
      modifies this`queue, this`log
      ensures queue == old(queue)[1..] && log == old(log) + [Answer(old(queue)[0], m)]
    {
      log := log + [Answer(queue[0], m)];
      QueueFreeAndPop();
    }

    /** The handlers' error exit. */
    method GiveUp()
      modifies this`queue, this`phase
      ensures queue == Pop(old(queue)) && phase == Failed
    {
      QueueFreeAndPop();
      phase := Failed;
    }

    method HandleBrsf(luck: Luck)
      modifies this
      ensures View() == OnBrsf(old(View()), luck)
    {
      if queue != [] && queue[0].expected == Brsf {
        if !luck.parsed || !luck.sent {
          GiveUp();
          return;
        }
        QueuePush(Entry(Ok, Brsf));
        Settle(Brsf);
      }
    }

    method HandleCind(luck: Luck)
      modifies this
      ensures View() == OnCind(old(View()), luck)
    {
      if queue != [] && queue[0].expected == Cind {
        var r := queue[0].responseTo;
        if (r != CindTest && r != Cind) || !luck.parsed || !luck.sent {
          GiveUp();
          return;
        }
        QueuePush(Entry(Ok, r));
        Settle(Cind);
      }
    }

    /** The next request, if any, is sent and queued; then the entry answered is dropped. */
    method Reply(luck: Luck, next: Option<Entry>, m: At) returns (ok: bool)
      requires queue != []
      modifies this
      ensures ok == (next.None? || luck.sent)
      ensures View() == if ok then Advance(old(View()), m, next) else Fail(old(View()))
    {
      if next.Some? {
        if !luck.sent {
          GiveUp();
          return false;
        }
        QueuePush(next.value);
      }
      Settle(m);
      return true;
    }

    /** Which request the reply to `r` leads to. */
    method RequestAfterOk(r: At) returns (next: Option<Entry>)
      ensures next == AfterOk(View(), r)
    {
      match r {
        case Brsf => next := Some(if blackberry then Entry(Ok, Cmer) else Entry(Cind, CindTest));
        case CindTest => next := Some(Entry(Cind, Cind));
        case Cind => next := Some(if !blackberry then Entry(Ok, Cmer) else Entry(Ok, Clip));
        case Cmer => next := Some(if blackberry then Entry(Cind, CindTest) else Entry(Ok, Clip));
        case Clip => next := Some(Entry(Ok, Ecam));
        case Ecam => next := Some(Entry(Ok, Vgs));
        case Vgs => next := if hasSms then Some(Entry(Ok, Cmgf)) else None;
        case Cmgf => next := Some(Entry(Ok, Cnmi));
        case _ => next := None;
      }
    }

    method HandleOk(luck: Luck)
      modifies this
      ensures View() == OnOk(old(View()), luck)
    {
      if queue == [] || queue[0].expected != Ok { return; }
      var r := queue[0].responseTo;
      if r == Cind && luck.callActive {
        GiveUp();
        return;
      }
      var next := RequestAfterOk(r);
      var ok := Reply(luck, next, Ok);
      if !ok { return; }
      initialized, hasSms := initialized || r.Ecam?, hasSms || r.Cnmi?;
    }

    method HandleError(m: At, luck: Luck)
      modifies this
      ensures View() == OnError(old(View()), m, luck)
    {
      if queue == [] || !TakesError(queue[0].expected) { return; }
      var r := queue[0].responseTo;
      if Fatal(r) {
        GiveUp();
        return;
      }
      var next := RequestAfterError(r);
      var ok := Reply(luck, next, m);
      if ok { NoteRefusal(r); }
    }

    method NoteRefusal(r: At)
      modifies this
      ensures View() == Refusal(old(View()), r)
    {
      if r.Ecam? { initialized := true; }
      if r.Cmgf? || r.Cnmi? { hasSms := false; }
    }

    method RequestAfterError(r: At) returns (next: Option<Entry>)
      ensures next == AfterError(r)
    {
      match r {
        case Vgs => next := Some(Entry(Ok, Cmgf));
        case Ecam => next := Some(Entry(Ok, Vgs));
        case _ => next := None;
      }
    }

    method HandleRing(luck: Luck)
      modifies this
      ensures View() == OnRing(old(View()), luck)
    {
      if needCallerId {
        if luck.sent {
          QueuePush(Entry(Clip, Unknown));
        } else {
          phase := Failed;
        }
      }
    }

    method HandleClip(luck: Luck)
      modifies this
      ensures View() == OnClip(old(View()), luck)
    {
      if queue != [] && queue[0].expected == Clip {
        Settle(Clip);
        needCallerId := false;
        if !luck.channelOk {
          if luck.sent { QueuePush(Entry(Ok, Chup)); }
          phase := Failed;
        }
      }
    }

    method HandleCmti(luck: Luck)
      modifies this
      ensures View() == OnCmti(old(View()), luck)
    {
      if luck.parsed && luck.sent {
        QueuePush(Entry(Cmgr, Cmgr));
      } else {
        phase := Failed;
      }
    }

    method HandleCmgr(luck: Luck)
      modifies this
      ensures View() == OnCmgr(old(View()), luck)
    {
      if queue != [] && queue[0].expected == Cmgr {
        Settle(Cmgr);
        if !luck.parsed || !luck.channelOk { phase := Failed; }
      }
    }

    method HandleSmsPrompt(luck: Luck)
      modifies this
      ensures View() == OnSmsPrompt(old(View()), luck)
    {
      if queue == [] || queue[0].expected != SmsPrompt { return; }
      if luck.sent { QueuePush(Entry(Ok, Cmgs)); }
      Settle(SmsPrompt);
    }

    /** The monitor's cleanup; the queue is flushed entry by entry. */
    method Close()
      requires phase == Failed
      modifies this
      ensures View() == Step(old(View()), Cleanup)
    {
      while queue != []
        invariant phase == Failed && View() == old(View()).(queue := queue)
        decreases |queue|
      {
        QueueFreeAndPop();
      }
      phase, initialized := Closed, false;
    }
  }
}
