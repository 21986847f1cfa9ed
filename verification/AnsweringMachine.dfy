/**
 Answering machine detection: one pass over the frames of a call, keeping a handful
 of counters, until one of them settles the question. Times are in milliseconds.
 */
module AnsweringMachine {
  import opened Options

  datatype Config = Config(
    initialSilence: int, greeting: int, afterGreetingSilence: int, totalAnalysisTime: int,
    minimumWordLength: int, betweenWordsSilence: int, maximumNumberOfWords: int, maximumWordLength: int)

  /** A voice frame carries its length and the silence the detector reports after it. */
  datatype Frame = Voice(length: nat, silence: nat) | Cng | Other

  /** One wait on the channel: how long it took, the frame read, and whether wall-clock time ran out. */
  datatype Input = WaitFailed | Input(waited: nat, frame: Option<Frame>, late: bool)

  datatype Status = Blank | Hangup | NotSure | Machine | Human

  datatype Cause = NoCause | NoAudioData(total: nat) | TooLong(total: nat)
                 | InitialSilence(silence: int, limit: int) | HumanCause(silence: int, limit: int)
                 | MaxWordLength(voice: int) | MaxWords(words: int, limit: int) | LongGreeting(voice: int, limit: int)

  datatype State = State(
    inInitialSilence: bool, inGreeting: bool, voiceDuration: nat, silenceDuration: nat, totalTime: nat,
    words: nat, inSilence: bool, consecutiveVoice: nat, dspSilence: nat, audioFrames: nat)

  const START: State := State(true, false, 0, 0, 0, 0, false, 0, 0, 0)

  datatype Outcome = Going(state: State) | Stop(status: Status, cause: Cause, total: nat)

  predicate Audio(e: Input) {
    e.Input? && e.frame.Some? && (e.frame.value.Voice? || e.frame.value.Cng?)
  }

  function Length(e: Input): nat {
    if e.WaitFailed? then 0
    else if e.frame.Some? && e.frame.value.Voice? then e.frame.value.length
    else e.waited
  }

  function DspSilence(before: nat, e: Input): nat {
    if !Audio(e) then before
    else if e.frame.value.Voice? then e.frame.value.silence
    else before + Length(e)
  }

  /** Leaving the loop: a wait that used up its whole limit overrides a verdict that did not insist. */
  function Settle(limit: nat, e: Input, insists: bool, status: Status, cause: Cause, total: nat): Outcome
    requires e.Input?
  {
    if insists || e.waited != limit then Stop(status, cause, total) else Stop(NotSure, TooLong(total), total)
  }

  function OnSilence(c: Config, limit: nat, e: Input, s: State): Outcome
    requires e.Input?
  {
    var s1 := s.(silenceDuration := s.dspSilence);
    var s2 := if s1.silenceDuration >= c.betweenWordsSilence then s1.(inSilence := true, consecutiveVoice := 0) else s1;
    if s2.inInitialSilence && s2.silenceDuration >= c.initialSilence then
      Settle(limit, e, true, Machine, InitialSilence(s2.silenceDuration, c.initialSilence), s2.totalTime)
    else if s2.silenceDuration >= c.afterGreetingSilence && s2.inGreeting then
      Settle(limit, e, true, Human, HumanCause(s2.silenceDuration, c.afterGreetingSilence), s2.totalTime)
    else Going(s2)
  }

  function OnVoice(c: Config, limit: nat, e: Input, s: State, length: nat): Outcome
    requires e.Input?
  {
    var s1 := s.(consecutiveVoice := s.consecutiveVoice + length, voiceDuration := s.voiceDuration + length);
    var word := s1.consecutiveVoice >= c.minimumWordLength;
    var s2 := if word && s1.inSilence then s1.(words := s1.words + 1, inSilence := false) else s1;
    if s2.consecutiveVoice >= c.maximumWordLength then
      Settle(limit, e, false, Machine, MaxWordLength(s2.consecutiveVoice), s2.totalTime)
    else if s2.words > c.maximumNumberOfWords then
      Settle(limit, e, true, Machine, MaxWords(s2.words, c.maximumNumberOfWords), s2.totalTime)
    else if s2.inGreeting && s2.voiceDuration >= c.greeting then
      Settle(limit, e, true, Machine, LongGreeting(s2.voiceDuration, c.greeting), s2.totalTime)
    else
      var s3 := if s2.voiceDuration >= c.minimumWordLength then s2.(silenceDuration := 0) else s2;
      Going(if word && !s3.inGreeting then s3.(inInitialSilence := false, inGreeting := true) else s3)
  }

  /** An audio frame that came in time, once its length is counted. */
  function OnAudio(c: Config, limit: nat, e: Input, s: State): Outcome
    requires e.Input? && Audio(e)
  {
    var s1 := s.(dspSilence := DspSilence(s.dspSilence, e));
    if s1.dspSilence > 0 then OnSilence(c, limit, e, s1) else OnVoice(c, limit, e, s1, Length(e))
  }

  function Counted(s: State, e: Input): State {
    s.(totalTime := s.totalTime + Length(e), audioFrames := s.audioFrames + if Audio(e) then 1 else 0)
  }

  function LateCause(s: State): Cause {
    if s.audioFrames == 0 then NoAudioData(s.totalTime) else TooLong(s.totalTime)
  }

  /** A frame that came in time. */
  function InTime(c: Config, limit: nat, s: State, e: Input): Outcome
    requires e.Input?
  {
    var s1 := Counted(s, e);
    if s1.totalTime >= c.totalAnalysisTime then Settle(limit, e, false, NotSure, TooLong(s1.totalTime), s1.totalTime)
    else if !Audio(e) then Going(s1)
    else OnAudio(c, limit, e, s1)
  }

  function Step(c: Config, limit: nat, s: State, e: Input): Outcome {
    if e.WaitFailed? then Stop(Blank, NoCause, s.totalTime)
    else if e.frame.None? then Stop(Hangup, NoCause, s.totalTime)
    else if e.late then Settle(limit, e, false, NotSure, LateCause(s), s.totalTime)
    else InTime(c, limit, s, e)
  }

  /** The detector after a sequence of inputs; a verdict is final. */
  function Fold(c: Config, limit: nat, es: seq<Input>): Outcome {
    if es == [] then Going(START)
    else
      var before := Fold(c, limit, es[..|es| - 1]);
      if before.Stop? then before else Step(c, limit, before.state, es[|es| - 1])
  }

  // ---- What the history of frames says, without the counters -----------------

  /** Voice between two silences long enough to separate words. */
  datatype Segment = Segment(voice: nat, frames: nat)

  function Silence(es: seq<Input>): nat {
    if es == [] then 0 else DspSilence(Silence(es[..|es| - 1]), es[|es| - 1])
  }

  function Elapsed(es: seq<Input>): nat {
    if es == [] then 0 else Elapsed(es[..|es| - 1]) + Length(es[|es| - 1])
  }

  /** How long the comfort noise among the inputs lasted. */
  function NoiseTime(es: seq<Input>): nat {
    if es == [] then 0
    else
      var e := es[|es| - 1];
      NoiseTime(es[..|es| - 1]) + if e.Input? && e.frame == Some(Cng) then e.waited else 0
  }

  predicate IsVoice(e: Input) {
    e.Input? && e.frame.Some? && e.frame.value.Voice?
  }

  /** The silence is what the detector reported after the last voice frame, and the comfort noise since. */
  lemma {:induction false} SilenceIsReported(es: seq<Input>, k: int)
    requires -1 <= k < |es| && forall i :: k < i < |es| ==> !IsVoice(es[i])
    requires k >= 0 ==> IsVoice(es[k])
    ensures Silence(es) == (if k >= 0 then es[k].frame.value.silence else 0) + NoiseTime(es[k + 1..])
    decreases |es|
  {
    if k == |es| - 1 {
      assert es[k + 1..] == [];
    } else {
      var n := |es| - 1;
      SilenceIsReported(es[..n], k);
      NoiseNext(es[..n][k + 1..], es[n]);
      assert es[k + 1..] == es[..n][k + 1..] + [es[n]];
    }
  }

  lemma NoiseNext(es: seq<Input>, e: Input)
    ensures NoiseTime(es + [e]) == NoiseTime(es) + if e.Input? && e.frame == Some(Cng) then e.waited else 0
  {
    assert (es + [e])[..|es|] == es;
  }

  /** How long the voice frames were, and how long the waits for everything else. */
  function VoiceTime(es: seq<Input>): nat {
    if es == [] then 0
    else
      var e := es[|es| - 1];
      VoiceTime(es[..|es| - 1]) + if IsVoice(e) then e.frame.value.length else 0
  }

  function WaitTime(es: seq<Input>): nat {
    if es == [] then 0
    else
      var e := es[|es| - 1];
      WaitTime(es[..|es| - 1]) + if e.Input? && !IsVoice(e) then e.waited else 0
  }

  lemma {:induction false} ElapsedIsHeard(es: seq<Input>)
    ensures Elapsed(es) == VoiceTime(es) + WaitTime(es)
  {
    if es != [] { ElapsedIsHeard(es[..|es| - 1]); }
  }

  /** The segments of the call so far; the last one is still open. */
  function Segments(c: Config, es: seq<Input>): (r: seq<Segment>)
    ensures |r| > 0
  {
    if es == [] then [Segment(0, 0)]
    else
      var before, e := Segments(c, es[..|es| - 1]), es[|es| - 1];
      if !Audio(e) then before
      else if Silence(es) == 0 then Grow(before, Length(e))
      else if Silence(es) >= c.betweenWordsSilence then before + [Segment(0, 0)]
      else before
  }

  function Grow(segs: seq<Segment>, length: nat): seq<Segment>
    requires |segs| > 0
  {
    var last := segs[|segs| - 1];
    segs[|segs| - 1 := Segment(last.voice + length, last.frames + 1)]
  }

  /** A segment in which a whole word was spoken. */
  predicate Full(c: Config, g: Segment) {
    g.frames > 0 && g.voice >= c.minimumWordLength
  }

  predicate AnyFull(c: Config, segs: seq<Segment>) {
    exists i :: 0 <= i < |segs| && Full(c, segs[i])
  }

  /** Words are counted after a separating silence, so the first segment does not count. */
  function WordCount(c: Config, segs: seq<Segment>): nat {
    if |segs| <= 1 then 0
    else WordCount(c, segs[..|segs| - 1]) + if Full(c, segs[|segs| - 1]) then 1 else 0
  }

  function Talk(segs: seq<Segment>): nat {
    if segs == [] then 0 else Talk(segs[..|segs| - 1]) + segs[|segs| - 1].voice
  }

  /** The word counters are exactly what the segments say. */
  ghost predicate Matches(c: Config, segs: seq<Segment>, s: State)
    requires |segs| > 0
  {
    var last := segs[|segs| - 1];
    && s.voiceDuration == Talk(segs)
    && s.consecutiveVoice == last.voice
    && s.words == WordCount(c, segs)
    && (s.inSilence <==> |segs| > 1 && !Full(c, last))
    && (s.inGreeting <==> AnyFull(c, segs))
    && s.inInitialSilence == !s.inGreeting
  }

  /** All the counters are exactly what the history says. */
  ghost predicate Agrees(c: Config, es: seq<Input>, s: State) {
    && s.totalTime == Elapsed(es)
    && s.dspSilence == Silence(es)
    && Matches(c, Segments(c, es), s)
  }

  lemma GrowProperties(c: Config, segs: seq<Segment>, length: nat)
    requires |segs| > 0
    ensures var g := Grow(segs, length);
            var n := |segs| - 1;
            && |g| == |segs| && Talk(g) == Talk(segs) + length
            && (Full(c, segs[n]) ==> Full(c, g[n]))
            && (AnyFull(c, g) <==> AnyFull(c, segs) || Full(c, g[n]))
            && WordCount(c, g) == WordCount(c, segs) + if n > 0 && Full(c, g[n]) && !Full(c, segs[n]) then 1 else 0
  {
    var g, n := Grow(segs, length), |segs| - 1;
    assert g[..n] == segs[..n];
    if i :| 0 <= i < |segs| && Full(c, segs[i]) {
      assert Full(c, g[i]);
    }
    if i :| 0 <= i < |g| && Full(c, g[i]) {
      assert i == n || g[i] == segs[i];
    }
  }

  lemma NewSegmentProperties(c: Config, segs: seq<Segment>)
    requires |segs| > 0
    ensures var g := segs + [Segment(0, 0)];
            && Talk(g) == Talk(segs) && WordCount(c, g) == WordCount(c, segs)
            && (AnyFull(c, g) <==> AnyFull(c, segs))
  {
    var g := segs + [Segment(0, 0)];
    assert g[..|segs|] == segs;
    if i :| 0 <= i < |segs| && Full(c, segs[i]) {
      assert Full(c, g[i]);
    }
  }

  lemma VoiceMatches(c: Config, limit: nat, e: Input, s: State, segs: seq<Segment>, length: nat)
    requires e.Input? && |segs| > 0 && Matches(c, segs, s) && OnVoice(c, limit, e, s, length).Going?
    ensures var s1 := OnVoice(c, limit, e, s, length).state;
            Matches(c, Grow(segs, length), s1) && s1.totalTime == s.totalTime && s1.dspSilence == s.dspSilence
  {
    GrowProperties(c, segs, length);
  }

  lemma SilenceMatches(c: Config, limit: nat, e: Input, s: State, segs: seq<Segment>)
    requires e.Input? && |segs| > 0 && Matches(c, segs, s) && OnSilence(c, limit, e, s).Going?
    ensures var s1 := OnSilence(c, limit, e, s).state;
            && Matches(c, if s.dspSilence >= c.betweenWordsSilence then segs + [Segment(0, 0)] else segs, s1)
            && s1.totalTime == s.totalTime && s1.dspSilence == s.dspSilence
  {
    NewSegmentProperties(c, segs);
  }

  /** What an audio frame makes of the segments, with so much silence after it. */
  function Extended(c: Config, segs: seq<Segment>, silence: nat, length: nat): (r: seq<Segment>)
    requires |segs| > 0
    ensures |r| > 0
  {
    if silence == 0 then Grow(segs, length)
    else if silence >= c.betweenWordsSilence then segs + [Segment(0, 0)]
    else segs
  }

  lemma AudioMatches(c: Config, limit: nat, e: Input, s: State, segs: seq<Segment>)
    requires e.Input? && Audio(e) && |segs| > 0 && Matches(c, segs, s) && OnAudio(c, limit, e, s).Going?
    ensures var s1 := OnAudio(c, limit, e, s).state;
            var silence := DspSilence(s.dspSilence, e);
            && Matches(c, Extended(c, segs, silence, Length(e)), s1)
            && s1.totalTime == s.totalTime && s1.dspSilence == silence
  {
    var s1 := s.(dspSilence := DspSilence(s.dspSilence, e));
    assert Matches(c, segs, s1);
    if s1.dspSilence > 0 {
      SilenceMatches(c, limit, e, s1, segs);
    } else {
      VoiceMatches(c, limit, e, s1, segs, Length(e));
    }
  }

  lemma HistoryGrows(c: Config, es: seq<Input>, e: Input)
    ensures Elapsed(es + [e]) == Elapsed(es) + Length(e) && Silence(es + [e]) == DspSilence(Silence(es), e)
    ensures Segments(c, es + [e])
         == if Audio(e) then Extended(c, Segments(c, es), Silence(es + [e]), Length(e)) else Segments(c, es)
  {
    assert (es + [e])[..|es|] == es;
  }

  lemma StepAgrees(c: Config, limit: nat, es: seq<Input>, s: State, e: Input)
    requires Agrees(c, es, s) && Step(c, limit, s, e).Going?
    ensures Agrees(c, es + [e], Step(c, limit, s, e).state)
  {
    HistoryGrows(c, es, e);
    assert Matches(c, Segments(c, es), Counted(s, e));
    if Audio(e) { AudioMatches(c, limit, e, Counted(s, e), Segments(c, es)); }
  }

  /** The counters of a call without a verdict agree with its history, for every sequence of inputs. */
  lemma {:induction false} FoldAgrees(c: Config, limit: nat, es: seq<Input>)
    requires Fold(c, limit, es).Going?
    ensures Agrees(c, es, Fold(c, limit, es).state)
  {
    if es != [] {
      var before := es[..|es| - 1];
      FoldAgrees(c, limit, before);
      assert before + [es[|es| - 1]] == es;
      StepAgrees(c, limit, before, Fold(c, limit, before).state, es[|es| - 1]);
    }
  }

  // ---- Verdicts ---------------------------------------------------------------

  /** The audio frame at the end of `h` reaches the decision: nothing ended the call before it. */
  predicate Decides(c: Config, limit: nat, h: seq<Input>) {
    && h != [] && Fold(c, limit, h[..|h| - 1]).Going?
    && Audio(h[|h| - 1]) && !h[|h| - 1].late && Elapsed(h) < c.totalAnalysisTime
  }

  /**
   A silent frame settles the call exactly as the history says: before any whole word
   only a long initial silence does (a machine), after one only a long pause (a human).
   */
  lemma SilenceVerdict(c: Config, limit: nat, h: seq<Input>)
    requires Decides(c, limit, h) && Silence(h) > 0
    ensures var spoken := AnyFull(c, Segments(c, h[..|h| - 1]));
            match Fold(c, limit, h)
            case Going(_) => Silence(h) < if spoken then c.afterGreetingSilence else c.initialSilence
            case Stop(status, cause, total) =>
              && total == Elapsed(h)
              && (spoken ==> Silence(h) >= c.afterGreetingSilence
                             && status == Human && cause == HumanCause(Silence(h), c.afterGreetingSilence))
              && (!spoken ==> Silence(h) >= c.initialSilence
                              && status == Machine && cause == InitialSilence(Silence(h), c.initialSilence))
  {
    FoldAgrees(c, limit, h[..|h| - 1]);
  }

  /** The verdict a voice frame gives, read off the segments before and after it. */
  function VoiceVerdict(c: Config, before: seq<Segment>, after: seq<Segment>): Option<Cause>
    requires |after| > 0
  {
    if after[|after| - 1].voice >= c.maximumWordLength then Some(MaxWordLength(after[|after| - 1].voice))
    else if WordCount(c, after) > c.maximumNumberOfWords then
      Some(MaxWords(WordCount(c, after), c.maximumNumberOfWords))
    else if AnyFull(c, before) && Talk(after) >= c.greeting then Some(LongGreeting(Talk(after), c.greeting))
    else None
  }

  lemma OnVoiceVerdict(c: Config, limit: nat, e: Input, s: State, segs: seq<Segment>, length: nat)
    requires e.Input? && |segs| > 0 && Matches(c, segs, s)
    ensures var v := VoiceVerdict(c, segs, Grow(segs, length));
            var o := OnVoice(c, limit, e, s, length);
            && (v.None? <==> o.Going?)
            && (v.Some? ==> o == Settle(limit, e, !v.value.MaxWordLength?, Machine, v.value, s.totalTime))
  {
    GrowProperties(c, segs, length);
  }

  lemma StepOnVoice(c: Config, limit: nat, s: State, e: Input)
    requires e.Input? && e.frame.Some? && !e.late && Audio(e) && DspSilence(s.dspSilence, e) == 0
    requires s.totalTime + Length(e) < c.totalAnalysisTime
    ensures var s1 := Counted(s, e).(dspSilence := 0); Step(c, limit, s, e) == OnVoice(c, limit, e, s1, Length(e))
  {
  }

  /** What a voice frame in time does to the call: `OnVoice`, from counters that match the segments. */
  lemma FoldOnVoice(c: Config, limit: nat, h: seq<Input>) returns (s: State)
    requires Decides(c, limit, h) && Silence(h) == 0
    ensures var e, segs := h[|h| - 1], Segments(c, h[..|h| - 1]);
            && Matches(c, segs, s) && s.totalTime == Elapsed(h)
            && Segments(c, h) == Grow(segs, Length(e))
            && Fold(c, limit, h) == OnVoice(c, limit, e, s, Length(e))
  {
    var es, e := h[..|h| - 1], h[|h| - 1];
    FoldAgrees(c, limit, es);
    assert es + [e] == h;
    HistoryGrows(c, es, e);
    var before := Fold(c, limit, es).state;
    StepOnVoice(c, limit, before, e);
    s := Counted(before, e).(dspSilence := 0);
  }

  /**
   * A voice frame stops the call exactly when the segments say so, as a machine with their cause; but an
   * over-long word is not sure when the wait for its frame took all the time it was given.
   */
  lemma VoiceFrameVerdict(c: Config, limit: nat, h: seq<Input>)
    requires Decides(c, limit, h) && Silence(h) == 0
    ensures var v := VoiceVerdict(c, Segments(c, h[..|h| - 1]), Segments(c, h));
            match Fold(c, limit, h)
            case Going(_) => v.None?
            case Stop(status, cause, total) =>
              && v.Some? && total == Elapsed(h)
              && (if v.value.MaxWordLength? && h[|h| - 1].waited == limit
                  then status == NotSure && cause == TooLong(Elapsed(h))
                  else status == Machine && cause == v.value)
  {
    var s := FoldOnVoice(c, limit, h);
    OnVoiceVerdict(c, limit, h[|h| - 1], s, Segments(c, h[..|h| - 1]), Length(h[|h| - 1]));
  }

  lemma {:induction false} AudioCounted(c: Config, limit: nat, es: seq<Input>)
    requires Fold(c, limit, es).Going?
    ensures Fold(c, limit, es).state.audioFrames == 0 <==> forall i :: 0 <= i < |es| ==> !Audio(es[i])
  {
    if es != [] {
      var before, e := es[..|es| - 1], es[|es| - 1];
      AudioCounted(c, limit, before);
      StepCountsAudio(c, limit, Fold(c, limit, before).state, e);
      assert forall i :: 0 <= i < |before| ==> before[i] == es[i];
    }
  }

  lemma StepCountsAudio(c: Config, limit: nat, s: State, e: Input)
    requires Step(c, limit, s, e).Going?
    ensures Step(c, limit, s, e).state.audioFrames == s.audioFrames + if Audio(e) then 1 else 0
  {
  }

  /**
   * An input that is no audio frame in time: a failed wait leaves the status blank and a missing frame is a
   * hang-up; a late frame, and one that uses up the analysis time, is not sure, for want of audio when none has
   * come and the wait was shorter than it might have been; anything else goes by.
   */
  lemma OtherVerdict(c: Config, limit: nat, h: seq<Input>)
    requires h != [] && Fold(c, limit, h[..|h| - 1]).Going? && !Decides(c, limit, h)
    ensures var before, e := h[..|h| - 1], h[|h| - 1];
            var silent := forall i :: 0 <= i < |before| ==> !Audio(before[i]);
            if e.WaitFailed? then Fold(c, limit, h) == Stop(Blank, NoCause, Elapsed(before))
            else if e.frame.None? then Fold(c, limit, h) == Stop(Hangup, NoCause, Elapsed(before))
            else if e.late then
              var total := Elapsed(before);
              var cause := if silent && e.waited != limit then NoAudioData(total) else TooLong(total);
              Fold(c, limit, h) == Stop(NotSure, cause, total)
            else if Elapsed(h) >= c.totalAnalysisTime then
              Fold(c, limit, h) == Stop(NotSure, TooLong(Elapsed(h)), Elapsed(h))
            else Fold(c, limit, h).Going?
  {
    var before := h[..|h| - 1];
    FoldAgrees(c, limit, before);
    AudioCounted(c, limit, before);
  }

  // ---- Arithmetic of the counters ----------------------------------------------

  lemma {:induction false} WordsFitInTalk(c: Config, segs: seq<Segment>)
    ensures WordCount(c, segs) * c.minimumWordLength <= Talk(segs)
  {
    if |segs| > 1 {
      var n := |segs| - 1;
      WordsFitInTalk(c, segs[..n]);
      var w := WordCount(c, segs[..n]);
      assert (w + 1) * c.minimumWordLength == w * c.minimumWordLength + c.minimumWordLength;
    }
  }

  lemma {:induction false} TalkFitsInTime(c: Config, es: seq<Input>)
    ensures Talk(Segments(c, es)) <= Elapsed(es)
  {
    if es != [] {
      var before := es[..|es| - 1];
      TalkFitsInTime(c, before);
      GrowProperties(c, Segments(c, before), Length(es[|es| - 1]));
      NewSegmentProperties(c, Segments(c, before));
    }
  }

  lemma {:induction false} SegmentFitsInTalk(segs: seq<Segment>, i: nat)
    requires i < |segs|
    ensures segs[i].voice <= Talk(segs)
  {
    var n := |segs| - 1;
    if i < n {
      SegmentFitsInTalk(segs[..n], i);
    }
  }

  /** The counters of every undecided call are ordered as their names suggest. */
  lemma CountersAreOrdered(c: Config, limit: nat, es: seq<Input>)
    requires Fold(c, limit, es).Going?
    ensures var s := Fold(c, limit, es).state;
            && s.consecutiveVoice <= s.voiceDuration <= s.totalTime
            && s.words * c.minimumWordLength <= s.voiceDuration
            && s.inGreeting == !s.inInitialSilence
            && (es != [] ==> s.totalTime < c.totalAnalysisTime)
  {
    FoldAgrees(c, limit, es);
    var segs := Segments(c, es);
    WordsFitInTalk(c, segs);
    TalkFitsInTime(c, es);
    SegmentFitsInTalk(segs, |segs| - 1);
  }

  /** Every verdict was given at one input: the first that stopped the call. */
  lemma {:induction false} StoppedAt(c: Config, limit: nat, es: seq<Input>) returns (k: nat)
    requires Fold(c, limit, es).Stop?
    ensures k < |es| && Fold(c, limit, es[..k]).Going? && Fold(c, limit, es[..k + 1]) == Fold(c, limit, es)
  {
    var n := |es| - 1;
    if Fold(c, limit, es[..n]).Going? {
      k := n;
      assert es[..n + 1] == es;
    } else {
      k := StoppedAt(c, limit, es[..n]);
      assert es[..n][..k] == es[..k] && es[..n][..k + 1] == es[..k + 1];
    }
  }

  /** A verdict about what was heard was given by an audio frame in time. */
  lemma DecidedAt(c: Config, limit: nat, es: seq<Input>) returns (k: nat)
    requires Fold(c, limit, es).Stop?
    requires var cause := Fold(c, limit, es).cause; !cause.NoCause? && !cause.TooLong? && !cause.NoAudioData?
    ensures k < |es| && Fold(c, limit, es[..k]).Going? && Fold(c, limit, es[..k + 1]) == Fold(c, limit, es)
    ensures es[..k + 1][..k] == es[..k] && Decides(c, limit, es[..k + 1])
  {
    k := StoppedAt(c, limit, es);
    assert es[..k + 1][..k] == es[..k];
    FoldAgrees(c, limit, es[..k]);
  }

  /** A verdict of too many words takes that many minimum-length words, all within the analysis time. */
  lemma MaxWordsNeedsTime(c: Config, limit: nat, es: seq<Input>)
    requires Fold(c, limit, es).Stop? && Fold(c, limit, es).cause.MaxWords?
    requires c.minimumWordLength >= 0 || c.maximumNumberOfWords >= -1
    ensures (c.maximumNumberOfWords + 1) * c.minimumWordLength < c.totalAnalysisTime
  {
    var k := DecidedAt(c, limit, es);
    var h := es[..k + 1];
    if Silence(h) == 0 {
      VoiceFrameVerdict(c, limit, h);
      var segs := Segments(c, h);
      WordsFitInTalk(c, segs);
      TalkFitsInTime(c, h);
      if c.minimumWordLength >= 0 {
        MulMonotone(c.maximumNumberOfWords + 1, WordCount(c, segs), c.minimumWordLength);
      } else {
        MulMonotone(c.minimumWordLength, 0, c.maximumNumberOfWords + 1);
      }
    } else {
      SilenceVerdict(c, limit, h);
    }
  }

  lemma MulMonotone(a: int, b: int, m: nat)
    requires a <= b
    ensures a * m <= b * m
  {
  }

  /** The frame that ends the call as HUMAN or for INITIALSILENCE is silent, and the history decides which. */
  lemma SilentVerdict(c: Config, limit: nat, h: seq<Input>)
    requires Decides(c, limit, h) && Fold(c, limit, h).Stop?
    requires Fold(c, limit, h).cause.HumanCause? || Fold(c, limit, h).cause.InitialSilence?
    ensures AnyFull(c, Segments(c, h[..|h| - 1])) <==> Fold(c, limit, h).status.Human?
  {
    if Silence(h) == 0 {
      VoiceFrameVerdict(c, limit, h);
    } else {
      SilenceVerdict(c, limit, h);
    }
  }

  /** Of the frames before the one that decided, HUMAN needs a whole word among them and INITIALSILENCE excludes one. */
  lemma HumanNeedsAWord(c: Config, limit: nat, es: seq<Input>) returns (k: nat)
    requires Fold(c, limit, es).Stop?
    requires Fold(c, limit, es).cause.HumanCause? || Fold(c, limit, es).cause.InitialSilence?
    ensures k < |es| && Fold(c, limit, es[..k]).Going? && Fold(c, limit, es[..k + 1]).Stop?
    ensures AnyFull(c, Segments(c, es[..k])) <==> Fold(c, limit, es).status.Human?
  {
    k := DecidedAt(c, limit, es);
    SilentVerdict(c, limit, es[..k + 1]);
  }

  // ---- The imperative detector --------------------------------------------------

  /** The counters isAnsweringMachine keeps while it reads frames. */
  class Detector {
    const c: Config
    const limit: nat
    var inInitialSilence: bool
    var inGreeting: bool
    var voiceDuration: nat
    var silenceDuration: nat
    var totalTime: nat
    var words: nat
    var inSilence: bool
    var consecutiveVoice: nat
    var dspSilence: nat
    var audioFrames: nat

    ghost function View(): State
      reads this
    {
      State(inInitialSilence, inGreeting, voiceDuration, silenceDuration, totalTime,
            words, inSilence, consecutiveVoice, dspSilence, audioFrames)
    }

    constructor (c: Config, limit: nat)
      ensures this.c == c && this.limit == limit && View() == START
    {
      this.c, this.limit := c, limit;
      inInitialSilence, inGreeting, voiceDuration, silenceDuration, totalTime := true, false, 0, 0, 0;
      words, inSilence, consecutiveVoice, dspSilence, audioFrames := 0, false, 0, 0, 0;
    }

    /** Leaves the loop with a verdict; `insists` is the source's res = 1. */
    method Conclude(e: Input, insists: bool, status: Status, cause: Cause) returns (o: Option<(Status, Cause)>)
      requires e.Input?
      ensures o.Some? && Settle(limit, e, insists, status, cause, totalTime) == Stop(o.value.0, o.value.1, totalTime)
    {
      if !insists && e.waited == limit {
        o := Some((NotSure, TooLong(totalTime)));
      } else {
        o := Some((status, cause));
      }
    }

    ghost predicate Reports(o: Option<(Status, Cause)>, outcome: Outcome)
      reads this
    {
      if o.None? then outcome == Going(View()) else outcome == Stop(o.value.0, o.value.1, totalTime)
    }

    method HearSilence(e: Input) returns (o: Option<(Status, Cause)>)
      requires e.Input?
      modifies this
      ensures Reports(o, OnSilence(c, limit, e, old(View())))
    {
      silenceDuration := dspSilence;
      if silenceDuration >= c.betweenWordsSilence {
        inSilence, consecutiveVoice := true, 0;
      }
      if inInitialSilence && silenceDuration >= c.initialSilence {
        o := Conclude(e, true, Machine, InitialSilence(silenceDuration, c.initialSilence));
        return;
      }
      if silenceDuration >= c.afterGreetingSilence && inGreeting {
        o := Conclude(e, true, Human, HumanCause(silenceDuration, c.afterGreetingSilence));
        return;
      }
      o := None;
    }

    method HearVoice(e: Input, length: nat) returns (o: Option<(Status, Cause)>)
      requires e.Input?
      modifies this
      ensures Reports(o, OnVoice(c, limit, e, old(View()), length))
    {
      consecutiveVoice, voiceDuration := consecutiveVoice + length, voiceDuration + length;
      if consecutiveVoice >= c.minimumWordLength && inSilence {
        words, inSilence := words + 1, false;
      }
      if consecutiveVoice >= c.maximumWordLength {
        o := Conclude(e, false, Machine, MaxWordLength(consecutiveVoice));
        return;
      }
      if words > c.maximumNumberOfWords {
        o := Conclude(e, true, Machine, MaxWords(words, c.maximumNumberOfWords));
        return;
      }
      if inGreeting && voiceDuration >= c.greeting {
        o := Conclude(e, true, Machine, LongGreeting(voiceDuration, c.greeting));
        return;
      }
      if voiceDuration >= c.minimumWordLength {
        silenceDuration := 0;
      }
      if consecutiveVoice >= c.minimumWordLength && !inGreeting {
        inInitialSilence, inGreeting := false, true;
      }
      o := None;
    }

    method HearAudio(e: Input) returns (o: Option<(Status, Cause)>)
      requires e.Input? && Audio(e)
      modifies this
      ensures Reports(o, OnAudio(c, limit, e, old(View())))
    {
      var length := if e.frame.value.Voice? then e.frame.value.length else e.waited;
      dspSilence := if e.frame.value.Voice? then e.frame.value.silence else dspSilence + length;
      if dspSilence > 0 {
        o := HearSilence(e);
      } else {
        o := HearVoice(e, length);
      }
    }

    method Count(e: Input)
      requires e.Input? && e.frame.Some?
      modifies this
      ensures View() == Counted(old(View()), e)
    {
      if Audio(e) { audioFrames := audioFrames + 1; }
      totalTime := totalTime + if e.frame.value.Voice? then e.frame.value.length else e.waited;
    }

    method HearInTime(e: Input) returns (o: Option<(Status, Cause)>)
      requires e.Input? && e.frame.Some?
      modifies this
      ensures Reports(o, InTime(c, limit, old(View()), e))
    {
      Count(e);
      if totalTime >= c.totalAnalysisTime {
        o := Conclude(e, false, NotSure, TooLong(totalTime));
      } else if Audio(e) {
        o := HearAudio(e);
      } else {
        o := None;
      }
    }

    /** One turn of the frame loop. */
    method Hear(e: Input) returns (o: Option<(Status, Cause)>)
      modifies this
      ensures Reports(o, Step(c, limit, old(View()), e))
    {
      if e.WaitFailed? { return Some((Blank, NoCause)); }
      if e.frame.None? { return Some((Hangup, NoCause)); }
      if e.late {
        o := Conclude(e, false, NotSure, if audioFrames == 0 then NoAudioData(totalTime) else TooLong(totalTime));
      } else {
        o := HearInTime(e);
      }
    }

    /** The frame loop: stops at the first verdict. */
    method Analyze(es: seq<Input>) returns (o: Option<(Status, Cause)>)
      requires View() == START
      modifies this
      ensures Reports(o, Fold(c, limit, es))
    {
      o := None;
      var i := 0;
      while i < |es| && o.None?
        invariant 0 <= i <= |es|
        invariant Reports(o, Fold(c, limit, es[..i]))
      {
        assert es[..i + 1][..i] == es[..i];
        o := Hear(es[i]);
        i := i + 1;
      }
      VerdictIsFinal(c, limit, es, i);
      assert es[..|es|] == es;
    }
  }

  lemma {:induction false} VerdictIsFinal(c: Config, limit: nat, es: seq<Input>, i: nat)
    requires i <= |es| && (i == |es| || Fold(c, limit, es[..i]).Stop?)
    ensures Fold(c, limit, es[..i]) == Fold(c, limit, es)
    decreases |es| - i
  {
    if i == |es| {
      assert es[..i] == es;
    } else {
      assert es[..i + 1][..i] == es[..i];
      VerdictIsFinal(c, limit, es, i + 1);
    }
  }
}
