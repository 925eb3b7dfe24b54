/** The logic of src/screens/ScamCallScreen.tsx that does not drive audio:
    the call timer's `formatTime`, the caller display with its defaults, the
    metrics recorded for the call's outcome in test mode, the
    `hasRecordedOutcome` guard that records them once per attempt, and what
    "Continue Test" records before completing the scenario.

    The outcome of a call (`scamOutcome`) is written by a scam-call engine
    that src/machines/phoneMachine.ts does not contain, so it is a parameter
    here. */
module ScamCallScreen {
  import opened Wrappers
  import opened JsText
  import ScamScenarios
  import PhoneMachine
  import TestMode

  // ---------------------------------------------------------------------
  // formatTime

  /** `String(n).padStart(2, '0')`. */
  function Field(n: nat): string { PadStart(NatToDecimal(n), 2, '0') }

  /** A field is all digits, at least two of them, exactly two below 100,
      and reads back as `n`. */
  lemma FieldFacts(n: nat)
    ensures |Field(n)| >= 2 && AllDigits(Field(n))
    ensures n < 100 ==> |Field(n)| == 2
    ensures DecimalValue(Field(n)) == n
  {
    ZeroPadValue(NatToDecimal(n), 2);
    DecimalRoundTrip(n);
    if n < 100 {
      assert Pow10(2) == 100;
      DecimalShort(n, 2);
    }
  }

  /** Two fields around a colon; the colon is the third character from the end. */
  function Clock(minutes: string, seconds: string): (r: string)
    requires |minutes| >= 2 && |seconds| == 2
    ensures |r| == |minutes| + 3 && r[|r| - 3] == ':'
    ensures r[..|r| - 3] == minutes && r[|r| - 2..] == seconds
  {
    minutes + ":" + seconds
  }

  /** `s` is a decimal numeral of value `v`. */
  predicate ReadsAs(s: string, v: nat) {
    AllDigits(s) && DecimalValue(s) == v
  }

  /** `formatTime(sec)`: a zero-padded minutes field, a colon, and a
      two-digit seconds field; the fields read back as the quotient and the
      remainder of `sec` by 60. */
  function FormatTime(sec: nat): (r: string)
    ensures |r| >= 5 && r[|r| - 3] == ':'
    ensures ReadsAs(r[..|r| - 3], sec / 60)
    ensures ReadsAs(r[|r| - 2..], sec % 60)
  {
    var minutes, seconds := sec / 60, sec % 60;
    FieldFacts(minutes);
    FieldFacts(seconds);
    var m, s := Field(minutes), Field(seconds);
    var r := Clock(m, s);
    ReadBack(r[..|r| - 3], m, minutes);
    ReadBack(r[|r| - 2..], s, seconds);
    r
  }

  /** A string equal to a numeral of value `v` is a numeral of value `v`. */
  lemma ReadBack(part: string, field: string, v: nat)
    requires part == field && AllDigits(field) && DecimalValue(field) == v
    ensures ReadsAs(part, v)
  {
  }

  /** The display is `MM:SS` below 100 minutes; from 6000 seconds on the
      minutes field grows instead of being cut. */
  lemma FormatTimeWidth(sec: nat)
    ensures |FormatTime(sec)| == 5 <==> sec < 6000
  {
    var minutes := sec / 60;
    FieldFacts(minutes);
    FieldFacts(sec % 60);
    assert |FormatTime(sec)| == |Field(minutes)| + 3 by {
      assert FormatTime(sec) == Clock(Field(minutes), Field(sec % 60));
    }
    if sec >= 6000 {
      assert Pow10(2) == 100;
      DecimalLength(minutes, 2);
    }
  }

  // ---------------------------------------------------------------------
  // The caller display

  datatype CallerDisplay = CallerDisplay(callerName: string, callerNumber: string, scenarioName: string)

  const UnknownCaller: string := "Unknown Caller"
  const DefaultNumber: string := "+1 (514) 555-0123"
  const DefaultScenarioName: string := "Phone Scam"

  /** `value || fallback` for an optional string: an absent or empty value
      gives the fallback. */
  function OrDefault(value: Option<string>, fallback: string): (r: string)
    ensures value.Some? && value.value != "" ==> r == value.value
    ensures value.None? || value.value == "" ==> r == fallback
  {
    if value.Some? && value.value != "" then value.value else fallback
  }

  /** The three display strings for the scenario the machine holds, if any. */
  function Display(scenario: Option<ScamScenarios.Scenario>): (d: CallerDisplay)
    ensures d.callerName != "" && d.callerNumber != "" && d.scenarioName != ""
    ensures scenario.None? ==> d == CallerDisplay(UnknownCaller, DefaultNumber, DefaultScenarioName)
  {
    if scenario.None? then CallerDisplay(OrDefault(None, UnknownCaller), OrDefault(None, DefaultNumber),
                                         OrDefault(None, DefaultScenarioName))
    else CallerDisplay(OrDefault(Some(scenario.value.callerName), UnknownCaller),
                       OrDefault(Some(scenario.value.callerNumber), DefaultNumber),
                       OrDefault(Some(scenario.value.name), DefaultScenarioName))
  }

  /** Every persona fills in all three fields, so none of the defaults shows. */
  lemma PersonaDisplay(t: ScamScenarios.ScamType)
    ensures var s := ScamScenarios.GetScenario(t);
            Display(Some(s)) == CallerDisplay(s.callerName, s.callerNumber, s.name)
  {
  }

  // ---------------------------------------------------------------------
  // What the screen records

  datatype ScamOutcome = Ongoing | VictimFailed | VictimSuspicious

  /** The outcomes the effect reacts to. */
  predicate Decided(outcome: Option<ScamOutcome>) {
    outcome == Some(VictimFailed) || outcome == Some(VictimSuspicious)
  }

  /** The patch recorded for a decided outcome. */
  function OutcomeMetrics(outcome: ScamOutcome, duration: nat): (m: TestMode.Metrics)
    ensures m.Keys == {TestMode.SharedSensitiveInfo, TestMode.ShowedSuspicion, TestMode.CallDuration}
    ensures TestMode.Truthy(m, TestMode.SharedSensitiveInfo) <==> outcome == VictimFailed
    ensures TestMode.Truthy(m, TestMode.ShowedSuspicion) <==> outcome == VictimSuspicious
    ensures m[TestMode.CallDuration] == TestMode.Seconds(duration)
  {
    map[TestMode.SharedSensitiveInfo := TestMode.Flag(outcome == VictimFailed),
        TestMode.ShowedSuspicion := TestMode.Flag(outcome == VictimSuspicious),
        TestMode.CallDuration := TestMode.Seconds(duration)]
  }

  /** The outcome effect: the patch it records, if any, and the new value of
      `hasRecordedOutcome`. It records only for a decided outcome, in test
      mode, and only while nothing has been recorded. */
  function OnOutcome(outcome: Option<ScamOutcome>, duration: nat, isTestMode: bool, hasRecorded: bool)
    : (r: (Option<TestMode.Metrics>, bool))
    ensures r.0.Some? <==> Decided(outcome) && isTestMode && !hasRecorded
    ensures r.0.Some? ==> r.0.value == OutcomeMetrics(outcome.value, duration)
    ensures r.1 == (hasRecorded || (Decided(outcome) && isTestMode))
  {
    if Decided(outcome) && isTestMode && !hasRecorded then (Some(OutcomeMetrics(outcome.value, duration)), true)
    else (None, hasRecorded)
  }

  /** What happens on the screen that can change the guard. */
  datatype ScreenEvent = OutcomeChanged(outcome: Option<ScamOutcome>, duration: nat) | TryAgain

  /** The guard after a sequence of events. */
  function GuardAfter(isTestMode: bool, hasRecorded: bool, es: seq<ScreenEvent>): bool
    decreases |es|
  {
    if es == [] then hasRecorded
    else match es[0]
      case TryAgain => GuardAfter(isTestMode, false, es[1..])
      case OutcomeChanged(o, d) => GuardAfter(isTestMode, OnOutcome(o, d, isTestMode, hasRecorded).1, es[1..])
  }

  /** How many outcome patches a sequence of events records. */
  function Recordings(isTestMode: bool, hasRecorded: bool, es: seq<ScreenEvent>): nat
    decreases |es|
  {
    if es == [] then 0
    else match es[0]
      case TryAgain => Recordings(isTestMode, false, es[1..])
      case OutcomeChanged(o, d) =>
        var r := OnOutcome(o, d, isTestMode, hasRecorded);
        (if r.0.Some? then 1 else 0) + Recordings(isTestMode, r.1, es[1..])
  }

  /** Between two "Try Again" presses the outcome is recorded at most once,
      and not at all once it was recorded; after a recording the guard is set. */
  lemma {:induction false} RecordedOncePerAttempt(isTestMode: bool, hasRecorded: bool, es: seq<ScreenEvent>)
    requires forall i :: 0 <= i < |es| ==> es[i].OutcomeChanged?
    ensures Recordings(isTestMode, hasRecorded, es) <= 1
    ensures hasRecorded ==> Recordings(isTestMode, hasRecorded, es) == 0
    ensures Recordings(isTestMode, hasRecorded, es) == 1 ==> GuardAfter(isTestMode, hasRecorded, es)
    decreases |es|
  {
    if es != [] {
      var r := OnOutcome(es[0].outcome, es[0].duration, isTestMode, hasRecorded);
      RecordedOncePerAttempt(isTestMode, r.1, es[1..]);
      if r.0.Some? {
        GuardStays(isTestMode, es[1..]);
      }
    }
  }

  /** Without "Try Again" a set guard stays set. */
  lemma {:induction false} GuardStays(isTestMode: bool, es: seq<ScreenEvent>)
    requires forall i :: 0 <= i < |es| ==> es[i].OutcomeChanged?
    ensures GuardAfter(isTestMode, true, es)
    decreases |es|
  {
    if es != [] {
      GuardStays(isTestMode, es[1..]);
    }
  }

  /** "Try Again" re-arms the guard: the next decided outcome in test mode is recorded. */
  lemma TryAgainRearms(isTestMode: bool, hasRecorded: bool, o: ScamOutcome, d: nat)
    requires isTestMode && Decided(Some(o))
    ensures Recordings(isTestMode, hasRecorded, [TryAgain, OutcomeChanged(Some(o), d)]) == 1
  {
    var es := [TryAgain, OutcomeChanged(Some(o), d)];
    assert es[1..] == [OutcomeChanged(Some(o), d)];
    assert es[1..][1..] == [];
    assert Recordings(isTestMode, true, []) == 0;
    assert Recordings(isTestMode, false, es[1..]) == 1;
  }

  /** Outside test mode nothing is ever recorded. */
  lemma {:induction false} PracticeRecordsNothing(hasRecorded: bool, es: seq<ScreenEvent>)
    ensures Recordings(false, hasRecorded, es) == 0
    decreases |es|
  {
    if es != [] {
      match es[0]
      case TryAgain => PracticeRecordsNothing(false, es[1..]);
      case OutcomeChanged(o, d) => PracticeRecordsNothing(hasRecorded, es[1..]);
    }
  }

  /** The patch "Continue Test" records when no outcome was recorded. */
  function ContinuePatch(outcome: Option<ScamOutcome>, duration: nat): (m: TestMode.Metrics)
    ensures m.Keys == {TestMode.EndedCallEarly, TestMode.CallDuration}
    ensures TestMode.Truthy(m, TestMode.EndedCallEarly) <==> !Decided(outcome)
    ensures m[TestMode.CallDuration] == TestMode.Seconds(duration)
  {
    assert (outcome == Some(Ongoing) || outcome.None?) <==> !Decided(outcome) by {
      if outcome.Some? { assert outcome.value == Ongoing || Decided(outcome); }
    }
    map[TestMode.EndedCallEarly := TestMode.Flag(outcome == Some(Ongoing) || outcome.None?),
        TestMode.CallDuration := TestMode.Seconds(duration)]
  }

  /** The metrics the scenario is completed with: the current ones, with the
      "Continue Test" patch merged in unless an outcome was recorded. */
  function ContinueMetrics(current: TestMode.Metrics, outcome: Option<ScamOutcome>, duration: nat,
                           hasRecorded: bool): (m: TestMode.Metrics)
    ensures hasRecorded ==> m == current
    ensures !hasRecorded ==> m == TestMode.MergeMetrics(current, ContinuePatch(outcome, duration))
  {
    if hasRecorded then current else TestMode.MergeMetrics(current, ContinuePatch(outcome, duration))
  }

  /** A call scam left without a decided outcome, with nothing else
      recorded since the scenario started, is scored as ended early. */
  lemma UndecidedCallEndedEarly(scam: TestMode.ScamDefinition, outcome: Option<ScamOutcome>, duration: nat,
                                start: Option<int>, now: int)
    requires !scam.isLegitimate && scam.category == TestMode.Call && !Decided(outcome)
    ensures TestMode.ResultOf(scam, ContinueMetrics(map[], outcome, duration, false), start, now).feedback
            == TestMode.CallEndedEarly
  {
    var m := ContinueMetrics(map[], outcome, duration, false);
    var f := TestMode.FinalMetrics(m, scam.category, TestMode.StartTimeOf(start, now), now);
    assert !TestMode.Truthy(f, TestMode.SharedSensitiveInfo);
    assert !TestMode.Truthy(f, TestMode.CompletedScam);
    assert !TestMode.Truthy(f, TestMode.ShowedSuspicion);
    assert TestMode.Truthy(f, TestMode.EndedCallEarly);
  }

  /** A failed outcome on a call scam makes the result's feedback the
      "shared information" one, whatever was recorded before. */
  lemma FailedCallSharedInfo(scam: TestMode.ScamDefinition, prev: TestMode.Metrics, duration: nat,
                             start: Option<int>, now: int)
    requires !scam.isLegitimate && scam.category == TestMode.Call
    ensures var m := TestMode.MergeMetrics(prev, OutcomeMetrics(VictimFailed, duration));
            var r := TestMode.ResultOf(scam, m, start, now);
            r.feedback == TestMode.CallSharedInfo && r.score <= 60
  {
    var m := TestMode.MergeMetrics(prev, OutcomeMetrics(VictimFailed, duration));
    var f := TestMode.FinalMetrics(m, scam.category, TestMode.StartTimeOf(start, now), now);
    assert TestMode.Truthy(f, TestMode.SharedSensitiveInfo);
    TestMode.SharingOnCall(scam, f);
  }

  /** The machine's duration that the screen records is replaced when the
      scenario completes: the result of a call keeps the wall-clock time
      instead, so it does not depend on the recorded duration. */
  lemma RecordedDurationIsReplaced(scam: TestMode.ScamDefinition, prev: TestMode.Metrics, o: ScamOutcome,
                                   d1: nat, d2: nat, start: Option<int>, now: int)
    ensures TestMode.ResultOf(scam, TestMode.MergeMetrics(prev, OutcomeMetrics(o, d1)), start, now)
         == TestMode.ResultOf(scam, TestMode.MergeMetrics(prev, OutcomeMetrics(o, d2)), start, now)
  {
    var m1 := TestMode.MergeMetrics(prev, OutcomeMetrics(o, d1));
    var m2 := TestMode.MergeMetrics(prev, OutcomeMetrics(o, d2));
    assert m1 - {TestMode.CallDuration} == m2 - {TestMode.CallDuration};
    var t := TestMode.StartTimeOf(start, now);
    assert TestMode.FinalMetrics(m1, scam.category, t, now) == TestMode.FinalMetrics(m2, scam.category, t, now);
  }

  /** "Continue Test" as the handler is written: the `completeCurrentScam`
      it calls is the callback of the render in which the button was
      pressed, so it scores the metrics as they stood before the
      `recordMetrics` call just above it, and the reset that follows
      discards the patch. */
  function ContinueResultAsWritten(scam: TestMode.ScamDefinition, current: TestMode.Metrics,
                                   start: Option<int>, now: int): TestMode.ScamResult
  {
    TestMode.ResultOf(scam, current, start, now)
  }

  /** A call scam left without an outcome and with nothing else recorded:
      as written, the ended-early flag never reaches the result, which gets
      no feedback at all, while the completion that sees the patch reports
      the call as ended early. */
  lemma EndedEarlyPatchIsLost(scam: TestMode.ScamDefinition, outcome: Option<ScamOutcome>, duration: nat,
                              start: Option<int>, now: int)
    requires !scam.isLegitimate && scam.category == TestMode.Call && !Decided(outcome)
    ensures ContinueResultAsWritten(scam, map[], start, now).feedback == TestMode.NoFeedback
    ensures ContinueResultAsWritten(scam, map[], start, now)
         != TestMode.ResultOf(scam, ContinueMetrics(map[], outcome, duration, false), start, now)
  {
    var f := TestMode.FinalMetrics(map[], scam.category, TestMode.StartTimeOf(start, now), now);
    assert !TestMode.Truthy(f, TestMode.SharedSensitiveInfo);
    assert !TestMode.Truthy(f, TestMode.CompletedScam);
    assert !TestMode.Truthy(f, TestMode.ShowedSuspicion);
    assert !TestMode.Truthy(f, TestMode.EndedCallEarly);
    UndecidedCallEndedEarly(scam, outcome, duration, start, now);
  }

  // ---------------------------------------------------------------------
  // The screen's state

  /** The component's phone machine and its `hasRecordedOutcome` flag. */
  class CallScreen {
    var call: PhoneMachine.Config
    var hasRecordedOutcome: bool

    /** Mounting starts the machine; the `SET_SCENARIO` event it sends is
        not one the machine handles, so it changes nothing. */
    constructor ()
      ensures call == PhoneMachine.Initial && !hasRecordedOutcome
    {
      call := PhoneMachine.Initial;
      hasRecordedOutcome := false;
    }

    /** An event sent to the phone machine. */
    method Send(e: PhoneMachine.Event)
      modifies this
      ensures call == PhoneMachine.Step(old(call), e) && hasRecordedOutcome == old(hasRecordedOutcome)
    {
      call := PhoneMachine.Step(call, e);
    }

    /** The effect that runs when the outcome changes. */
    method OutcomeChanged(outcome: Option<ScamOutcome>, isTestMode: bool, provider: TestMode.TestModeProvider)
      requires provider.Valid()
      modifies this, provider
      ensures provider.Valid() && call == old(call)
      ensures var r := OnOutcome(outcome, old(call.ctx.duration), isTestMode, old(hasRecordedOutcome));
              && hasRecordedOutcome == r.1
              && (r.0.Some? ==> provider.currentMetrics == TestMode.MergeMetrics(old(provider.currentMetrics), r.0.value))
              && (r.0.None? ==> provider.currentMetrics == old(provider.currentMetrics))
      ensures provider.isActive == old(provider.isActive) && provider.currentScamIndex == old(provider.currentScamIndex)
      ensures provider.scamsToShow == old(provider.scamsToShow) && provider.results == old(provider.results)
      ensures provider.sessionId == old(provider.sessionId)
      ensures provider.currentScamStartTime == old(provider.currentScamStartTime)
    {
      var r := OnOutcome(outcome, call.ctx.duration, isTestMode, hasRecordedOutcome);
      if r.0.Some? {
        provider.RecordMetrics(r.0.value);
      }
      hasRecordedOutcome := r.1;
    }

    /** "Try Again": clears the guard and restarts the call. */
    method TryAgain()
      modifies this
      ensures !hasRecordedOutcome && call == PhoneMachine.Step(old(call), PhoneMachine.Restart)
    {
      hasRecordedOutcome := false;
      call := PhoneMachine.Step(call, PhoneMachine.Restart);
    }

    /** "Continue Test" at clock reading `now`: in test mode it records the
        ended-early patch unless an outcome was recorded, then completes the
        current scenario with those metrics; otherwise it only leaves the
        screen. The completion here sees the patch, as the handler intends;
        `ContinueResultAsWritten` is the handler as written. */
    method ContinueTest(outcome: Option<ScamOutcome>, isTestMode: bool, provider: TestMode.TestModeProvider,
                        now: int) returns (result: Option<TestMode.ScamResult>)
      requires provider.Valid()
      modifies provider
      ensures provider.Valid()
      ensures !isTestMode ==> result.None? && unchanged(provider)
      ensures isTestMode && old(provider.GetCurrentScam()).Some? ==>
                && result == Some(TestMode.ResultOf(old(provider.GetCurrentScam()).value,
                                                    ContinueMetrics(old(provider.currentMetrics), outcome,
                                                                    call.ctx.duration, hasRecordedOutcome),
                                                    old(provider.currentScamStartTime), now))
                && provider.results == old(provider.results) + [result.value]
                && provider.currentScamIndex == old(provider.currentScamIndex) + 1
                && provider.currentScamStartTime == None && provider.currentMetrics == map[]
      ensures isTestMode && old(provider.GetCurrentScam()).None? ==>
                && result.None?
                && provider.currentMetrics == ContinueMetrics(old(provider.currentMetrics), outcome,
                                                              call.ctx.duration, hasRecordedOutcome)
                && provider.results == old(provider.results)
                && provider.currentScamIndex == old(provider.currentScamIndex)
                && provider.currentScamStartTime == old(provider.currentScamStartTime)
      ensures provider.isActive == old(provider.isActive) && provider.scamsToShow == old(provider.scamsToShow)
      ensures provider.sessionId == old(provider.sessionId)
    {
      result := None;
      if isTestMode {
        if !hasRecordedOutcome {
          provider.RecordMetrics(ContinuePatch(outcome, call.ctx.duration));
        }
        result := provider.CompleteCurrentScam(now);
      }
    }
  }
}
