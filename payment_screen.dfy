/** The form logic of src/screens/CanadaPostPaymentScreen.tsx: `validateCard`,
    the expiry field's auto-slash, and what paying and arriving record in
    test mode. Alerts and rendering are not part of the model; the alert a
    failed check shows is the `CardError` it returns. */
module CanadaPostPayment {
  import opened Wrappers
  import opened JsText
  import TestMode

  datatype CardForm = CardForm(name: string, cardNumber: string, expiry: string, cvv: string)

  /** The four alerts, in the order the checks run. */
  datatype CardError = InvalidName | InvalidCardNumber | InvalidExpiry | InvalidCvv

  /** `/^\d{2}\/\d{2}$/`: two ASCII digits, a slash, two ASCII digits, nothing else. */
  predicate ExpiryFormat(expiry: string) {
    && |expiry| == 5
    && IsDigit(expiry[0]) && IsDigit(expiry[1])
    && expiry[2] == '/'
    && IsDigit(expiry[3]) && IsDigit(expiry[4])
  }

  predicate NameOk(f: CardForm) { Utf16Length(f.name) >= 3 }
  predicate CardNumberOk(f: CardForm) { Utf16Length(RemoveWhitespace(f.cardNumber)) >= 15 }
  predicate CvvOk(f: CardForm) { Utf16Length(f.cvv) >= 3 }

  /** The guard chain of `validateCard`: the error of the first failing
      check, or `None` when the card is accepted. */
  function FirstError(f: CardForm): Option<CardError> {
    if !NameOk(f) then Some(InvalidName)
    else if !CardNumberOk(f) then Some(InvalidCardNumber)
    else if !ExpiryFormat(f.expiry) then Some(InvalidExpiry)
    else if !CvvOk(f) then Some(InvalidCvv)
    else None
  }

  /** `validateCard()`. */
  function ValidateCard(f: CardForm): (ok: bool)
    ensures ok <==> NameOk(f) && CardNumberOk(f) && ExpiryFormat(f.expiry) && CvvOk(f)
  {
    FirstError(f).None?
  }

  /** Each reported error is the first failing check: every check before it passed. */
  lemma ErrorIsFirstFailure(f: CardForm)
    ensures FirstError(f) == Some(InvalidName) <==> !NameOk(f)
    ensures FirstError(f) == Some(InvalidCardNumber) <==> NameOk(f) && !CardNumberOk(f)
    ensures FirstError(f) == Some(InvalidExpiry) <==>
              NameOk(f) && CardNumberOk(f) && !ExpiryFormat(f.expiry)
    ensures FirstError(f) == Some(InvalidCvv) <==>
              NameOk(f) && CardNumberOk(f) && ExpiryFormat(f.expiry) && !CvvOk(f)
  {
  }

  /** White space typed anywhere into the card number changes no outcome. */
  lemma CardWhitespaceIgnored(f: CardForm, i: nat, c: char)
    requires i <= |f.cardNumber| && IsWhitespace(c)
    ensures var g := f.(cardNumber := f.cardNumber[..i] + [c] + f.cardNumber[i..]);
            FirstError(g) == FirstError(f) && ValidateCard(g) == ValidateCard(f)
  {
    RemoveWhitespaceInsert(f.cardNumber, i, c);
  }

  /** An accepted expiry is exactly five characters: digits around a slash at index 2. */
  lemma AcceptedExpiry(f: CardForm)
    requires ValidateCard(f)
    ensures |f.expiry| == 5 && f.expiry[2] == '/'
    ensures forall i :: 0 <= i < 5 && i != 2 ==> IsDigit(f.expiry[i])
  {
  }

  /** The name check counts UTF-16 code units: three characters always
      pass and one never does, while two pass exactly when one of them lies
      above U+FFFF (an emoji, say). Inside the Basic Multilingual Plane the
      check is a plain three-character minimum. */
  lemma NameCountsCodeUnits(f: CardForm)
    ensures |f.name| >= 3 ==> NameOk(f)
    ensures |f.name| <= 1 ==> !NameOk(f)
    ensures |f.name| == 2 ==> (NameOk(f) <==> f.name[0] as int > 0xFFFF || f.name[1] as int > 0xFFFF)
    ensures (forall i :: 0 <= i < |f.name| ==> f.name[i] as int <= 0xFFFF) ==> (NameOk(f) <==> |f.name| >= 3)
  {
    Utf16LengthIsLengthIff(f.name);
    if |f.name| == 2 {
      assert f.name[1..][1..] == [];
    }
  }

  // ---------------------------------------------------------------------
  // The expiry field

  /** The expiry field's `onChangeText`: going from one character to two
      appends the slash; any other edit is stored as typed. */
  function ExpiryOnChange(previous: string, text: string): (stored: string)
    ensures Utf16Length(text) == 2 && Utf16Length(previous) == 1 ==> stored == text + "/"
    ensures !(Utf16Length(text) == 2 && Utf16Length(previous) == 1) ==> stored == text
  {
    if Utf16Length(text) == 2 && Utf16Length(previous) == 1 then text + "/" else text
  }

  /** One character typed at the end of the field. */
  function TypeChar(previous: string, c: char): string {
    ExpiryOnChange(previous, previous + [c])
  }

  /** Four digits typed one by one into an empty field become `MM/YY`, which
      the validator accepts. */
  lemma TypingFourDigits(d1: char, d2: char, d3: char, d4: char)
    requires IsDigit(d1) && IsDigit(d2) && IsDigit(d3) && IsDigit(d4)
    ensures TypeChar(TypeChar(TypeChar(TypeChar("", d1), d2), d3), d4) == [d1, d2, '/', d3, d4]
    ensures ExpiryFormat([d1, d2, '/', d3, d4])
  {
    var s1 := TypeChar("", d1);
    assert Utf16Length([d1]) == 1;
    assert s1 == [d1];
    var s2 := TypeChar(s1, d2);
    Utf16LengthIsLengthIff([d1, d2]);
    assert s2 == [d1, d2, '/'];
    var s3 := TypeChar(s2, d3);
    Utf16LengthIsLengthIff([d1, d2, '/', d3]);
    assert s3 == [d1, d2, '/', d3];
    Utf16LengthIsLengthIff([d1, d2, '/', d3, d4]);
  }

  /** Deleting the slash of `MM/` leaves `MM`: the slash is added only when
      the field grows from one character to two. */
  lemma BackspaceOverSlash(d1: char, d2: char)
    requires IsDigit(d1) && IsDigit(d2)
    ensures ExpiryOnChange([d1, d2, '/'], [d1, d2]) == [d1, d2]
  {
    Utf16LengthIsLengthIff([d1, d2, '/']);
  }

  // ---------------------------------------------------------------------
  // What the screen records

  /** `handlePay`: the metrics it records and whether the scam alert opens.
      Both happen only for a card that passes validation; the metrics only
      in test mode. */
  datatype PayEffect = PayEffect(recorded: Option<TestMode.Metrics>, showScamAlert: bool)

  const PaymentMetrics: TestMode.Metrics :=
    map[TestMode.EnteredCredentials := TestMode.Flag(true), TestMode.SharedSensitiveInfo := TestMode.Flag(true)]

  function HandlePay(f: CardForm, isTestMode: bool): (e: PayEffect)
    ensures e.showScamAlert <==> ValidateCard(f)
    ensures e.recorded.Some? <==> ValidateCard(f) && isTestMode
    ensures e.recorded.Some? ==> e.recorded.value == PaymentMetrics
  {
    if ValidateCard(f) then PayEffect(if isTestMode then Some(PaymentMetrics) else None, true)
    else PayEffect(None, false)
  }

  /** A payment recorded in test mode makes a text scam's result an F. */
  lemma PaymentFailsTextScam(scam: TestMode.ScamDefinition, prev: TestMode.Metrics, f: CardForm)
    requires !scam.isLegitimate && scam.category == TestMode.Text
    requires TestMode.Truthy(prev, TestMode.ClickedScamLink)
    requires ValidateCard(f)
    ensures var m := TestMode.MergeMetrics(prev, HandlePay(f, true).recorded.value);
            TestMode.Assess(scam, m) == TestMode.Assessment(30, TestMode.F, TestMode.TextEnteredInfo)
  {
    var m := TestMode.MergeMetrics(prev, PaymentMetrics);
    assert TestMode.Truthy(m, TestMode.EnteredCredentials);
    TestMode.TextScoring(scam, m);
  }

  /** The arrival effect: in test mode, `clickedScamLink` is recorded the
      first time only; the result is the recorded patch and the new flag. */
  function OnArrival(isTestMode: bool, hasRecordedMetrics: bool): (r: (Option<TestMode.Metrics>, bool))
    ensures r.0.Some? <==> isTestMode && !hasRecordedMetrics
    ensures r.0.Some? ==> r.0.value == map[TestMode.ClickedScamLink := TestMode.Flag(true)]
    ensures r.1 == (hasRecordedMetrics || isTestMode)
  {
    if isTestMode && !hasRecordedMetrics then (Some(map[TestMode.ClickedScamLink := TestMode.Flag(true)]), true)
    else (None, hasRecordedMetrics)
  }

  /** Running the effect again after it fired records nothing more. */
  lemma ArrivalRecordsOnce(isTestMode: bool, hasRecordedMetrics: bool)
    ensures OnArrival(isTestMode, OnArrival(isTestMode, hasRecordedMetrics).1).0.None?
  {
  }
}
