/**
 * The registration page: its field validators, the live check of one field,
 * the check of a whole step, and the four-step submit handler with the reset
 * button of the last step.
 *
 * The page state that the handlers update in place is a class; each handler
 * is specified by a function on a snapshot of that state (`PageState`), and
 * the properties of the step machine are lemmas about those functions. The
 * backend's answers are inputs: an `HttpResult` is what axios hands back, and
 * the handler returns the request it sent, if any.
 */
module IndexPage {
  import opened Wrappers
  import opened Text
  import opened Patterns

  // ----- validators -----

  /** `regexTest`: no pattern or no value passes; otherwise the value must match. */
  predicate RegexTest(pattern: Option<Pattern>, value: Option<string>) {
    pattern.None? || value.None? || FullMatch(pattern.value, value.value)
  }

  /** `aadhaarValid`; callers pass `v || ''`. */
  predicate AadhaarValid(v: string) {
    FullMatch(TwelveDigits, v)
  }

  /** `panValid`: letters of either case. */
  predicate PanValid(v: string) {
    FullMatch(PanAnyCase, v)
  }

  /** An Aadhaar value is valid exactly when it is present and twelve ASCII digits; `undefined` and `''` fail. */
  lemma AadhaarValidIff(v: Option<string>)
    ensures AadhaarValid(OrEmpty(v)) <==> v.Some? && |v.value| == 12 && AllDigits(v.value)
  {
    DigitsMatch(12, OrEmpty(v));
  }

  // ----- the page's messages -----

  /** Field errors of the live check and the step check. */
  const RequiredMessage := "This field is required"
  const MinLengthPrefix := "Minimum length is "
  const MaxLengthPrefix := "Maximum length is "
  const InvalidFormatMessage := "Invalid format"
  const AadhaarDigitsMessage := "Aadhaar must be exactly 12 digits"
  const AadhaarUnverifiedMessage := "Aadhaar must be verified with OTP"
  const PanFormatMessage := "PAN must match ABCDE1234F"

  /** The backend replies the submit handler looks for. */
  const OtpSentReply := "OTP sent successfully"
  const OtpVerifiedReply := "OTP verified successfully"

  /** Step 1: field error, prompt, and the messages after the OTP request. */
  const InvalidAadhaarError := "Invalid Aadhaar number."
  const AadhaarPrompt := "Please enter a valid 12-digit Aadhaar number."
  const OtpSentNotice := "OTP sent successfully. Please enter the OTP received."
  const SendOtpFailed := "Failed to send OTP. Please try again."
  const SendOtpServerError := "Server error. Failed to send OTP."

  /** Step 2: field error, prompt, and the messages after the verification request. */
  const OtpShapeError := "OTP must be 6 digits long."
  const OtpPrompt := "Please enter a valid 6-digit OTP."
  const OtpVerifiedNotice := "OTP verified successfully. Proceeding to PAN validation."
  const VerifyFailedPrefix := "OTP verification failed: "
  const InvalidOtpFallback := "Invalid OTP"
  const ServerErrorFallback := "Server error"

  /** Step 3: field error, prompt, and the messages after the submission. */
  const InvalidPanError := "Invalid PAN number format."
  const PanPrompt := "Please enter a valid PAN number."
  const SubmittedNotice := "Form submitted successfully!"
  const SubmitFailedPrefix := "Form submission failed: "
  const UnknownErrorFallback := "Unknown error"
  const SubmitServerError := "Server error. Failed to submit form."

  // ----- the schema -----

  datatype FieldValidation = FieldValidation(pattern: Option<Pattern>, message: Option<string>, minLength: Option<int>, maxLength: Option<int>)

  /** A form field as the page describes it (type and placeholder only matter to rendering). */
  datatype FieldSchema = FieldSchema(name: string, labelText: string, step: int, required: bool, validation: Option<FieldValidation>)

  /** The fields the page defines for its first three steps. */
  const InitialSchema: seq<FieldSchema> := [
    FieldSchema("aadhaarNumber", "Aadhaar Number", 1, true,
      Some(FieldValidation(Some(TwelveDigits), Some("Aadhaar number must be 12 digits long."), None, None))),
    FieldSchema("udyamNumber", "Udyam Registration Number", 1, false, None),
    FieldSchema("otp", "OTP", 2, true,
      Some(FieldValidation(Some(SixDigits), Some(OtpShapeError), None, None))),
    FieldSchema("pan", "PAN Number", 3, true,
      Some(FieldValidation(Some(PanAnyCase), Some("PAN must be 10 characters long and follow the format ABCDE1234F."), None, None)))
  ]

  /** `schema.find(f => f.name === name)`: the first field with that name. */
  function FindField(schema: seq<FieldSchema>, name: string): (r: Option<FieldSchema>)
    ensures r.None? <==> forall i | 0 <= i < |schema| :: schema[i].name != name
    ensures r.Some? ==> exists i | 0 <= i < |schema| ::
      schema[i] == r.value && schema[i].name == name && forall j | 0 <= j < i :: schema[j].name != name
  {
    if schema == [] then None
    else if schema[0].name == name then Some(schema[0])
    else
      var r := FindField(schema[1..], name);
      assert r.Some? ==> exists i | 1 <= i < |schema| ::
        schema[i] == r.value && schema[i].name == name && forall j | 0 <= j < i :: schema[j].name != name by {
        if r.Some? {
          var k :| 0 <= k < |schema[1..]| && schema[1..][k] == r.value && schema[1..][k].name == name
            && forall j | 0 <= j < k :: schema[1..][j].name != name;
          assert forall j | 1 <= j < k + 1 :: schema[j].name == schema[1..][j - 1].name;
        }
      }
      r
  }

  /** `field.label || field.name` */
  function LabelOf(f: FieldSchema): string {
    if f.labelText != "" then f.labelText else f.name
  }

  /** `/aadhaar|aadhar/` on the lower-cased label, or `/^aadhaar/i` on the name. */
  predicate MentionsAadhaar(f: FieldSchema) {
    var lowLabel := LowerStr(LabelOf(f));
    Contains(lowLabel, "aadhaar") || Contains(lowLabel, "aadhar") || StartsWith(LowerStr(f.name), "aadhaar")
  }

  /** `/\bpan\b/` on the lower-cased label, or `/^pan/i` on the name (the live check). */
  predicate MentionsPanWord(f: FieldSchema) {
    ContainsWord(LowerStr(LabelOf(f)), "pan") || StartsWith(LowerStr(f.name), "pan")
  }

  /** `/pan/i` on the lower-cased label, or `/^pan/i` on the name (the step check). */
  predicate MentionsPan(f: FieldSchema) {
    Contains(LowerStr(LabelOf(f)), "pan") || StartsWith(LowerStr(f.name), "pan")
  }

  /** How the live check classifies a field by its label and name. */
  datatype FieldKind = FieldKind(aadhaar: bool, pan: bool)

  function LiveKind(f: FieldSchema): FieldKind {
    FieldKind(MentionsAadhaar(f), MentionsPanWord(f))
  }

  /** `!aadhaarVerificationStatus[key]` is false exactly when the key is stored as `true`. */
  predicate IsVerified(verified: map<string, bool>, key: string) {
    key in verified && verified[key]
  }

  /** `value == null || String(value).trim() === ''` */
  predicate Blank(value: Option<string>) {
    value.None? || IsBlank(value.value)
  }

  // ----- the live check of one field -----

  /** The length and pattern checks of a field's `validation` block, in that order. */
  function LengthOrPatternError(v: FieldValidation, value: Option<string>): Option<string> {
    var len := |OrEmpty(value)|;
    if v.minLength.Some? && len < v.minLength.value then
      Some(OrElse(v.message, MinLengthPrefix + IntToString(v.minLength.value)))
    else if v.maxLength.Some? && len > v.maxLength.value then
      Some(OrElse(v.message, MaxLengthPrefix + IntToString(v.maxLength.value)))
    else if v.pattern.Some? && !RegexTest(v.pattern, value) then
      Some(OrElse(v.message, InvalidFormatMessage))
    else None
  }

  /**
   * The error `validateField` records for `f` holding `value` (`None` is
   * `undefined`), where `kind` is the field's `LiveKind`.
   */
  function FieldError(f: FieldSchema, kind: FieldKind, value: Option<string>, verified: map<string, bool>): Option<string> {
    var text := OrEmpty(value);
    var lengthOrPattern := if f.validation.Some? then LengthOrPatternError(f.validation.value, value) else None;
    if f.required && Blank(value) then Some(RequiredMessage)
    else if lengthOrPattern.Some? then lengthOrPattern
    else if kind.aadhaar && !AadhaarValid(text) then Some(AadhaarDigitsMessage)
    else if kind.aadhaar && !IsVerified(verified, text) then Some(AadhaarUnverifiedMessage)
    else if kind.pan && !PanValid(text) then Some(PanFormatMessage)
    else None
  }


  /** A rule's verdict on its own: its message when it fails. */
  function Rule(fails: bool, message: string): Option<string> {
    if fails then Some(message) else None
  }

  /** The rules of the `validation` block: minimum length, maximum length, pattern. */
  function ValidationRules(validation: Option<FieldValidation>, value: Option<string>): seq<Option<string>> {
    match validation
    case None => []
    case Some(v) =>
      var len := |OrEmpty(value)|;
      [ Rule(v.minLength.Some? && len < v.minLength.value,
             OrElse(v.message, MinLengthPrefix + IntToString(v.minLength.GetOr(0)))),
        Rule(v.maxLength.Some? && len > v.maxLength.value,
             OrElse(v.message, MaxLengthPrefix + IntToString(v.maxLength.GetOr(0)))),
        Rule(!RegexTest(v.pattern, value), OrElse(v.message, InvalidFormatMessage)) ]
  }

  /** The label and name heuristics: twelve digits and verified for an Aadhaar field, PAN format for a PAN field. */
  function HeuristicRules(kind: FieldKind, text: string, verified: map<string, bool>): seq<Option<string>> {
    [ Rule(kind.aadhaar && !AadhaarValid(text), AadhaarDigitsMessage),
      Rule(kind.aadhaar && !IsVerified(verified, text), AadhaarUnverifiedMessage),
      Rule(kind.pan && !PanValid(text), PanFormatMessage) ]
  }

  /** The rules of the live check, each judged independently, in priority order. */
  function FieldRules(f: FieldSchema, kind: FieldKind, value: Option<string>, verified: map<string, bool>): seq<Option<string>> {
    [Rule(f.required && Blank(value), RequiredMessage)]
      + ValidationRules(f.validation, value)
      + HeuristicRules(kind, OrEmpty(value), verified)
  }

  /** The verdict of the first failing rule, or `None` when all pass. */
  function FirstFailure(rules: seq<Option<string>>): Option<string> {
    if rules == [] then None
    else if rules[0].Some? then rules[0]
    else FirstFailure(rules[1..])
  }

  /** The first failure is `None` exactly when every rule passes, and otherwise the verdict of a rule all of whose predecessors pass. */
  lemma {:induction false} FirstFailureMeaning(rules: seq<Option<string>>)
    ensures FirstFailure(rules).None? <==> forall i | 0 <= i < |rules| :: rules[i].None?
    ensures FirstFailure(rules).Some? ==>
      exists i | 0 <= i < |rules| :: rules[i] == FirstFailure(rules) && forall j | 0 <= j < i :: rules[j].None?
  {
    if rules != [] && rules[0].None? {
      var rest := rules[1..];
      FirstFailureMeaning(rest);
      assert forall j | 1 <= j < |rules| :: rules[j] == rest[j - 1];
      if FirstFailure(rest).Some? {
        var k :| 0 <= k < |rest| && rest[k] == FirstFailure(rest) && forall j | 0 <= j < k :: rest[j].None?;
        assert rules[k + 1] == FirstFailure(rules);
      }
    }
  }

  /** Rules checked in two groups: the second group is consulted only when the first passes. */
  lemma {:induction false} FirstFailureAppend(a: seq<Option<string>>, b: seq<Option<string>>)
    ensures FirstFailure(a + b) == if FirstFailure(a).Some? then FirstFailure(a) else FirstFailure(b)
  {
    if a != [] {
      assert (a + b)[1..] == a[1..] + b;
      FirstFailureAppend(a[1..], b);
    } else {
      assert a + b == b;
    }
  }

  lemma FirstFailureOfThree(rules: seq<Option<string>>)
    requires |rules| == 3
    ensures FirstFailure(rules) == if rules[0].Some? then rules[0] else if rules[1].Some? then rules[1] else rules[2]
  {
    assert FirstFailure(rules[2..]) == rules[2] by {
      assert rules[2..][1..] == [];
    }
    assert FirstFailure(rules[1..]) == if rules[1].Some? then rules[1] else FirstFailure(rules[2..]) by {
      assert rules[1..][1..] == rules[2..];
    }
  }

  /** The `validation` block reports its first failing rule. */
  lemma LengthOrPatternIsFirstFailure(validation: Option<FieldValidation>, value: Option<string>)
    ensures FirstFailure(ValidationRules(validation, value)) ==
      if validation.Some? then LengthOrPatternError(validation.value, value) else None
  {
    if validation.Some? {
      FirstFailureOfThree(ValidationRules(validation, value));
    }
  }

  /**
   * The live check records the message of the first failing rule: required,
   * minimum length, maximum length, pattern, twelve digits for an Aadhaar
   * field, verified by OTP for an Aadhaar field, PAN format for a PAN field.
   */
  lemma FieldErrorIsFirstFailure(f: FieldSchema, kind: FieldKind, value: Option<string>, verified: map<string, bool>)
    ensures FieldError(f, kind, value, verified) == FirstFailure(FieldRules(f, kind, value, verified))
  {
    var required := [Rule(f.required && Blank(value), RequiredMessage)];
    var validation := ValidationRules(f.validation, value);
    var heuristics := HeuristicRules(kind, OrEmpty(value), verified);
    FirstFailureAppend(required + validation, heuristics);
    FirstFailureAppend(required, validation);
    LengthOrPatternIsFirstFailure(f.validation, value);
    FirstFailureOfThree(heuristics);
    assert FirstFailure(required) == required[0];
  }

  lemma AadhaarFieldFacts()
    ensures InitialSchema[0].name == "aadhaarNumber"
    ensures MentionsAadhaar(InitialSchema[0]) && !MentionsPanWord(InitialSchema[0]) && !MentionsPan(InitialSchema[0])
  {
    var lowLabel := LowerStr(LabelOf(InitialSchema[0]));
    assert lowLabel == "aadhaar number";
    assert OccursAt(lowLabel, "aadhaar", 0);
    FirstCharAbsent(lowLabel, "pan");
    assert LowerStr(InitialSchema[0].name)[0] == 'a';
  }

  /**
   * For the page's Aadhaar field, a twelve-digit value passes the live check
   * only once that number is recorded as verified, while the step check
   * accepts it whether or not it was verified.
   */
  lemma AadhaarFieldNeedsVerification(v: string, verified: map<string, bool>)
    requires |v| == 12 && AllDigits(v)
    ensures FieldError(InitialSchema[0], LiveKind(InitialSchema[0]), Some(v), verified) ==
      (if IsVerified(verified, v) then None else Some(AadhaarUnverifiedMessage))
    ensures StepError(InitialSchema[0], Some(v)) == None
  {
    AadhaarFieldFacts();
    DigitsMatch(12, v);
    assert !IsBlank(v) by { assert !IsJsSpace(v[0]); }
  }

  // ----- the check of a whole step -----

  /** The error `validateStep` records for `f` holding `value`: no length rules and no verification rule. */
  function StepError(f: FieldSchema, value: Option<string>): Option<string> {
    var text := OrEmpty(value);
    var err := if f.required && Blank(value) then Some(RequiredMessage) else None;
    var err :=
      if err.None? && f.validation.Some? && f.validation.value.pattern.Some? && !RegexTest(f.validation.value.pattern, Some(text))
      then Some(OrElse(f.validation.value.message, InvalidFormatMessage))
      else err;
    var err := if err.None? && MentionsAadhaar(f) && !AadhaarValid(text) then Some(AadhaarDigitsMessage) else err;
    if err.None? && MentionsPan(f) && !PanValid(text) then Some(PanFormatMessage) else err
  }

  /** The verdict of a step check on one field holding a value. */
  type Check = (FieldSchema, Option<string>) -> Option<string>

  /**
   * `newErrors` after the loop of `validateStep` over `fields` with the
   * verdict `check` (the page uses `StepError`): a later field of the same
   * name wins.
   */
  function StepErrors(fields: seq<FieldSchema>, values: map<string, string>, check: Check): map<string, Option<string>>
    decreases |fields|
  {
    if fields == [] then map[]
    else
      var f := fields[|fields| - 1];
      StepErrors(fields[..|fields| - 1], values, check)[f.name := check(f, Get(values, f.name))]
  }

  /** No later field has the same name as `fields[i]`. */
  predicate LastOfName(fields: seq<FieldSchema>, i: int)
    requires 0 <= i < |fields|
  {
    forall j | i < j < |fields| :: fields[j].name != fields[i].name
  }

  /** Every field of the step passes. */
  predicate StepPasses(fields: seq<FieldSchema>, values: map<string, string>, check: Check) {
    forall i | 0 <= i < |fields| :: check(fields[i], Get(values, fields[i].name)).None?
  }

  /** The step check writes an entry for exactly the names of the given fields. */
  lemma {:induction false} StepErrorsKeys(fields: seq<FieldSchema>, values: map<string, string>, check: Check)
    ensures forall name :: name in StepErrors(fields, values, check) <==> exists i | 0 <= i < |fields| :: fields[i].name == name
    decreases |fields|
  {
    if fields != [] {
      var n := |fields| - 1;
      var init := fields[..n];
      StepErrorsKeys(init, values, check);
      assert StepErrors(fields, values, check).Keys == StepErrors(init, values, check).Keys + {fields[n].name};
      forall name ensures name in StepErrors(fields, values, check) <==> exists i | 0 <= i < |fields| :: fields[i].name == name {
        if name in StepErrors(fields, values, check) && name != fields[n].name {
          var i :| 0 <= i < |init| && init[i].name == name;
          assert fields[i].name == name;
        }
        if exists i | 0 <= i < |fields| :: fields[i].name == name {
          var i :| 0 <= i < |fields| && fields[i].name == name;
          if i < n {
            assert init[i].name == name;
          }
        }
      }
    }
  }

  /** Each entry the step check writes is the verdict on the last field of that name. */
  lemma {:induction false} StepErrorsLastWins(fields: seq<FieldSchema>, values: map<string, string>, check: Check, i: int)
    requires 0 <= i < |fields| && LastOfName(fields, i)
    ensures fields[i].name in StepErrors(fields, values, check)
    ensures StepErrors(fields, values, check)[fields[i].name] == check(fields[i], Get(values, fields[i].name))
    decreases |fields|
  {
    var n := |fields| - 1;
    if i < n {
      var init := fields[..n];
      assert fields[n].name != fields[i].name;
      assert init[i] == fields[i];
      assert LastOfName(init, i);
      StepErrorsLastWins(init, values, check, i);
    }
  }

  // ----- the step machine -----

  /** What the backend said: `data` fields of a reply with its status, or no reply at all (a network error). */
  datatype ResponseData = ResponseData(message: Option<string>, error: Option<string>, success: bool)

  datatype HttpResult = Answered(status: int, data: ResponseData) | NoResponse {
    /** axios resolves on a 2xx status and rejects otherwise. */
    predicate Resolved() {
      Answered? && 200 <= status < 300
    }

    /** `error.response?.data?.error` of a rejection. */
    function RejectionError(): Option<string> {
      if Answered? then data.error else None
    }
  }

  /** The request a submit sends to the backend. */
  datatype Request =
    | GenerateOtpRequest(aadhaarNumber: Option<string>)
    | VerifyOtpRequest(aadhaarNumber: Option<string>, otp: string)
    | SubmitRequest(body: map<string, string>)

  /**
   * A snapshot of the page: the component's state plus `verified`, the
   * module-level `aadhaarVerificationStatus` record.
   */
  datatype PageState = PageState(
    values: map<string, string>,
    errors: map<string, Option<string>>,
    currentStep: int,
    submitMsg: string,
    aadhaarVerified: bool,
    showOtpInput: bool,
    verified: map<string, bool>)

  /**
   * The page's invariant: one of four steps; the OTP input shows exactly on
   * step 2; the Aadhaar flag is set exactly from step 2 on; the verification
   * record holds only `true`.
   */
  predicate ValidState(s: PageState) {
    && 1 <= s.currentStep <= 4
    && s.showOtpInput == (s.currentStep == 2)
    && s.aadhaarVerified == (s.currentStep >= 2)
    && forall k | k in s.verified :: s.verified[k]
  }

  /** A property key: `obj[undefined]` uses the key "undefined". */
  function KeyOf(v: Option<string>): string {
    v.GetOr("undefined")
  }

  /** The body of the final submission: `{ aadhaar, pan, ...values }`, with `undefined` members dropped. */
  function SubmitBody(values: map<string, string>, pan: string): map<string, string> {
    var aadhaar := Get(values, "aadhaarNumber");
    (if aadhaar.Some? then map["aadhaar" := aadhaar.value] else map[]) + map["pan" := pan] + values
  }

  /** Step 1 of `handleSubmit`: check the Aadhaar number, then ask the backend for an OTP. */
  function SubmitAadhaar(s: PageState, response: HttpResult): (r: (PageState, Option<Request>))
    ensures r.0.verified == s.verified && r.0.values == s.values
    ensures var passes := AadhaarValid(OrEmpty(Get(s.values, "aadhaarNumber")));
      && r.1 == (if passes then Some(GenerateOtpRequest(Get(s.values, "aadhaarNumber"))) else None)
      && r.0.currentStep == (if passes && response.Resolved() && response.data.message == Some(OtpSentReply) then 2 else s.currentStep)
  {
    var aadhaarNumber := Get(s.values, "aadhaarNumber");
    if !AadhaarValid(OrEmpty(aadhaarNumber)) then
      (s.(errors := s.errors["aadhaarNumber" := Some(InvalidAadhaarError)],
          submitMsg := AadhaarPrompt), None)
    else
      var next :=
        if !response.Resolved() then s.(submitMsg := OrElse(response.RejectionError(), SendOtpServerError))
        else if response.data.message == Some(OtpSentReply) then
          s.(aadhaarVerified := true, showOtpInput := true,
             submitMsg := OtpSentNotice, currentStep := 2)
        else s.(submitMsg := OrElse(response.data.error, SendOtpFailed));
      (next, Some(GenerateOtpRequest(aadhaarNumber)))
  }

  /** Step 2 of `handleSubmit`: check the OTP's shape, then have the backend verify it. */
  function SubmitOtp(s: PageState, response: HttpResult): (r: (PageState, Option<Request>))
    ensures r.0.values == s.values
    ensures var otpValue := Get(s.values, "otp");
      var passes := Truthy(otpValue) && FullMatch(SixDigits, otpValue.value);
      var success := passes && response.Resolved() && response.data.message == Some(OtpVerifiedReply);
      && r.1 == (if passes then Some(VerifyOtpRequest(Get(s.values, "aadhaarNumber"), otpValue.value)) else None)
      && r.0.currentStep == (if success then 3 else s.currentStep)
      && r.0.verified == (if success then s.verified[KeyOf(Get(s.values, "aadhaarNumber")) := true] else s.verified)
  {
    var otpValue := Get(s.values, "otp");
    if !Truthy(otpValue) || !FullMatch(SixDigits, otpValue.value) then
      (s.(errors := s.errors["otp" := Some(OtpShapeError)],
          submitMsg := OtpPrompt), None)
    else
      var aadhaarNumber := Get(s.values, "aadhaarNumber");
      var next :=
        if !response.Resolved() then
          s.(submitMsg := VerifyFailedPrefix + OrElse(response.RejectionError(), ServerErrorFallback))
        else if response.data.message == Some(OtpVerifiedReply) then
          s.(verified := s.verified[KeyOf(aadhaarNumber) := true], aadhaarVerified := true, showOtpInput := false,
             submitMsg := OtpVerifiedNotice, currentStep := 3)
        else s.(submitMsg := VerifyFailedPrefix + OrElse(response.data.error, InvalidOtpFallback));
      (next, Some(VerifyOtpRequest(aadhaarNumber, otpValue.value)))
  }

  /** Step 3 of `handleSubmit`: check the PAN, then submit the whole form. */
  function SubmitPan(s: PageState, response: HttpResult): (r: (PageState, Option<Request>))
    ensures r.0.verified == s.verified && r.0.values == s.values
    ensures var panNumber := Get(s.values, "pan");
      var passes := PanValid(OrEmpty(panNumber));
      && r.1 == (if passes then Some(SubmitRequest(SubmitBody(s.values, panNumber.value))) else None)
      && r.0.currentStep == (if passes && response.Resolved() && response.data.success then 4 else s.currentStep)
  {
    var panNumber := Get(s.values, "pan");
    if !PanValid(OrEmpty(panNumber)) then
      (s.(errors := s.errors["pan" := Some(InvalidPanError)],
          submitMsg := PanPrompt), None)
    else
      var next :=
        if !response.Resolved() then
          s.(submitMsg := OrElse(response.RejectionError(), SubmitServerError))
        else if response.data.success then
          s.(submitMsg := SubmittedNotice, currentStep := 4)
        else s.(submitMsg := SubmitFailedPrefix + OrElse(response.data.message, UnknownErrorFallback));
      (next, Some(SubmitRequest(SubmitBody(s.values, panNumber.value))))
  }

  /** `handleSubmit` on state `s`, with `response` the backend's answer to the request it sends. */
  function Submit(s: PageState, response: HttpResult): (PageState, Option<Request>) {
    var s := s.(submitMsg := "");
    if s.currentStep == 1 then SubmitAadhaar(s, response)
    else if s.currentStep == 2 then SubmitOtp(s, response)
    else if s.currentStep == 3 then SubmitPan(s, response)
    else (s, None)
  }

  /** The "Start New Registration" button of step 4. */
  function StartOver(s: PageState): PageState {
    s.(currentStep := 1, values := map[], errors := map[], submitMsg := "", showOtpInput := false, aadhaarVerified := false)
  }

  /**
   * Step 1: an Aadhaar number that fails the local check is not sent, gets an
   * error, and the page stays; a valid one is sent for an OTP, and the page
   * moves to step 2 exactly when the backend answers "OTP sent successfully".
   */
  lemma AadhaarStep(s: PageState, response: HttpResult)
    requires ValidState(s) && s.currentStep == 1
    ensures var (next, request) := Submit(s, response);
      var aadhaarNumber := Get(s.values, "aadhaarNumber");
      var passes := AadhaarValid(OrEmpty(aadhaarNumber));
      && ValidState(next)
      && next.values == s.values && next.verified == s.verified
      && (!passes ==> request.None? && next.errors == s.errors["aadhaarNumber" := Some(InvalidAadhaarError)])
      && (passes ==> request == Some(GenerateOtpRequest(aadhaarNumber)) && next.errors == s.errors)
      && next.currentStep == (if passes && response.Resolved() && response.data.message == Some(OtpSentReply) then 2 else 1)
  {
    assert Submit(s, response) == SubmitAadhaar(s.(submitMsg := ""), response);
  }

  /**
   * Step 2: an OTP that is not six digits is not sent; a six-digit one is sent
   * with the entered Aadhaar number, and only the backend's "OTP verified
   * successfully" moves the page to step 3 and marks that number verified.
   */
  lemma OtpStep(s: PageState, response: HttpResult)
    requires ValidState(s) && s.currentStep == 2
    ensures var (next, request) := Submit(s, response);
      var otpValue := Get(s.values, "otp");
      var passes := Truthy(otpValue) && FullMatch(SixDigits, otpValue.value);
      var success := passes && response.Resolved() && response.data.message == Some(OtpVerifiedReply);
      && ValidState(next)
      && next.values == s.values
      && (!passes ==> request.None? && next.errors == s.errors["otp" := Some(OtpShapeError)])
      && (passes ==> request == Some(VerifyOtpRequest(Get(s.values, "aadhaarNumber"), otpValue.value)) && next.errors == s.errors)
      && next.currentStep == (if success then 3 else 2)
      && next.verified == (if success then s.verified[KeyOf(Get(s.values, "aadhaarNumber")) := true] else s.verified)
  {
    assert Submit(s, response) == SubmitOtp(s.(submitMsg := ""), response);
  }

  /**
   * Step 3: a PAN that fails the local check is not sent; a valid one is sent
   * with the whole form, and the page moves to step 4 exactly when the
   * backend reports success.
   */
  lemma PanStep(s: PageState, response: HttpResult)
    requires ValidState(s) && s.currentStep == 3
    ensures var (next, request) := Submit(s, response);
      var panNumber := Get(s.values, "pan");
      var passes := PanValid(OrEmpty(panNumber));
      && ValidState(next)
      && next.values == s.values && next.verified == s.verified
      && (!passes ==> request.None? && next.errors == s.errors["pan" := Some(InvalidPanError)])
      && (passes ==> request == Some(SubmitRequest(SubmitBody(s.values, panNumber.value))) && next.errors == s.errors)
      && next.currentStep == (if passes && response.Resolved() && response.data.success then 4 else 3)
  {
    assert Submit(s, response) == SubmitPan(s.(submitMsg := ""), response);
  }

  /** Step 4: submitting only clears the message and sends nothing. */
  lemma DoneStep(s: PageState, response: HttpResult)
    requires ValidState(s) && s.currentStep == 4
    ensures Submit(s, response) == (s.(submitMsg := ""), None)
  {
  }

  /** Only the OTP step writes the verification record. */
  lemma KeepsVerifiedOffStep2(s: PageState, response: HttpResult)
    requires s.currentStep != 2
    ensures Submit(s, response).0.verified == s.verified
  {
    var s' := s.(submitMsg := "");
    if s.currentStep == 1 {
      assert Submit(s, response) == SubmitAadhaar(s', response);
    } else if s.currentStep == 3 {
      assert Submit(s, response) == SubmitPan(s', response);
    }
  }

  /**
   * Submitting keeps the page's invariant and moves the page at most one step
   * forward, never back; the verification record only ever gains entries.
   */
  lemma SubmitPreservesValid(s: PageState, response: HttpResult)
    requires ValidState(s)
    ensures var next := Submit(s, response).0;
      && ValidState(next)
      && (next.currentStep == s.currentStep || next.currentStep == s.currentStep + 1)
      && next.verified.Keys >= s.verified.Keys
  {
    if s.currentStep == 1 {
      AadhaarStep(s, response);
    } else if s.currentStep == 2 {
      OtpStep(s, response);
    } else if s.currentStep == 3 {
      PanStep(s, response);
    } else {
      DoneStep(s, response);
    }
  }

  /** Starting over returns to step 1 with no values and no errors, keeps the invariant and keeps the verification record. */
  lemma StartOverKeepsVerification(s: PageState)
    requires ValidState(s)
    ensures var next := StartOver(s);
      && ValidState(next)
      && next.currentStep == 1 && next.values == map[] && next.errors == map[] && next.submitMsg == ""
      && next.verified == s.verified
  {
  }

  /**
   * The loop of `validateStep`: the verdict of `check` (the page's rules,
   * `StepError`) on each field, and whether all of them pass.
   */
  method CheckFields(fields: seq<FieldSchema>, values: map<string, string>, check: Check) returns (ok: bool, newErrors: map<string, Option<string>>)
    ensures newErrors == StepErrors(fields, values, check)
    ensures ok <==> StepPasses(fields, values, check)
  {
    ok := true;
    newErrors := map[];
    for i := 0 to |fields|
      invariant newErrors == StepErrors(fields[..i], values, check)
      invariant ok <==> forall k | 0 <= k < i :: check(fields[k], Get(values, fields[k].name)).None?
    {
      var err := check(fields[i], Get(values, fields[i].name));
      if err.Some? {
        ok := false;
      }
      newErrors := newErrors[fields[i].name := err];
      assert fields[..i + 1][..i] == fields[..i];
    }
    assert fields[..|fields|] == fields;
  }

  /** The module-level `aadhaarVerificationStatus` object, shared by every mount of the page. */
  class VerificationStatus {
    var verified: map<string, bool>

    constructor ()
      ensures verified == map[]
    {
      verified := map[];
    }
  }

  /** The page component's state. */
  class RegistrationPage {
    const status: VerificationStatus
    var values: map<string, string>
    var errors: map<string, Option<string>>
    var currentStep: int
    var submitMsg: string
    var aadhaarVerified: bool
    var showOtpInput: bool

    function State(): PageState
      reads this, status
    {
      PageState(values, errors, currentStep, submitMsg, aadhaarVerified, showOtpInput, status.verified)
    }

    ghost predicate Valid()
      reads this, status
    {
      ValidState(State())
    }

    /** The page as first rendered, over the shared verification record. */
    constructor (status: VerificationStatus)
      requires forall k | k in status.verified :: status.verified[k]
      ensures Valid() && this.status == status
      ensures State() == PageState(map[], map[], 1, "", false, false, status.verified)
    {
      this.status := status;
      values := map[];
      errors := map[];
      currentStep := 1;
      submitMsg := "";
      aadhaarVerified := false;
      showOtpInput := false;
    }

    /** `validateField`: only fields of the page's schema are checked. */
    method ValidateField(name: string, value: Option<string>)
      requires Valid()
      modifies this
      ensures Valid()
      ensures FindField(InitialSchema, name).None? ==> State() == old(State())
      ensures FindField(InitialSchema, name).Some? ==>
        State() == old(State()).(errors := old(errors)[name := FieldError(FindField(InitialSchema, name).value, LiveKind(FindField(InitialSchema, name).value), value, status.verified)])
    {
      var field := FindField(InitialSchema, name);
      if field.None? {
        return;
      }
      var err := FieldError(field.value, LiveKind(field.value), value, status.verified);
      errors := errors[name := err];
    }

    /** `setValue`: a field's input changed. */
    method SetValue(name: string, value: string)
      requires Valid()
      modifies this
      ensures Valid()
      ensures values == old(values)[name := value]
      ensures FindField(InitialSchema, name).None? ==> errors == old(errors)
      ensures FindField(InitialSchema, name).Some? ==>
        errors == old(errors)[name := FieldError(FindField(InitialSchema, name).value, LiveKind(FindField(InitialSchema, name).value), Some(value), status.verified)]
      ensures State() == old(State()).(values := values, errors := errors)
    {
      values := values[name := value];
      ValidateField(name, Some(value));
    }

    /** `validateStep`: checks every given field against the current values and merges the verdicts into `errors`. */
    method ValidateStep(fields: seq<FieldSchema>) returns (ok: bool)
      requires Valid()
      modifies this
      ensures Valid()
      ensures ok <==> StepPasses(fields, values, StepError)
      ensures State() == old(State()).(errors := old(errors) + StepErrors(fields, values, StepError))
    {
      var newErrors;
      ok, newErrors := CheckFields(fields, values, StepError);
      errors := errors + newErrors;
    }

    /** `handleSubmit`: `response` is the backend's answer to the request sent, if one is sent. */
    method HandleSubmit(response: HttpResult) returns (request: Option<Request>)
      requires Valid()
      modifies this, status
      ensures Valid()
      ensures (State(), request) == Submit(old(State()), response)
    {
      ghost var before := State();
      SubmitPreservesValid(before, response);
      submitMsg := "";
      if currentStep == 1 {
        request := SendAadhaar(response);
      } else if currentStep == 2 {
        request := SendOtp(response);
      } else if currentStep == 3 {
        request := SendPan(response);
      } else {
        request := None;
      }
    }

    /** The step-1 branch of `handleSubmit`. */
    method SendAadhaar(response: HttpResult) returns (request: Option<Request>)
      modifies this
      ensures (State(), request) == SubmitAadhaar(old(State()), response)
    {
      var aadhaarNumber := Get(values, "aadhaarNumber");
      if !AadhaarValid(OrEmpty(aadhaarNumber)) {
        errors := errors["aadhaarNumber" := Some(InvalidAadhaarError)];
        submitMsg := AadhaarPrompt;
        return None;
      }
      request := Some(GenerateOtpRequest(aadhaarNumber));
      if !response.Resolved() {
        submitMsg := OrElse(response.RejectionError(), SendOtpServerError);
      } else if response.data.message == Some(OtpSentReply) {
        aadhaarVerified := true;
        showOtpInput := true;
        submitMsg := OtpSentNotice;
        currentStep := 2;
      } else {
        submitMsg := OrElse(response.data.error, SendOtpFailed);
      }
    }

    /** The step-2 branch of `handleSubmit`. */
    method SendOtp(response: HttpResult) returns (request: Option<Request>)
      modifies this, status
      ensures (State(), request) == SubmitOtp(old(State()), response)
    {
      var otpValue := Get(values, "otp");
      if !Truthy(otpValue) || !FullMatch(SixDigits, otpValue.value) {
        errors := errors["otp" := Some(OtpShapeError)];
        submitMsg := OtpPrompt;
        return None;
      }
      var aadhaarNumber := Get(values, "aadhaarNumber");
      request := Some(VerifyOtpRequest(aadhaarNumber, otpValue.value));
      if !response.Resolved() {
        submitMsg := VerifyFailedPrefix + OrElse(response.RejectionError(), ServerErrorFallback);
      } else if response.data.message == Some(OtpVerifiedReply) {
        status.verified := status.verified[KeyOf(aadhaarNumber) := true];
        aadhaarVerified := true;
        showOtpInput := false;
        submitMsg := OtpVerifiedNotice;
        currentStep := 3;
      } else {
        submitMsg := VerifyFailedPrefix + OrElse(response.data.error, InvalidOtpFallback);
      }
    }

    /** The step-3 branch of `handleSubmit`. */
    method SendPan(response: HttpResult) returns (request: Option<Request>)
      modifies this
      ensures (State(), request) == SubmitPan(old(State()), response)
    {
      var panNumber := Get(values, "pan");
      if !PanValid(OrEmpty(panNumber)) {
        errors := errors["pan" := Some(InvalidPanError)];
        submitMsg := PanPrompt;
        return None;
      }
      request := Some(SubmitRequest(SubmitBody(values, panNumber.value)));
      if !response.Resolved() {
        submitMsg := OrElse(response.RejectionError(), SubmitServerError);
      } else if response.data.success {
        submitMsg := SubmittedNotice;
        currentStep := 4;
      } else {
        submitMsg := SubmitFailedPrefix + OrElse(response.data.message, UnknownErrorFallback);
      }
    }

    /** The "Start New Registration" button. */
    method StartNewRegistration()
      requires Valid()
      modifies this
      ensures Valid()
      ensures State() == StartOver(old(State()))
    {
      StartOverKeepsVerification(State());
      currentStep := 1;
      values := map[];
      errors := map[];
      submitMsg := "";
      showOtpInput := false;
      aadhaarVerified := false;
    }
  }
}
