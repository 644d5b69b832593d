/**
 * The registration page talking to the backend. A request the page sends is
 * answered by the matching handler (`/api/generate-otp`, `/api/verify-otp`,
 * `/api/submit`), and the answer, as axios delivers it, drives the page's
 * next state. The clock, the random code and the database stay parameters.
 */
module Flow {
  import opened Wrappers
  import opened Text
  import opened Patterns
  import opened FormController
  import opened IndexPage

  /** A handler's reply as the page receives it: `res.status(...).json(...)`. */
  function ToHttp(reply: Reply): HttpResult {
    match reply
    case Message(m) => Answered(200, ResponseData(Some(m), None, false))
    case Created(_) => Answered(200, ResponseData(None, None, true))
    case Error(status, e) => Answered(status, ResponseData(None, Some(e), false))
  }

  /** The page, the OTP store and the rows the database holds. */
  datatype World = World(page: PageState, store: Store, rows: seq<Submission>)

  /** The backend's answer to one request, the store after it and the row it created, if any. */
  function Serve(store: Store, validateAadhaar: string -> bool, create: Submission -> Option<int>, request: Request, code: nat, now: int): (HttpResult, Store, Option<Submission>) {
    match request
    case GenerateOtpRequest(aadhaarNumber) =>
      var (reply, after) := Generate(store, validateAadhaar, aadhaarNumber, code, now);
      (ToHttp(reply), after, None)
    case VerifyOtpRequest(aadhaarNumber, otp) =>
      var (reply, after) := Verify(store, validateAadhaar, aadhaarNumber, Some(otp), now);
      (ToHttp(reply), after, None)
    case SubmitRequest(body) =>
      var (reply, row) := SubmitForm(body, validateAadhaar, create);
      (ToHttp(reply), store, if reply.Created? then row else None)
  }

  /** The backend's side of a submit: nothing when the page sends no request, else the answer to it. */
  function Exchange(w: World, validateAadhaar: string -> bool, create: Submission -> Option<int>, code: nat, now: int): (HttpResult, Store, Option<Submission>) {
    match Submit(w.page, NoResponse).1
    case None => (NoResponse, w.store, None)
    case Some(r) => Serve(w.store, validateAadhaar, create, r, code, now)
  }

  /**
   * One press of the submit button: the page's request, the backend's
   * answer, the page's reaction. The request does not depend on the answer
   * (`RequestIgnoresResponse`), so this is well defined.
   */
  function Round(w: World, validateAadhaar: string -> bool, create: Submission -> Option<int>, code: nat, now: int): World {
    var (response, store, row) := Exchange(w, validateAadhaar, create, code, now);
    World(Submit(w.page, response).0, store, w.rows + (if row.Some? then [row.value] else []))
  }

  /**
   * What the page sends does not depend on what comes back, and a submit
   * that sends nothing ends the same whatever the backend would have said:
   * pressing the button is one request followed by one reaction.
   */
  lemma RequestIgnoresResponse(s: PageState, r1: HttpResult, r2: HttpResult)
    ensures Submit(s, r1).1 == Submit(s, r2).1
    ensures Submit(s, r1).1.None? ==> Submit(s, r1).0 == Submit(s, r2).0
  {
    var s' := s.(submitMsg := "");
    if s.currentStep == 1 {
      assert Submit(s, r1) == SubmitAadhaar(s', r1) && Submit(s, r2) == SubmitAadhaar(s', r2);
    } else if s.currentStep == 2 {
      assert Submit(s, r1) == SubmitOtp(s', r1) && Submit(s, r2) == SubmitOtp(s', r2);
    } else if s.currentStep == 3 {
      assert Submit(s, r1) == SubmitPan(s', r1) && Submit(s, r2) == SubmitPan(s', r2);
    }
  }

  /** The page advances on exactly the messages the backend sends on success. */
  lemma SuccessMessagesAgree()
    ensures IndexPage.OtpSentReply == FormController.OtpSent
    ensures IndexPage.OtpVerifiedReply == FormController.OtpVerified
  {
  }

  /** A code the backend issues always passes the page's six-digit check. */
  lemma IssuedCodesPassOtpCheck(code: nat)
    requires CodeLow <= code < CodeHigh
    ensures FullMatch(SixDigits, NatToString(code))
  {
    NatToStringLength(code, 5);
    DigitsMatch(6, NatToString(code));
  }

  /**
   * The page accepts every PAN the backend accepts, and more: a PAN in lower
   * case passes the page and is refused by the backend.
   */
  lemma PanChecksDiffer(pan: string)
    ensures ValidatePan(pan) ==> PanValid(pan)
    ensures PanValid(LowerCasePan) && !ValidatePan(LowerCasePan)
  {
    PanUpperCaseMatch(pan);
    PanAnyCaseMatch(pan);
    LowerCasePanShape();
    PanAnyCaseMatch(LowerCasePan);
    ValidatePanRejectsLowerCase(LowerCasePan, 0);
  }

  const LowerCasePan := "abcde1234f"

  lemma LowerCasePanShape()
    ensures PanShape(LowerCasePan, IsLetter) && IsLower(LowerCasePan[0])
  {
    var s := LowerCasePan;
    assert s[0] == 'a' && s[1] == 'b' && s[2] == 'c' && s[3] == 'd' && s[4] == 'e';
    assert s[5] == '1' && s[6] == '2' && s[7] == '3' && s[8] == '4' && s[9] == 'f';
  }

  /** Step 1 with a number both sides accept: a fresh code is stored and the page moves to step 2. */
  lemma AadhaarRound(w: World, validateAadhaar: string -> bool, create: Submission -> Option<int>, a: string, code: nat, now: int)
    requires w.page.currentStep == 1 && Get(w.page.values, "aadhaarNumber") == Some(a)
    requires AadhaarValid(a) && validateAadhaar(a)
    ensures var next := Round(w, validateAadhaar, create, code, now);
      && next.page.currentStep == 2
      && next.store == w.store[a := Entry(Some(NatToString(code)), Some(now + OtpLifetimeMs), false)]
      && next.rows == w.rows
  {
    assert a != "";
    var s' := w.page.(submitMsg := "");
    assert Submit(w.page, NoResponse) == SubmitAadhaar(s', NoResponse);
    var response := ToHttp(Message(OtpSent));
    assert Submit(w.page, response) == SubmitAadhaar(s', response);
  }

  /**
   * Step 2 with the code the store holds, in time: the backend marks the
   * entry spent and verified, the page records the number as verified and
   * moves to step 3.
   */
  lemma OtpRound(w: World, validateAadhaar: string -> bool, create: Submission -> Option<int>, a: string, c: string, code: nat, now: int)
    requires w.page.currentStep == 2
    requires Get(w.page.values, "aadhaarNumber") == Some(a) && Get(w.page.values, "otp") == Some(c)
    requires validateAadhaar(a) && a != ""
    requires a in w.store && w.store[a].otp == Some(c) && w.store[a].expiry.Some? && now <= w.store[a].expiry.value
    requires FullMatch(SixDigits, c)
    ensures var next := Round(w, validateAadhaar, create, code, now);
      && next.page.currentStep == 3
      && next.page.verified == w.page.verified[a := true]
      && next.store == w.store[a := Entry(None, None, true)]
      && next.rows == w.rows
  {
    DigitsMatch(6, c);
    var s' := w.page.(submitMsg := "");
    assert Submit(w.page, NoResponse) == SubmitOtp(s', NoResponse);
    var response := ToHttp(Message(OtpVerified));
    assert Submit(w.page, response) == SubmitOtp(s', response);
  }

  /**
   * Step 3 with a PAN the backend accepts and a database that stores the
   * row: the row holds the Aadhaar number, the PAN and the whole body, and
   * the page moves to step 4.
   */
  lemma PanRound(w: World, validateAadhaar: string -> bool, create: Submission -> Option<int>, a: string, pan: string, code: nat, now: int)
    requires w.page.currentStep == 3
    requires Get(w.page.values, "aadhaarNumber") == Some(a) && Get(w.page.values, "pan") == Some(pan)
    requires "aadhaar" !in w.page.values
    requires validateAadhaar(a) && a != "" && ValidatePan(pan)
    requires create(Submission(a, pan, SubmitBody(w.page.values, pan))).Some?
    ensures var next := Round(w, validateAadhaar, create, code, now);
      && next.page.currentStep == 4
      && next.store == w.store
      && next.rows == w.rows + [Submission(a, pan, SubmitBody(w.page.values, pan))]
  {
    PanChecksDiffer(pan);
    var body := SubmitBody(w.page.values, pan);
    assert body["aadhaar"] == a && body["pan"] == pan;
    var s' := w.page.(submitMsg := "");
    assert Submit(w.page, NoResponse).1 == SubmitPan(s', NoResponse).1 == Some(SubmitRequest(body));
    var row := Submission(a, pan, body);
    var reply := Created(create(row).value);
    assert SubmitForm(body, validateAadhaar, create) == (reply, Some(row));
    var response := ToHttp(reply);
    assert Exchange(w, validateAadhaar, create, code, now) == (response, w.store, Some(row));
    assert Submit(w.page, response).0.currentStep == SubmitPan(s', response).0.currentStep == 4;
  }

  /** Typing `v` into the field `name`. */
  function Enter(w: World, name: string, v: string): World {
    w.(page := w.page.(values := w.page.values[name := v]))
  }

  /**
   * The first two rounds of a registration: a number both sides accept,
   * then the code the backend issued typed in before it expires. The page
   * reaches the PAN step with the number recorded as verified and the
   * store's entry spent.
   */
  lemma ReachPanStep(w0: World, w1: World, w2: World, validateAadhaar: string -> bool, create: Submission -> Option<int>,
                     a: string, code: nat, t0: int, t1: int, unused: nat)
    requires w0.page.currentStep == 1 && w0.page.values == map["aadhaarNumber" := a]
    requires AadhaarValid(a) && validateAadhaar(a)
    requires CodeLow <= code < CodeHigh && t0 <= t1 <= t0 + OtpLifetimeMs
    requires w1 == Round(w0, validateAadhaar, create, code, t0)
    requires w2 == Round(Enter(w1, "otp", NatToString(code)), validateAadhaar, create, unused, t1)
    ensures w1.page.currentStep == 2 && w2.page.currentStep == 3
    ensures w2.page.values == map["aadhaarNumber" := a, "otp" := NatToString(code)]
    ensures w2.page.verified == w0.page.verified[a := true]
    ensures w2.store == w0.store[a := Entry(None, None, true)]
    ensures w2.rows == w0.rows
  {
    assert a != "";
    AadhaarRound(w0, validateAadhaar, create, a, code, t0);
    var c := NatToString(code);
    IssuedCodesPassOtpCheck(code);
    OtpRound(Enter(w1, "otp", c), validateAadhaar, create, a, c, unused, t1);
  }

  /**
   * The whole registration: after those two rounds, an upper-case PAN; the
   * page reaches step 4 with exactly one new row holding the number, the
   * PAN and the form.
   */
  lemma HappyPath(w0: World, w1: World, w2: World, w3: World, validateAadhaar: string -> bool, create: Submission -> Option<int>,
                  a: string, code: nat, pan: string, t0: int, t1: int, t2: int, unused: nat)
    requires w0.page.currentStep == 1 && w0.page.values == map["aadhaarNumber" := a]
    requires AadhaarValid(a) && validateAadhaar(a)
    requires CodeLow <= code < CodeHigh && t0 <= t1 <= t0 + OtpLifetimeMs
    requires ValidatePan(pan)
    requires forall row :: create(row).Some?
    requires w1 == Round(w0, validateAadhaar, create, code, t0)
    requires w2 == Round(Enter(w1, "otp", NatToString(code)), validateAadhaar, create, unused, t1)
    requires w3 == Round(Enter(w2, "pan", pan), validateAadhaar, create, unused, t2)
    ensures w3.page.currentStep == 4
    ensures w3.page.verified == w0.page.verified[a := true]
    ensures w3.store == w0.store[a := Entry(None, None, true)]
    ensures w3.rows == w0.rows + [Submission(a, pan, SubmitBody(map["aadhaarNumber" := a, "otp" := NatToString(code), "pan" := pan], pan))]
  {
    ReachPanStep(w0, w1, w2, validateAadhaar, create, a, code, t0, t1, unused);
    assert a != "";
    var w2' := Enter(w2, "pan", pan);
    assert w2'.page.values == map["aadhaarNumber" := a, "otp" := NatToString(code), "pan" := pan];
    PanRound(w2', validateAadhaar, create, a, pan, unused, t2);
  }

  /**
   * A PAN with a lower-case letter that the page lets through is refused by
   * the backend: the page stays on step 3 and no row is stored. With an
   * Aadhaar number the backend accepts, the page shows the backend's PAN
   * error.
   */
  lemma LowerCasePanStuck(w: World, validateAadhaar: string -> bool, create: Submission -> Option<int>, pan: string, code: nat, now: int)
    requires w.page.currentStep == 3 && Get(w.page.values, "pan") == Some(pan)
    requires PanValid(pan) && !ValidatePan(pan)
    ensures var next := Round(w, validateAadhaar, create, code, now);
      && next.page.currentStep == 3
      && next.store == w.store
      && next.rows == w.rows
      && (Get(w.page.values, "aadhaarNumber").Some? && "aadhaar" !in w.page.values
          && Truthy(Get(w.page.values, "aadhaarNumber")) && validateAadhaar(w.page.values["aadhaarNumber"])
          ==> next.page.submitMsg == PanFormatInvalid)
  {
    var body := SubmitBody(w.page.values, pan);
    assert body["pan"] == pan;
    var s' := w.page.(submitMsg := "");
    assert Submit(w.page, NoResponse) == SubmitPan(s', NoResponse);
    var (reply, _) := SubmitForm(body, validateAadhaar, create);
    assert Submit(w.page, ToHttp(reply)) == SubmitPan(s', ToHttp(reply));
  }

  /** The backend agreed to the code typed for `a` and marked the entry verified. */
  predicate BackendVerified(w: World, next: World, a: string) {
    && Get(w.page.values, "aadhaarNumber") == Some(a)
    && a in w.store && w.store[a].otp == Get(w.page.values, "otp")
    && next.page.verified == w.page.verified[a := true]
    && next.store == w.store[a := Entry(None, None, true)]
  }

  /** On step 2 a round that adds a number to the record is one the backend verified. */
  lemma VerifiedOnStep2(w: World, validateAadhaar: string -> bool, create: Submission -> Option<int>, code: nat, now: int)
    requires w.page.currentStep == 2
    ensures var next := Round(w, validateAadhaar, create, code, now);
      next.page.verified == w.page.verified || BackendVerified(w, next, Get(w.page.values, "aadhaarNumber").GetOr(""))
  {
    var s' := w.page.(submitMsg := "");
    var aadhaarNumber := Get(w.page.values, "aadhaarNumber");
    var otpValue := Get(w.page.values, "otp");
    assert Submit(w.page, NoResponse) == SubmitOtp(s', NoResponse);
    if Truthy(otpValue) && FullMatch(SixDigits, otpValue.value) {
      var (reply, after) := Verify(w.store, validateAadhaar, aadhaarNumber, Some(otpValue.value), now);
      assert Submit(w.page, ToHttp(reply)) == SubmitOtp(s', ToHttp(reply));
    }
  }

  /** On the other steps a round leaves the record alone. */
  lemma VerifiedElsewhere(w: World, validateAadhaar: string -> bool, create: Submission -> Option<int>, code: nat, now: int)
    requires w.page.currentStep != 2
    ensures Round(w, validateAadhaar, create, code, now).page.verified == w.page.verified
  {
    KeepsVerifiedOffStep2(w.page, Exchange(w, validateAadhaar, create, code, now).0);
  }

  /**
   * The page's verification record agrees with the backend: a round that
   * changes it is one in which the backend accepted the code typed for the
   * entered number, which the store held, and marked its entry verified.
   */
  lemma VerifiedOnlyWithBackend(w: World, validateAadhaar: string -> bool, create: Submission -> Option<int>, code: nat, now: int)
    ensures var next := Round(w, validateAadhaar, create, code, now);
      next.page.verified == w.page.verified || BackendVerified(w, next, Get(w.page.values, "aadhaarNumber").GetOr(""))
  {
    if w.page.currentStep == 2 {
      VerifiedOnStep2(w, validateAadhaar, create, code, now);
    } else {
      VerifiedElsewhere(w, validateAadhaar, create, code, now);
    }
  }
}
