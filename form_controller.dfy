/**
 * The backend controller: the PAN format check, the in-memory OTP store with
 * its two handlers (issue a code, verify a code) and the submission handler.
 *
 * `validateAadhaar` lives in a module that is not part of this model; every
 * operation takes it as a parameter. The clock (`Date.now()`) and the random
 * code (`crypto.randomInt`) are parameters too, and the database call of the
 * submission handler is a function that returns the new row's id or fails.
 */
module FormController {
  import opened Wrappers
  import opened Text
  import opened Patterns

  /** `validatePan`: upper case only. */
  predicate ValidatePan(pan: string) {
    FullMatch(PanUpperCase, pan)
  }

  /** A PAN with a lower-case letter anywhere is refused. */
  lemma ValidatePanRejectsLowerCase(pan: string, i: nat)
    requires i < |pan| && IsLower(pan[i])
    ensures !ValidatePan(pan)
  {
    PanUpperCaseMatch(pan);
  }

  // ----- the OTP store -----

  /** How long an issued code stays valid, in milliseconds. */
  const OtpLifetimeMs: int := 5 * 60 * 1000
  /** The range `crypto.randomInt(CodeLow, CodeHigh)` draws from; the upper bound is excluded. */
  const CodeLow: nat := 100000
  const CodeHigh: nat := 999999

  /** One store entry. A verified entry has its code and its expiry set to `null`. */
  datatype Entry = Entry(otp: Option<string>, expiry: Option<int>, verified: bool)

  type Store = map<string, Entry>

  /** What a handler answers: a 200 with a message, a 200 with a new row's id, or an error status. */
  datatype Reply =
    | Message(message: string)
    | Created(id: int)
    | Error(status: int, error: string)

  /** The messages the handlers answer with. */
  const AadhaarRequired := "Aadhaar number is required"
  const AadhaarFormatInvalid := "Invalid Aadhaar number format"
  const OtpSent := "OTP sent successfully"
  const AadhaarInvalid := "Invalid Aadhaar number"
  const OtpRequired := "OTP is required"
  const NoOtpGenerated := "No OTP generated for this Aadhaar number"
  const OtpExpired := "OTP expired"
  const OtpVerified := "OTP verified successfully"
  const OtpInvalid := "Invalid OTP"
  const PanFormatInvalid := "Invalid PAN number format"
  const ServerError := "Server error"

  /** `Date.now() > expiry` compares with `null` as with 0. */
  function ExpiryAsNumber(expiry: Option<int>): int {
    expiry.GetOr(0)
  }

  /** A code as `randomInt(...).toString()` can produce it: six digits, no leading zero. */
  predicate IsCode(c: string) {
    |c| == 6 && AllDigits(c) && c[0] != '0'
  }

  /** Every entry is either a live code with its deadline or a spent one. */
  predicate WellFormed(store: Store) {
    forall k | k in store ::
      || (store[k].otp.Some? && IsCode(store[k].otp.value) && store[k].expiry.Some? && !store[k].verified)
      || store[k] == Entry(None, None, true)
  }

  /** `generateOtp` on the store `store` at time `now`, with `code` the random draw. */
  function Generate(store: Store, validateAadhaar: string -> bool, aadhaarNumber: Option<string>, code: nat, now: int): (Reply, Store) {
    if !Truthy(aadhaarNumber) then
      (Error(400, AadhaarRequired), store)
    else if !validateAadhaar(aadhaarNumber.value) then
      (Error(400, AadhaarFormatInvalid), store)
    else
      (Message(OtpSent),
       store[aadhaarNumber.value := Entry(Some(NatToString(code)), Some(now + OtpLifetimeMs), false)])
  }

  /** `verifyOtp` on the store `store` at time `now`. */
  function Verify(store: Store, validateAadhaar: string -> bool, aadhaarNumber: Option<string>, otp: Option<string>, now: int): (Reply, Store) {
    if !Truthy(aadhaarNumber) || !validateAadhaar(aadhaarNumber.value) then
      (Error(400, AadhaarInvalid), store)
    else if !Truthy(otp) then
      (Error(400, OtpRequired), store)
    else if aadhaarNumber.value !in store then
      (Error(400, NoOtpGenerated), store)
    else
      var key := aadhaarNumber.value;
      var entry := store[key];
      if now > ExpiryAsNumber(entry.expiry) then
        (Error(400, OtpExpired), store - {key})
      else if otp == entry.otp then
        (Message(OtpVerified), store[key := entry.(verified := true, otp := None, expiry := None)])
      else
        (Error(400, OtpInvalid), store)
  }

  /** A missing or malformed Aadhaar number is refused with 400 and the store is left alone. */
  lemma GenerateRejects(store: Store, validateAadhaar: string -> bool, aadhaarNumber: Option<string>, code: nat, now: int)
    ensures var (reply, after) := Generate(store, validateAadhaar, aadhaarNumber, code, now);
      && (!Truthy(aadhaarNumber) ==> reply == Error(400, AadhaarRequired))
      && (Truthy(aadhaarNumber) && !validateAadhaar(aadhaarNumber.value) ==> reply == Error(400, AadhaarFormatInvalid))
      && (reply.Error? <==> !(Truthy(aadhaarNumber) && validateAadhaar(aadhaarNumber.value)))
      && (reply.Error? ==> after == store)
  {
  }

  /**
   * An accepted Aadhaar number gets a fresh entry: the decimal code of the
   * draw (six digits, no leading zero), a deadline five minutes ahead and no
   * verified flag, replacing whatever the key held. Other keys keep their entries.
   */
  lemma GenerateIssuesCode(store: Store, validateAadhaar: string -> bool, key: string, code: nat, now: int)
    requires key != "" && validateAadhaar(key)
    requires CodeLow <= code < CodeHigh
    ensures var (reply, after) := Generate(store, validateAadhaar, Some(key), code, now);
      && reply == Message(OtpSent)
      && key in after
      && after[key].otp.Some? && IsCode(after[key].otp.value)
      && ParseNat(after[key].otp.value) == Some(code)
      && after[key].expiry == Some(now + 300000)
      && !after[key].verified
      && after.Keys == store.Keys + {key}
      && (forall k | k in store && k != key :: after[k] == store[k])
  {
    NatToStringLength(code, 5);
    ParseNatToString(code);
  }

  /** A verification succeeds exactly when the key is valid, has an entry, the deadline has not passed and the code matches. */
  lemma VerifySucceedsIff(store: Store, validateAadhaar: string -> bool, aadhaarNumber: Option<string>, otp: Option<string>, now: int)
    ensures Verify(store, validateAadhaar, aadhaarNumber, otp, now).0 == Message(OtpVerified) <==>
      && Truthy(aadhaarNumber) && validateAadhaar(aadhaarNumber.value)
      && Truthy(otp)
      && aadhaarNumber.value in store
      && now <= ExpiryAsNumber(store[aadhaarNumber.value].expiry)
      && otp == store[aadhaarNumber.value].otp
  {
  }

  /**
   * The checks run in a fixed order and the first failing one is reported:
   * each error below is returned whatever the inputs the later checks look at.
   * Every failure is a 400; only the expiry failure changes the store, by
   * removing the entry, and a wrong code before the deadline is "Invalid OTP".
   */
  lemma VerifyFailures(store: Store, validateAadhaar: string -> bool, aadhaarNumber: Option<string>, otp: Option<string>, now: int)
    ensures var (reply, after) := Verify(store, validateAadhaar, aadhaarNumber, otp, now);
      && (!(Truthy(aadhaarNumber) && validateAadhaar(aadhaarNumber.value)) ==> reply == Error(400, AadhaarInvalid))
      && (Truthy(aadhaarNumber) && validateAadhaar(aadhaarNumber.value) && !Truthy(otp) ==> reply == Error(400, OtpRequired))
      && (Truthy(aadhaarNumber) && validateAadhaar(aadhaarNumber.value) && Truthy(otp) && aadhaarNumber.value !in store
          ==> reply == Error(400, NoOtpGenerated))
      && (Truthy(aadhaarNumber) && validateAadhaar(aadhaarNumber.value) && Truthy(otp) && aadhaarNumber.value in store
          ==> && (now > ExpiryAsNumber(store[aadhaarNumber.value].expiry) ==> reply == Error(400, OtpExpired))
              && (now <= ExpiryAsNumber(store[aadhaarNumber.value].expiry) && otp != store[aadhaarNumber.value].otp
                  ==> (reply, after) == (Error(400, OtpInvalid), store)))
      && (reply.Error? ==> reply.status == 400)
      && (reply.Error? && reply.error != OtpExpired ==> after == store)
      && (reply.Error? && reply.error == OtpExpired ==> after == store - {aadhaarNumber.value})
  {
  }

  /** Past the deadline the entry is deleted and "OTP expired" is reported, whether or not the code matches. */
  lemma VerifyExpired(store: Store, validateAadhaar: string -> bool, key: string, otp: string, now: int)
    requires key != "" && validateAadhaar(key) && otp != ""
    requires key in store && now > ExpiryAsNumber(store[key].expiry)
    ensures Verify(store, validateAadhaar, Some(key), Some(otp), now) == (Error(400, OtpExpired), store - {key})
  {
  }

  /**
   * The deadline is inclusive: at `now == expiry` the right code is accepted,
   * and a wrong code is refused as invalid, not as expired, with the store kept.
   */
  lemma VerifyDeadlineInclusive(store: Store, validateAadhaar: string -> bool, key: string, otp: string, now: int)
    requires key != "" && validateAadhaar(key) && otp != ""
    requires key in store && store[key].expiry == Some(now)
    ensures store[key].otp == Some(otp) ==>
      Verify(store, validateAadhaar, Some(key), Some(otp), now).0 == Message(OtpVerified)
    ensures store[key].otp != Some(otp) ==>
      Verify(store, validateAadhaar, Some(key), Some(otp), now) == (Error(400, OtpInvalid), store)
  {
  }

  /** Only the key being verified can change. */
  lemma VerifyTouchesOnlyItsKey(store: Store, validateAadhaar: string -> bool, aadhaarNumber: Option<string>, otp: Option<string>, now: int)
    ensures var after := Verify(store, validateAadhaar, aadhaarNumber, otp, now).1;
      && after.Keys <= store.Keys
      && forall k | k in store && (aadhaarNumber.None? || k != aadhaarNumber.value) :: k in after && after[k] == store[k]
  {
  }

  /**
   * A code cannot be used twice. After a successful verification the entry
   * holds `verified: true` and `null` code and deadline; any later
   * verification of that key, at any positive time and with any code, reports
   * "OTP expired" and deletes the entry.
   */
  lemma VerifyNoReplay(store: Store, validateAadhaar: string -> bool, key: string, otp: string, now: int, otp2: string, later: int)
    requires Verify(store, validateAadhaar, Some(key), Some(otp), now).0 == Message(OtpVerified)
    requires otp2 != "" && later > 0
    ensures var spent := Verify(store, validateAadhaar, Some(key), Some(otp), now).1;
      && spent[key] == Entry(None, None, true)
      && Verify(spent, validateAadhaar, Some(key), Some(otp2), later) == (Error(400, OtpExpired), spent - {key})
  {
  }

  /**
   * Issuing again replaces the code: before the new deadline, the decimal
   * form of a draw is accepted exactly when it is the newest draw.
   */
  lemma ReissueInvalidatesOldCode(store: Store, validateAadhaar: string -> bool, key: string, first: nat, second: nat, t1: int, t2: int, now: int)
    requires key != "" && validateAadhaar(key)
    requires now <= t2 + OtpLifetimeMs
    ensures var issued := Generate(Generate(store, validateAadhaar, Some(key), first, t1).1, validateAadhaar, Some(key), second, t2).1;
      ((Verify(issued, validateAadhaar, Some(key), Some(NatToString(first)), now).0 == Message(OtpVerified))
       <==> first == second)
  {
    NatToStringInjective(first, second);
  }

  /** Both handlers keep every entry either live with a six-digit code or spent. */
  lemma HandlersPreserveWellFormed(store: Store, validateAadhaar: string -> bool, aadhaarNumber: Option<string>, otp: Option<string>, code: nat, now: int)
    requires WellFormed(store)
    requires CodeLow <= code < CodeHigh
    ensures WellFormed(Generate(store, validateAadhaar, aadhaarNumber, code, now).1)
    ensures WellFormed(Verify(store, validateAadhaar, aadhaarNumber, otp, now).1)
  {
    NatToStringLength(code, 5);
  }

  /**
   * The process-wide `otpStore` object. Its handlers update it in place: an
   * insert or overwrite when a code is issued, a delete when one has expired
   * and three field writes when one is verified.
   */
  class OtpStore {
    const validateAadhaar: string -> bool
    var entries: Store

    ghost predicate Valid()
      reads this
    {
      WellFormed(entries)
    }

    constructor (validateAadhaar: string -> bool)
      ensures Valid()
      ensures this.validateAadhaar == validateAadhaar && entries == map[]
    {
      this.validateAadhaar := validateAadhaar;
      entries := map[];
    }

    /** `generateOtp`; `code` is the draw of `crypto.randomInt(100000, 999999)`, `now` is `Date.now()`. */
    method GenerateOtp(aadhaarNumber: Option<string>, code: nat, now: int) returns (reply: Reply)
      requires Valid()
      requires CodeLow <= code < CodeHigh
      modifies this
      ensures Valid()
      ensures (reply, entries) == Generate(old(entries), validateAadhaar, aadhaarNumber, code, now)
    {
      HandlersPreserveWellFormed(entries, validateAadhaar, aadhaarNumber, None, code, now);
      if !Truthy(aadhaarNumber) {
        return Error(400, AadhaarRequired);
      }
      if !validateAadhaar(aadhaarNumber.value) {
        return Error(400, AadhaarFormatInvalid);
      }
      var otp := NatToString(code);
      var expiry := now + OtpLifetimeMs;
      entries := entries[aadhaarNumber.value := Entry(Some(otp), Some(expiry), false)];
      reply := Message(OtpSent);
    }

    /** `verifyOtp` at time `now`. */
    method VerifyOtp(aadhaarNumber: Option<string>, otp: Option<string>, now: int) returns (reply: Reply)
      requires Valid()
      modifies this
      ensures Valid()
      ensures (reply, entries) == Verify(old(entries), validateAadhaar, aadhaarNumber, otp, now)
    {
      HandlersPreserveWellFormed(entries, validateAadhaar, aadhaarNumber, otp, CodeLow, now);
      if !Truthy(aadhaarNumber) || !validateAadhaar(aadhaarNumber.value) {
        return Error(400, AadhaarInvalid);
      }
      if !Truthy(otp) {
        return Error(400, OtpRequired);
      }
      var key := aadhaarNumber.value;
      if key !in entries {
        return Error(400, NoOtpGenerated);
      }
      var storedOtp := entries[key];
      if now > ExpiryAsNumber(storedOtp.expiry) {
        entries := entries - {key};
        return Error(400, OtpExpired);
      }
      if otp == storedOtp.otp {
        entries := entries[key := entries[key].(verified := true)];
        entries := entries[key := entries[key].(otp := None)];
        entries := entries[key := entries[key].(expiry := None)];
        assert entries == old(entries)[key := storedOtp.(verified := true, otp := None, expiry := None)];
        reply := Message(OtpVerified);
      } else {
        reply := Error(400, OtpInvalid);
      }
    }
  }

  // ----- submissions -----

  /** The row the submission handler asks the database to create. */
  datatype Submission = Submission(aadhaar: string, pan: string, payload: map<string, string>)

  predicate AadhaarAccepted(body: map<string, string>, validateAadhaar: string -> bool) {
    Truthy(Get(body, "aadhaar")) && validateAadhaar(body["aadhaar"])
  }

  predicate PanAccepted(body: map<string, string>) {
    Truthy(Get(body, "pan")) && ValidatePan(body["pan"])
  }

  /**
   * `submitForm`. `create` stands for `prisma.submission.create`: the new
   * row's id, or `None` when the call throws. The result pairs the reply with
   * the one row the handler asked to create, if it got that far. The handler
   * has no access to the OTP store.
   */
  function SubmitForm(body: map<string, string>, validateAadhaar: string -> bool, create: Submission -> Option<int>): (r: (Reply, Option<Submission>))
    ensures r.1.Some? <==> AadhaarAccepted(body, validateAadhaar) && PanAccepted(body)
    ensures r.1.Some? ==> r.1.value == Submission(body["aadhaar"], body["pan"], body)
    ensures !AadhaarAccepted(body, validateAadhaar) ==> r.0 == Error(400, AadhaarInvalid)
    ensures AadhaarAccepted(body, validateAadhaar) && !PanAccepted(body) ==> r.0 == Error(400, PanFormatInvalid)
    ensures r.0.Created? <==> r.1.Some? && create(r.1.value).Some?
    ensures r.0.Created? ==> create(r.1.value) == Some(r.0.id)
    ensures r.1.Some? && create(r.1.value).None? ==> r.0 == Error(500, ServerError)
  {
    if !AadhaarAccepted(body, validateAadhaar) then
      (Error(400, AadhaarInvalid), None)
    else if !PanAccepted(body) then
      (Error(400, PanFormatInvalid), None)
    else
      var row := Submission(body["aadhaar"], body["pan"], body);
      match create(row)
      case Some(id) => (Created(id), Some(row))
      case None => (Error(500, ServerError), Some(row))
  }
}
