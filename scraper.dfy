/**
 * The scraper's naming and validation heuristics and the loop that turns the
 * form controls of the registration portal into schema entries.
 *
 * Loading the portal, the DOM queries and writing the JSON file are outside
 * the model: a control arrives as its tag, its attributes and the label text
 * the DOM lookup found for it; a container as its text and its controls.
 */
module Scraper {
  import opened Wrappers
  import opened Text

  // ----- to_camel -----

  /** Number of ASCII letters and digits at the start of `s`. */
  function AlnumRunLength(s: string): (n: nat)
    ensures n <= |s|
  {
    if s == [] || !IsAlnum(s[0]) then 0 else 1 + AlnumRunLength(s[1..])
  }

  /**
   * `re.sub(r"[^a-zA-Z0-9]+", " ", s).strip().split()`: the maximal runs of
   * ASCII letters and digits, in order.
   */
  function Words(s: string): seq<string>
    decreases |s|
  {
    if s == [] then []
    else if !IsAlnum(s[0]) then Words(s[1..])
    else
      var n := AlnumRunLength(s);
      [s[..n]] + Words(s[n..])
  }

  /** The ASCII letters and digits of `s`, in order. */
  function AlnumOnly(s: string): string {
    if s == [] then [] else (if IsAlnum(s[0]) then [s[0]] else []) + AlnumOnly(s[1..])
  }

  function Concat(ws: seq<string>): string {
    if ws == [] then [] else ws[0] + Concat(ws[1..])
  }

  /**
   * How `str.title()` treats one character on ASCII: a letter is upper-cased
   * when the character before it is not a letter and lower-cased otherwise;
   * digits are kept.
   */
  function TitleCase(c: char, afterLetter: bool): char {
    if !IsLetter(c) then c else if afterLetter then ToLower(c) else ToUpper(c)
  }

  /** `str.title()`, continuing after a character that was a letter or not. */
  function TitleFrom(w: string, afterLetter: bool): string {
    if w == [] then [] else [TitleCase(w[0], afterLetter)] + TitleFrom(w[1..], IsLetter(w[0]))
  }

  function Title(w: string): string {
    TitleFrom(w, false)
  }

  function TitledConcat(ws: seq<string>): string {
    if ws == [] then [] else Title(ws[0]) + TitledConcat(ws[1..])
  }

  const FallbackName := "field"

  /** `to_camel`: the first word lower-cased, the others title-cased, no separators; "field" when there is no word. */
  function ToCamel(s: string): string {
    var ws := Words(s);
    if ws == [] then FallbackName else LowerStr(ws[0]) + TitledConcat(ws[1..])
  }

  lemma {:induction false} AlnumRunFacts(s: string)
    ensures forall i | 0 <= i < AlnumRunLength(s) :: IsAlnum(s[i])
    ensures AlnumRunLength(s) < |s| ==> !IsAlnum(s[AlnumRunLength(s)])
  {
    if s != [] && IsAlnum(s[0]) {
      AlnumRunFacts(s[1..]);
    }
  }

  lemma {:induction false} AlnumOnlyAppend(a: string, b: string)
    ensures AlnumOnly(a + b) == AlnumOnly(a) + AlnumOnly(b)
  {
    if a == [] {
      assert a + b == b;
    } else {
      var ab := a + b;
      assert ab[0] == a[0];
      assert ab[1..] == a[1..] + b;
      AlnumOnlyAppend(a[1..], b);
      assert AlnumOnly(ab) == (if IsAlnum(a[0]) then [a[0]] else []) + AlnumOnly(a[1..] + b);
    }
  }

  lemma {:induction false} AlnumOnlyOfAlnum(w: string)
    requires forall i | 0 <= i < |w| :: IsAlnum(w[i])
    ensures AlnumOnly(w) == w
  {
    if w != [] {
      AlnumOnlyOfAlnum(w[1..]);
    }
  }

  /** The words, joined, are exactly the letters and digits of the input: only separators are dropped. */
  lemma {:induction false} WordsJoinToAlnum(s: string)
    ensures Concat(Words(s)) == AlnumOnly(s)
    decreases |s|
  {
    if s != [] {
      if !IsAlnum(s[0]) {
        WordsJoinToAlnum(s[1..]);
      } else {
        var n := AlnumRunLength(s);
        AlnumRunFacts(s);
        WordsJoinToAlnum(s[n..]);
        assert s == s[..n] + s[n..];
        AlnumOnlyAppend(s[..n], s[n..]);
        AlnumOnlyOfAlnum(s[..n]);
        assert Concat(Words(s)) == s[..n] + Concat(Words(s[n..])) by {
          assert Words(s) == [s[..n]] + Words(s[n..]);
        }
      }
    }
  }

  /** Every word is non-empty and made of ASCII letters and digits. */
  lemma {:induction false} WordsAreAlnum(s: string)
    ensures forall k | 0 <= k < |Words(s)| :: Words(s)[k] != [] && forall i | 0 <= i < |Words(s)[k]| :: IsAlnum(Words(s)[k][i])
    decreases |s|
  {
    if s != [] {
      if !IsAlnum(s[0]) {
        WordsAreAlnum(s[1..]);
      } else {
        var n := AlnumRunLength(s);
        AlnumRunFacts(s);
        WordsAreAlnum(s[n..]);
      }
    }
  }

  /** There are no words exactly when the input has no ASCII letter or digit. */
  lemma WordsEmptyIff(s: string)
    ensures Words(s) == [] <==> AlnumOnly(s) == []
  {
    WordsJoinToAlnum(s);
    WordsAreAlnum(s);
    if Words(s) != [] {
      assert |Concat(Words(s))| >= |Words(s)[0]| > 0;
    }
  }

  lemma {:induction false} LowerStrAppend(a: string, b: string)
    ensures LowerStr(a + b) == LowerStr(a) + LowerStr(b)
  {
    assert forall i | 0 <= i < |a + b| :: LowerStr(a + b)[i] == (LowerStr(a) + LowerStr(b))[i];
  }

  /** Title-casing changes only the case of letters. */
  lemma {:induction false} TitleFromLower(w: string, afterLetter: bool)
    ensures LowerStr(TitleFrom(w, afterLetter)) == LowerStr(w)
  {
    if w != [] {
      TitleFromLower(w[1..], IsLetter(w[0]));
      var t := TitleFrom(w, afterLetter);
      assert t == [t[0]] + TitleFrom(w[1..], IsLetter(w[0]));
      LowerStrAppend([t[0]], TitleFrom(w[1..], IsLetter(w[0])));
      assert w == [w[0]] + w[1..];
      LowerStrAppend([w[0]], w[1..]);
    }
  }

  lemma {:induction false} TitledConcatLower(ws: seq<string>)
    ensures LowerStr(TitledConcat(ws)) == LowerStr(Concat(ws))
  {
    if ws != [] {
      TitledConcatLower(ws[1..]);
      TitleFromLower(ws[0], false);
      LowerStrAppend(Title(ws[0]), TitledConcat(ws[1..]));
      LowerStrAppend(ws[0], Concat(ws[1..]));
    }
  }

  /**
   * Position by position, `str.title()` upper-cases a letter at the start of
   * the word or after a non-letter, lower-cases a letter after a letter, and
   * keeps everything else.
   */
  lemma {:induction false} TitleMeaning(w: string)
    ensures |Title(w)| == |w|
    ensures forall i | 0 <= i < |w| :: Title(w)[i] == TitleCase(w[i], i > 0 && IsLetter(w[i - 1]))
  {
    TitleFromMeaning(w, false);
  }

  lemma {:induction false} TitleFromMeaning(w: string, afterLetter: bool)
    ensures |TitleFrom(w, afterLetter)| == |w|
    ensures forall i | 0 <= i < |w| :: TitleFrom(w, afterLetter)[i] == TitleCase(w[i], if i == 0 then afterLetter else IsLetter(w[i - 1]))
  {
    if w != [] {
      var rest := TitleFrom(w[1..], IsLetter(w[0]));
      TitleFromMeaning(w[1..], IsLetter(w[0]));
      forall i | 1 <= i < |w|
        ensures TitleFrom(w, afterLetter)[i] == TitleCase(w[i], IsLetter(w[i - 1]))
      {
        assert TitleFrom(w, afterLetter)[i] == rest[i - 1];
        assert w[1..][i - 1] == w[i];
        if i > 1 {
          assert w[1..][i - 2] == w[i - 1];
        }
      }
    }
  }

  /** An input with no ASCII letter or digit is named "field". */
  lemma ToCamelFallback(s: string)
    ensures ToCamel(s) == FallbackName <== AlnumOnly(s) == []
    ensures AlnumOnly(s) == [] <==> Words(s) == []
  {
    WordsEmptyIff(s);
  }

  /**
   * Otherwise the name keeps every ASCII letter and digit of the input, in
   * order, and nothing else: ignoring case it is the input with the
   * separators removed, so it is as long as the input has letters and digits.
   */
  lemma ToCamelKeepsAlnum(s: string)
    requires AlnumOnly(s) != []
    ensures LowerStr(ToCamel(s)) == LowerStr(AlnumOnly(s))
    ensures |ToCamel(s)| == |AlnumOnly(s)|
  {
    var ws := Words(s);
    WordsEmptyIff(s);
    WordsJoinToAlnum(s);
    TitledConcatLower(ws[1..]);
    LowerStrAppend(LowerStr(ws[0]), TitledConcat(ws[1..]));
    LowerStrAppend(ws[0], Concat(ws[1..]));
    assert LowerStr(LowerStr(ws[0])) == LowerStr(ws[0]);
    assert Concat(ws) == ws[0] + Concat(ws[1..]);
  }

  /** The name is never empty and is made of ASCII letters and digits only. */
  lemma ToCamelIsIdentifier(s: string)
    ensures ToCamel(s) != []
    ensures forall i | 0 <= i < |ToCamel(s)| :: IsAlnum(ToCamel(s)[i])
  {
    WordsEmptyIff(s);
    if AlnumOnly(s) == [] {
      assert ToCamel(s) == FallbackName;
    } else {
      ToCamelKeepsAlnum(s);
      AlnumOnlyIsAlnum(s);
      var r := ToCamel(s);
      forall i | 0 <= i < |r| ensures IsAlnum(r[i]) {
        assert LowerStr(r)[i] == LowerStr(AlnumOnly(s))[i];
      }
    }
  }

  lemma {:induction false} AlnumOnlyIsAlnum(s: string)
    ensures forall i | 0 <= i < |AlnumOnly(s)| :: IsAlnum(AlnumOnly(s)[i])
  {
    if s != [] {
      AlnumOnlyIsAlnum(s[1..]);
    }
  }

  /**
   * In the title-cased concatenation, word `k` begins right after the words
   * before it, and its first character is upper-cased there.
   */
  lemma {:induction false} TitledConcatAt(ws: seq<string>, k: nat)
    requires k < |ws| && ws[k] != []
    ensures |Concat(ws[..k])| < |TitledConcat(ws)|
    ensures TitledConcat(ws)[|Concat(ws[..k])|] == ToUpper(ws[k][0])
    decreases k
  {
    TitleMeaning(ws[0]);
    if k == 0 {
      assert ws[..0] == [];
    } else {
      TitledConcatAt(ws[1..], k - 1);
      var before := ws[..k];
      assert before[0] == ws[0] && before[1..] == ws[1..][..k - 1];
      assert Concat(before) == ws[0] + Concat(ws[1..][..k - 1]);
      assert ws[1..][k - 1] == ws[k];
    }
  }

  /**
   * The first word is all lower-case and comes first; every later word
   * starts, at its place in the name, with its first character upper-cased.
   */
  lemma ToCamelCasing(s: string)
    requires Words(s) != []
    ensures var ws := Words(s);
      && |ws[0]| <= |ToCamel(s)|
      && ToCamel(s)[..|ws[0]|] == LowerStr(ws[0])
      && (forall i | 0 <= i < |ws[0]| :: !IsUpper(ToCamel(s)[i]))
      && (forall k | 1 <= k < |ws| ::
            && ws[k] != []
            && |Concat(ws[..k])| < |ToCamel(s)|
            && ToCamel(s)[|Concat(ws[..k])|] == ToUpper(ws[k][0]))
  {
    var ws := Words(s);
    WordsAreAlnum(s);
    var r := ToCamel(s);
    assert r == LowerStr(ws[0]) + TitledConcat(ws[1..]);
    forall k | 1 <= k < |ws|
      ensures |Concat(ws[..k])| < |r| && r[|Concat(ws[..k])|] == ToUpper(ws[k][0])
    {
      assert ws[1..][k - 1] == ws[k];
      TitledConcatAt(ws[1..], k - 1);
      var before := ws[..k];
      assert before[0] == ws[0] && before[1..] == ws[1..][..k - 1];
      assert Concat(before) == ws[0] + Concat(ws[1..][..k - 1]);
    }
  }

  // ----- add_field -----

  /** An `<option>` of a `<select>`: its `value` attribute, if any, and its text. */
  datatype SelectOption = SelectOption(value: Option<string>, text: string)

  /** A form control as parsed: its tag, its attributes and, for a select, its options. */
  datatype Element = Element(tag: string, attrs: map<string, string>, options: seq<SelectOption>)

  /** The `validation` object of a schema entry. */
  datatype Validation = Validation(pattern: string, message: string, minLength: Option<int>, maxLength: Option<int>)

  /** A schema entry, with its `_order` counter. */
  datatype ScrapedField = ScrapedField(
    name: string,
    id: Option<string>,
    labelText: string,
    step: int,
    kind: string,
    placeholder: string,
    required: bool,
    validation: Option<Validation>,
    options: Option<seq<(string, string)>>,
    visible: bool,
    rawAttributes: map<string, string>,
    order: nat)

  /** `int()` either returns or raises `ValueError`, which ends the whole scrape. */
  datatype Attempt<T> = Raises | Returns(value: T)

  const HiddenType := "hidden"
  const InvalidFormatMessage := "Invalid format"
  const InvalidValueMessage := "Invalid value"
  const AadhaarPattern := "^\\d{12}$"
  const AadhaarMessage := "Aadhaar must be exactly 12 digits"
  const PanPattern := "^[A-Za-z]{5}[0-9]{4}[A-Za-z]{1}$"
  const PanMessage := "PAN must be in the format ABCDE1234F"

  /** The control's type: an input's lower-cased `type` (default "text"), else "select", "textarea" or "text". */
  function ControlType(el: Element): string {
    if el.tag == "input" then LowerStr(Get(el.attrs, "type").GetOr("text"))
    else if el.tag == "select" then "select"
    else if el.tag == "textarea" then "textarea"
    else "text"
  }

  /** `el.get("id") or ""` */
  function ControlId(el: Element): string {
    OrEmpty(Get(el.attrs, "id"))
  }

  /** `name`, else `id`, else the camel-cased title and placeholder. */
  function ControlName(el: Element): string {
    var fid := ControlId(el);
    OrElse(Get(el.attrs, "name"),
      if fid != "" then fid
      else ToCamel(OrEmpty(Get(el.attrs, "title")) + " " + OrEmpty(Get(el.attrs, "placeholder"))))
  }

  /** The label or the name mentions Aadhaar. */
  predicate AadhaarCue(labelUpper: string, name: string) {
    Contains(labelUpper, "AADHAAR") || Contains(labelUpper, "AADHAR") || StartsWith(LowerStr(name), "aadhaar")
  }

  /** The label or the name mentions PAN. */
  predicate PanCue(labelUpper: string, name: string) {
    Contains(labelUpper, "PAN") || StartsWith(LowerStr(name), "pan")
  }

  /**
   * The pattern and message an entry gets: an explicit `pattern` attribute
   * with "Invalid format"; otherwise the Aadhaar pattern for an Aadhaar cue,
   * overridden by the PAN pattern for a PAN cue; otherwise the attribute as
   * it was and no message.
   */
  function PatternRule(patternAttr: Option<string>, labelUpper: string, name: string): (Option<string>, Option<string>) {
    if Truthy(patternAttr) then (patternAttr, Some(InvalidFormatMessage))
    else if PanCue(labelUpper, name) then (Some(PanPattern), Some(PanMessage))
    else if AadhaarCue(labelUpper, name) then (Some(AadhaarPattern), Some(AadhaarMessage))
    else (patternAttr, None)
  }

  /** `int(v) if v else None` */
  function LengthAttr(v: Option<string>): Attempt<Option<int>> {
    if !Truthy(v) then Returns(None)
    else match ParseInt(v.value)
      case None => Raises
      case Some(n) => Returns(Some(n))
  }

  /** The `validation` object: present when a pattern, a minimum or a maximum length is. */
  function ExtractValidation(el: Element, labelUpper: string, name: string): Attempt<Option<Validation>> {
    var (pattern, msg) := PatternRule(Get(el.attrs, "pattern"), labelUpper, name);
    var minAttr := Get(el.attrs, "minlength");
    var maxAttr := Get(el.attrs, "maxlength");
    if !(Truthy(pattern) || Truthy(minAttr) || Truthy(maxAttr)) then Returns(None)
    else match (LengthAttr(minAttr), LengthAttr(maxAttr))
      case (Returns(minLength), Returns(maxLength)) =>
        Returns(Some(Validation(OrEmpty(pattern), OrElse(msg, InvalidValueMessage), minLength, maxLength)))
      case _ => Raises
  }

  /**
   * What `add_field` appends for `el`, whose label text the DOM lookup found
   * as `labelText`: nothing for a hidden input, else the entry numbered
   * `order`.
   */
  function FieldEntry(el: Element, labelText: string, stepGuess: int, vis: map<string, bool>, order: nat): Attempt<Option<ScrapedField>> {
    var kind := ControlType(el);
    if kind == HiddenType then Returns(None)
    else
      var fid := ControlId(el);
      var name := ControlName(el);
      var labelUpper := UpperStr(if labelText != "" then labelText else name);
      match ExtractValidation(el, labelUpper, name)
      case Raises => Raises
      case Returns(validation) =>
        var options := if el.tag == "select"
          then Some(seq(|el.options|, i requires 0 <= i < |el.options| => (el.options[i].value.GetOr(""), el.options[i].text)))
          else None;
        Returns(Some(ScrapedField(
          name,
          if fid != "" then Some(fid) else None,
          if labelText != "" then labelText else name,
          stepGuess,
          kind,
          OrEmpty(Get(el.attrs, "placeholder")),
          "required" in el.attrs,
          validation,
          options,
          Get(vis, if fid != "" then fid else name).GetOr(true),
          el.attrs,
          order)))
  }

  /** A hidden input yields no entry, whatever else it carries. */
  lemma HiddenSkipped(el: Element, labelText: string, stepGuess: int, vis: map<string, bool>, order: nat)
    ensures FieldEntry(el, labelText, stepGuess, vis, order) == Returns(None) <==> ControlType(el) == HiddenType
  {
  }

  /** An explicit `pattern` attribute is kept as it is, with "Invalid format". */
  lemma ExplicitPatternKept(patternAttr: Option<string>, labelUpper: string, name: string)
    requires Truthy(patternAttr)
    ensures PatternRule(patternAttr, labelUpper, name) == (patternAttr, Some(InvalidFormatMessage))
  {
  }

  /** Without one, an Aadhaar cue gives the twelve-digit pattern unless a PAN cue overrides it. */
  lemma CuesChoosePattern(patternAttr: Option<string>, labelUpper: string, name: string)
    requires !Truthy(patternAttr)
    ensures PanCue(labelUpper, name) ==> PatternRule(patternAttr, labelUpper, name) == (Some(PanPattern), Some(PanMessage))
    ensures AadhaarCue(labelUpper, name) && !PanCue(labelUpper, name) ==>
      PatternRule(patternAttr, labelUpper, name) == (Some(AadhaarPattern), Some(AadhaarMessage))
    ensures !AadhaarCue(labelUpper, name) && !PanCue(labelUpper, name) ==>
      PatternRule(patternAttr, labelUpper, name).1.None?
  {
  }

  /**
   * An entry has no `validation` exactly when it ends up with no pattern and
   * has no `minlength` or `maxlength`; a present one carries a non-empty
   * message.
   */
  lemma ValidationPresence(el: Element, labelUpper: string, name: string)
    ensures var (pattern, _) := PatternRule(Get(el.attrs, "pattern"), labelUpper, name);
      var present := Truthy(pattern) || Truthy(Get(el.attrs, "minlength")) || Truthy(Get(el.attrs, "maxlength"));
      && (ExtractValidation(el, labelUpper, name) == Returns(None) <==> !present)
      && (ExtractValidation(el, labelUpper, name).Returns? && ExtractValidation(el, labelUpper, name).value.Some? ==>
            ExtractValidation(el, labelUpper, name).value.value.message != "")
  {
  }

  /** A `minlength` that `int()` cannot read stops the scrape. */
  lemma BadLengthRaises(el: Element, labelUpper: string, name: string)
    requires Truthy(Get(el.attrs, "minlength")) && ParseInt(el.attrs["minlength"]).None?
    ensures ExtractValidation(el, labelUpper, name) == Raises
  {
  }

  // ----- the container loop -----

  /** The step guess from a container's text. */
  function StepGuess(containerText: string): (step: int)
    ensures step == 1 || step == 2
  {
    var upper := UpperStr(containerText);
    if Contains(upper, "AADHAAR") || Contains(upper, "OTP") then 1
    else if Contains(upper, "PAN") then 2
    else 1
  }

  /** Step 2 is guessed exactly for a text that mentions PAN and neither Aadhaar nor OTP. */
  lemma StepGuessIff(containerText: string)
    ensures var upper := UpperStr(containerText);
      StepGuess(containerText) == 2 <==>
        Contains(upper, "PAN") && !Contains(upper, "AADHAAR") && !Contains(upper, "OTP")
  {
  }

  /** A control together with the label text the DOM lookup found for it. */
  datatype Control = Control(element: Element, labelText: string)

  /** A step container: its text and the controls inside it, in document order. */
  datatype Container = Container(text: string, controls: seq<Control>)

  /** The calls to `add_field` the loop makes for one container. */
  function CallsIn(c: Container): seq<(Control, int)> {
    seq(|c.controls|, i requires 0 <= i < |c.controls| => (c.controls[i], StepGuess(c.text)))
  }

  /** The calls for all containers, in order. */
  function Calls(cs: seq<Container>): seq<(Control, int)> {
    if cs == [] then [] else CallsIn(cs[0]) + Calls(cs[1..])
  }

  /** One call of `add_field` after earlier calls that produced `prev`; a raise ends the scrape. */
  function Step(prev: Attempt<seq<ScrapedField>>, call: (Control, int), vis: map<string, bool>): Attempt<seq<ScrapedField>> {
    match prev
    case Raises => Raises
    case Returns(done) =>
      match FieldEntry(call.0.element, call.0.labelText, call.1, vis, |done|)
      case Raises => Raises
      case Returns(None) => Returns(done)
      case Returns(Some(entry)) => Returns(done + [entry])
  }

  /** The entries after the given calls, made in order from `acc`. */
  function Fold(acc: Attempt<seq<ScrapedField>>, calls: seq<(Control, int)>, vis: map<string, bool>): Attempt<seq<ScrapedField>>
    decreases |calls|
  {
    if calls == [] then acc else Fold(Step(acc, calls[0], vis), calls[1..], vis)
  }

  /** Once a call has raised, no later call changes the outcome. */
  lemma {:induction false} FoldRaises(calls: seq<(Control, int)>, vis: map<string, bool>)
    ensures Fold(Raises, calls, vis) == Raises
  {
    if calls != [] {
      FoldRaises(calls[1..], vis);
    }
  }

  /** Making the calls of `a + b` is making those of `a`, then those of `b`. */
  lemma {:induction false} FoldAppend(acc: Attempt<seq<ScrapedField>>, a: seq<(Control, int)>, b: seq<(Control, int)>, vis: map<string, bool>)
    ensures Fold(acc, a + b, vis) == Fold(Fold(acc, a, vis), b, vis)
    decreases |a|
  {
    if a == [] {
      assert a + b == b;
    } else {
      assert (a + b)[1..] == a[1..] + b;
      FoldAppend(Step(acc, a[0], vis), a[1..], b, vis);
    }
  }

  /** Entries numbered by position: sorting by `_order` leaves the list as it is. */
  predicate Numbered(fields: seq<ScrapedField>) {
    forall i | 0 <= i < |fields| :: fields[i].order == i
  }

  /** One call keeps a numbered list numbered, only appends, and appends no hidden input. */
  lemma StepNumbered(fields: seq<ScrapedField>, call: (Control, int), vis: map<string, bool>)
    requires Numbered(fields)
    ensures Step(Returns(fields), call, vis).Returns? ==>
      var out := Step(Returns(fields), call, vis).value;
      && Numbered(out)
      && fields <= out
      && forall i | |fields| <= i < |out| :: out[i].kind != HiddenType
  {
  }

  /**
   * Collecting from a numbered list keeps it numbered, only appends, and
   * never produces an entry for a hidden input.
   */
  lemma {:induction false} FoldNumbered(fields: seq<ScrapedField>, calls: seq<(Control, int)>, vis: map<string, bool>)
    requires Numbered(fields)
    ensures Fold(Returns(fields), calls, vis).Returns? ==>
      var out := Fold(Returns(fields), calls, vis).value;
      && Numbered(out)
      && fields <= out
      && forall i | |fields| <= i < |out| :: out[i].kind != HiddenType
    decreases |calls|
  {
    if calls != [] {
      var next := Step(Returns(fields), calls[0], vis);
      StepNumbered(fields, calls[0], vis);
      if next.Raises? {
        FoldRaises(calls[1..], vis);
      } else {
        FoldNumbered(next.value, calls[1..], vis);
      }
    }
  }

  /** `fields` and `order` of `launch_and_extract`, which `add_field` appends to and advances. */
  class SchemaBuilder {
    var fields: seq<ScrapedField>
    var order: nat

    ghost predicate Valid()
      reads this
    {
      order == |fields| && Numbered(fields)
    }

    constructor ()
      ensures Valid() && fields == []
    {
      fields := [];
      order := 0;
    }

    /** `add_field`: `raised` when `int()` raised, in which case nothing was appended. */
    method AddField(el: Element, labelText: string, stepGuess: int, vis: map<string, bool>) returns (raised: bool)
      requires Valid()
      modifies this
      ensures Valid()
      ensures var entry := FieldEntry(el, labelText, stepGuess, vis, old(order));
        && raised == entry.Raises?
        && fields == (if entry.Returns? && entry.value.Some? then old(fields) + [entry.value.value] else old(fields))
      ensures Step(Returns(old(fields)), (Control(el, labelText), stepGuess), vis) == (if raised then Raises else Returns(fields))
    {
      var entry := FieldEntry(el, labelText, stepGuess, vis, order);
      if entry.Raises? {
        return true;
      }
      raised := false;
      if entry.value.Some? {
        fields := fields + [entry.value.value];
        order := order + 1;
      }
    }

    /** `add_field` on each control of one container, with the container's step guess. */
    method AddAll(calls: seq<(Control, int)>, vis: map<string, bool>) returns (raised: bool)
      requires Valid()
      modifies this
      ensures Valid()
      ensures Fold(Returns(old(fields)), calls, vis) == (if raised then Raises else Returns(fields))
    {
      for i := 0 to |calls|
        invariant Valid()
        invariant Fold(Returns(fields), calls[i..], vis) == Fold(Returns(old(fields)), calls, vis)
      {
        assert calls[i..][1..] == calls[i + 1..];
        raised := AddField(calls[i].0.element, calls[i].0.labelText, calls[i].1, vis);
        if raised {
          FoldRaises(calls[i + 1..], vis);
          return;
        }
      }
      raised := false;
    }

    /**
     * The loop over the step containers (`containers`, or the whole document
     * when there are none): `raised` when some `add_field` raised.
     */
    method ExtractFields(containers: seq<Container>, document: Container, vis: map<string, bool>) returns (raised: bool)
      requires Valid()
      modifies this
      ensures Valid()
      ensures var cs := if containers == [] then [document] else containers;
        Fold(Returns(old(fields)), Calls(cs), vis) == (if raised then Raises else Returns(fields))
    {
      var cs := if containers == [] then [document] else containers;
      for ci := 0 to |cs|
        invariant Valid()
        invariant Fold(Returns(fields), Calls(cs[ci..]), vis) == Fold(Returns(old(fields)), Calls(cs), vis)
      {
        assert cs[ci..][1..] == cs[ci + 1..];
        FoldAppend(Returns(fields), CallsIn(cs[ci]), Calls(cs[ci + 1..]), vis);
        raised := AddAll(CallsIn(cs[ci]), vis);
        if raised {
          FoldRaises(Calls(cs[ci + 1..]), vis);
          return;
        }
      }
      raised := false;
    }
  }
}
