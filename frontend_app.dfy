/** The single React component of the fraud-detection client: seven text
    fields, the payload coerced from them, and the request lifecycle of one
    submission (result, loading flag, error message).  The network round trip
    itself is represented by the Outcome it produces. */
module FrontendApp {
  import opened JsNumbers

  datatype Option<+T> = None | Some(value: T)

  /** The form's field names, the keys of the initial state. */
  const Fields: set<string> :=
    {"step", "type", "amount", "oldbalanceOrg", "newbalanceOrig", "oldbalanceDest", "newbalanceDest"}

  /** The fields sent as floating-point numbers. */
  const FloatFields: set<string> :=
    {"amount", "oldbalanceOrg", "newbalanceOrig", "oldbalanceDest", "newbalanceDest"}

  /** The one message every failed submission shows. */
  const FailureMessage: string := "Failed to get prediction. Is the backend running?"

  /** The choices the type selector offers besides the empty placeholder. */
  const PaymentTypes: seq<string> := ["PAYMENT", "TRANSFER", "CASH_OUT", "DEBIT", "CASH_IN"]

  /** The form state: field name to raw text. */
  type Form = map<string, string>

  /** A value of the JSON payload. */
  datatype JsonValue = JStr(s: string) | JNum(n: Number)

  type Payload = map<string, JsonValue>

  /** The scoring service's answer; is_fraud arrives as the integer 0 or 1. */
  datatype Prediction = Prediction(fraudProbability: real, isFraud: int)

  /** How the one request of a submission ends: a success status with a body
      that parses, a status that is not ok, a fetch that rejects, or a body
      that does not parse as JSON. */
  datatype Outcome = Ok(body: Prediction) | NotOk | TransportFail | BodyParseFail

  /** The lifecycle the four state variables encode. */
  datatype Phase = Idle | InFlight | Succeeded(prediction: Prediction) | Failed(message: string)

  /** The initial form: every field present and empty. */
  function InitialForm(): (f: Form)
    ensures f.Keys == Fields
    ensures forall k :: k in f ==> f[k] == ""
  {
    map k | k in Fields :: ""
  }

  /** The object-spread update of one field: the named field takes the new
      text, every other field keeps its own. */
  function SetField(form: Form, name: string, value: string): (f: Form)
    ensures f.Keys == form.Keys + {name}
    ensures f[name] == value
    ensures forall k :: k in form && k != name ==> f[k] == form[k]
  {
    form[name := value]
  }

  /** The JSON value one field contributes to the payload. */
  function Coerce(name: string, text: string): JsonValue {
    if name in FloatFields then JNum(ParseFloat(text))
    else if name == "step" then JNum(ParseInt(text))
    else JStr(text)
  }

  /** The payload: every key of the form, with step read by parseInt, the
      five amounts and balances read by parseFloat, and type (and any other
      key) passed through as text.  It never fails: unparsable text becomes
      NaN. */
  function BuildPayload(form: Form): (p: Payload)
    requires Fields <= form.Keys
    ensures p.Keys == form.Keys
    ensures p["type"] == JStr(form["type"])
    ensures p["step"] == JNum(ParseInt(form["step"]))
    ensures forall k :: k in FloatFields ==> p[k] == JNum(ParseFloat(form[k]))
    ensures forall k :: k in form && k !in Fields ==> p[k] == JStr(form[k])
  {
    assert "step" !in FloatFields && "type" !in FloatFields;
    assert FloatFields <= Fields;
    map k | k in form :: Coerce(k, form[k])
  }

  /** Every numeric field of the payload is a Number, NaN when its text is
      empty or carries neither a digit nor the letter I. */
  lemma NonNumericFieldIsNaN(form: Form, k: string)
    requires Fields <= form.Keys
    requires k in Fields && k != "type"
    requires forall i :: 0 <= i < |form[k]| ==> !IsDecimalDigit(form[k][i]) && form[k][i] != 'I'
    ensures BuildPayload(form)[k] == JNum(NaN)
  {
    NonNumericIsNaN(form[k]);
  }

  // ---------------------------------------------------------------------
  // The browser's constraint validation of the form

  /** An HTML valid floating-point number: an optional "-", then integer
      digits, a point followed by fraction digits, or both, and optionally an
      exponent. */
  function IsValidFloatingPoint(s: string): (b: bool)
    ensures b ==> |s| > 0 && !IsStrWhiteSpace(s[0])
    ensures b ==> exists i :: 0 <= i < |s| && IsDecimalDigit(s[i])
  {
    var t := Unsigned(s);
    var i := LeadingDigits(t, 10);
    var r := IsMantissaRest(t[i..], i > 0);
    assert r ==> |t| > 0 && (IsDecimalDigit(t[0]) || t[0] == '.');
    assert r && i == 0 ==> IsDecimalDigit(t[1]);
    assert r ==> IsDecimalDigit(s[|s| - |t|]) || IsDecimalDigit(s[|s| - |t| + 1]);
    r
  }

  /** A number's text without its optional leading minus sign. */
  function Unsigned(s: string): (t: string)
    ensures IsNegative(s) ==> t == s[1..]
    ensures !IsNegative(s) ==> t == s
  {
    if IsNegative(s) then s[1..] else s
  }

  /** The rest of a valid floating-point number after its integer digits:
      a point and one or more digits, or nothing if there were integer
      digits; then an optional exponent. */
  predicate IsMantissaRest(r: string, hasIntegerDigits: bool) {
    if |r| > 0 && r[0] == '.' then
      var f := LeadingDigits(r[1..], 10);
      f > 0 && IsExponentPart(r[1..][f..])
    else hasIntegerDigits && IsExponentPart(r)
  }

  /** Nothing, or "e"/"E", an optional sign and one or more digits, ending the text. */
  predicate IsExponentPart(r: string) {
    r == [] || ((r[0] == 'e' || r[0] == 'E') && |DropSign(r[1..])| > 0 && AllDigits(DropSign(r[1..]), 10))
  }

  /** Whether a number's text has digits before its point (".5" has none). */
  predicate HasIntegerDigits(s: string) {
    LeadingDigits(Unsigned(s), 10) > 0
  }

  /** The form passes the browser's checks, so submitting it fires the submit
      handler: every required number input holds a valid floating-point
      number, and the required type selector holds one of its non-empty
      options. */
  function Submittable(form: Form): (b: bool)
    requires Fields <= form.Keys
    ensures b ==> forall k :: k in Fields ==> form[k] != ""
  {
    assert Fields == FloatFields + {"step", "type"};
    assert forall t :: t in PaymentTypes ==> t != "";
    && IsValidFloatingPoint(form["step"])
    && form["type"] in PaymentTypes
    && forall k :: k in FloatFields ==> IsValidFloatingPoint(form[k])
  }

  /** A valid floating-point number reaches both parsers unchanged by
      trimming, with its digits or its point right after the optional minus
      sign. */
  lemma ValidFloatingPointStart(s: string, t: string)
    requires IsValidFloatingPoint(s)
    requires t == Unsigned(s)
    ensures TrimStart(s) == s && DropSign(s) == t
    ensures IsMantissaRest(t[LeadingDigits(t, 10)..], LeadingDigits(t, 10) > 0)
    ensures |t| > 0 && (IsDecimalDigit(t[0]) || t[0] == '.')
  {
    assert |t| > 0 && (IsDecimalDigit(t[0]) || t[0] == '.');
    assert s[0] == '-' || IsDecimalDigit(s[0]) || s[0] == '.';
    assert !IsStrWhiteSpace(s[0]);
    assert LeadingWhiteSpace(s) == 0;
  }

  /** parseFloat reads a valid floating-point number as a finite number. */
  lemma ValidFloatingPointParseFloat(s: string)
    requires IsValidFloatingPoint(s)
    ensures ParseFloat(s).Num?
  {
    var t := Unsigned(s);
    ValidFloatingPointStart(s, t);
    assert !StartsWithInfinity(t) by {
      if |t| >= 8 { assert t[..8][0] == t[0]; }
    }
    if LeadingDigits(t, 10) == 0 {
      assert t[0] == '.' && LeadingDigits(t[1..], 10) > 0;
    }
  }

  /** parseInt reads a valid floating-point number as a finite number exactly
      when it has digits before its point; ".5" and ".0" give NaN. */
  lemma ValidFloatingPointParseInt(s: string)
    requires IsValidFloatingPoint(s)
    ensures ParseInt(s).Num? <==> HasIntegerDigits(s)
  {
    var t := Unsigned(s);
    ValidFloatingPointStart(s, t);
    NoHexPrefix(t);
  }

  /** A valid number has no "0x" prefix: after a leading "0" comes another
      digit, the point, an exponent or nothing. */
  lemma NoHexPrefix(t: string)
    requires |t| > 0 && (IsDecimalDigit(t[0]) || t[0] == '.')
    requires IsMantissaRest(t[LeadingDigits(t, 10)..], LeadingDigits(t, 10) > 0)
    ensures !HasHexPrefix(t)
  {
    if |t| >= 2 && IsDecimalDigit(t[0]) && !IsDecimalDigit(t[1]) {
      assert LeadingDigits(t, 10) == 1;
      assert t[1..][0] == t[1];
    }
  }

  /** What a form that passes the browser's checks sends: finite amounts and
      balances, a type among the selector's options, and a finite step
      exactly when the step's text has digits before its point. */
  lemma SubmittedPayloadIsFinite(form: Form)
    requires Fields <= form.Keys && Submittable(form)
    ensures var p := BuildPayload(form);
      && p["type"].JStr? && p["type"].s in PaymentTypes
      && (forall k :: k in FloatFields ==> p[k].JNum? && p[k].n.Num?)
      && p["step"].JNum? && (p["step"].n.Num? <==> HasIntegerDigits(form["step"]))
  {
    ValidFloatingPointParseInt(form["step"]);
    forall k | k in FloatFields ensures ParseFloat(form[k]).Num? {
      ValidFloatingPointParseFloat(form[k]);
    }
  }

  /** The empty form of the first render cannot be submitted. */
  lemma InitialFormIsBlocked()
    ensures !Submittable(InitialForm())
  {
    assert InitialForm()["step"] == "";
  }

  /** A filled-in form: the given step text, type PAYMENT, and 1 for every
      amount and balance. */
  function SampleForm(step: string): (form: Form)
    ensures form.Keys == Fields && form["step"] == step && form["type"] == "PAYMENT"
    ensures forall k :: k in FloatFields ==> form[k] == "1"
  {
    map k | k in Fields :: if k == "step" then step else if k == "type" then "PAYMENT" else "1"
  }

  /** A sample form with a step the number input accepts passes the browser's checks. */
  lemma SampleFormSubmittable(step: string)
    requires IsValidFloatingPoint(step)
    ensures Submittable(SampleForm(step))
  {
    assert IsValidFloatingPoint("1") by {
      assert LeadingDigits("1", 10) == 1;
    }
    assert "PAYMENT" == PaymentTypes[0];
  }

  /** A form the page submits whose step, ".0", is sent as NaN: the number
      input accepts ".0" as the whole number 0, but parseInt finds no digit
      before the point. */
  lemma DotZeroStepSendsNaN(form: Form)
    requires form == SampleForm(".0")
    ensures Fields <= form.Keys && Submittable(form)
    ensures BuildPayload(form)["step"] == JNum(NaN)
    ensures WholeStep(form["step"]) == Num(0.0)
  {
    var step := form["step"];
    assert IsValidFloatingPoint(step) by {
      assert LeadingDigits(step, 10) == 0;
      assert LeadingDigits(step[1..], 10) == 1;
    }
    SampleFormSubmittable(step);
    ValidFloatingPointParseInt(step);
    assert step == "" + "." + "0";
    assert DigitsValue("0", 10) == 0 by { assert "0"[..0] == ""; }
    ParseFloatOfDecimal(step, "", "0");
    assert Fraction(0, 0, 1) == 0.0;
  }

  /** A form the page submits whose step, "1e3", is sent as 1: the number
      input holds the whole number 1000, but parseInt stops at the "e". */
  lemma ExponentStepSendsOne(form: Form)
    requires form == SampleForm("1e3")
    ensures Fields <= form.Keys && Submittable(form)
    ensures ParseFloat(form["step"]) == Num(1000.0)
    ensures BuildPayload(form)["step"] == JNum(Num(1.0))
    ensures WholeStep(form["step"]) == Num(1000.0)
  {
    var step := form["step"];
    ExponentTextIsValid(step);
    ExponentTextParseFloat(step);
    ExponentTextParseInt(step);
    SampleFormSubmittable(step);
    assert Truncate(1000.0) == 1000;
  }

  /** "1e3" is a valid floating-point number. */
  lemma ExponentTextIsValid(step: string)
    requires step == "1e3"
    ensures IsValidFloatingPoint(step)
    ensures TrimStart(step) == step && DropSign(step) == step
    ensures LeadingDigits(step, 10) == 1 && step[..1] == "1" && step[1..] == "e3"
  {
    assert LeadingDigits(step, 10) == 1;
    assert step[1..] == "e3" && "e3"[1..] == "3";
    assert LeadingDigits("3", 10) == 1;
    assert !IsStrWhiteSpace(step[0]);
    assert LeadingWhiteSpace(step) == 0;
  }

  /** parseFloat reads "1e3" as 1000. */
  lemma ExponentTextParseFloat(step: string)
    requires step == "1e3"
    ensures ParseFloat(step) == Num(1000.0)
  {
    ExponentTextIsValid(step);
    assert !StartsWithInfinity(step);
    assert DigitsValue("1", 10) == 1 by { assert "1"[..0] == ""; }
    assert "e3"[1..] == "3" && LeadingDigits("3", 10) == 1 && "3"[..1] == "3";
    assert DigitsValue("3", 10) == 3 by { assert "3"[..0] == ""; }
    assert ExponentValue("e3") == 3;
    assert Scale(3) == 1000.0 by { assert Pow10(3) == 1000; }
    assert Fraction(1, 0, 0) == 1.0;
  }

  /** parseInt reads "1e3" as 1: the "e" ends the digits. */
  lemma ExponentTextParseInt(step: string)
    requires step == "1e3"
    ensures ParseInt(step) == Num(1.0)
  {
    ExponentTextIsValid(step);
    assert !HasHexPrefix(step);
    assert DigitsValue("1", 10) == 1 by { assert "1"[..0] == ""; }
  }

  /** The step coercion evidently intended: the whole number the number
      input holds, read as parseFloat does and truncated toward zero like
      parseInt (Math.trunc(parseFloat(text))). */
  function WholeStep(text: string): Number {
    match ParseFloat(text)
    case Num(v) => Num(Truncate(v) as real)
    case other => other
  }

  /** v rounded toward zero to a whole number. */
  function Truncate(v: real): (w: int)
    ensures 0.0 <= v ==> w as real <= v < w as real + 1.0
    ensures v < 0.0 ==> w as real - 1.0 < v <= w as real
    ensures v == v.Floor as real ==> w as real == v
  {
    if v >= 0.0 then v.Floor
    else
      assert v == v.Floor as real ==> -v == (-v.Floor) as real;
      -((-v).Floor)
  }

  /** The corrected coercion sends a finite whole number for every step the
      browser accepts, ".0" and ".5" included, and agrees with parseInt on
      plain digit strings. */
  lemma WholeStepIsFinite(s: string)
    requires IsValidFloatingPoint(s)
    ensures WholeStep(s).Num? && WholeStep(s).v == WholeStep(s).v.Floor as real
    ensures |s| > 0 && AllDigits(s, 10) ==> WholeStep(s) == ParseInt(s)
  {
    ValidFloatingPointParseFloat(s);
    if |s| > 0 && AllDigits(s, 10) {
      ParseIntOfDigits(s);
      ParseFloatOfDigits(s);
      var n := DigitsValue(s, 10) as real;
      assert n.Floor as real == n;
    }
  }

  // ---------------------------------------------------------------------
  // Sequences of edits

  /** One change event: the input's name and its new text. */
  datatype Edit = Edit(name: string, value: string)

  /** The form after a sequence of change events, applied in order. */
  function ApplyEdits(form: Form, edits: seq<Edit>): Form
    decreases |edits|
  {
    if |edits| == 0 then form
    else ApplyEdits(SetField(form, edits[0].name, edits[0].value), edits[1..])
  }

  /** Edits add the names they touch to the keys and remove none. */
  lemma {:induction false} ApplyEditsKeys(form: Form, edits: seq<Edit>)
    ensures ApplyEdits(form, edits).Keys == form.Keys + set j | 0 <= j < |edits| :: edits[j].name
    decreases |edits|
  {
    if |edits| > 0 {
      var rest := edits[1..];
      ApplyEditsKeys(SetField(form, edits[0].name, edits[0].value), rest);
      assert (set j | 0 <= j < |edits| :: edits[j].name)
          == {edits[0].name} + set j | 0 <= j < |rest| :: rest[j].name by {
        forall j | 0 <= j < |rest| ensures rest[j] == edits[j + 1] { }
      }
    }
  }

  /** Edits of the seven fields keep the key set exactly the seven fields. */
  lemma FieldEditsKeepFields(form: Form, edits: seq<Edit>)
    requires form.Keys == Fields
    requires forall j :: 0 <= j < |edits| ==> edits[j].name in Fields
    ensures ApplyEdits(form, edits).Keys == Fields
  {
    ApplyEditsKeys(form, edits);
  }

  /** The most recent edit of a field decides its text; a field no edit
      touches keeps its text. */
  lemma {:induction false} ApplyEditsLastWins(form: Form, edits: seq<Edit>, k: string)
    ensures (forall j :: 0 <= j < |edits| ==> edits[j].name != k) && k in form ==>
      k in ApplyEdits(form, edits) && ApplyEdits(form, edits)[k] == form[k]
    ensures forall j :: 0 <= j < |edits| && edits[j].name == k && (forall l :: j < l < |edits| ==> edits[l].name != k) ==>
      k in ApplyEdits(form, edits) && ApplyEdits(form, edits)[k] == edits[j].value
    decreases |edits|
  {
    if |edits| > 0 {
      var first := SetField(form, edits[0].name, edits[0].value);
      var rest := edits[1..];
      ApplyEditsLastWins(first, rest, k);
      ApplyEditsKeys(first, rest);
      forall j | 0 <= j < |edits| && edits[j].name == k && (forall l :: j < l < |edits| ==> edits[l].name != k)
        ensures k in ApplyEdits(form, edits) && ApplyEdits(form, edits)[k] == edits[j].value
      {
        if j > 0 {
          assert rest[j - 1] == edits[j];
          forall l | j - 1 < l < |rest| ensures rest[l].name != k {
            assert rest[l] == edits[l + 1];
          }
        } else {
          forall l | 0 <= l < |rest| ensures rest[l].name != k {
            assert rest[l] == edits[l + 1];
          }
        }
      }
      if (forall j :: 0 <= j < |edits| ==> edits[j].name != k) && k in form {
        forall l | 0 <= l < |rest| ensures rest[l].name != k {
          assert rest[l] == edits[l + 1];
        }
      }
    }
  }

  // ---------------------------------------------------------------------
  // The component's state

  class App {
    var form: Form
    var result: Option<Prediction>
    var loading: bool
    var error: string

    /** All seven fields are present; while loading neither a result nor an
        error is shown; a result and an error never show together; the only
        error text is the fixed failure message. */
    ghost predicate Valid()
      reads this
    {
      && Fields <= form.Keys
      && (loading ==> result.None? && error == "")
      && (result.Some? ==> error == "")
      && (error == "" || error == FailureMessage)
    }

    /** The lifecycle phase the state variables stand for. */
    function Phase(): Phase
      reads this
    {
      if loading then InFlight
      else if result.Some? then Succeeded(result.value)
      else if error != "" then Failed(error)
      else Idle
    }

    /** The first render: empty fields, no result, not loading, no error. */
    constructor ()
      ensures Valid() && Phase() == Idle
      ensures form == InitialForm() && result == None && !loading && error == ""
    {
      form := InitialForm();
      result := None;
      loading := false;
      error := "";
    }

    /** handleChange: one field takes the new text; nothing else changes. */
    method HandleChange(name: string, value: string)
      requires Valid()
      modifies this
      ensures Valid()
      ensures form == SetField(old(form), name, value)
      ensures result == old(result) && loading == old(loading) && error == old(error)
    {
      form := SetField(form, name, value);
    }

    /** handleSubmit up to the request: raise the loading flag, clear the
        error and the result, and build the payload from the current form. */
    method BeginSubmit() returns (payload: Payload)
      requires Valid()
      modifies this
      ensures Valid() && Phase() == InFlight
      ensures loading && error == "" && result == None
      ensures form == old(form)
      ensures payload == BuildPayload(form)
    {
      loading := true;
      error := "";
      result := None;
      payload := BuildPayload(form);
    }

    /** handleSubmit once the request has settled: a successful response
        stores its body as the result; a status that is not ok, a rejected
        fetch and an unparsable body all reach the same catch and store the
        fixed message; the finally lowers the loading flag on every path. */
    method Settle(outcome: Outcome)
      requires Valid() && loading
      modifies this
      ensures Valid() && !loading
      ensures form == old(form)
      ensures outcome.Ok? ==> result == Some(outcome.body) && error == "" && Phase() == Succeeded(outcome.body)
      ensures !outcome.Ok? ==> result == None && error == FailureMessage && Phase() == Failed(FailureMessage)
    {
      var failed: bool;
      match outcome {
        case Ok(body) =>
          result := Some(body);
          failed := false;
        case NotOk =>
          failed := true;
        case TransportFail =>
          failed := true;
        case BodyParseFail =>
          failed := true;
      }
      if failed {
        error := FailureMessage;
      }
      loading := false;
    }

    /** A whole submission with no edit while the request is pending: the
        payload sent is the form's, and the end state depends only on the
        outcome. */
    method HandleSubmit(outcome: Outcome) returns (payload: Payload)
      requires Valid()
      modifies this
      ensures Valid() && !loading
      ensures form == old(form) && payload == BuildPayload(old(form))
      ensures outcome.Ok? ==> result == Some(outcome.body) && error == ""
      ensures !outcome.Ok? ==> result == None && error == FailureMessage
    {
      payload := BeginSubmit();
      Settle(outcome);
    }

    /** Pressing the submit button: while a request is pending the button is
        disabled and nothing happens; a form the browser's checks reject is
        not submitted either; otherwise a submission begins. */
    method PressSubmit() returns (sent: Option<Payload>)
      requires Valid()
      modifies this
      ensures Valid()
      ensures old(loading) || !Submittable(old(form)) ==>
        sent == None && form == old(form) && result == old(result) && loading == old(loading) && error == old(error)
      ensures !old(loading) && Submittable(old(form)) ==>
        sent == Some(BuildPayload(old(form))) && form == old(form) && Phase() == InFlight
    {
      if loading || !Submittable(form) {
        sent := None;
      } else {
        var payload := BeginSubmit();
        sent := Some(payload);
      }
    }
  }
}
