/**
 * The React form: its state is the three input strings and the `loading`
 * flag. Typing into an input replaces one field (the roll number keeps only
 * its digits); submitting checks the fields, sends a payload to `/submit`,
 * and clears the form once an answer has been read.
 */
module Form {
  import opened Wrappers
  import opened JsValues
  import opened ParseInt
  import Server

  /** The three inputs; an input event carries the name of one of them. */
  datatype Field = NameField | RollNoField | AddressField

  datatype FormData = FormData(name: string, rollno: string, address: string)

  const EmptyForm := FormData("", "", "")

  /** `value.replace(/\D/g, "")`: the ASCII digits of s; a string of digits is left as it is. */
  function KeepDigits(s: string): (r: string)
    ensures AllDigits(r) && |r| <= |s|
    ensures AllDigits(s) ==> r == s
  {
    if s == [] then []
    else (if IsDigit(s[0]) then [s[0]] else []) + KeepDigits(s[1..])
  }

  /** Filtering distributes over concatenation, so the digits keep their order. */
  lemma {:induction false} KeepDigitsAppend(a: string, b: string)
    ensures KeepDigits(a + b) == KeepDigits(a) + KeepDigits(b)
  {
    if a == [] {
      assert a + b == b;
    } else {
      assert (a + b)[0] == a[0] && (a + b)[1..] == a[1..] + b;
      KeepDigitsAppend(a[1..], b);
    }
  }

  /** Every digit of s is kept, as often as it occurs; nothing else is. */
  lemma {:induction false} KeepDigitsCounts(s: string, c: char)
    ensures multiset(KeepDigits(s))[c] == if IsDigit(c) then multiset(s)[c] else 0
  {
    if s != [] {
      KeepDigitsCounts(s[1..], c);
      assert s == [s[0]] + s[1..];
    }
  }

  /** Filtering twice is filtering once. */
  lemma KeepDigitsIdempotent(s: string)
    ensures KeepDigits(KeepDigits(s)) == KeepDigits(s)
  {
  }

  /**
   * The form after a change event on `field` carrying `value`: only that field
   * changes, and a roll number of digits stays one.
   */
  function Changed(f: FormData, field: Field, value: string): (g: FormData)
    ensures field != NameField ==> g.name == f.name
    ensures field != RollNoField ==> g.rollno == f.rollno
    ensures field != AddressField ==> g.address == f.address
    ensures AllDigits(f.rollno) ==> AllDigits(g.rollno)
  {
    match field
    case NameField => f.(name := value)
    case RollNoField => f.(rollno := KeepDigits(value))
    case AddressField => f.(address := value)
  }

  /** The payload `{ ...form, rollno: parseInt(form.rollno, 10) }`. */
  datatype Payload = Payload(name: string, rollno: NumResult, address: string)

  /** No field is empty, the check `handleSubmit` makes before sending. */
  predicate Filled(f: FormData) {
    f.name != [] && f.rollno != [] && f.address != []
  }

  function PayloadOf(f: FormData): Payload {
    Payload(f.name, ParseIntString(f.rollno), f.address)
  }

  /**
   * The body `/submit` receives: JSON.stringify then express.json() keep the
   * strings and the integer; NaN is written as null.
   */
  function PayloadJson(p: Payload): JsValue {
    Obj(map[
      "name" := Str(p.name),
      "rollno" := if p.rollno.Int? then Num(p.rollno.value, 0) else Null,
      "address" := Str(p.address)])
  }

  /**
   * How the request ends: the response body was read (its `success` flag only
   * chooses the alert), or `fetch` or `res.json()` threw.
   */
  datatype FetchOutcome = Answered(success: bool) | FetchFailed

  class App {
    var form: FormData
    var loading: bool

    /** The roll number field only ever holds digits. */
    ghost predicate Valid()
      reads this
    {
      AllDigits(form.rollno)
    }

    constructor ()
      ensures Valid() && form == EmptyForm && !loading
    {
      form := EmptyForm;
      loading := false;
    }

    /** `handleChange`: replaces the named field; the roll number keeps only digits. */
    method HandleChange(field: Field, value: string)
      requires Valid()
      modifies this
      ensures Valid()
      ensures form == Changed(old(form), field, value)
      ensures loading == old(loading)
    {
      match field
      case NameField => form := form.(name := value);
      case RollNoField => form := form.(rollno := KeepDigits(value));
      case AddressField => form := form.(address := value);
    }

    /**
     * `handleSubmit` up to the awaited request: with an empty field nothing
     * is sent and nothing changes; otherwise `loading` is set and the payload sent.
     */
    method BeginSubmit() returns (sent: Option<Payload>)
      requires Valid()
      modifies this
      ensures Valid() && form == old(form)
      ensures sent == if Filled(old(form)) then Some(PayloadOf(old(form))) else None
      ensures loading == (Filled(old(form)) || old(loading))
    {
      if form.name == [] || form.rollno == [] || form.address == [] {
        return None;
      }
      var payload := Payload(form.name, ParseIntString(form.rollno), form.address);
      loading := true;
      sent := Some(payload);
    }

    /**
     * `handleSubmit` after the request settles: the form is cleared once a
     * response body was read, whatever its `success`; on a throw it is kept.
     * `loading` is cleared on every path.
     */
    method SettleSubmit(outcome: FetchOutcome)
      requires Valid()
      modifies this
      ensures Valid() && !loading
      ensures form == if outcome.Answered? then EmptyForm else old(form)
    {
      if outcome.Answered? {
        form := EmptyForm;
      }
      loading := false;
    }

    /** The "Submit Manually" button, disabled while `loading`. */
    method ClickSubmit() returns (sent: Option<Payload>)
      requires Valid()
      modifies this
      ensures Valid() && form == old(form)
      ensures old(loading) ==> sent == None && loading
      ensures !old(loading) ==> sent == (if Filled(old(form)) then Some(PayloadOf(old(form))) else None)
      ensures !old(loading) ==> loading == Filled(old(form))
    {
      if loading {
        return None;
      }
      sent := BeginSubmit();
    }

    /** The "Talk to AI" button, disabled while `loading`: whether a click starts speech capture. */
    method ClickTalk() returns (starts: bool)
      ensures starts <==> !loading
    {
      starts := !loading;
    }
  }

  /**
   * For a filled form the payload's rollno is the Number value of the digits:
   * "007" sends 7, and a value from OverflowBound (2^1024 - 2^970) on sends Infinity.
   */
  lemma PayloadRollIsDecimal(f: FormData)
    requires Filled(f) && AllDigits(f.rollno)
    ensures PayloadOf(f).rollno == IntegerToNumber(DecimalValue(f.rollno))
  {
    ParseIntDigits(f.rollno);
  }

  lemma LeadingZerosDropped(name: string, address: string)
    requires name != [] && address != []
    ensures PayloadOf(FormData(name, "007", address)).rollno == Int(7)
  {
    var f := FormData(name, "007", address);
    PayloadRollIsDecimal(f);
    assert DecimalValue(f.rollno) == 7 by {
      LeadingZero("07");
      LeadingZero("7");
      assert "007" == "0" + "07" && "07" == "0" + "7";
    }
  }

  /**
   * A filled form is refused by `/submit` exactly when its roll number is zero
   * ("0", "00", ...) or so long that parseInt overflows to Infinity, which
   * JSON.stringify writes as null.
   */
  lemma ServerRefusesZeroRoll(f: FormData, db: Server.DbOutcome)
    requires Filled(f) && AllDigits(f.rollno)
    ensures Server.SubmitSpec(PayloadJson(PayloadOf(f)), db).response.status == 400
      <==> DecimalValue(f.rollno) == 0 || DecimalValue(f.rollno) >= OverflowBound
  {
    PayloadRollIsDecimal(f);
    var body := PayloadJson(PayloadOf(f));
    var n := DecimalValue(f.rollno);
    assert Server.FieldsPresent(body) <==> n != 0 && n < OverflowBound by {
      assert OrEmpty(body) == body;
      assert Prop(body, "rollno") == if n < OverflowBound then Num(n, 0) else Null;
      assert Prop(body, "name") == Str(f.name) && Prop(body, "address") == Str(f.address);
    }
  }

  /**
   * A whole manual submission: the form is typed in and submitted once. While
   * the request is pending a second Submit click sends nothing and the Talk
   * button starts nothing; after it settles `loading` is off, the form is
   * cleared or kept, and the Talk button works again.
   */
  method SubmitWhilePending(f: FormData, outcome: FetchOutcome)
    returns (first: Option<Payload>, second: Option<Payload>, talkWhilePending: bool, talkAfter: bool, app: App)
    requires Filled(f) && AllDigits(f.rollno)
    ensures first == Some(PayloadOf(f)) && second == None
    ensures !talkWhilePending && talkAfter
    ensures !app.loading && app.form == if outcome.Answered? then EmptyForm else f
  {
    app := new App();
    app.HandleChange(NameField, f.name);
    app.HandleChange(RollNoField, f.rollno);
    app.HandleChange(AddressField, f.address);
    first := app.ClickSubmit();
    talkWhilePending := app.ClickTalk();
    second := app.ClickSubmit();
    app.SettleSubmit(outcome);
    talkAfter := app.ClickTalk();
  }
}
