/** The BMI calculator screen: its validation schema, the folding of the schema's
    issues into one error record per field, and the component state (inputs, BMI
    shown, status shown, errors shown) that a press on the button updates. */
module App {
  import opened Numbers
  import opened Classification

  /** The two inputs of the form. */
  datatype Field = Height | Weight

  function Caption(f: Field): string {
    match f
    case Height => "Height"
    case Weight => "Weight"
  }

  /** Message of the schema's `nonempty` check for a field. */
  function RequiredMessage(f: Field): string {
    Caption(f) + " is required"
  }

  /** Message of the schema's `refine` check for a field. */
  function NumberMessage(f: Field): string {
    Caption(f) + " must be a number > 0"
  }

  /** The schema's rule for one field, the same for height and weight: the text
      is not empty, and parseFloat of it is a number greater than zero. */
  predicate Accepts(parse: ParseFloat, text: string) {
    text != "" && parse(text).Some? && parse(text).value > 0.0
  }

  /** safeParse succeeds exactly when both fields are accepted. */
  predicate SchemaAccepts(parse: ParseFloat, height: string, weight: string) {
    Accepts(parse, height) && Accepts(parse, weight)
  }

  function InputOf(f: Field, height: string, weight: string): string {
    match f
    case Height => height
    case Weight => weight
  }

  /** One problem reported by the schema: the field it is about and its message. */
  datatype Issue = Issue(field: Field, message: string)

  /** The error record the screen shows, one message per field ("" for none). */
  datatype Errors = Errors(height: string, weight: string) {

    function Get(f: Field): string {
      match f
      case Height => height
      case Weight => weight
    }

    /** The record with the slot of f overwritten, the other slot kept. */
    function With(f: Field, message: string): (r: Errors)
      ensures r.Get(f) == message
      ensures forall g: Field :: g != f ==> r.Get(g) == Get(g)
    {
      match f
      case Height => this.(height := message)
      case Weight => this.(weight := message)
    }
  }

  /** The record both fields start from: no message at all. */
  const NoErrors: Errors := Errors("", "")

  /** The issues written one after the other, in order, into a record that
      starts empty. */
  function Aggregate(issues: seq<Issue>): Errors {
    if issues == [] then NoErrors
    else
      var last := issues[|issues| - 1];
      Aggregate(issues[..|issues| - 1]).With(last.field, last.message)
  }

  predicate Mentions(issues: seq<Issue>, f: Field) {
    exists i :: 0 <= i < |issues| && issues[i].field == f
  }

  /** issues[j] is the last issue about field f. */
  predicate LastFor(issues: seq<Issue>, f: Field, j: int) {
    0 <= j < |issues| && issues[j].field == f &&
    forall k :: j < k < |issues| ==> issues[k].field != f
  }

  /** A field that no issue is about keeps its empty message. */
  lemma {:induction false} AggregateUntouched(issues: seq<Issue>, f: Field)
    requires !Mentions(issues, f)
    ensures Aggregate(issues).Get(f) == ""
  {
    if issues != [] {
      var prefix := issues[..|issues| - 1];
      assert !Mentions(prefix, f) by {
        forall i | 0 <= i < |prefix| ensures prefix[i].field != f {
          assert prefix[i] == issues[i];
        }
      }
      AggregateUntouched(prefix, f);
    }
  }

  /** A field shows the message of the last issue about it: a later issue for
      a field overwrites an earlier one, and issues about the other field do
      not touch it. */
  lemma {:induction false} AggregateLastWins(issues: seq<Issue>, f: Field, j: int)
    requires LastFor(issues, f, j)
    ensures Aggregate(issues).Get(f) == issues[j].message
  {
    var n := |issues| - 1;
    var prefix := issues[..n];
    if j < n {
      assert LastFor(prefix, f, j) by {
        forall k | j < k < |prefix| ensures prefix[k].field != f {
          assert prefix[k] == issues[k];
        }
      }
      AggregateLastWins(prefix, f, j);
      assert issues[n].field != f;
    }
  }

  /** Among the issues about a field there is a last one. */
  lemma {:induction false} LastExists(issues: seq<Issue>, f: Field) returns (j: int)
    requires Mentions(issues, f)
    ensures LastFor(issues, f, j)
  {
    var n := |issues| - 1;
    if issues[n].field == f {
      j := n;
    } else {
      var prefix := issues[..n];
      var i :| 0 <= i < |issues| && issues[i].field == f;
      assert prefix[i] == issues[i];
      j := LastExists(prefix, f);
      assert prefix[j] == issues[j];
      forall k | j < k < |issues| ensures issues[k].field != f {
        if k < n {
          assert prefix[k] == issues[k];
        }
      }
    }
  }

  /** An issue the schema can report: it is about a field the schema rejects,
      and it carries one of that field's two messages. */
  predicate Fits(parse: ParseFloat, height: string, weight: string, issue: Issue) {
    !Accepts(parse, InputOf(issue.field, height, weight)) &&
    (issue.message == RequiredMessage(issue.field) || issue.message == NumberMessage(issue.field))
  }

  /** What the screen relies on from the schema library: every issue fits, and
      every rejected field has at least one issue. Which of the two messages an
      empty field ends up with is left open. */
  predicate IssuesFit(parse: ParseFloat, height: string, weight: string, issues: seq<Issue>) {
    (forall i :: 0 <= i < |issues| ==> Fits(parse, height, weight, issues[i])) &&
    (!Accepts(parse, height) ==> Mentions(issues, Height)) &&
    (!Accepts(parse, weight) ==> Mentions(issues, Weight))
  }

  /** After a failed validation a field shows a message exactly when the schema
      rejected that field; each field is judged on its own. */
  lemma ErrorShownIffRejected(parse: ParseFloat, height: string, weight: string, issues: seq<Issue>, f: Field)
    requires IssuesFit(parse, height, weight, issues)
    ensures Aggregate(issues).Get(f) != "" <==> !Accepts(parse, InputOf(f, height, weight))
  {
    if Accepts(parse, InputOf(f, height, weight)) {
      assert !Mentions(issues, f) by {
        forall i | 0 <= i < |issues| ensures issues[i].field != f {
          assert Fits(parse, height, weight, issues[i]);
        }
      }
      AggregateUntouched(issues, f);
    } else {
      var j := LastExists(issues, f);
      AggregateLastWins(issues, f, j);
      assert Fits(parse, height, weight, issues[j]);
    }
  }

  /** The forEach over the schema's issues: each one writes its message into
      its field's slot of a record that starts empty. */
  method CollectErrors(issues: seq<Issue>) returns (newErrors: Errors)
    ensures newErrors == Aggregate(issues)
  {
    newErrors := NoErrors;
    for i := 0 to |issues|
      invariant newErrors == Aggregate(issues[..i])
    {
      assert issues[..i + 1][..i] == issues[..i];
      newErrors := newErrors.With(issues[i].field, issues[i].message);
    }
    assert issues[..|issues|] == issues;
  }

  /** The BMI and status on screen come from one and the same positive BMI. */
  ghost predicate Shows(v: real, shown: Fixed2, status: string) {
    v > 0.0 && shown == ToFixed2(v) && status == Label(GetStatus(v))
  }

  /** The state of the calculator screen. */
  class Form {
    var height: string
    var weight: string
    var bmi: Option<Fixed2>
    var status: string
    var errors: Errors

    /** A BMI is on screen exactly when a status is, and both come from the same
        calculation. */
    ghost predicate Valid()
      reads this
    {
      (bmi.None? <==> status == "") &&
      (bmi.Some? ==> exists v: real :: Shows(v, bmi.value, status))
    }

    constructor ()
      ensures Valid()
      ensures height == "" && weight == ""
      ensures bmi == None && status == "" && errors == NoErrors
    {
      height, weight := "", "";
      bmi, status := None, "";
      errors := NoErrors;
    }

    /** The height text field's change handler. */
    method SetHeight(text: string)
      requires Valid()
      modifies this`height
      ensures Valid() && height == text
    {
      height := text;
    }

    /** The weight text field's change handler. */
    method SetWeight(text: string)
      requires Valid()
      modifies this`weight
      ensures Valid() && weight == text
    {
      weight := text;
    }

    /** The button's handler. `issues` is what the schema reports for the
        current inputs. On failure the errors are the folded issues and the
        BMI and status on screen stay as they were; on success the errors are
        cleared, and the BMI (rounded for display) and the status are both
        computed from the same unrounded value. */
    method CalculateBMI(parse: ParseFloat, issues: seq<Issue>)
      requires Valid()
      modifies this`bmi, this`status, this`errors
      ensures Valid()
      ensures SchemaAccepts(parse, height, weight) ==>
        var bmiValue := BmiOf(parse(height).value / 100.0, parse(weight).value);
        bmi == Some(ToFixed2(bmiValue)) && status == Label(GetStatus(bmiValue)) &&
        errors == NoErrors
      ensures !SchemaAccepts(parse, height, weight) ==>
        bmi == old(bmi) && status == old(status) && errors == Aggregate(issues)
    {
      errors := NoErrors;
      if !SchemaAccepts(parse, height, weight) {
        var newErrors := CollectErrors(issues);
        errors := newErrors;
        return;
      }
      var h := parse(height).value / 100.0;
      var w := parse(weight).value;
      var bmiValue := BmiOf(h, w);
      bmi := Some(ToFixed2(bmiValue));
      status := Label(GetStatus(bmiValue));
      assert Shows(bmiValue, bmi.value, status);
    }
  }

  /** 180 cm and 70 kg: a BMI of 70 / 3.24 = 21.6049..., shown as 21.60, Normal. */
  lemma WorkedExample()
    ensures ToFixed2(BmiOf(180.0 / 100.0, 70.0)) == Fixed2(2160)
    ensures GetStatus(BmiOf(180.0 / 100.0, 70.0)) == Normal
  {
  }

  /** A session on the screen: a valid calculation, then an unparseable height.
      The second press shows the height error and leaves the earlier BMI and
      status on screen. */
  method StaleResultSession(parse: ParseFloat) returns (shown: Option<Fixed2>, statusText: string, heightError: string, weightError: string)
    requires parse("180") == Some(180.0) && parse("70") == Some(70.0) && parse("abc") == None
    ensures shown == Some(Fixed2(2160)) && statusText == Label(Normal)
    ensures heightError == NumberMessage(Height) && weightError == ""
  {
    var form := new Form();
    form.SetHeight("180");
    form.SetWeight("70");
    assert SchemaAccepts(parse, "180", "70");
    form.CalculateBMI(parse, []);
    ghost var first := BmiOf(180.0 / 100.0, 70.0);
    assert form.bmi == Some(ToFixed2(first)) && form.status == Label(GetStatus(first));
    WorkedExample();
    assert form.bmi == Some(Fixed2(2160)) && form.status == Label(Normal);
    form.SetHeight("abc");
    var issues := [Issue(Height, NumberMessage(Height))];
    assert Aggregate(issues) == NoErrors.With(Height, NumberMessage(Height)) by {
      assert issues[..0] == [];
    }
    assert !SchemaAccepts(parse, "abc", "70");
    form.CalculateBMI(parse, issues);
    shown, statusText := form.bmi, form.status;
    heightError, weightError := form.errors.height, form.errors.weight;
  }
}
