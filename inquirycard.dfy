/** The floating inquiry dialog. Its form is a plain object edited field by field; the
    submitted object is the form with the three head counts read as integers (anything
    unreadable counts 0) and the tour name filled in, and the dialog's `open`, `loading` and
    form state change around the request. */
module InquiryCardForm {
  import opened Js
  import Client

  const GeneralInquiry := "General Website Inquiry"
  const Submitted := "Inquiry submitted successfully!"

  /** The form when the dialog is first shown and after a successful submission. */
  const InitialForm: Object := map[
    "fullName" := Text(""), "phoneNumber" := Text(""), "email" := Text(""),
    "travelDate" := Text(""), "message" := Text(""),
    "adults" := Number(1), "children" := Number(0), "infants" := Number(0)
  ]

  /** The keys `handleSubmit` rewrites. */
  const Normalised := {"adults", "children", "infants", "tourName"}

  /** The form with the three counts and the tour name put in. */
  function WithCounts(form: Object, adults: int, children: int, infants: int, tour: string): (s: Object)
    ensures s.Keys == form.Keys + Normalised
    ensures forall key :: key in form && key !in Normalised ==> s[key] == form[key]
    ensures s["adults"] == Number(adults) && s["children"] == Number(children)
    ensures s["infants"] == Number(infants) && s["tourName"] == Text(tour)
  {
    form["adults" := Number(adults)]["children" := Number(children)]["infants" := Number(infants)]["tourName" := Text(tour)]
  }

  /** `{ ...formData, adults: parseInt(formData.adults) || 0, ..., tourName: tourName || ... }`. */
  function Submission(form: Object, tourName: Option<string>): (s: Object)
    ensures s.Keys == form.Keys + Normalised
    ensures forall key :: key in form && key !in Normalised ==> s[key] == form[key]
    ensures s["adults"] == Number(ParseIntOrZero(Get(form, "adults")))
    ensures s["children"] == Number(ParseIntOrZero(Get(form, "children")))
    ensures s["infants"] == Number(ParseIntOrZero(Get(form, "infants")))
    ensures s["tourName"] == Text(OptOrElse(tourName, GeneralInquiry))
  {
    WithCounts(form, ParseIntOrZero(Get(form, "adults")), ParseIntOrZero(Get(form, "children")),
      ParseIntOrZero(Get(form, "infants")), OptOrElse(tourName, GeneralInquiry))
  }

  /** A count that already is a number is sent as it is. */
  lemma NumberCountKept(n: int)
    ensures ParseIntOrZero(Number(n)) == n
  {
    DecimalRoundTrip(n);
  }

  /** Normalising a submission again changes nothing. */
  lemma SubmissionIdempotent(form: Object, tourName: Option<string>)
    ensures Submission(Submission(form, tourName), tourName) == Submission(form, tourName)
  {
    var s := Submission(form, tourName);
    var a, b, c := ParseIntOrZero(Get(form, "adults")), ParseIntOrZero(Get(form, "children")), ParseIntOrZero(Get(form, "infants"));
    NumberCountKept(a);
    NumberCountKept(b);
    NumberCountKept(c);
    ResubmitCounted(s, tourName, a, b, c);
  }

  /** A submission whose counts are the numbers `a`, `b`, `c` is left as it is. */
  lemma ResubmitCounted(s: Object, tourName: Option<string>, a: int, b: int, c: int)
    requires Normalised <= s.Keys
    requires s["adults"] == Number(a) && s["children"] == Number(b) && s["infants"] == Number(c)
    requires s["tourName"] == Text(OptOrElse(tourName, GeneralInquiry))
    requires ParseIntOrZero(Number(a)) == a && ParseIntOrZero(Number(b)) == b && ParseIntOrZero(Number(c)) == c
    ensures Submission(s, tourName) == s
  {
    assert WithCounts(s, a, b, c, OptOrElse(tourName, GeneralInquiry)) == s;
  }

  /** A typed count (adults, children or infants) with no digit in it is sent as 0. */
  lemma NonNumericCountIsZero(form: Object, tourName: Option<string>, key: string, typed: string)
    requires key in {"adults", "children", "infants"}
    requires forall k :: 0 <= k < |typed| ==> !IsDigit(typed[k])
    ensures Submission(form[key := Text(typed)], tourName)[key] == Number(0)
  {
    NoDigitIsNaN(typed);
    assert ParseIntOrZero(Get(form[key := Text(typed)], key)) == 0;
  }

  /** The untouched form is sent with one adult and no children or infants. */
  lemma InitialFormCounts(tourName: Option<string>)
    ensures Submission(InitialForm, tourName)["adults"] == Number(1)
    ensures Submission(InitialForm, tourName)["children"] == Number(0)
    ensures Submission(InitialForm, tourName)["infants"] == Number(0)
  {
    NumberCountKept(1);
    NumberCountKept(0);
  }

  /** The state of the dialog for one `tourName` prop. */
  class InquiryCard {
    const tourName: Option<string>
    var open: bool
    var loading: bool
    var form: Object
    /** The objects posted to `/inquiry`, in order. */
    var posted: seq<Object>
    /** The alerts shown, in order. */
    var alerts: seq<string>

    constructor (tourName: Option<string>)
      ensures this.tourName == tourName && !open && !loading && form == InitialForm
      ensures posted == [] && alerts == []
    {
      this.tourName := tourName;
      open, loading := false, false;
      form := InitialForm;
      posted, alerts := [], [];
    }

    /** The floating button opens the dialog. */
    method Open()
      modifies this
      ensures open && loading == old(loading) && form == old(form)
      ensures posted == old(posted) && alerts == old(alerts)
    {
      open := true;
    }

    /** `handleChange`: only the field named by the input changes. */
    method HandleChange(name: string, value: Value)
      modifies this
      ensures form == old(form)[name := value]
      ensures open == old(open) && loading == old(loading)
      ensures posted == old(posted) && alerts == old(alerts)
    {
      form := form[name := value];
    }

    /** The first half of `handleSubmit`: loading goes on and the normalised object is posted. */
    method BeginSubmit() returns (submission: Object)
      modifies this
      ensures loading
      ensures submission == Submission(form, tourName) && posted == old(posted) + [submission]
      ensures form == old(form) && open == old(open) && alerts == old(alerts)
    {
      loading := true;
      submission := Submission(form, tourName);
      posted := posted + [submission];
    }

    /** The second half: on success the form is reset and the dialog closed; on failure the
        form and the dialog stay as they were; loading goes off on both paths. */
    method FinishSubmit(outcome: Client.Outcome)
      modifies this
      ensures !loading && posted == old(posted)
      ensures outcome.Succeeded? ==>
        form == InitialForm && !open && alerts == old(alerts) + [Submitted]
      ensures outcome.Failed? ==>
        && form == old(form) && open == old(open)
        && alerts == old(alerts) + [Client.FailureText(outcome, "Error submitting inquiry.")]
    {
      loading := false;
      match outcome
      case Succeeded =>
        alerts := alerts + [Submitted];
        open := false;
        form := InitialForm;
      case Failed(_) =>
        alerts := alerts + [Client.FailureText(outcome, "Error submitting inquiry.")];
    }
  }
}
