/** The dialog that adds or edits a tour. Opening it loads the selected tour (without its
    image file) or an empty form; saving builds the multipart body field by field, filling
    every empty field with its default and attaching the image only when one was chosen. */
module TourModalForm {
  import opened Js
  import Backend

  /** An entry of the category selector: its caption and the value it submits. */
  datatype CategoryOption = CategoryOption(caption: string, value: string)

  const Categories := [
    CategoryOption("Char Dham", "char_dham"),
    CategoryOption("Amazing Weekend Getaways", "weekend"),
    CategoryOption("Top Trending Trips", "trending"),
    CategoryOption("Destinations", "destination"),
    CategoryOption("Exclusive Offers", "exclusive")
  ]

  function OptionValues(options: seq<CategoryOption>): (r: seq<string>)
    ensures |r| == |options| && forall k :: 0 <= k < |r| ==> r[k] == options[k].value
  {
    seq(|options|, k requires 0 <= k < |options| => options[k].value)
  }

  /** The selector offers exactly the categories the tour schema admits, in its order. */
  lemma CategoryOptionsMatchSchema()
    ensures OptionValues(Categories) == Backend.TourCategories
  {
  }

  /** The text fields of the body, in the order they are appended. */
  const TextKeys := ["title", "location", "category", "actualPrice", "discountPrice", "description", "date", "days", "person"]

  /** The default of each text field, position by position; the date defaults to today. */
  function Defaults(today: string): (r: seq<string>)
    ensures |r| == |TextKeys|
  {
    ["New Unnamed Tour", "India", "trending", "0", "0", "No description provided.", today, "1", "1"]
  }

  /** The form of "Add Tour": every text field empty and no file. */
  const EmptyForm: Object := map[
    "title" := Text(""), "location" := Text(""), "category" := Text(""),
    "actualPrice" := Text(""), "discountPrice" := Text(""), "imageFile" := Null,
    "description" := Text(""), "date" := Text(""), "days" := Text(""), "person" := Text("")
  ]

  /** One `formData.append(name, value)`. */
  datatype Entry = Entry(name: string, value: Value)

  /** What `append` stores: a file stays a file, anything else becomes its string. */
  function Stored(v: Value): (r: Value)
    ensures v.FileRef? ==> r == v
    ensures !v.FileRef? ==> r == Text(ToText(v))
    ensures Truthy(v) ==> Truthy(r)
  {
    if v.FileRef? then v else Text(ToText(v))
  }

  /** `form[key] || fallback`. */
  function Filled(form: Object, key: string, fallback: string): (v: Value)
    ensures Truthy(Get(form, key)) ==> v == Get(form, key)
    ensures !Truthy(Get(form, key)) ==> v == Text(fallback)
  {
    if Truthy(Get(form, key)) then Get(form, key) else Text(fallback)
  }

  /** The entry of the `k`-th text field. */
  function TextEntry(form: Object, today: string, k: nat): Entry
    requires k < |TextKeys|
  {
    Entry(TextKeys[k], Stored(Filled(form, TextKeys[k], Defaults(today)[k])))
  }

  /** The body `submit` builds: the nine text fields in order, each the form's value when
      truthy and its default otherwise, then the image when a file was chosen. */
  function Submission(form: Object, today: string): (data: seq<Entry>)
    ensures |data| == |TextKeys| + (if Truthy(Get(form, "imageFile")) then 1 else 0)
  {
    seq(|TextKeys|, k requires 0 <= k < |TextKeys| => TextEntry(form, today, k))
    + (if Truthy(Get(form, "imageFile")) then [Entry("image", Stored(Get(form, "imageFile")))] else [])
  }

  function Names(data: seq<Entry>): (r: seq<string>)
    ensures |r| == |data| && forall k :: 0 <= k < |r| ==> r[k] == data[k].name
  {
    seq(|data|, k requires 0 <= k < |data| => data[k].name)
  }

  /** The keys come in the fixed order, with "image" last and only when a file was chosen,
      so each key is present exactly once. */
  lemma SubmissionKeys(form: Object, today: string)
    ensures Names(Submission(form, today)) ==
      TextKeys + (if Truthy(Get(form, "imageFile")) then ["image"] else [])
    ensures forall i, j :: 0 <= i < j < |Submission(form, today)| ==>
      Submission(form, today)[i].name != Submission(form, today)[j].name
  {
    var data := Submission(form, today);
    var expected := TextKeys + (if Truthy(Get(form, "imageFile")) then ["image"] else []);
    assert Names(data) == expected;
  }

  /** Every text field is sent non-empty: the form's own value when it has one, the default
      otherwise (with a non-empty date for today). */
  lemma SubmissionValues(form: Object, today: string, k: nat)
    requires today != "" && k < |TextKeys|
    ensures Truthy(Submission(form, today)[k].value)
    ensures Truthy(Get(form, TextKeys[k])) ==> Submission(form, today)[k].value == Stored(Get(form, TextKeys[k]))
    ensures !Truthy(Get(form, TextKeys[k])) ==> Submission(form, today)[k].value == Text(Defaults(today)[k])
  {
  }

  /** A chosen image file is sent as that file under the key "image". */
  lemma SubmissionImage(form: Object, today: string)
    requires Truthy(Get(form, "imageFile"))
    ensures Submission(form, today)[|TextKeys|] == Entry("image", Stored(Get(form, "imageFile")))
    ensures Get(form, "imageFile").FileRef? ==> Submission(form, today)[|TextKeys|].value == Get(form, "imageFile")
    ensures "image" in Names(Submission(form, today))
  {
    SubmissionKeys(form, today);
    assert Names(Submission(form, today))[|TextKeys|] == "image";
  }

  /** A category left empty, or picked from the selector, is one the schema admits. */
  lemma SubmittedCategoryAdmitted(form: Object, today: string)
    requires !Truthy(Get(form, "category")) ||
      (Get(form, "category").Text? && Get(form, "category").s in OptionValues(Categories))
    ensures Submission(form, today)[2].value.Text?
    ensures Submission(form, today)[2].value.s in Backend.TourCategories
  {
    CategoryOptionsMatchSchema();
  }

  /** An untouched "Add Tour" form sends only the defaults and no image. */
  lemma EmptyFormSendsDefaults(today: string)
    ensures Names(Submission(EmptyForm, today)) == TextKeys
    ensures forall k :: 0 <= k < |TextKeys| ==> Submission(EmptyForm, today)[k].value == Text(Defaults(today)[k])
  {
    SubmissionKeys(EmptyForm, today);
  }

  /** The state of the dialog. */
  class TourModal {
    var form: Object
    /** The bodies handed to `handleSave`, in order. */
    var saved: seq<seq<Entry>>

    constructor ()
      ensures form == EmptyForm && saved == []
    {
      form := EmptyForm;
      saved := [];
    }

    /** The effect on `selectedTour`: editing loads the tour's fields with no image file;
        adding resets the form. */
    method Load(selectedTour: Option<Object>)
      modifies this
      ensures selectedTour.Some? ==> form == selectedTour.value["imageFile" := Null]
      ensures selectedTour.None? ==> form == EmptyForm
      ensures saved == old(saved)
    {
      if selectedTour.Some? {
        form := selectedTour.value["imageFile" := Null];
      } else {
        form := EmptyForm;
      }
    }

    /** A field's `onChange`: that field takes the new value, the others stay. */
    method Change(key: string, value: Value)
      modifies this
      ensures form == old(form)[key := value] && saved == old(saved)
    {
      form := form[key := value];
    }

    /** `submit`: builds the body append by append and hands it to `handleSave` once. */
    method Submit(today: string)
      modifies this
      ensures form == old(form)
      ensures saved == old(saved) + [Submission(form, today)]
    {
      var data := BuildFormData(form, today);
      saved := saved + [data];
    }
  }

  /** The appends of `submit`, one after the other. */
  method BuildFormData(form: Object, today: string) returns (data: seq<Entry>)
    ensures data == Submission(form, today)
  {
    data := [];
    data := data + [Entry("title", Stored(Filled(form, "title", "New Unnamed Tour")))];
    data := data + [Entry("location", Stored(Filled(form, "location", "India")))];
    data := data + [Entry("category", Stored(Filled(form, "category", "trending")))];
    data := data + [Entry("actualPrice", Stored(Filled(form, "actualPrice", "0")))];
    data := data + [Entry("discountPrice", Stored(Filled(form, "discountPrice", "0")))];
    data := data + [Entry("description", Stored(Filled(form, "description", "No description provided.")))];
    data := data + [Entry("date", Stored(Filled(form, "date", today)))];
    data := data + [Entry("days", Stored(Filled(form, "days", "1")))];
    data := data + [Entry("person", Stored(Filled(form, "person", "1")))];
    assert data == seq(|TextKeys|, k requires 0 <= k < |TextKeys| => TextEntry(form, today, k)) by {
      forall k | 0 <= k < |TextKeys|
        ensures data[k] == TextEntry(form, today, k)
      {
      }
    }
    if Truthy(Get(form, "imageFile")) {
      data := data + [Entry("image", Stored(Get(form, "imageFile")))];
    }
  }
}
