/** The administrator's inquiry list: one row per inquiry (or a single placeholder row when
    there are none) with its head counts and a status chip, and a delete button that asks
    for confirmation and drops the inquiry from the list once the server has deleted it. */
module ManageInquiryPage {
  import opened Js
  import Seqs
  import Client

  /** What the table uses of an inquiry from `/api/admin/inquiries`. */
  datatype Inquiry = Inquiry(id: string, tourName: Option<string>, message: Option<string>,
    adults: Value, children: Value, infants: Value, status: Option<string>)

  datatype Chip = Chip(caption: string, color: string)

  /** The status chip: the status itself or "New", green only for exactly "Followed Up". */
  function StatusChip(status: Option<string>): (c: Chip)
    ensures c.caption != ""
    ensures status.Some? && status.value != "" ==> c.caption == status.value
    ensures c.color == "success" <==> status == Some("Followed Up")
    ensures c.color == "error" <==> status != Some("Followed Up")
  {
    Chip(OptOrElse(status, "New"), if status == Some("Followed Up") then "success" else "error")
  }

  /** The colour test is case-sensitive: a status that reads "Followed Up" only up to case is
      shown red, under its own spelling. */
  lemma FollowedUpIsCaseSensitive()
    ensures StatusChip(Some("Followed Up")).color == "success"
    ensures StatusChip(Some("followed up")) == Chip("followed up", "error")
    ensures StatusChip(Some("FOLLOWED UP")) == Chip("FOLLOWED UP", "error")
    ensures StatusChip(None) == Chip("New", "error") && StatusChip(Some("")) == Chip("New", "error")
  {
    assert "followed up" != "Followed Up" by { assert "followed up"[0] != "Followed Up"[0]; }
    assert "FOLLOWED UP" != "Followed Up" by { assert "FOLLOWED UP"[1] != "Followed Up"[1]; }
  }

  /** `${item.adults} / ${item.children} / ${item.infants}`. */
  function PaxLabel(adults: Value, children: Value, infants: Value): string
  {
    ToText(adults) + " / " + ToText(children) + " / " + ToText(infants)
  }

  /** The label of counts that are numbers begins with the adults' numeral, which reads back
      as the number of adults. */
  lemma PaxLabelReadsBack(adults: int, children: int, infants: int)
    ensures ParseInt(PaxLabel(Number(adults), Number(children), Number(infants))) == Some(adults)
  {
    var rest := " / " + Decimal(children) + " / " + Decimal(infants);
    assert PaxLabel(Number(adults), Number(children), Number(infants)) == Decimal(adults) + rest;
    DecimalThenSpace(adults, rest);
  }

  /** A table row. */
  datatype Row = NoInquiries(text: string) | Line(id: string, tour: string, pax: string, chip: Chip)

  function LineOf(item: Inquiry): Row
  {
    Line(item.id, OptOrElse(item.tourName, "General"), PaxLabel(item.adults, item.children, item.infants),
      StatusChip(item.status))
  }

  /** The table body: a single "No inquiries found." row for an empty list, one row per
      inquiry otherwise. */
  function Rows(inquiries: seq<Inquiry>): (rows: seq<Row>)
    ensures inquiries == [] ==> rows == [NoInquiries("No inquiries found.")]
    ensures inquiries != [] ==> |rows| == |inquiries|
    ensures inquiries != [] ==> forall k :: 0 <= k < |rows| ==> rows[k] == LineOf(inquiries[k])
  {
    if inquiries == [] then [NoInquiries("No inquiries found.")]
    else seq(|inquiries|, k requires 0 <= k < |inquiries| => LineOf(inquiries[k]))
  }

  /** The table is never empty: one row per inquiry, or the placeholder row. */
  lemma TableNeverEmpty(inquiries: seq<Inquiry>)
    ensures |Rows(inquiries)| >= 1
    ensures |Rows(inquiries)| == if inquiries == [] then 1 else |inquiries|
  {
  }

  predicate Other(id: string, item: Inquiry)
  {
    item.id != id
  }

  /** `inquiries.filter(i => i._id !== id)`. */
  function Remove(inquiries: seq<Inquiry>, id: string): (r: seq<Inquiry>)
    ensures |r| <= |inquiries|
    ensures forall k :: 0 <= k < |r| ==> r[k] in inquiries && r[k].id != id
    ensures forall k :: 0 <= k < |inquiries| && inquiries[k].id != id ==> inquiries[k] in r
  {
    Seqs.Filter(inquiries, item => Other(id, item))
  }

  /** Removing is order-preserving: it distributes over any split of the list. */
  lemma RemoveSplits(front: seq<Inquiry>, back: seq<Inquiry>, id: string)
    ensures Remove(front + back, id) == Remove(front, id) + Remove(back, id)
  {
    Seqs.FilterConcat(front, back, item => Other(id, item));
  }

  /** Removing an identifier that is not in the list changes nothing, so removing twice is
      removing once. */
  lemma RemoveAbsent(inquiries: seq<Inquiry>, id: string)
    requires forall k :: 0 <= k < |inquiries| ==> inquiries[k].id != id
    ensures Remove(inquiries, id) == inquiries
  {
    Seqs.FilterKeepsAll(inquiries, item => Other(id, item));
  }

  lemma RemoveIdempotent(inquiries: seq<Inquiry>, id: string)
    ensures Remove(Remove(inquiries, id), id) == Remove(inquiries, id)
  {
    RemoveAbsent(Remove(inquiries, id), id);
  }

  /** Once an inquiry is removed, no row of the table carries its identifier, and every
      other inquiry still has its row. */
  lemma DeletedInquiryNotListed(inquiries: seq<Inquiry>, id: string)
    ensures forall k :: 0 <= k < |Rows(Remove(inquiries, id))| && Rows(Remove(inquiries, id))[k].Line? ==>
      Rows(Remove(inquiries, id))[k].id != id
    ensures forall k :: 0 <= k < |inquiries| && inquiries[k].id != id ==>
      LineOf(inquiries[k]) in Rows(Remove(inquiries, id))
  {
    var r := Remove(inquiries, id);
    forall k | 0 <= k < |inquiries| && inquiries[k].id != id
      ensures LineOf(inquiries[k]) in Rows(r)
    {
      var j :| 0 <= j < |r| && r[j] == inquiries[k];
      assert Rows(r)[j] == LineOf(r[j]);
    }
  }

  const InquiriesPath := "/admin/inquiries"

  /** The state of the page. */
  class ManageInquiryView {
    var inquiries: seq<Inquiry>
    var loading: bool
    var requests: seq<Client.Request>
    var alerts: seq<string>

    constructor ()
      ensures inquiries == [] && loading && requests == [] && alerts == []
    {
      inquiries, loading := [], true;
      requests, alerts := [], [];
    }

    /** `fetchInquiries`: the list is replaced when the request answers; loading ends either way. */
    method FetchInquiries(answer: Option<seq<Inquiry>>)
      modifies this
      ensures requests == old(requests) + [Client.Get(InquiriesPath)] && alerts == old(alerts)
      ensures inquiries == (if answer.Some? then answer.value else old(inquiries)) && !loading
    {
      requests := requests + [Client.Get(InquiriesPath)];
      if answer.Some? {
        inquiries := answer.value;
      }
      loading := false;
    }

    /** `deleteInquiry(id)`: nothing happens unless the administrator confirms; then the
        delete is sent, and only its success removes the inquiry from the list. */
    method DeleteInquiry(id: string, confirmed: bool, outcome: Client.Outcome)
      modifies this
      ensures loading == old(loading)
      ensures !confirmed ==> inquiries == old(inquiries) && requests == old(requests) && alerts == old(alerts)
      ensures confirmed ==> requests == old(requests) + [Client.Delete("/admin/inquiry/" + id)]
      ensures confirmed && outcome.Succeeded? ==>
        inquiries == Remove(old(inquiries), id) && alerts == old(alerts)
      ensures confirmed && outcome.Failed? ==>
        inquiries == old(inquiries) && alerts == old(alerts) + ["Delete failed"]
    {
      if !confirmed {
        return;
      }
      requests := requests + [Client.Delete("/admin/inquiry/" + id)];
      if outcome.Succeeded? {
        inquiries := Remove(inquiries, id);
      } else {
        alerts := alerts + ["Delete failed"];
      }
    }
  }
}
