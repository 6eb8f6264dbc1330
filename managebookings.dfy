/** The administrator's booking table: five rows a page, a status chip coloured by the exact
    status text, and a selector whose change sends the new status and reloads the table. */
module ManageBookingsPage {
  import opened Js
  import Pagination
  import Client
  import MyBookingsPage

  /** What the table uses of a booking from `/api/admin/bookings`. */
  datatype AdminBooking = AdminBooking(id: string, status: Option<string>)

  /** The values the status selector offers. */
  const StatusOptions := ["Pending", "Confirmed", "Cancelled"]

  /** `getStatusStyle(status).color`: an exact, case-sensitive match. */
  function StatusStyle(status: Option<string>): (color: string)
    ensures color == "success" <==> status == Some("Confirmed")
    ensures color == "error" <==> status == Some("Cancelled")
    ensures color == "warning" <==> status != Some("Confirmed") && status != Some("Cancelled")
  {
    if status == Some("Confirmed") then "success"
    else if status == Some("Cancelled") then "error"
    else "warning"
  }

  /** On the three statuses the selector offers, the administrator's chip has the same colour
      as the customer's card. */
  lemma StylesAgreeOnOptions(s: string)
    requires s in StatusOptions
    ensures StatusStyle(Some(s)) == MyBookingsPage.StatusColor(Some(s)).color
  {
    MyBookingsPage.StoredStatusesKeepTheirName(s);
    if s == "Pending" {
      assert Lower(s) == "pending";
    } else if s == "Confirmed" {
      assert Lower(s) == "confirmed";
    } else {
      assert Lower(s) == "cancelled";
    }
  }

  /** Off those three they part: a lower-case "confirmed" is green for the customer but
      amber here. */
  lemma StylesDifferInCase()
    ensures StatusStyle(Some("confirmed")) == "warning"
    ensures MyBookingsPage.StatusColor(Some("confirmed")).color == "success"
  {
    assert Lower("confirmed") == "confirmed";
  }

  const BookingsPath := "/admin/bookings"

  /** The state of the page. */
  class ManageBookingsView {
    var bookings: seq<AdminBooking>
    var requests: seq<Client.Request>
    var alerts: seq<string>
    /** Page and page size, five rows a page at first. The page state is its own object;
        the reference never changes, so it is a `const`, and `Visible` reads it beside `this`. */
    const pager: Pagination.Pager

    constructor ()
      ensures bookings == [] && requests == [] && alerts == []
      ensures pager.page == 0 && pager.rowsPerPage == 5
    {
      bookings, requests, alerts := [], [], [];
      pager := new Pagination.Pager(5);
    }

    /** The rows on the current page. */
    function Visible(): (r: seq<AdminBooking>)
      reads this, pager
      ensures |r| <= pager.rowsPerPage
      ensures forall k :: 0 <= k < |r| ==>
        pager.page * pager.rowsPerPage + k < |bookings| && r[k] == bookings[pager.page * pager.rowsPerPage + k]
    {
      pager.Visible(bookings)
    }

    /** `fetchBookings`: the list is replaced when the request answers and kept otherwise. */
    method FetchBookings(answer: Option<seq<AdminBooking>>)
      modifies this
      ensures requests == old(requests) + [Client.Get(BookingsPath)] && alerts == old(alerts)
      ensures bookings == (if answer.Some? then answer.value else old(bookings))
    {
      requests := requests + [Client.Get(BookingsPath)];
      if answer.Some? {
        bookings := answer.value;
      }
    }

    /** `updateStatus(id, status)`: sends a body holding the status alone; a success reloads
        the list, a failure alerts and leaves the list as it was. */
    method UpdateStatus(id: string, status: string, outcome: Client.Outcome, reload: Option<seq<AdminBooking>>)
      modifies this
      ensures outcome.Succeeded? ==>
        && requests == old(requests) + [Client.Put(BookingsPath + "/" + id, map["status" := Text(status)]), Client.Get(BookingsPath)]
        && bookings == (if reload.Some? then reload.value else old(bookings))
        && alerts == old(alerts)
      ensures outcome.Failed? ==>
        && requests == old(requests) + [Client.Put(BookingsPath + "/" + id, map["status" := Text(status)])]
        && bookings == old(bookings)
        && alerts == old(alerts) + ["Failed to update status"]
    {
      requests := requests + [Client.Put(BookingsPath + "/" + id, map["status" := Text(status)])];
      if outcome.Succeeded? {
        FetchBookings(reload);
      } else {
        alerts := alerts + ["Failed to update status"];
      }
    }

    /** `handleChangePage`. */
    method ChangePage(newPage: nat)
      modifies pager
      ensures pager.page == newPage && pager.rowsPerPage == old(pager.rowsPerPage)
    {
      pager.ChangePage(newPage);
    }

    /** `handleChangeRowsPerPage`: the new size, back on the first page. */
    method ChangeRowsPerPage(rows: nat)
      modifies pager
      ensures pager.rowsPerPage == rows && pager.page == 0
    {
      pager.ChangeRowsPerPage(rows);
    }
  }
}
