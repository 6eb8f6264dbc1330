/** The customer's booking list: each booking is a card with the tour image, a status chip
    and a short reference; the list is paged six at a time, and a visitor without a token is
    sent to the login page before anything is fetched. */
module MyBookingsPage {
  import opened Js
  import Images
  import Pagination

  const Placeholder := "https://" + "via.placeholder.com/400x200?text=No+Image"

  /** `getFullImageUrl(img)`: no image (`undefined`, `null` or "") shows the placeholder. */
  function FullImageUrl(img: Option<string>, imageBase: string): (url: string)
    ensures img.None? || img.value == "" ==> url == Placeholder
    ensures img.Some? && img.value != "" ==> url == Images.Resolve(img.value, imageBase)
  {
    if img.None? || img.value == "" then Placeholder else Images.Resolve(img.value, imageBase)
  }

  /** With an "http" image base every card shows an absolute address. */
  lemma FullImageUrlAbsolute(img: Option<string>, imageBase: string)
    requires StartsWith(imageBase, "http")
    ensures StartsWith(FullImageUrl(img, imageBase), "http")
  {
    if img.Some? && img.value != "" {
      Images.ResolveAbsolute(img.value, imageBase);
    } else {
      assert Placeholder[..4] == "https://"[..4];
    }
  }

  /** The colour and the text of a status chip. */
  datatype Chip = Chip(color: string, caption: string)

  /** `getStatusColor(status)`: the three known statuses in any letter case get their colour
      and their canonical label; anything else is "primary", labelled with the status itself,
      or "Processing" when there is none. */
  function StatusColor(status: Option<string>): (c: Chip)
    ensures status.Some? && Lower(status.value) == "confirmed" ==> c == Chip("success", "Confirmed")
    ensures status.Some? && Lower(status.value) == "pending" ==> c == Chip("warning", "Pending")
    ensures status.Some? && Lower(status.value) == "cancelled" ==> c == Chip("error", "Cancelled")
    ensures status.None? || Lower(status.value) !in {"confirmed", "pending", "cancelled"} ==>
      c == Chip("primary", OptOrElse(status, "Processing"))
  {
    match status
    case None => Chip("primary", "Processing")
    case Some(s) =>
      var key := Lower(s);
      if key == "confirmed" then Chip("success", "Confirmed")
      else if key == "pending" then Chip("warning", "Pending")
      else if key == "cancelled" then Chip("error", "Cancelled")
      else Chip("primary", OrElse(s, "Processing"))
  }

  /** The chip colour depends on the letters of the status only, not on their case. */
  lemma StatusColorIgnoresCase(s: string, t: string)
    requires Lower(s) == Lower(t)
    ensures StatusColor(Some(s)).color == StatusColor(Some(t)).color
  {
  }

  /** Each status the server stores ("Pending", "Confirmed", "Cancelled") is shown with its
      own name, and each canonical label maps back to its own chip. */
  lemma StoredStatusesKeepTheirName(s: string)
    requires s in {"Pending", "Confirmed", "Cancelled"}
    ensures StatusColor(Some(s)).caption == s
    ensures StatusColor(Some(StatusColor(Some(s)).caption)) == StatusColor(Some(s))
    ensures StatusColor(Some(s)).color != "primary"
  {
    if s == "Pending" {
      assert Lower(s) == "pending";
    } else if s == "Confirmed" {
      assert Lower(s) == "confirmed";
    } else {
      assert Lower(s) == "cancelled";
    }
  }

  /** `b._id.slice(-6)`: the last six characters, or the whole string when it is shorter. */
  function LastSix(id: string): (r: string)
    ensures |r| == Pagination.Min(6, |id|)
    ensures r == id[|id| - |r|..]
  {
    if |id| <= 6 then id else id[|id| - 6..]
  }

  /** The booking reference chip: `#${b._id.slice(-6).toUpperCase()}`. */
  function Reference(id: string): (r: string)
    ensures |r| == 1 + Pagination.Min(6, |id|) && r[0] == '#'
    ensures forall k :: 1 <= k < |r| ==> r[k] == UpperChar(id[|id| - |r| + k])
  {
    "#" + Upper(LastSix(id))
  }

  /** The reference has no lower-case letters left. */
  lemma ReferenceProperties(id: string)
    ensures Upper(Reference(id)) == Reference(id)
  {
    var r := Reference(id);
    var u := Upper(r);
    forall k | 0 <= k < |r|
      ensures u[k] == r[k]
    {
      if k > 0 {
        var c := id[|id| - |r| + k];
        assert r[k] == UpperChar(c);
        assert UpperChar(UpperChar(c)) == UpperChar(c);
      }
    }
    assert u == r;
  }

  /** Two identifiers get the same reference exactly when their last six characters (all of
      a shorter identifier) agree up to case. */
  lemma ReferenceIdentifies(id: string, other: string)
    ensures Reference(id) == Reference(other) <==>
      |LastSix(id)| == |LastSix(other)| &&
      forall k :: 0 <= k < |LastSix(id)| ==> UpperChar(LastSix(id)[k]) == UpperChar(LastSix(other)[k])
  {
    var a, b := LastSix(id), LastSix(other);
    var x, y := Upper(a), Upper(b);
    assert Reference(id) == "#" + x && Reference(other) == "#" + y;
    if Reference(id) == Reference(other) {
      assert x == ("#" + x)[1..] == ("#" + y)[1..] == y;
    }
    if |a| == |b| && forall k :: 0 <= k < |a| ==> UpperChar(a[k]) == UpperChar(b[k]) {
      assert x == y;
    }
  }

  /** What one booking of `/api/mybookings` contributes to its card. */
  datatype BookingItem = BookingItem(id: string, status: Option<string>, tourImage: Option<string>)

  /** How the fetch of the booking list ended. */
  datatype Fetch = Loaded(items: seq<BookingItem>) | FetchFailed

  /** The state of the page. */
  class MyBookingsView {
    var bookings: seq<BookingItem>
    var loading: bool
    /** The navigations made, in order. */
    var navigations: seq<string>
    /** The API paths requested, in order. */
    var requests: seq<string>
    /** Page and page size, six cards a page at first. The page state is its own object,
        shared in form with the administrator's table; the reference never changes, so it is
        a `const`, and the functions that read the page state name it in their `reads`. */
    const pager: Pagination.Pager

    constructor ()
      ensures bookings == [] && loading && navigations == [] && requests == []
      ensures pager.page == 0 && pager.rowsPerPage == 6
    {
      bookings, loading := [], true;
      navigations, requests := [], [];
      pager := new Pagination.Pager(6);
    }

    /** The cards on the current page. */
    function Visible(): (r: seq<BookingItem>)
      reads this, pager
      ensures |r| <= pager.rowsPerPage
      ensures forall k :: 0 <= k < |r| ==>
        pager.page * pager.rowsPerPage + k < |bookings| && r[k] == bookings[pager.page * pager.rowsPerPage + k]
    {
      pager.Visible(bookings)
    }

    /** The mount effect: without a token the page goes to the login page and fetches
        nothing (and keeps its spinner); with one it fetches the caller's bookings, keeps the
        old list when the fetch fails, and stops loading either way. */
    method Mount(token: Option<string>, fetch: Fetch)
      modifies this
      ensures OptOrElse(token, "") == "" ==>
        && navigations == old(navigations) + ["/login"] && requests == old(requests)
        && bookings == old(bookings) && loading == old(loading)
      ensures OptOrElse(token, "") != "" ==>
        && navigations == old(navigations) && requests == old(requests) + ["/mybookings"]
        && bookings == (if fetch.Loaded? then fetch.items else old(bookings)) && !loading
    {
      if token.None? || token.value == "" {
        navigations := navigations + ["/login"];
        return;
      }
      requests := requests + ["/mybookings"];
      if fetch.Loaded? {
        bookings := fetch.items;
      }
      loading := false;
    }

    /** `handleChangePage`. */
    method ChangePage(newPage: nat)
      modifies pager
      ensures pager.page == newPage && pager.rowsPerPage == old(pager.rowsPerPage)
    {
      pager.ChangePage(newPage);
    }

    /** `handleChangeRowsPerPage`: the new size, back on the first page. */
    method ChangeRowsPerPage(rows: nat)
      modifies pager
      ensures pager.rowsPerPage == rows && pager.page == 0
    {
      pager.ChangeRowsPerPage(rows);
    }
  }
}
