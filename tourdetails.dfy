/** The page of one tour. It looks the tour up by the identifier in the route, asks the
    logged-in customer's bookings whether this tour is already booked (which disables the
    booking button), books it for a logged-in visitor and sends anyone else to the login
    page, and derives the image address and the meta description of the page. */
module TourDetailsPage {
  import opened Js
  import Seqs
  import Images
  import Pagination
  import Client

  /** What the page uses of a tour from `/api/tours`. */
  datatype TourItem = TourItem(id: string, image: Option<string>, description: Option<string>)

  /** What the page uses of a booking from `/api/mybookings`: the identifier of its tour, or
      none when the tour reference is empty. */
  datatype BookedItem = BookedItem(tour: Option<string>)

  predicate HasId(id: string, t: TourItem)
  {
    t.id == id
  }

  /** `tours.find(t => t._id === id)`: the first tour with the route's identifier. */
  function FindTour(tours: seq<TourItem>, id: string): (r: Option<TourItem>)
    ensures r.Some? ==> r.value.id == id
    ensures r.Some? ==>
      exists k :: 0 <= k < |tours| && tours[k] == r.value && forall j :: 0 <= j < k ==> tours[j].id != id
    ensures r.None? <==> forall k :: 0 <= k < |tours| ==> tours[k].id != id
  {
    match Seqs.FirstIndex(tours, t => HasId(id, t))
    case None => None
    case Some(k) => Some(tours[k])
  }

  predicate BooksTour(id: string, b: BookedItem)
  {
    b.tour == Some(id)
  }

  /** `bookings.some(b => b.tour?._id === id)`. */
  function BookedAlready(bookings: seq<BookedItem>, id: string): (r: bool)
    ensures r <==> exists k :: 0 <= k < |bookings| && bookings[k].tour == Some(id)
  {
    Seqs.FirstIndex(bookings, b => BooksTour(id, b)).Some?
  }

  /** `tour.image?.startsWith('http') ? tour.image : `${IMAGE_BASE}${tour.image}``: a tour
      without an image gets the base followed by the text "undefined". */
  function FullImageUrl(image: Option<string>, imageBase: string): (url: string)
    ensures image.Some? ==> url == Images.Resolve(image.value, imageBase)
    ensures image.None? ==> url == imageBase + "undefined"
  {
    match image
    case None => imageBase + "undefined"
    case Some(img) => Images.Resolve(img, imageBase)
  }

  /** Unlike the booking cards, the details page has no placeholder: an empty image gives the
      bare base address, a missing one the base followed by "undefined". */
  lemma NoPlaceholder(imageBase: string)
    ensures FullImageUrl(Some(""), imageBase) == imageBase
    ensures FullImageUrl(None, imageBase) == imageBase + "undefined"
  {
  }

  /** `tour.description?.substring(0, 160)`. */
  function MetaDescription(description: Option<string>): (r: Option<string>)
    ensures r.Some? <==> description.Some?
    ensures r.Some? ==> |r.value| == Pagination.Min(160, |description.value|)
    ensures r.Some? ==> r.value == description.value[..|r.value|]
  {
    match description
    case None => None
    case Some(d) => Some(if |d| <= 160 then d else d[..160])
  }

  /** The booking button: disabled exactly when the tour is already booked; while a booking
      is being sent it shows a spinner instead of its caption. */
  datatype Button = Button(disabled: bool, spinner: bool, caption: Option<string>)

  function BookButton(isAlreadyBooked: bool, bookingLoading: bool): (b: Button)
    ensures b.disabled <==> isAlreadyBooked
    ensures b.spinner <==> b.caption.None?
    ensures b.caption.Some? ==> b.caption.value in {"Already Booked", "Confirm Booking"}
  {
    Button(isAlreadyBooked, bookingLoading,
      if bookingLoading then None
      else Some(if isAlreadyBooked then "Already Booked" else "Confirm Booking"))
  }

  /** A tour the customer's booking list already holds gets a disabled button captioned
      "Already Booked" once the spinner is off. */
  lemma BookedTourButtonDisabled(bookings: seq<BookedItem>, id: string, k: nat, bookingLoading: bool)
    requires k < |bookings| && bookings[k].tour == Some(id)
    ensures BookButton(BookedAlready(bookings, id), bookingLoading).disabled
    ensures !bookingLoading ==> BookButton(BookedAlready(bookings, id), bookingLoading).caption == Some("Already Booked")
  {
  }

  /** The state of the page for one route identifier. */
  class TourDetailsView {
    const routeId: string
    var tour: Option<TourItem>
    var loading: bool
    var isAlreadyBooked: bool
    var bookingLoading: bool
    /** The API paths fetched, in order. */
    var fetched: seq<string>
    /** The tour identifiers posted to `/book`, in order. */
    var booked: seq<string>
    var alerts: seq<string>
    var navigations: seq<string>

    constructor (routeId: string)
      ensures this.routeId == routeId && tour == None && loading && !isAlreadyBooked && !bookingLoading
      ensures fetched == [] && booked == [] && alerts == [] && navigations == []
    {
      this.routeId := routeId;
      tour, loading, isAlreadyBooked, bookingLoading := None, true, false, false;
      fetched, booked, alerts, navigations := [], [], [], [];
    }

    /** The booking button as the page renders it. */
    function BookingButton(): Button
      reads this
    {
      BookButton(isAlreadyBooked, bookingLoading)
    }

    /** `fetchData`: the tour list is fetched and searched; only with a token are the
        caller's bookings fetched and checked; a failed fetch stops there; loading ends on
        every path. */
    method FetchData(token: Option<string>, tours: Option<seq<TourItem>>, bookings: Option<seq<BookedItem>>)
      modifies this
      ensures !loading && booked == old(booked) && alerts == old(alerts) && navigations == old(navigations)
      ensures bookingLoading == old(bookingLoading)
      ensures tours.None? ==>
        fetched == old(fetched) + ["/tours"] && tour == old(tour) && isAlreadyBooked == old(isAlreadyBooked)
      ensures tours.Some? ==> tour == FindTour(tours.value, routeId)
      ensures tours.Some? && OptOrElse(token, "") == "" ==>
        fetched == old(fetched) + ["/tours"] && isAlreadyBooked == old(isAlreadyBooked)
      ensures tours.Some? && OptOrElse(token, "") != "" ==>
        && fetched == old(fetched) + ["/tours", "/mybookings"]
        && isAlreadyBooked == (if bookings.Some? then BookedAlready(bookings.value, routeId) else old(isAlreadyBooked))
    {
      fetched := fetched + ["/tours"];
      if tours.Some? {
        tour := FindTour(tours.value, routeId);
        if token.Some? && token.value != "" {
          fetched := fetched + ["/mybookings"];
          if bookings.Some? {
            isAlreadyBooked := BookedAlready(bookings.value, routeId);
          }
        }
      }
      loading := false;
    }

    /** `bookTour`: a visitor without a token is told to log in and sent to the login page,
        and no booking is posted; otherwise the route's tour is posted, and the answer leads
        to the booking list or to an alert; the button's spinner stops on both paths. */
    method BookTour(token: Option<string>, outcome: Client.Outcome)
      modifies this
      ensures fetched == old(fetched) && tour == old(tour) && isAlreadyBooked == old(isAlreadyBooked)
      ensures loading == old(loading)
      ensures OptOrElse(token, "") == "" ==>
        && booked == old(booked) && bookingLoading == old(bookingLoading)
        && alerts == old(alerts) + ["Please login to book this tour!"]
        && navigations == old(navigations) + ["/login"]
      ensures OptOrElse(token, "") != "" ==> booked == old(booked) + [routeId] && !bookingLoading
      ensures OptOrElse(token, "") != "" && outcome.Succeeded? ==>
        alerts == old(alerts) + ["Booking Successful!"] && navigations == old(navigations) + ["/mybookings"]
      ensures OptOrElse(token, "") != "" && outcome.Failed? ==>
        && alerts == old(alerts) + [Client.FailureText(outcome, "Booking failed. Please try again.")]
        && navigations == old(navigations)
    {
      if token.None? || token.value == "" {
        alerts := alerts + ["Please login to book this tour!"];
        navigations := navigations + ["/login"];
        return;
      }
      bookingLoading := true;
      booked := booked + [routeId];
      if outcome.Succeeded? {
        alerts := alerts + ["Booking Successful!"];
        navigations := navigations + ["/mybookings"];
      } else {
        alerts := alerts + [Client.FailureText(outcome, "Booking failed. Please try again.")];
      }
      bookingLoading := false;
    }

    /** A press on the booking button: a disabled button does nothing, so once the page
        knows the tour is booked it cannot post a second booking, whatever the server (which
        does not check) would do; an enabled one runs `bookTour`. */
    method PressBook(token: Option<string>, outcome: Client.Outcome)
      modifies this
      ensures BookButton(old(isAlreadyBooked), old(bookingLoading)).disabled ==>
        && booked == old(booked) && alerts == old(alerts) && navigations == old(navigations)
        && bookingLoading == old(bookingLoading)
      ensures !BookButton(old(isAlreadyBooked), old(bookingLoading)).disabled && OptOrElse(token, "") != "" ==>
        booked == old(booked) + [routeId] && !bookingLoading
      ensures !BookButton(old(isAlreadyBooked), old(bookingLoading)).disabled && OptOrElse(token, "") == "" ==>
        booked == old(booked) && navigations == old(navigations) + ["/login"]
      ensures isAlreadyBooked == old(isAlreadyBooked) && tour == old(tour) && fetched == old(fetched)
    {
      if BookingButton().disabled {
        return;
      }
      BookTour(token, outcome);
    }
  }
}
