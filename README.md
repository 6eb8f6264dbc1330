# Tour-booking application: a verified model of its decision logic

The application is a tour-booking site: an Express API over a document store (accounts,
tours, bookings) and React pages for customers and administrators. This project models:

- the request-deciding part of the API server: the `protect` and `adminOnly` gates, the
  password pre-save hook, and the handlers for registration, login, booking, "my bookings",
  booking status updates, tour and account deletion, and profile update. These are
  modelled as a `Server` class whose stores are sequences in insertion order;
- the client-side logic of the pages: registration validation and the mobile sanitiser,
  image addresses, status chips, booking references, pagination, the tour form's multipart
  body, the inquiry form's normalisation, the tour details lookups, the home page's
  category sections, the administrator's booking and inquiry tables, and the profile save.

Each page with state is a class whose fields are the page's state. Requests, alerts and
navigations are recorded as sequences, and each server answer is a parameter of the
method that receives it.

Modules:

- `Js`: the JavaScript semantics the code relies on (truthiness, `String(v)`, `parseInt`,
  `\s`, `startsWith`, ASCII case mapping, UTF-16 length).
- `Seqs`: `filter` and `findIndex`.
- `Pagination`: the page slice and the `TablePagination` state.
- `Gate`: the request gate and the client's `Authorization` header.
- `Backend`: the server.
- `Client`: the outcome of a request and the requests a page sends.
- `Images`: the shared "http or base-prefixed" rule.
- One module per page or component: `RegisterPage`, `MyBookingsPage`, `TourModalForm`,
  `InquiryCardForm`, `TourDetailsPage`, `HomePage`, `ManageBookingsPage`,
  `ManageInquiryPage`, `ProfilePage`.

Foreign code is a parameter:

- the password hash and its comparison (bcrypt);
- token signing and verification (JWT);
- the document schema's validation.

The server's constructor takes these as functions. Every proof about the handlers holds
for every choice of them. The one exception is `Backend.RegisterThenLogin`, which assumes
that the comparison accepts every password against its own hash. The hash is a
deterministic function; bcrypt's random salt is not modelled.

## Model

| member | source | states |
|---|---|---|
| Gate.Protect | backend/server.js:126-138 | A missing header, one with no second space-separated piece, or an empty second piece is refused with 401 "No token". A token the verifier rejects gets 401 "Invalid token". Otherwise the request identity is exactly the verifier's claims. |
| Gate.HeaderWithoutSecondPart | backend/server.js:127-129 | A header without a space yields no token and 401 "No token", so the handler never runs. |
| Gate.BearerRoundTrip | frontend/src/api.js:10 | For a non-empty token without spaces, the header the interceptor writes (`Bearer ${token}`) is split back by `protect` to exactly that token. |
| Gate.BearerRequestVerified | backend/server.js:131-137 | A request sent with such a token is decided by the verifier alone: 401 "Invalid token" when it fails, the decoded claims when it succeeds. |
| Gate.NoStoredTokenRefused | frontend/src/api.js:9-10 | With no stored token, or an empty one, no header is sent and the server answers 401 "No token" before any verification. |
| Gate.AdminOnly | backend/server.js:141-145 | Admits iff the role is exactly "admin", with the same claims. Every other role gets 403 "Admin only". |
| Gate.AdminGateAdmitsOnlyAdmins | backend/server.js:141-145 | The chain `protect, adminOnly` admits exactly the verified callers with role "admin". A verified non-admin gets 403, and the chain's identity is the one `protect` decoded. |
| Backend.PreSave | backend/server.js:71-75 | The hook changes only the password. An unmodified password is left as it is; a modified one is replaced by its hash. |
| Backend.ProfileUpdateFields | backend/server.js:302-310 | The identifier and the role never change. An empty name, email or mobile keeps the old value, and a non-empty one replaces it. An empty password keeps the stored hash. A new, different password is stored hashed. |
| Backend.WithStatusOnlyStatus | backend/server.js:266-269 | A status update keeps every booking's identifier, account and tour. It changes the status of the booking with that identifier only. |
| Backend.WithStatusAt | backend/server.js:267 | With unique identifiers, the update is a point update of the one booking with that identifier. |
| Backend.EmailsDiffer | backend/server.js:55 | Under the unique email index, two different accounts in the store have different emails. |
| Backend.IdsDiffer | backend/server.js:51-68 | Two different accounts in the store have different identifiers. |
| Backend.Server.Register | backend/server.js:149-170 | A taken email gets 400 "Email already registered" and the store is unchanged. A schema error gets 400 with its message and the store is unchanged. Otherwise exactly one account is appended: the request's fields, the password hashed, and the role "customer" whatever the body says. The store invariant (unique ids and emails) is kept. |
| Backend.Server.Login | backend/server.js:172-194 | A missing email or password gets 400 "Email and password required". Success (200) holds iff some account has that email and the comparison accepts the password. On success the token is signed over exactly that account's {id, role}. An unknown email and a wrong password get the identical 400 "Invalid credentials". |
| Backend.Server.Book | backend/server.js:249-252 | A refused request changes nothing, not even the identifier counter. An admitted one appends a booking for the caller with status "Pending" under the next identifier, with no duplicate check, advances the counter by one, and answers with that booking. |
| Backend.Server.MyBookings | backend/server.js:254-257 | It answers exactly the bookings whose account is the caller, in store order. |
| Backend.Server.UpdateBookingStatus | backend/server.js:266-269 | Only admins get through. The stores become `WithStatus` of the old bookings. The answer is the updated booking, or `null` when the identifier is unknown. |
| Backend.Server.DeleteTour | backend/server.js:242-245 | Admin only. It removes the tour with that identifier, keeps the store invariant (unique tour identifiers among them), and leaves the bookings untouched (no cascade). |
| Backend.WithoutTourRemovesOne | backend/server.js:242-245 | Under unique tour identifiers, the delete removes exactly one tour when one has the identifier, and none otherwise, as `findByIdAndDelete` does. |
| Backend.Server.DeleteUser | backend/server.js:281-284 | Admin only. It removes the account, keeps the store invariant, and leaves the bookings untouched (no cascade). |
| Backend.Server.UpdateProfile | backend/server.js:297-324 | It returns 404 for an unknown caller and 500 for a schema error. An email held by another account gets 400 "This email is already taken.". Otherwise only the caller's account is replaced by the merged, hook-processed account, and the store invariant is kept. |
| Backend.RegisterThenLogin | backend/server.js:149-190 | Registering a fresh email and then logging in with the same credentials succeeds. The token is signed over the new account's identifier and the role "customer", assuming the comparison accepts the hash of the password. |
| Backend.RegisterTwice | backend/server.js:154-155 | After a successful registration, the same request is refused as "Email already registered". The store grows by one account at most. |
| Js.DecimalRoundTrip | frontend/src/components/InquiryCard.js:29-31 | `parseInt(String(n)) === n` for every integer `n`. |
| Js.NoDigitIsNaN | frontend/src/components/InquiryCard.js:29-31 | A string without any decimal digit parses to NaN. |
| Js.Utf16Length | frontend/src/pages/Register.js:29 | `length` counts UTF-16 code units: between one and two per character. |
| Pagination.PageSlice | frontend/src/pages/MyBookings.js:88-89 | The visible rows are items `page*r .. page*r+r` clamped to the list: at most `r` rows, each at its index in the list. |
| Pagination.PagesCover | frontend/src/pages/MyBookings.js:88-89 | The first `n` pages together are exactly the first `n*r` items: nothing is lost, repeated or reordered. |
| Pagination.ItemOnItsPage | frontend/src/pages/ManageBookings.js:58-60 | Item `i` is shown on page `i / r`, at row `i % r`. |
| Pagination.Pager.ChangeRowsPerPage | frontend/src/pages/MyBookings.js:42-45 | The new page size is set and the page goes back to 0. |
| Pagination.Pager.ChangePage | frontend/src/pages/MyBookings.js:41 | It moves to the requested page and keeps the page size. |
| RegisterPage.EmailTestSound | frontend/src/pages/Register.js:24 | Every address the email check accepts matches `/^[^\s@]+@[^\s@]+\.[^\s@]+$/`. |
| RegisterPage.EmailTestComplete | frontend/src/pages/Register.js:24 | Every address matching that pattern passes the email check. |
| RegisterPage.EmailTestIsShape | frontend/src/pages/Register.js:27 | The email check accepts exactly the strings of the pattern's shape. |
| RegisterPage.Validate | frontend/src/pages/Register.js:23-31 | The checks run in the order name, email, mobile, password, and the result is the first failing message. The result is null iff all four pass. Each message is returned iff its check fails and all earlier ones pass. The mobile check is 10 digits starting with 6-9, and the password length is counted in UTF-16 units. |
| RegisterPage.SanitizeMobile | frontend/src/pages/Register.js:118 | The sanitised mobile has only digits and at most 10 of them. |
| RegisterPage.SanitizeIdempotent | frontend/src/pages/Register.js:118 | Sanitising twice is sanitising once. |
| RegisterPage.SanitizeKeepsValidMobile | frontend/src/pages/Register.js:118 | A mobile number that validation accepts goes through the sanitiser unchanged. |
| RegisterPage.RegisterForm.SetMobile | frontend/src/pages/Register.js:118 | Typing sets only the mobile field, to the sanitised input. |
| RegisterPage.RegisterForm.Register | frontend/src/pages/Register.js:32-47 | An invalid form shows the first failure and posts nothing. A valid form is posted once. Success shows the success message and schedules "/login". Failure shows the server's message or "Registration failed". |
| Images.Resolve | frontend/src/pages/MyBookings.js:38 | An "http" address is used as it is, and any other gets the base prefixed. Either way the address ends with the image. |
| Images.ResolveAbsolute | frontend/src/pages/MyBookings.js:38 | With an "http" base, every resolved address is absolute, and resolving it again changes nothing. |
| MyBookingsPage.FullImageUrl | frontend/src/pages/MyBookings.js:35-39 | An absent or empty image gives the placeholder, and any other image is resolved. |
| MyBookingsPage.FullImageUrlAbsolute | frontend/src/pages/MyBookings.js:35-39 | With an "http" base, every card's image address starts with "http". |
| MyBookingsPage.StatusColor | frontend/src/pages/MyBookings.js:47-54 | confirmed, pending and cancelled in any case give success, warning and error with their canonical labels. Anything else gives "primary", labelled with the status or "Processing". |
| MyBookingsPage.StatusColorIgnoresCase | frontend/src/pages/MyBookings.js:48 | Two statuses equal up to case get the same colour. |
| MyBookingsPage.StoredStatusesKeepTheirName | frontend/src/pages/MyBookings.js:49-51 | The three statuses the server stores are shown under their own name and never as "primary", and the label maps back to the same chip. |
| MyBookingsPage.LastSix | frontend/src/pages/MyBookings.js:154 | `slice(-6)` is the suffix of length min(6, length). |
| MyBookingsPage.Reference | frontend/src/pages/MyBookings.js:154 | The reference is "#" followed by the upper-cased last six characters of the id. |
| MyBookingsPage.ReferenceProperties | frontend/src/pages/MyBookings.js:154 | The reference has no lower-case letters left. |
| MyBookingsPage.ReferenceIdentifies | frontend/src/pages/MyBookings.js:154 | Two ids get the same reference iff their last six characters (the whole id when shorter) agree up to case. |
| MyBookingsPage.MyBookingsView.Visible | frontend/src/pages/MyBookings.js:88-89 | At most `rowsPerPage` cards are shown: card `k` is booking `page*rowsPerPage + k`. |
| MyBookingsPage.MyBookingsView.Mount | frontend/src/pages/MyBookings.js:22-33 | Without a token it navigates to "/login" and fetches nothing. With one it fetches "/mybookings", keeps the old list on failure, and stops loading. |
| MyBookingsPage.MyBookingsView.ChangeRowsPerPage | frontend/src/pages/MyBookings.js:42-45 | It sets the page size and resets the page to 0. |
| MyBookingsPage.MyBookingsView.ChangePage | frontend/src/pages/MyBookings.js:41 | It sets the page and keeps the page size. |
| TourModalForm.CategoryOptionsMatchSchema | frontend/src/components/TourModal.js:12-18 | The selector's values are exactly the five values of the tour schema's category enumeration, in order. |
| TourModalForm.Stored | frontend/src/components/TourModal.js:60-79 | `append` keeps a file and turns anything else into its string. A truthy value stays truthy. |
| TourModalForm.Filled | frontend/src/components/TourModal.js:60-76 | `form[key] || default`: the form's value when truthy, and the default otherwise. |
| TourModalForm.SubmissionKeys | frontend/src/components/TourModal.js:60-80 | The keys are exactly title, location, category, actualPrice, discountPrice, description, date, days and person, then "image" iff a file was chosen. Each key occurs once. |
| TourModalForm.SubmissionValues | frontend/src/components/TourModal.js:60-76 | Every text field is sent non-empty: the form's value when truthy, and its default otherwise ("New Unnamed Tour", "India", "trending", "0", "0", "No description provided.", today, "1", "1"). |
| TourModalForm.SubmissionImage | frontend/src/components/TourModal.js:78-80 | A chosen file is sent last, as that file, under "image". |
| TourModalForm.SubmittedCategoryAdmitted | frontend/src/components/TourModal.js:62 | An empty category, or one picked from the selector, is sent as a value the schema admits. |
| TourModalForm.EmptyFormSendsDefaults | frontend/src/components/TourModal.js:42-53 | The reset "Add Tour" form sends exactly the nine defaults and no image. |
| TourModalForm.BuildFormData | frontend/src/components/TourModal.js:57-80 | The nine appends and the optional image append build exactly the specified body. |
| TourModalForm.TourModal.Load | frontend/src/components/TourModal.js:35-55 | Editing loads the selected tour with `imageFile` null. Adding resets every field to empty. |
| TourModalForm.TourModal.Change | frontend/src/components/TourModal.js:95 | A field's `onChange` sets that field only. |
| TourModalForm.TourModal.Submit | frontend/src/components/TourModal.js:57-83 | `handleSave` receives the built body exactly once, and the form is unchanged. |
| InquiryCardForm.Submission | frontend/src/components/InquiryCard.js:27-33 | The keys are the form's keys plus the four normalised ones. Every other field is copied unchanged. Each count is `parseInt(v) \|\| 0`. The tour name falls back to "General Website Inquiry". |
| InquiryCardForm.NumberCountKept | frontend/src/components/InquiryCard.js:29-31 | A count that already is a number is sent as that number. |
| InquiryCardForm.SubmissionIdempotent | frontend/src/components/InquiryCard.js:27-33 | Normalising a submission again changes nothing. |
| InquiryCardForm.NonNumericCountIsZero | frontend/src/components/InquiryCard.js:29-31 | A typed count of adults, children or infants with no digit in it is sent as 0. |
| InquiryCardForm.InitialFormCounts | frontend/src/components/InquiryCard.js:13-16 | The untouched form sends 1 adult, 0 children and 0 infants. |
| InquiryCardForm.InquiryCard.HandleChange | frontend/src/components/InquiryCard.js:18-20 | Only the named field changes. |
| InquiryCardForm.InquiryCard.Open | frontend/src/components/InquiryCard.js:55 | The button opens the dialog and changes nothing else. |
| InquiryCardForm.InquiryCard.BeginSubmit | frontend/src/components/InquiryCard.js:24-35 | Loading goes on, and the normalised submission is posted once. |
| InquiryCardForm.InquiryCard.FinishSubmit | frontend/src/components/InquiryCard.js:36-47 | Success alerts, closes the dialog and resets the form. Failure keeps the form and the open state and alerts the server's message or the fallback. Loading is off on both paths. |
| TourDetailsPage.FindTour | frontend/src/pages/TourDetails.js:31 | The result is the first tour with the route id, and none iff no tour has it. |
| TourDetailsPage.BookedAlready | frontend/src/pages/TourDetails.js:38 | True iff some booking's tour id equals the route id. |
| TourDetailsPage.FullImageUrl | frontend/src/pages/TourDetails.js:83-85 | An "http" image is used as it is, and any other is prefixed with the base. A missing image gives the base followed by "undefined". |
| TourDetailsPage.NoPlaceholder | frontend/src/pages/TourDetails.js:83-85 | This page has no placeholder: an empty image gives the bare base. |
| TourDetailsPage.MetaDescription | frontend/src/pages/TourDetails.js:94 | The meta description is the first min(160, length) characters of the description, and absent iff the description is. |
| TourDetailsPage.BookButton | frontend/src/pages/TourDetails.js:195-208 | The button is disabled iff already booked. It shows either the spinner or a caption, never both, and the caption is "Already Booked" or "Confirm Booking". |
| TourDetailsPage.BookedTourButtonDisabled | frontend/src/pages/TourDetails.js:200 | When the customer's bookings hold the route's tour, the button is disabled and, once the spinner is off, reads "Already Booked". |
| TourDetailsPage.TourDetailsView.PressBook | frontend/src/pages/TourDetails.js:199-200 | A press on a disabled button posts nothing and changes nothing, so a tour the page knows is booked cannot be booked again from it. A press on an enabled button runs `bookTour`. |
| TourDetailsPage.TourDetailsView.FetchData | frontend/src/pages/TourDetails.js:26-48 | The tour shown is `FindTour` of the fetched list. The bookings are fetched only with a token, and then already-booked is `BookedAlready`. Loading ends on every path. |
| TourDetailsPage.TourDetailsView.BookTour | frontend/src/pages/TourDetails.js:50-68 | Without a token it alerts, navigates to "/login" and posts nothing. With one it posts the route's tour once, and success leads to "/mybookings" while failure alerts. The spinner stops on both paths. |
| HomePage.Matching | frontend/src/pages/Home.js:108 | The result holds exactly the tours whose category is the key. |
| HomePage.SectionsOf | frontend/src/pages/Home.js:107-109 | Every section shown holds exactly its category's tours and is non-empty. Its category comes from the list. |
| HomePage.SectionsComplete | frontend/src/pages/Home.js:107-109 | Every category with tours gets its section. |
| HomePage.SectionsInOrder | frontend/src/pages/Home.js:107 | Sections come in the order of their categories. |
| HomePage.SectionShownIff | frontend/src/pages/Home.js:108-109 | A category has a section iff some tour is in it, and that section holds exactly its tours in list order. |
| HomePage.HomeSectionsInOrder | frontend/src/pages/Home.js:43-48 | The home page's sections follow char_dham, weekend, trending, exclusive. |
| HomePage.DestinationNeverShown | frontend/src/pages/Home.js:43-48 | A "destination" tour, or one without a category, appears in no section. |
| HomePage.HomeCategoriesAdmitted | frontend/src/pages/Home.js:43-48 | Every category key of the home page is one the tour schema admits. |
| HomePage.LargeSectionWraps | frontend/src/pages/Home.js:30 | The flag is computed from the whole list, so a section holding more than three tours always wraps. |
| HomePage.OneTourSectionWraps | frontend/src/pages/Home.js:30 | A section with a single tour wraps as well once the whole list has four tours: a concrete list where the "char_dham" section holds one tour and the flag is on. |
| ManageBookingsPage.StatusStyle | frontend/src/pages/ManageBookings.js:32-38 | Case-sensitive: success iff "Confirmed", error iff "Cancelled", and warning for anything else, including "Pending". |
| ManageBookingsPage.StylesAgreeOnOptions | frontend/src/pages/ManageBookings.js:87-89 | On the three statuses the selector offers, the administrator's colour equals the customer's. |
| ManageBookingsPage.StylesDifferInCase | frontend/src/pages/ManageBookings.js:34 | A lower-case "confirmed" is amber here but green on the customer's page. |
| ManageBookingsPage.ManageBookingsView.Visible | frontend/src/pages/ManageBookings.js:58-60 | The visible rows are the page slice of the bookings. |
| ManageBookingsPage.ManageBookingsView.FetchBookings | frontend/src/pages/ManageBookings.js:16 | It requests "/admin/bookings". The list is replaced by the answer, or kept when there is none. |
| ManageBookingsPage.ManageBookingsView.UpdateStatus | frontend/src/pages/ManageBookings.js:25-30 | It sends a body holding only `{status}`. It reloads the list only on success, and on failure it alerts "Failed to update status" and keeps the list. |
| ManageBookingsPage.ManageBookingsView.ChangeRowsPerPage | frontend/src/pages/ManageBookings.js:20-23 | It sets the page size and resets the page to 0. |
| ManageBookingsPage.ManageBookingsView.ChangePage | frontend/src/pages/ManageBookings.js:19 | It sets the page and keeps the page size. |
| ManageInquiryPage.StatusChip | frontend/src/pages/ManageInquiry.js:91-95 | The label is never empty: it is the status when there is one, and "New" otherwise. The colour is success iff the status is exactly "Followed Up", and error otherwise. |
| ManageInquiryPage.FollowedUpIsCaseSensitive | frontend/src/pages/ManageInquiry.js:93 | The colour test is case-sensitive: "followed up" and "FOLLOWED UP" are red under their own spelling, and an absent or empty status is a red "New". |
| ManageInquiryPage.PaxLabelReadsBack | frontend/src/pages/ManageInquiry.js:88 | The "adults / children / infants" label of numeric counts reads back, through `parseInt`, as the number of adults. |
| ManageInquiryPage.Rows | frontend/src/pages/ManageInquiry.js:70-73 | An empty list renders the single "No inquiries found." row. Otherwise there is one row per inquiry, in order. |
| ManageInquiryPage.TableNeverEmpty | frontend/src/pages/ManageInquiry.js:70-73 | The table body always has at least one row: the placeholder, or one per inquiry. |
| ManageInquiryPage.DeletedInquiryNotListed | frontend/src/pages/ManageInquiry.js:33 | After the removal, no row of the table carries the deleted identifier, and every other inquiry keeps its row. |
| ManageInquiryPage.Remove | frontend/src/pages/ManageInquiry.js:33 | It keeps exactly the inquiries with another id. |
| ManageInquiryPage.RemoveSplits | frontend/src/pages/ManageInquiry.js:33 | Removal preserves order: it distributes over any split of the list. |
| ManageInquiryPage.RemoveAbsent | frontend/src/pages/ManageInquiry.js:33 | Removing an id that is not in the list changes nothing. |
| ManageInquiryPage.RemoveIdempotent | frontend/src/pages/ManageInquiry.js:33 | Removing twice is removing once. |
| ManageInquiryPage.ManageInquiryView.FetchInquiries | frontend/src/pages/ManageInquiry.js:18-27 | The list is replaced by the answer, or kept on failure. Loading ends either way. |
| ManageInquiryPage.ManageInquiryView.DeleteInquiry | frontend/src/pages/ManageInquiry.js:29-38 | Declining changes nothing. A confirmed delete sends the request once. Only its success replaces the list by `Remove`, and failure alerts "Delete failed" and keeps the list. |
| ProfilePage.Loaded | frontend/src/pages/Profile.js:11 | The loaded profile has an empty password and every other field of the answer. |
| ProfilePage.UpdateData | frontend/src/pages/Profile.js:17-18 | The password key is present iff the password is truthy. Every other field is sent unchanged. |
| ProfilePage.SaveWithoutPasswordKeepsHash | frontend/src/pages/Profile.js:17-18 | A save without a typed password leaves the stored password hash unchanged on the server. |
| ProfilePage.LoadThenSaveKeepsHash | frontend/src/pages/Profile.js:11 | Loading and saving straight away never changes the stored password. |
| ProfilePage.SaveWithPasswordHashesIt | frontend/src/pages/Profile.js:17-20 | A typed new password reaches the server and is stored as its hash. |
| ProfilePage.ProfileView.Mount | frontend/src/pages/Profile.js:9-13 | It fetches "/profile" and loads the answer with the password blanked. Loading ends either way. |
| ProfilePage.ProfileView.Change | frontend/src/pages/Profile.js:43 | A field's `onChange` sets that field only. |
| ProfilePage.ProfileView.SaveProfile | frontend/src/pages/Profile.js:15-26 | It sends `UpdateData` of the profile once. Success resets only the password, and failure keeps the profile and alerts the server's message or "Update failed". |

## Left out

- Password hashing and comparison (bcrypt), token signing and verification with expiry (JWT), and the schema validators: these are function parameters of the server. The model states what the handlers decide, not the cryptography or the regular expressions of the schema.
- Database plumbing is left out: persistence, `populate`, indexes as data structures, and the form of document identifiers (`ObjectId`). Identifiers are naturals from a counter. The uniqueness of account, tour and booking identifiers and the unique email index are store invariants.
- Backend.Server.UpdateProfile: it does not model the "This mobile number is already taken." branch. The schema declares no unique index on mobile, so no duplicate-key error on mobile can arise.
- Backend.Server.Register: the schema's `lowercase` setter on email is not modelled, and emails are compared as given. The same holds for Backend.Server.Login's lookup by email and for the email that Backend.Server.UpdateProfile stores and checks for clashes.
- Backend.Server.Book: identifiers are naturals, so the model has no malformed or absent identifier. In the code, a malformed `tourId` or `:id` raises a cast error that Book, the status update and the two deletes do not catch, so the request fails with no answer from the handler. A missing `tourId` creates a booking with no tour. Neither case is modelled.
- Backend.Server.Login: it does not model the 500 answer for an exception thrown by the store or by bcrypt.
- The Express and CORS wiring, the static upload directory, the multer upload (its clock- and random-based file names), and server start are left out.
- Routes that only read or write the store without a decision are left out: the admin counts, the admin lists, `GET /api/tours`, and tour creation and update. The status update, the deletes and `PUT /api/profile` are modelled.
- `GET /api/profile` is not modelled, although it decides: it answers 404 for an unknown caller and strips the password from the account it returns. The profile page's load takes that answer as a parameter.
- The code has no duplicate-booking check, no cascade on tour or account deletion, no review routes and no inquiry routes. The model has none of these either. `/inquiry`, `/admin/inquiries` and `/admin/inquiry/:id` are therefore modelled as requests with a given outcome.
- The review components call API functions the client does not define. They are not part of this model. The scaffolding generator `setup.js` is file I/O and is not part of this model.
- The role-dependent navigation of the client is not modelled. This covers the login page, which stores the token and the role, sends an "admin" to "/admin" and everyone else to "/", and shows the server's message or "Login failed" (frontend/src/pages/Login.js:32-38). It covers the navigation bar, which clears the storage on logout and offers the administrator's or the customer's links by the stored role (frontend/src/components/Navbar.js:29-31 and 55). It also covers the routes under "/admin", guarded by a `ProtectedRoute` component whose code is not part of this model (frontend/src/App.js:38-43). The server's `adminOnly` gate, which these client-side guards only mirror, is modelled.
- AdminDashboard, ManageUsers, ManageTours, the layouts, and the render-only components have no logic beyond a request or the page slice already modelled.
- Asynchrony and concurrency are left out: requests complete in order, answers are parameters, and the registration check-then-create race is not modelled. A `setTimeout` navigation is recorded as scheduled.
- Js.Lower, Js.Upper: `toLowerCase` and `toUpperCase` are modelled for ASCII letters only. Other letters are left as they are, whereas JavaScript maps them too (the Kelvin sign lowers to "k", for instance), so a status written with such letters can be classified differently.
- The "View Message" alert of the inquiry table only displays a message and is not modelled.
- Clock and locale: `toLocaleDateString` is not modelled, and "today" in the tour form is a parameter.
- JavaScript numbers are modelled as integers. The `parseInt` model covers leading whitespace, a sign, `0x`, and the longest digit run, but not exponent notation of very large numbers. The radix-10 `parseInt` of the rows-per-page selector is a natural parameter.
- TourDetailsPage.MetaDescription: it counts characters, not UTF-16 code units, so a description with characters outside the Basic Multilingual Plane may be cut at a different place.
- TourDetailsPage.FullImageUrl: an image field that is `null` (which would give the base followed by "null") is not distinguished from an absent one.
- ProfilePage.AsRequest: body fields that are not strings are read as absent.
- ManageInquiryPage.ManageInquiryView.DeleteInquiry: it filters the current list, whereas the component filters the list captured when it rendered.
