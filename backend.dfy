/** The request handlers of the API server over three in-memory stores (accounts, tours,
    bookings), each a list in insertion order whose documents carry unique identifiers.
    The foreign pieces are constants of the server object: the password hash and its
    comparison (bcrypt), token signing and verification (JWT), and the document schema's
    validation, which yields the validation error message or nothing. */
module Backend {
  import opened Js
  import Seqs
  import Gate

  type Id = nat

  /** An account document; `password` holds what the store keeps (the hash, once saved). */
  datatype User = User(id: Id, name: string, email: string, mobile: string, password: string, role: string)

  datatype Tour = Tour(id: Id, title: string, category: string)

  /** The values the tour schema's `category` enumeration admits. */
  const TourCategories := ["char_dham", "weekend", "trending", "destination", "exclusive"]

  datatype Booking = Booking(id: Id, user: Id, tour: Id, status: string)

  /** The body of `POST /api/register`; `role` is whatever the client put there. */
  datatype RegisterRequest = RegisterRequest(name: string, email: string, mobile: string, password: string, role: string)

  /** The body of `PUT /api/profile`; an absent field is the empty string. */
  datatype ProfileRequest = ProfileRequest(name: string, email: string, mobile: string, password: string)

  datatype Body =
    | Message(text: string)
    | Session(token: string, role: string, name: string)
    | BookingDoc(booking: Booking)
    | BookingDocs(bookings: seq<Booking>)
    | NullDoc

  datatype Response = Response(status: nat, body: Body)

  /** The answer the gate gives when it stops a request. */
  function Refusal(v: Gate.Verdict): Response
    requires v.Rejected?
  {
    Response(v.status, Message(v.message))
  }

  /** Two different accounts never share an identifier or an email (the unique index). */
  predicate Apart(a: User, b: User)
  {
    a.id != b.id && a.email != b.email
  }

  predicate BookingsApart(a: Booking, b: Booking)
  {
    a.id != b.id
  }

  predicate ToursApart(a: Tour, b: Tour)
  {
    a.id != b.id
  }

  /** The tour list after `Tour.findByIdAndDelete(id)`. */
  function WithoutTour(tours: seq<Tour>, id: Id): seq<Tour>
  {
    Seqs.Filter(tours, (t: Tour) => t.id != id)
  }

  /** With unique identifiers, deleting a tour removes exactly one tour when one has the
      identifier, and none otherwise. */
  lemma {:induction false} WithoutTourRemovesOne(tours: seq<Tour>, id: Id)
    requires Seqs.Pairwise(tours, ToursApart)
    ensures |WithoutTour(tours, id)| ==
      if exists k :: 0 <= k < |tours| && tours[k].id == id then |tours| - 1 else |tours|
  {
    if tours != [] {
      var rest := tours[1..];
      assert Seqs.Pairwise(rest, ToursApart) by {
        forall i, j | 0 <= i < j < |rest|
          ensures ToursApart(rest[i], rest[j])
        {
          assert ToursApart(tours[i + 1], tours[j + 1]);
        }
      }
      WithoutTourRemovesOne(rest, id);
      if tours[0].id == id {
        forall k | 0 <= k < |rest|
          ensures rest[k].id != id
        {
          assert ToursApart(tours[0], tours[k + 1]);
        }
        assert tours[0].id == id;
      } else if exists k :: 0 <= k < |rest| && rest[k].id == id {
        var k :| 0 <= k < |rest| && rest[k].id == id;
        assert tours[k + 1].id == id;
      } else {
        forall k | 0 <= k < |tours|
          ensures tours[k].id != id
        {
          if k > 0 {
            assert tours[k] == rest[k - 1];
          }
        }
      }
    }
  }

  /** Under the unique index, two positions of the account list hold different emails. */
  lemma EmailsDiffer(users: seq<User>, i: nat, j: nat)
    requires Seqs.Pairwise(users, Apart)
    requires i < |users| && j < |users|
    ensures i != j ==> users[i].email != users[j].email
  {
    if i < j {
      assert Apart(users[i], users[j]);
    } else if j < i {
      assert Apart(users[j], users[i]);
    }
  }

  /** Two positions of the account list hold different identifiers. */
  lemma IdsDiffer(users: seq<User>, i: nat, j: nat)
    requires Seqs.Pairwise(users, Apart)
    requires i < |users| && j < |users|
    ensures i != j ==> users[i].id != users[j].id
  {
    if i < j {
      assert Apart(users[i], users[j]);
    } else if j < i {
      assert Apart(users[j], users[i]);
    }
  }

  /** `User.findOne({ email })`: the position of the first account with that email. */
  function UserWithEmail(users: seq<User>, email: string): Option<nat>
  {
    Seqs.FirstIndex(users, (u: User) => u.email == email)
  }

  /** `User.findById(id)`. */
  function UserWithId(users: seq<User>, id: Id): Option<nat>
  {
    Seqs.FirstIndex(users, (u: User) => u.id == id)
  }

  /** `Booking.findById(id)`. */
  function BookingWithId(bookings: seq<Booking>, id: Id): Option<nat>
  {
    Seqs.FirstIndex(bookings, (b: Booking) => b.id == id)
  }

  /** The account `User.create` builds for a registration: the four fields from the body
      and the role forced to "customer". */
  function NewAccount(id: Id, req: RegisterRequest): User
  {
    User(id, req.name, req.email, req.mobile, req.password, "customer")
  }

  /** The pre-save hook: the password is hashed when it was modified, and left as it is
      otherwise. */
  function PreSave(doc: User, passwordModified: bool, hash: string -> string): (saved: User)
    ensures saved.(password := doc.password) == doc
    ensures !passwordModified ==> saved == doc
    ensures passwordModified ==> saved.password == hash(doc.password)
  {
    if passwordModified then doc.(password := hash(doc.password)) else doc
  }

  /** The field assignments of `PUT /api/profile` before `save`: each of name, email and
      mobile is replaced only by a non-empty value, the password only by a non-empty one. */
  function Merge(u: User, req: ProfileRequest): User
  {
    var merged := u.(name := OrElse(req.name, u.name), email := OrElse(req.email, u.email),
                     mobile := OrElse(req.mobile, u.mobile));
    if req.password != "" then merged.(password := req.password) else merged
  }

  /** Whether the document's password path counts as modified: a different value was assigned. */
  predicate PasswordModified(u: User, req: ProfileRequest)
  {
    req.password != "" && req.password != u.password
  }

  /** The account as the profile update stores it. */
  function UpdatedAccount(u: User, req: ProfileRequest, hash: string -> string): User
  {
    PreSave(Merge(u, req), PasswordModified(u, req), hash)
  }

  /** What a profile update does to one account: empty fields keep the old values, the
      identifier and the role never change, and the stored hash changes only for a non-empty
      new password, which is then stored hashed. */
  lemma ProfileUpdateFields(u: User, req: ProfileRequest, hash: string -> string)
    ensures var s := UpdatedAccount(u, req, hash);
      && s.id == u.id && s.role == u.role
      && s.name == (if req.name == "" then u.name else req.name)
      && s.email == (if req.email == "" then u.email else req.email)
      && s.mobile == (if req.mobile == "" then u.mobile else req.mobile)
      && (req.password == "" ==> s.password == u.password)
      && (req.password != "" && req.password != u.password ==> s.password == hash(req.password))
  {
  }

  /** `bookings` with the status of the booking `id` replaced, as `findByIdAndUpdate` with
      `{ status }` does. */
  function WithStatus(bookings: seq<Booking>, id: Id, status: string): (r: seq<Booking>)
    ensures |r| == |bookings|
  {
    if bookings == [] then []
    else [if bookings[0].id == id then bookings[0].(status := status) else bookings[0]]
         + WithStatus(bookings[1..], id, status)
  }

  /** A status update changes the status field of the booking with that identifier and
      nothing else: every booking keeps its identifier, its account and its tour. */
  lemma {:induction false} WithStatusOnlyStatus(bookings: seq<Booking>, id: Id, status: string)
    ensures var r := WithStatus(bookings, id, status);
      forall k :: 0 <= k < |bookings| ==>
        && r[k].id == bookings[k].id && r[k].user == bookings[k].user && r[k].tour == bookings[k].tour
        && r[k].status == (if bookings[k].id == id then status else bookings[k].status)
  {
    if bookings != [] {
      WithStatusOnlyStatus(bookings[1..], id, status);
      var r := WithStatus(bookings, id, status);
      assert forall k :: 1 <= k < |bookings| ==> r[k] == WithStatus(bookings[1..], id, status)[k - 1];
    }
  }

  /** With unique identifiers, updating the booking at position `i` is a point update. */
  lemma {:induction false} WithStatusAt(bookings: seq<Booking>, i: nat, status: string)
    requires Seqs.Pairwise(bookings, BookingsApart)
    requires i < |bookings|
    ensures WithStatus(bookings, bookings[i].id, status) == bookings[i := bookings[i].(status := status)]
  {
    var r := WithStatus(bookings, bookings[i].id, status);
    WithStatusOnlyStatus(bookings, bookings[i].id, status);
    forall k | 0 <= k < |bookings|
      ensures r[k] == bookings[i := bookings[i].(status := status)][k]
    {
      if k != i {
        assert BookingsApart(bookings[if k < i then k else i], bookings[if k < i then i else k]);
      }
    }
  }

  /** The API server with its stores and the foreign functions it calls. */
  class Server {
    var users: seq<User>
    var tours: seq<Tour>
    var bookings: seq<Booking>
    /** The next identifier the store hands out; every identifier in use is below it. */
    var nextId: Id

    const hash: string -> string
    const compare: (string, string) -> bool
    const sign: Gate.Claims -> string
    const verify: string -> Option<Gate.Claims>
    const schemaError: User -> Option<string>

    ghost predicate Valid()
      reads this
    {
      && Seqs.Pairwise(users, Apart)
      && Seqs.Pairwise(bookings, BookingsApart)
      && Seqs.Pairwise(tours, ToursApart)
      && (forall u | u in users :: u.id < nextId)
      && (forall t | t in tours :: t.id < nextId)
      && (forall b | b in bookings :: b.id < nextId)
    }

    constructor (hash: string -> string, compare: (string, string) -> bool, sign: Gate.Claims -> string,
                 verify: string -> Option<Gate.Claims>, schemaError: User -> Option<string>)
      ensures Valid()
      ensures users == [] && tours == [] && bookings == []
      ensures this.hash == hash && this.compare == compare && this.sign == sign
      ensures this.verify == verify && this.schemaError == schemaError
    {
      users, tours, bookings, nextId := [], [], [], 0;
      this.hash, this.compare, this.sign, this.verify, this.schemaError := hash, compare, sign, verify, schemaError;
    }

    /** `POST /api/register`. */
    method Register(req: RegisterRequest) returns (resp: Response)
      requires Valid()
      modifies this
      ensures Valid()
      ensures tours == old(tours) && bookings == old(bookings)
      ensures UserWithEmail(old(users), req.email).Some? ==>
        resp == Response(400, Message("Email already registered")) && users == old(users) && nextId == old(nextId)
      ensures UserWithEmail(old(users), req.email).None? && schemaError(NewAccount(old(nextId), req)).Some? ==>
        && resp == Response(400, Message(schemaError(NewAccount(old(nextId), req)).value))
        && users == old(users) && nextId == old(nextId)
      ensures UserWithEmail(old(users), req.email).None? && schemaError(NewAccount(old(nextId), req)).None? ==>
        && resp == Response(200, Message("User registered successfully"))
        && users == old(users) + [NewAccount(old(nextId), req).(password := hash(req.password))]
        && nextId == old(nextId) + 1
    {
      if UserWithEmail(users, req.email).Some? {
        return Response(400, Message("Email already registered"));
      }
      var doc := NewAccount(nextId, req);
      var invalid := schemaError(doc);
      if invalid.Some? {
        return Response(400, Message(invalid.value));
      }
      var saved := PreSave(doc, true, hash);
      users := users + [saved];
      nextId := nextId + 1;
      resp := Response(200, Message("User registered successfully"));
    }

    /** `POST /api/login`: both fields are required; an unknown email and a wrong password
      get the same answer; a match gets a token signed over exactly the account's
      identifier and role. */
    method Login(email: string, password: string) returns (resp: Response)
      requires Valid()
      ensures email == "" || password == "" ==> resp == Response(400, Message("Email and password required"))
      ensures resp.status == 200 <==>
        email != "" && password != "" &&
        exists i :: 0 <= i < |users| && users[i].email == email && compare(password, users[i].password)
      ensures resp.status == 200 ==>
        (exists i :: 0 <= i < |users| && users[i].email == email &&
          resp.body == Session(sign(Gate.Claims(users[i].id, users[i].role)), users[i].role, users[i].name))
      ensures email != "" && password != "" && resp.status != 200 ==>
        resp == Response(400, Message("Invalid credentials"))
    {
      if email == "" || password == "" {
        return Response(400, Message("Email and password required"));
      }
      var found := UserWithEmail(users, email);
      if found.None? {
        return Response(400, Message("Invalid credentials"));
      }
      var user := users[found.value];
      if !compare(password, user.password) {
        forall i | 0 <= i < |users| && users[i].email == email
          ensures !compare(password, users[i].password)
        {
          EmailsDiffer(users, i, found.value);
        }
        return Response(400, Message("Invalid credentials"));
      }
      var token := sign(Gate.Claims(user.id, user.role));
      resp := Response(200, Session(token, user.role, user.name));
    }

    /** `POST /api/book`: a new booking of the caller for the tour, always "Pending", with no
        check for an earlier booking of the same tour. */
    method Book(header: Option<string>, tourId: Id) returns (resp: Response)
      requires Valid()
      modifies this
      ensures Valid()
      ensures users == old(users) && tours == old(tours)
      ensures Gate.Protect(header, verify).Rejected? ==>
        resp == Refusal(Gate.Protect(header, verify)) && bookings == old(bookings) && nextId == old(nextId)
      ensures Gate.Protect(header, verify).Admitted? ==>
        var booking := Booking(old(nextId), Gate.Protect(header, verify).claims.id, tourId, "Pending");
        && bookings == old(bookings) + [booking] && resp == Response(200, BookingDoc(booking))
        && nextId == old(nextId) + 1
    {
      var v := Gate.Protect(header, verify);
      if v.Rejected? {
        return Refusal(v);
      }
      var booking := Booking(nextId, v.claims.id, tourId, "Pending");
      bookings := bookings + [booking];
      nextId := nextId + 1;
      resp := Response(200, BookingDoc(booking));
    }

    /** `GET /api/mybookings`: exactly the caller's bookings, in store order. */
    method MyBookings(header: Option<string>) returns (resp: Response)
      requires Valid()
      ensures Gate.Protect(header, verify).Rejected? ==> resp == Refusal(Gate.Protect(header, verify))
      ensures Gate.Protect(header, verify).Admitted? ==>
        var caller := Gate.Protect(header, verify).claims.id;
        && resp.status == 200 && resp.body.BookingDocs?
        && (forall b :: b in resp.body.bookings <==> b in bookings && b.user == caller)
        && resp.body.bookings == Seqs.Filter(bookings, (b: Booking) => b.user == caller)
    {
      var v := Gate.Protect(header, verify);
      if v.Rejected? {
        return Refusal(v);
      }
      var mine := Seqs.Filter(bookings, (b: Booking) => b.user == v.claims.id);
      resp := Response(200, BookingDocs(mine));
    }

    /** `PUT /api/admin/bookings/:id`: admin only; sets the status of that booking and
        answers with it, or with `null` when there is none. */
    method UpdateBookingStatus(header: Option<string>, id: Id, status: string) returns (resp: Response)
      requires Valid()
      modifies this
      ensures Valid()
      ensures users == old(users) && tours == old(tours) && nextId == old(nextId)
      ensures Gate.AdminGate(header, verify).Rejected? ==>
        resp == Refusal(Gate.AdminGate(header, verify)) && bookings == old(bookings)
      ensures Gate.AdminGate(header, verify).Admitted? ==>
        && bookings == WithStatus(old(bookings), id, status)
        && match BookingWithId(old(bookings), id)
           case None => resp == Response(200, NullDoc)
           case Some(i) => resp == Response(200, BookingDoc(old(bookings)[i].(status := status)))
    {
      var v := Gate.AdminGate(header, verify);
      if v.Rejected? {
        return Refusal(v);
      }
      var found := BookingWithId(bookings, id);
      if found.None? {
        assert WithStatus(bookings, id, status) == bookings by {
          WithStatusOnlyStatus(bookings, id, status);
        }
        return Response(200, NullDoc);
      }
      var i := found.value;
      WithStatusAt(bookings, i, status);
      var updated := bookings[i].(status := status);
      bookings := bookings[i := updated];
      resp := Response(200, BookingDoc(updated));
    }

    /** `DELETE /api/tours/:id`: admin only; removes the tour and leaves its bookings. */
    method DeleteTour(header: Option<string>, id: Id) returns (resp: Response)
      requires Valid()
      modifies this
      ensures Valid()
      ensures users == old(users) && bookings == old(bookings) && nextId == old(nextId)
      ensures Gate.AdminGate(header, verify).Rejected? ==>
        resp == Refusal(Gate.AdminGate(header, verify)) && tours == old(tours)
      ensures Gate.AdminGate(header, verify).Admitted? ==>
        tours == WithoutTour(old(tours), id) && resp == Response(200, Message("Tour deleted"))
    {
      var v := Gate.AdminGate(header, verify);
      if v.Rejected? {
        return Refusal(v);
      }
      Seqs.FilterPairwise(tours, (t: Tour) => t.id != id, ToursApart);
      tours := WithoutTour(tours, id);
      resp := Response(200, Message("Tour deleted"));
    }

    /** `DELETE /api/admin/users/:id`: admin only; removes the account and leaves its bookings. */
    method DeleteUser(header: Option<string>, id: Id) returns (resp: Response)
      requires Valid()
      modifies this
      ensures Valid()
      ensures tours == old(tours) && bookings == old(bookings) && nextId == old(nextId)
      ensures Gate.AdminGate(header, verify).Rejected? ==>
        resp == Refusal(Gate.AdminGate(header, verify)) && users == old(users)
      ensures Gate.AdminGate(header, verify).Admitted? ==>
        users == Seqs.Filter(old(users), (u: User) => u.id != id) && resp == Response(200, Message("User deleted"))
    {
      var v := Gate.AdminGate(header, verify);
      if v.Rejected? {
        return Refusal(v);
      }
      Seqs.FilterPairwise(users, (u: User) => u.id != id, Apart);
      users := Seqs.Filter(users, (u: User) => u.id != id);
      resp := Response(200, Message("User deleted"));
    }

    /** `PUT /api/profile`: the caller's account gets the merged fields, hashed by the pre-save
        hook; a schema error answers 500, an email held by another account 400. */
    method UpdateProfile(header: Option<string>, req: ProfileRequest) returns (resp: Response)
      requires Valid()
      modifies this
      ensures Valid()
      ensures tours == old(tours) && bookings == old(bookings) && nextId == old(nextId)
      ensures Gate.Protect(header, verify).Rejected? ==>
        resp == Refusal(Gate.Protect(header, verify)) && users == old(users)
      ensures Gate.Protect(header, verify).Admitted? ==>
        match UserWithId(old(users), Gate.Protect(header, verify).claims.id)
        case None => resp == Response(404, Message("User not found")) && users == old(users)
        case Some(i) =>
          var merged := Merge(old(users)[i], req);
          var saved := UpdatedAccount(old(users)[i], req, hash);
          if schemaError(merged).Some? then
            resp == Response(500, Message(schemaError(merged).value)) && users == old(users)
          else if exists j :: 0 <= j < |old(users)| && j != i && old(users)[j].email == saved.email then
            resp == Response(400, Message("This email is already taken.")) && users == old(users)
          else
            resp == Response(200, Message("Profile updated successfully!")) && users == old(users)[i := saved]
    {
      var v := Gate.Protect(header, verify);
      if v.Rejected? {
        return Refusal(v);
      }
      var found := UserWithId(users, v.claims.id);
      if found.None? {
        return Response(404, Message("User not found"));
      }
      var i := found.value;
      var user := users[i];
      user := user.(name := OrElse(req.name, user.name));
      user := user.(email := OrElse(req.email, user.email));
      user := user.(mobile := OrElse(req.mobile, user.mobile));
      if req.password != "" {
        user := user.(password := req.password);
      }
      assert user == Merge(users[i], req);
      var invalid := schemaError(user);
      if invalid.Some? {
        return Response(500, Message(invalid.value));
      }
      var saved := PreSave(user, PasswordModified(users[i], req), hash);
      var clash := Seqs.FirstIndex(users, (u: User) => u.id != saved.id && u.email == saved.email);
      if clash.Some? {
        return Response(400, Message("This email is already taken."));
      }
      forall j | 0 <= j < |users| && j != i
        ensures users[j].email != saved.email
      {
        assert users[j].id != saved.id by {
          assert saved.id == users[i].id;
          IdsDiffer(users, i, j);
        }
      }
      ghost var before := users;
      users := users[i := saved];
      forall a, b | 0 <= a < b < |users|
        ensures Apart(users[a], users[b])
      {
        assert Apart(before[a], before[b]);
      }
      resp := Response(200, Message("Profile updated successfully!"));
    }
  }

  /** Registering a fresh email and then logging in with the same credentials succeeds, and
      the token is signed over the new account's identifier and the role "customer",
      provided the hash comparison accepts what the hash produced. */
  method RegisterThenLogin(server: Server, req: RegisterRequest) returns (login: Response)
    requires server.Valid()
    requires forall p :: server.compare(p, server.hash(p))
    requires UserWithEmail(server.users, req.email).None?
    requires server.schemaError(NewAccount(server.nextId, req)).None?
    requires req.email != "" && req.password != ""
    modifies server
    ensures login.status == 200
    ensures login.body == Session(server.sign(Gate.Claims(old(server.nextId), "customer")), "customer", req.name)
  {
    var id := server.nextId;
    var registered := server.Register(req);
    var n := |server.users|;
    assert server.users[n - 1] == NewAccount(id, req).(password := server.hash(req.password));
    login := server.Login(req.email, req.password);
    forall i | 0 <= i < n && server.users[i].email == req.email
      ensures i == n - 1
    {
      EmailsDiffer(server.users, i, n - 1);
    }
  }

  /** Registering an email that is already taken leaves the account store as it was. */
  method RegisterTwice(server: Server, req: RegisterRequest) returns (first: Response, second: Response)
    requires server.Valid()
    modifies server
    ensures first.status == 200 ==> second == Response(400, Message("Email already registered"))
    ensures |server.users| == |old(server.users)| + (if first.status == 200 then 1 else 0)
  {
    first := server.Register(req);
    if first.status == 200 {
      assert server.users[|server.users| - 1].email == req.email;
    }
    second := server.Register(req);
  }
}
