/** The request gate of the API: `protect` takes the bearer token out of the
    `Authorization` header and verifies it, `adminOnly` lets only the `admin` role through.
    The client side of the same contract is the request interceptor that writes the header.
    Token verification (a signed-token library) is an oracle `verify`. */
module Gate {
  import opened Js

  /** The claims a signed token carries: the account identifier and its role. */
  datatype Claims = Claims(id: nat, role: string)

  /** What the gate decides: the request goes on with the caller's claims, or it is
      answered right away with a status and a message. */
  datatype Verdict = Admitted(claims: Claims) | Rejected(status: nat, message: string)

  /** `s.split(" ")`: the pieces between single spaces; two adjacent spaces give an empty piece. */
  function Split(s: string): (parts: seq<string>)
    ensures |parts| >= 1
  {
    if s == [] then [""]
    else if s[0] == ' ' then [""] + Split(s[1..])
    else
      var rest := Split(s[1..]);
      [[s[0]] + rest[0]] + rest[1..]
  }

  /** A string with no space is a single piece. */
  lemma {:induction false} SplitWord(w: string)
    requires ' ' !in w
    ensures Split(w) == [w]
  {
    if w != [] {
      SplitWord(w[1..]);
      assert [w[0]] + w[1..] == w;
    }
  }

  /** A word followed by a space splits off as the first piece. */
  lemma {:induction false} SplitAfterWord(w: string, t: string)
    requires ' ' !in w
    ensures Split(w + " " + t) == [w] + Split(t)
  {
    if w == [] {
      assert w + " " + t == [' '] + t;
    } else {
      assert (w + " " + t)[1..] == w[1..] + " " + t;
      SplitAfterWord(w[1..], t);
      assert [w[0]] + w[1..] == w;
    }
  }

  /** `req.headers.authorization?.split(" ")[1]`: the second piece of the header, if the
      header is present and has one. */
  function HeaderToken(header: Option<string>): Option<string>
  {
    match header
    case None => None
    case Some(h) =>
      var parts := Split(h);
      if |parts| >= 2 then Some(parts[1]) else None
  }

  /** `protect`: a missing or empty token is refused with 401 "No token", a token the
      verifier rejects with 401 "Invalid token"; otherwise the request identity is exactly
      the decoded claims. */
  function Protect(header: Option<string>, verify: string -> Option<Claims>): (v: Verdict)
    ensures OptOrElse(HeaderToken(header), "") == "" ==> v == Rejected(401, "No token")
    ensures OptOrElse(HeaderToken(header), "") != "" ==>
      var token := HeaderToken(header).value;
      (verify(token).None? ==> v == Rejected(401, "Invalid token")) &&
      (verify(token).Some? ==> v == Admitted(verify(token).value))
  {
    match HeaderToken(header)
    case None => Rejected(401, "No token")
    case Some(token) =>
      if token == "" then Rejected(401, "No token")
      else
        match verify(token)
        case None => Rejected(401, "Invalid token")
        case Some(claims) => Admitted(claims)
  }

  /** `adminOnly`: anything but the exact role "admin" is refused with 403. */
  function AdminOnly(claims: Claims): (v: Verdict)
    ensures v.Admitted? <==> claims.role == "admin"
    ensures v.Admitted? ==> v.claims == claims
    ensures v.Rejected? ==> v == Rejected(403, "Admin only")
  {
    if claims.role != "admin" then Rejected(403, "Admin only") else Admitted(claims)
  }

  /** `protect` followed by `adminOnly`, the chain in front of every admin route. */
  function AdminGate(header: Option<string>, verify: string -> Option<Claims>): Verdict
  {
    match Protect(header, verify)
    case Rejected(status, message) => Rejected(status, message)
    case Admitted(claims) => AdminOnly(claims)
  }

  /** The admin chain admits exactly the verified callers whose role is "admin"; a verified
      customer gets 403 and the route's handler never runs. */
  lemma AdminGateAdmitsOnlyAdmins(header: Option<string>, verify: string -> Option<Claims>)
    ensures AdminGate(header, verify).Admitted? <==>
      Protect(header, verify).Admitted? && Protect(header, verify).claims.role == "admin"
    ensures Protect(header, verify).Admitted? && Protect(header, verify).claims.role != "admin" ==>
      AdminGate(header, verify) == Rejected(403, "Admin only")
    ensures AdminGate(header, verify).Admitted? ==> AdminGate(header, verify) == Protect(header, verify)
  {
  }

  /** The request interceptor of the client: with a stored token the header is
      `Bearer ${token}`; with none (or an empty one) no header is sent. */
  function BearerHeader(token: Option<string>): Option<string>
  {
    if token.Some? && token.value != "" then Some("Bearer " + token.value) else None
  }

  /** Round trip between client and server: a non-empty token with no space, sent by the
      interceptor, is exactly the token `protect` extracts. */
  lemma BearerRoundTrip(token: string)
    requires token != "" && ' ' !in token
    ensures HeaderToken(BearerHeader(Some(token))) == Some(token)
  {
    SplitAfterWord("Bearer", token);
    SplitWord(token);
    assert "Bearer " + token == "Bearer" + " " + token;
  }

  /** Hence such a request is decided by the verifier alone. */
  lemma BearerRequestVerified(token: string, verify: string -> Option<Claims>)
    requires token != "" && ' ' !in token
    ensures verify(token).None? ==> Protect(BearerHeader(Some(token)), verify) == Rejected(401, "Invalid token")
    ensures verify(token).Some? ==> Protect(BearerHeader(Some(token)), verify) == Admitted(verify(token).value)
  {
    BearerRoundTrip(token);
  }

  /** A client without a stored token is refused before any verification. */
  lemma NoStoredTokenRefused(verify: string -> Option<Claims>)
    ensures Protect(BearerHeader(None), verify) == Rejected(401, "No token")
    ensures Protect(BearerHeader(Some("")), verify) == Rejected(401, "No token")
  {
  }

  /** A header with no space in it has no second piece, so it counts as no token at all. */
  lemma {:induction false} HeaderWithoutSecondPart(h: string, verify: string -> Option<Claims>)
    requires ' ' !in h
    ensures HeaderToken(Some(h)) == None
    ensures Protect(Some(h), verify) == Rejected(401, "No token")
  {
    SplitWord(h);
  }
}
