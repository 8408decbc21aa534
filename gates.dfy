/**
 The authorization gates and the chain that runs them. A gate reads the request
 and the users table and either passes the request on or answers it: 401
 "Unauthorized access" from the token gate, 403 "Forbidden" from the seller gate.
 Token verification (signature and expiry) is an oracle from a token to the
 claims it carries, or to nothing when verification fails.
 */
module Gates {
  import opened Wrappers
  import opened Documents
  import opened Queries
  import opened Header

  /** The claims of a verified token; `email` is absent when the token carried none. */
  datatype Claims = Claims(email: Option<string>)

  /** The parts of a request the gates read: the `Authorization` header and the `email` query value. */
  datatype Caller = Caller(authorization: Option<string>, email: Option<string>)

  datatype Decision = Pass | Unauthorized | Forbidden
  {
    /** The HTTP status a refusal is answered with. */
    function Status(): (status: nat)
      requires !Pass?
      ensures status == 401 <==> Unauthorized?
      ensures status == 403 <==> Forbidden?
    {
      if Unauthorized? then 401 else 403
    }

    /** The plain-text body a refusal is answered with. */
    function Message(): (message: string)
      requires !Pass?
      ensures message == "Unauthorized access" <==> Unauthorized?
      ensures message == "Forbidden" <==> Forbidden?
    {
      if Unauthorized? then "Unauthorized access" else "Forbidden"
    }
  }

  /**
   `verifyToken`: passes exactly when the header carries a token, the token
   verifies, and its claimed email is the query email; every failure is the
   same 401.
   */
  function TokenGate(caller: Caller, verify: string -> Option<Claims>): (d: Decision)
    ensures d == Pass || d == Unauthorized
    ensures d == Pass <==> BearerToken(caller.authorization).Some?
                           && verify(BearerToken(caller.authorization).value) == Some(Claims(caller.email))
  {
    match BearerToken(caller.authorization)
    case None => Unauthorized
    case Some(token) =>
      match verify(token)
      case None => Unauthorized
      case Some(claims) => if claims.email != caller.email then Unauthorized else Pass
  }

  /**
   `verifySellerAccount`: passes exactly when the first user stored under the
   query email has account type "seller". A query email with no user is
   refused with 403 like any other non-seller.
   */
  function SellerGate(users: seq<User>, email: Option<string>): (d: Decision)
    ensures d == Pass || d == Forbidden
    ensures d == Pass <==> exists i :: 0 <= i < |users| && Some(users[i].email) == email
                                       && users[i].accountType == SellerAccountType
                                       && forall j :: 0 <= j < i ==> Some(users[j].email) != email
    ensures (forall u :: u in users ==> Some(u.email) != email) ==> d == Forbidden
  {
    if email.None? then Forbidden
    else
      match FindUser(users, email.value)
      case None => Forbidden
      case Some(seller) => if seller.accountType != SellerAccountType then Forbidden else Pass
  }

  /**
   `verifySellerAccount` as the source has it: reading `account_type` of the
   `null` that `findOne` returns for an unknown email throws, and the request is
   never answered (`None`). On a known email it decides as `SellerGate` does.
   */
  function SellerGateAsWritten(users: seq<User>, email: Option<string>): (r: Option<Decision>)
    ensures r.None? <==> forall u :: u in users ==> Some(u.email) != email
    ensures r.Some? ==> r.value == SellerGate(users, email)
  {
    if email.None? then None
    else
      match FindUser(users, email.value)
      case None => None
      case Some(seller) => Some(if seller.accountType != SellerAccountType then Forbidden else Pass)
  }

  /** An email with no user record: the source's gate throws where the corrected one answers 403. */
  lemma UnknownSellerThrowsAsWritten()
    ensures SellerGateAsWritten([], Some("bob@x.com")) == None
    ensures SellerGate([], Some("bob@x.com")) == Forbidden
  {
  }

  /** While emails are unique, the seller gate passes exactly for a stored seller. */
  lemma SellerGateOnUniqueEmails(users: seq<User>, email: string)
    requires UniqueEmails(users)
    ensures SellerGate(users, Some(email)) == Pass
        <==> exists u :: u in users && u.email == email && u.accountType == SellerAccountType
  {
  }

  /** The three ways to fail the token gate cannot be told apart by the response. */
  lemma TokenFailuresLookAlike(missing: Caller, invalid: Caller, mismatched: Caller,
                                verify: string -> Option<Claims>)
    requires BearerToken(missing.authorization).None?
    requires BearerToken(invalid.authorization).Some?
    requires verify(BearerToken(invalid.authorization).value).None?
    requires BearerToken(mismatched.authorization).Some?
    requires verify(BearerToken(mismatched.authorization).value).Some?
    requires verify(BearerToken(mismatched.authorization).value).value.email != mismatched.email
    ensures TokenGate(missing, verify) == TokenGate(invalid, verify) == TokenGate(mismatched, verify)
    ensures TokenGate(missing, verify).Status() == 401
    ensures TokenGate(missing, verify).Message() == "Unauthorized access"
  {
  }

  /** A token issued for one email never admits a request about another email. */
  lemma TokenBoundToEmail(caller: Caller, verify: string -> Option<Claims>, holder: string)
    requires BearerToken(caller.authorization).Some?
    requires verify(BearerToken(caller.authorization).value) == Some(Claims(Some(holder)))
    ensures TokenGate(caller, verify) == Pass <==> caller.email == Some(holder)
  {
  }

  datatype Gate = Authenticated | SellerAccount

  /** One gate's decision: the token gate can only refuse with 401, the seller gate only with 403. */
  function Check(gate: Gate, caller: Caller, users: seq<User>, verify: string -> Option<Claims>): (d: Decision)
    ensures d != Pass ==> (d == Unauthorized <==> gate == Authenticated)
    ensures gate == SellerAccount ==>
              (d == Pass <==> exists u :: u in users && Some(u.email) == caller.email
                                          && u.accountType == SellerAccountType
                                          && FindUser(users, u.email) == Some(u))
  {
    match gate
    case Authenticated => TokenGate(caller, verify)
    case SellerAccount => SellerGate(users, caller.email)
  }

  /** The chain's decision and the gates that ran, in order. */
  datatype ChainResult = ChainResult(decision: Decision, ran: seq<Gate>)

  /**
   Running the gates in order, as Express calls `next()`: the first gate that
   refuses answers the request, and no gate after it runs.
   */
  function RunChain(gates: seq<Gate>, caller: Caller, users: seq<User>,
                    verify: string -> Option<Claims>): (r: ChainResult)
    ensures |r.ran| <= |gates| && r.ran == gates[..|r.ran|]
    ensures forall i :: 0 <= i < |r.ran| - 1 ==> Check(r.ran[i], caller, users, verify) == Pass
    ensures r.decision == Pass <==>
              r.ran == gates && forall i :: 0 <= i < |gates| ==> Check(gates[i], caller, users, verify) == Pass
    ensures r.decision != Pass ==>
              r.ran != [] && r.decision == Check(r.ran[|r.ran| - 1], caller, users, verify)
  {
    if gates == [] then ChainResult(Pass, [])
    else
      var d := Check(gates[0], caller, users, verify);
      if d != Pass then ChainResult(d, [gates[0]])
      else
        var rest := RunChain(gates[1..], caller, users, verify);
        ChainResult(rest.decision, [gates[0]] + rest.ran)
  }

  /**
   The product routes' chain: a token failure answers 401 before any role
   lookup; otherwise the seller gate decides.
   */
  lemma AuthenticateBeforeRole(caller: Caller, users: seq<User>, verify: string -> Option<Claims>)
    ensures TokenGate(caller, verify) != Pass ==>
              RunChain([Authenticated, SellerAccount], caller, users, verify)
              == ChainResult(Unauthorized, [Authenticated])
    ensures TokenGate(caller, verify) == Pass ==>
              RunChain([Authenticated, SellerAccount], caller, users, verify)
              == ChainResult(SellerGate(users, caller.email), [Authenticated, SellerAccount])
  {
  }
}
