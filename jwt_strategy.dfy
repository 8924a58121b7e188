/** `JwtStrategy.validate`: what a verified token's payload must satisfy for the request to go on. */
module JwtStrategy {
  import opened Outcomes
  import opened Tables
  import opened AuthServices

  const UserNotFound := "Foydalanuvchi topilmadi"
  const UserInactive := "Foydalanuvchi faol emas"

  /** The identity attached to the request. */
  datatype Principal = Principal(id: Id, role: string)

  /** The seller must exist and be active (checked in that order); the role is the token's, not the row's. */
  function Validate(sellers: map<Id, Seller>, payload: Payload): (r: Result<Principal>)
    ensures payload.id !in sellers ==> r == Unauthorized(UserNotFound)
    ensures payload.id in sellers && sellers[payload.id].isActive != Active ==> r == Unauthorized(UserInactive)
    ensures r.Ok? <==> payload.id in sellers && sellers[payload.id].isActive == Active
    ensures r.Ok? ==> r.value == Principal(payload.id, payload.role)
    ensures r.Ok? || r.Unauthorized?
  {
    if payload.id !in sellers then Unauthorized(UserNotFound)
    else if sellers[payload.id].isActive != Active then Unauthorized(UserInactive)
    else Ok(Principal(payload.id, payload.role))
  }

  /** A newly registered seller's token is accepted: registration stores sellers as active, and login puts
      their id and the seller role in the token. */
  lemma RegisteredSellerAccepted(sellers: map<Id, Seller>, id: Id, dto: RegisterInput, hashed: string)
    ensures Validate(sellers[id := NewSeller(dto, hashed)], Payload(id, SellerRole))
         == Ok(Principal(id, SellerRole))
  {
  }

  /** `login` does not look at `isActive`: an inactive seller with the right password gets a token, and every
      request made with it is then refused. */
  lemma InactiveSellerLogsInButIsRefused(sellers: map<Id, Seller>, id: Id, password: string,
                                         crypto: Crypto, accessKey: string)
    requires id in sellers && sellers[id].isActive != Active
    requires crypto.compare(password, sellers[id].password) == Some(true)
    requires crypto.sign(Payload(id, SellerRole), TokenOptions(accessKey)).Some?
    ensures LoginDecision(Some((id, sellers[id])), password, crypto, accessKey).Ok?
    ensures Validate(sellers, Payload(id, SellerRole)) == Unauthorized(UserInactive)
  {
  }
}
