/** `AuthService`: seller registration and login. */
module AuthServices {
  import opened Outcomes
  import opened Tables

  const PhoneInUse := "Bu telefon raqamdan allaqachon foydalanilgan"
  const HashFailed := "Ro'yxatdan o'tishda xatolik!"
  const StoreFailed := "Sotuvchini ro'yxatdan o'tkazishda nimadir xato ketdi!"
  const Registered := "Tabriklaymiz, sotuvchi muvaffaqiyatli ro'yxatdan o'tkazildi!"
  const BadCredentials := "Telefon raqam yoki parol noto'g'ri!"
  const LoginFailed := "Nimadir xato ketdi, keyinroq qayta urinib ko'ring"

  const SaltRounds := 10
  const SellerRole := "seller"
  const TokenLifetime := "10h"

  /** The claims a token carries. */
  datatype Payload = Payload(id: Id, role: string)

  datatype SignOptions = SignOptions(secret: string, expiresIn: string)

  /** The libraries the service calls, as functions whose results it cannot see into: bcrypt's `hash` and
      `compare`, and the JWT service's `sign`. `None` is a call that throws. */
  datatype Crypto = Crypto(
    hash: (string, nat) -> Option<string>,
    compare: (string, string) -> Option<bool>,
    sign: (Payload, SignOptions) -> Option<string>)

  /** What bcrypt guarantees: a password matches every hash made from it. */
  ghost predicate HashMatches(crypto: Crypto) {
    forall p: string, h: string {:trigger crypto.compare(p, h)} ::
      crypto.hash(p, SaltRounds) == Some(h) ==> crypto.compare(p, h) == Some(true)
  }

  datatype AccessToken = AccessToken(accessToken: string)

  /** `RegisterSellerDto`: phone, password and the other fields, which are stored as given. */
  datatype RegisterInput = RegisterInput(phone: string, password: string, profile: Profile)

  /** The new row of a successful registration. */
  function NewSeller(dto: RegisterInput, hashed: string): Seller {
    Seller(dto.phone, hashed, dto.profile, Active)
  }

  /** The options `genAccessToken` signs with: the service's key and a ten-hour lifetime. */
  function TokenOptions(accessKey: string): SignOptions {
    SignOptions(accessKey, TokenLifetime)
  }

  /** What `login` decides once the seller with that phone has been looked up (`None`: nobody has it).
      An unknown phone and a wrong password are the same rejection; a library call that throws becomes
      the generic server error, while the rejection passes through the `catch` unchanged. */
  function LoginDecision(user: Option<(Id, Seller)>, password: string, crypto: Crypto, accessKey: string)
    : (r: Result<AccessToken>)
    ensures user.None? ==> r == Unauthorized(BadCredentials)
    ensures user.Some? && crypto.compare(password, user.value.1.password) == Some(false) ==>
              r == Unauthorized(BadCredentials)
    ensures r.Unauthorized? ==> r == Unauthorized(BadCredentials)
    ensures r.Ok? <==>
              && user.Some? && crypto.compare(password, user.value.1.password) == Some(true)
              && crypto.sign(Payload(user.value.0, SellerRole), TokenOptions(accessKey)).Some?
    ensures r.Ok? ==> r.value.accessToken == crypto.sign(Payload(user.value.0, SellerRole), TokenOptions(accessKey)).value
    ensures user.Some? && crypto.compare(password, user.value.1.password).None? ==> r == InternalError(LoginFailed)
    ensures (user.Some? && crypto.compare(password, user.value.1.password) == Some(true)
             && crypto.sign(Payload(user.value.0, SellerRole), TokenOptions(accessKey)).None?) ==>
              r == InternalError(LoginFailed)
    ensures r.InternalError? ==> r == InternalError(LoginFailed)
    ensures r.Ok? || r.Unauthorized? || r.InternalError?
  {
    match user
    case None => Unauthorized(BadCredentials)
    case Some((id, seller)) =>
      match crypto.compare(password, seller.password)
      case None => InternalError(LoginFailed)
      case Some(false) => Unauthorized(BadCredentials)
      case Some(true) =>
        match crypto.sign(Payload(id, SellerRole), TokenOptions(accessKey))
        case None => InternalError(LoginFailed)
        case Some(token) => Ok(AccessToken(token))
  }

  /** Adding a seller whose phone nobody has keeps phones unique. */
  lemma InsertKeepsPhonesUnique(sellers: map<Id, Seller>, id: Id, seller: Seller)
    requires PhonesUnique(sellers) && !PhoneTaken(sellers, seller.phone) && id !in sellers
    ensures PhonesUnique(sellers[id := seller])
  {
    var after := sellers[id := seller];
    forall a, b | a in after && b in after && after[a].phone == after[b].phone
      ensures a == b
    {
      if a != id && b != id {
        assert sellers[a].phone == sellers[b].phone;
      }
    }
  }

  /** Registering a seller with an unused phone keeps every table constraint. */
  lemma InsertKeepsConsistent(sellers: map<Id, Seller>, categories: map<Id, Category>,
                              products: map<Id, Product>, orderItems: map<Id, OrderItem>,
                              id: Id, seller: Seller)
    requires Consistent(sellers, categories, products, orderItems)
    requires !PhoneTaken(sellers, seller.phone) && id !in sellers
    ensures Consistent(sellers[id := seller], categories, products, orderItems)
  {
    InsertKeepsPhonesUnique(sellers, id, seller);
  }

  /** A seller who has just registered can log in with the same phone and password: after registration
      theirs is the only row with that phone, and the stored hash matches the password. */
  lemma RegisterThenLogin(sellers: map<Id, Seller>, id: Id, dto: RegisterInput, hashed: string,
                          crypto: Crypto, accessKey: string, token: string)
    requires PhonesUnique(sellers) && !PhoneTaken(sellers, dto.phone) && id !in sellers
    requires HashMatches(crypto) && crypto.hash(dto.password, SaltRounds) == Some(hashed)
    requires crypto.sign(Payload(id, SellerRole), TokenOptions(accessKey)) == Some(token)
    ensures var after := sellers[id := NewSeller(dto, hashed)];
            && PhonesUnique(after)
            && (forall other :: other in after && after[other].phone == dto.phone ==> other == id)
            && LoginDecision(Some((id, after[id])), dto.password, crypto, accessKey) == Ok(AccessToken(token))
  {
    InsertKeepsPhonesUnique(sellers, id, NewSeller(dto, hashed));
    assert crypto.compare(dto.password, hashed) == Some(true);
  }

  class AuthService {
    const db: Database
    const crypto: Crypto
    const accessKey: string

    /** The service cannot be built without an access key. */
    constructor (db: Database, crypto: Crypto, accessKey: string)
      requires accessKey != ""
      ensures this.db == db && this.crypto == crypto && this.accessKey == accessKey
    {
      this.db, this.crypto, this.accessKey := db, crypto, accessKey;
    }

    /** `register`: a phone already in use is a conflict; a failing hash or a failing insert is a server
        error; in all three cases nothing is stored. Otherwise one active seller is added whose password
        is the hash of the one given. `storeFails` is the database refusing the insert. */
    method Register(dto: RegisterInput, storeFails: bool) returns (r: Result<string>)
      modifies db`sellers
      ensures PhoneTaken(old(db.sellers), dto.phone) ==>
                r == Conflict(PhoneInUse) && db.sellers == old(db.sellers)
      ensures !PhoneTaken(old(db.sellers), dto.phone) && crypto.hash(dto.password, SaltRounds).None? ==>
                r == InternalError(HashFailed) && db.sellers == old(db.sellers)
      ensures (!PhoneTaken(old(db.sellers), dto.phone) && crypto.hash(dto.password, SaltRounds).Some?
               && storeFails) ==> r == InternalError(StoreFailed) && db.sellers == old(db.sellers)
      ensures (!PhoneTaken(old(db.sellers), dto.phone) && crypto.hash(dto.password, SaltRounds).Some?
               && !storeFails) ==>
                && r == Ok(Registered)
                && exists id :: id !in old(db.sellers)
                    && db.sellers == old(db.sellers)[id := NewSeller(dto, crypto.hash(dto.password, SaltRounds).value)]
      ensures old(db.Valid()) ==> db.Valid()
    {
      if PhoneTaken(db.sellers, dto.phone) {
        return Conflict(PhoneInUse);
      }
      var hashed := crypto.hash(dto.password, SaltRounds);
      if hashed.None? {
        return InternalError(HashFailed);
      }
      if storeFails {
        return InternalError(StoreFailed);
      }
      ghost var before := db.sellers;
      var id := db.InsertSeller(NewSeller(dto, hashed.value));
      if old(db.Valid()) {
        InsertKeepsConsistent(before, db.categories, db.products, db.orderItems, id, NewSeller(dto, hashed.value));
      }
      r := Ok(Registered);
    }

    /** `login`: looks up a seller with that phone (the first one found) and decides as `LoginDecision`;
        it never writes. */
    method Login(phone: string, password: string) returns (r: Result<AccessToken>)
      ensures !PhoneTaken(db.sellers, phone) ==> r == LoginDecision(None, password, crypto, accessKey)
      ensures PhoneTaken(db.sellers, phone) ==>
                exists id :: id in db.sellers && db.sellers[id].phone == phone
                  && r == LoginDecision(Some((id, db.sellers[id])), password, crypto, accessKey)
      ensures PhonesUnique(db.sellers) ==>
                forall id :: id in db.sellers && db.sellers[id].phone == phone ==>
                  r == LoginDecision(Some((id, db.sellers[id])), password, crypto, accessKey)
    {
      var user: Option<(Id, Seller)> := None;
      if PhoneTaken(db.sellers, phone) {
        var id :| id in db.sellers && db.sellers[id].phone == phone;
        user := Some((id, db.sellers[id]));
      }
      r := LoginDecision(user, password, crypto, accessKey);
    }
  }
}
