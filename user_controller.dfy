/** The user directory: registration, login, public lookup and self-edit over
    a map of users. Password hashing (bcrypt) is the function `hash` the
    directory is configured with; `Compare` is bcrypt's check of a plain
    password against a stored digest. */
module UserController {
  import opened Common

  /** A stored user document; `password` holds the digest, never the plain text. */
  datatype User = User(
    id: Id,
    name: string,
    email: string,
    phone: string,
    password: string,
    image: Option<string>)

  /** A user as it is sent to clients: the password is removed. */
  datatype PublicUser = PublicUser(
    id: Id,
    name: string,
    email: string,
    phone: string,
    image: Option<string>)

  /** The body of a registration or an edit request. */
  datatype UserBody = UserBody(
    name: Option<string>,
    email: Option<string>,
    phone: Option<string>,
    password: Option<string>,
    confirmpassword: Option<string>)

  /** What a handler answers. `Token(u)` stands for the token issued for user
      `u`; `Anonymous` is the `null` sent when the authorization header is
      missing or empty; `Fault` is a query or a property access that throws, so that
      no answer is sent and nothing is stored. */
  datatype Reply =
    | Token(userId: Id)
    | Profile(user: PublicUser)
    | Anonymous
    | Updated
    | Rejected(reason: Reason)
    | Fault

  function Redact(u: User): PublicUser
  {
    PublicUser(u.id, u.name, u.email, u.phone, u.image)
  }

  /** `User.findOne({ email })` finds a user: some stored user has exactly this email. */
  predicate EmailHeld(users: map<Id, User>, email: string)
  {
    exists id :: id in users && users[id].email == email
  }

  /** bcrypt's `compare(plain, digest)`. */
  predicate Compare(hash: string -> string, plain: string, digest: string)
  {
    hash(plain) == digest
  }

  /** No two users share an email. */
  ghost predicate EmailsUnique(users: map<Id, User>)
  {
    forall a, b :: a in users && b in users && users[a].email == users[b].email ==> a == b
  }

  /** What registration and every accepted edit guarantee of a stored user. */
  ghost predicate UserRegistered(u: User)
  {
    u.name != "" && u.email != "" && u.phone != ""
  }

  class UserDirectory {
    var users: map<Id, User>
    /** `ObjectId.isValid`. */
    const isValid: Id -> bool
    /** bcrypt's salted hash, seen as a function of the plain password. */
    const hash: string -> string

    ghost predicate Valid()
      reads this
    {
      && EmailsUnique(users)
      && forall id :: id in users ==> users[id].id == id && isValid(id) && UserRegistered(users[id])
    }

    constructor (isValid: Id -> bool, hash: string -> string)
      ensures Valid() && users == map[]
      ensures this.isValid == isValid && this.hash == hash
    {
      users := map[];
      this.isValid := isValid;
      this.hash := hash;
    }

    /** `register`: five required fields in order, then password equals
        confirmation, then the email must be free; on success one user is
        added, holding the hash of the password, and a token is issued. */
    method Register(body: UserBody, freshId: Id) returns (r: Reply)
      requires Valid()
      requires isValid(freshId) && freshId !in users
      modifies this
      ensures Valid()
      ensures !Truthy(body.name) ==> r == Rejected(NameRequired)
      ensures Truthy(body.name) && !Truthy(body.email) ==> r == Rejected(EmailRequired)
      ensures Truthy(body.name) && Truthy(body.email) && !Truthy(body.phone) ==> r == Rejected(PhoneRequired)
      ensures Truthy(body.name) && Truthy(body.email) && Truthy(body.phone) && !Truthy(body.password)
              ==> r == Rejected(PasswordRequired)
      ensures Truthy(body.name) && Truthy(body.email) && Truthy(body.phone) && Truthy(body.password)
              && !Truthy(body.confirmpassword)
              ==> r == Rejected(ConfirmationRequired)
      ensures Truthy(body.name) && Truthy(body.email) && Truthy(body.phone) && Truthy(body.password)
              && Truthy(body.confirmpassword) && body.password != body.confirmpassword
              ==> r == Rejected(PasswordsDiffer)
      ensures Truthy(body.name) && Truthy(body.email) && Truthy(body.phone) && Truthy(body.password)
              && body.password == body.confirmpassword && EmailHeld(old(users), body.email.value)
              ==> r == Rejected(EmailInUse)
      ensures Truthy(body.name) && Truthy(body.email) && Truthy(body.phone) && Truthy(body.password)
              && body.password == body.confirmpassword && !EmailHeld(old(users), body.email.value)
              ==> && r == Token(freshId)
                  && users == old(users)[freshId := User(freshId, body.name.value, body.email.value,
                                                        body.phone.value, hash(body.password.value), None)]
      ensures r.Rejected? || r.Token?
      ensures r.Rejected? ==> users == old(users)
    {
      if !Truthy(body.name) { return Rejected(NameRequired); }
      if !Truthy(body.email) { return Rejected(EmailRequired); }
      if !Truthy(body.phone) { return Rejected(PhoneRequired); }
      if !Truthy(body.password) { return Rejected(PasswordRequired); }
      if !Truthy(body.confirmpassword) { return Rejected(ConfirmationRequired); }
      if body.password != body.confirmpassword { return Rejected(PasswordsDiffer); }
      if EmailHeld(users, body.email.value) { return Rejected(EmailInUse); }
      var passwordHash := hash(body.password.value);
      var user := User(freshId, body.name.value, body.email.value, body.phone.value, passwordHash, None);
      users := users[freshId := user];
      r := Token(freshId);
    }

    /** `login`: email and password required, the email must belong to a
        user, and a token is issued exactly when the password verifies
        against that user's digest. */
    method Login(email: Option<string>, password: Option<string>) returns (r: Reply)
      requires Valid()
      ensures !Truthy(email) ==> r == Rejected(EmailRequired)
      ensures Truthy(email) && !Truthy(password) ==> r == Rejected(PasswordRequired)
      ensures Truthy(email) && Truthy(password) && !EmailHeld(users, email.value) ==> r == Rejected(NoSuchEmail)
      ensures Truthy(email) && Truthy(password) && EmailHeld(users, email.value)
              ==> r.Token? || r == Rejected(WrongPassword)
      ensures r.Token? <==>
                && Truthy(email) && Truthy(password)
                && exists id :: id in users && users[id].email == email.value
                                && Compare(hash, password.value, users[id].password)
      ensures r.Token? ==> && Truthy(email) && Truthy(password)
                           && r.userId in users && users[r.userId].email == email.value
                           && Compare(hash, password.value, users[r.userId].password)
      ensures r.Token? || r.Rejected?
    {
      if !Truthy(email) { return Rejected(EmailRequired); }
      if !Truthy(password) { return Rejected(PasswordRequired); }
      if !EmailHeld(users, email.value) { return Rejected(NoSuchEmail); }
      var id :| id in users && users[id].email == email.value;
      if !Compare(hash, password.value, users[id].password) { return Rejected(WrongPassword); }
      r := Token(id);
    }

    /** `checkUser`: a missing or empty authorization header gives `null`; otherwise the
        token is decoded (`decode` stands for reading the header and
        `jwt.verify`) and the user it names is sent without its password.
        A token that does not verify, or names no stored user, throws. */
    function CheckUser(authorization: Option<string>, decode: string -> Option<Id>): (r: Reply)
      reads this
      ensures r == Anonymous <==> !Truthy(authorization)
      ensures r.Profile? <==> Truthy(authorization) && decode(authorization.value).Some?
                              && decode(authorization.value).value in users
      ensures r.Profile? ==> r.user == Redact(users[decode(authorization.value).value])
      ensures r.Anonymous? || r.Profile? || r.Fault?
    {
      if !Truthy(authorization) then Anonymous
      else match decode(authorization.value)
        case None => Fault
        case Some(id) => if id in users then Profile(Redact(users[id])) else Fault
    }

    /** `getUserById`: the user without its password, or status 422 when the
        id names no user; an id that is not an ObjectId makes the query throw. */
    function GetUserById(id: Id): (r: Reply)
      reads this
      ensures r.Profile? <==> isValid(id) && id in users
      ensures r.Profile? ==> r.user == Redact(users[id])
      ensures r == Rejected(NoSuchUser) <==> isValid(id) && id !in users
      ensures r == Fault <==> !isValid(id)
    {
      if !isValid(id) then Fault
      else if id !in users then Rejected(NoSuchUser)
      else Profile(Redact(users[id]))
    }

    /** `editUser` for the caller the token resolves to; the path id is not
        used. The image, name, email and phone are updated one at a time;
        a missing name, email or phone, or an email already held by another
        user, answers 422 before anything is written. Otherwise the record
        is written, its password replaced by the new hash only when password
        and confirmation are equal and present; when they differ the answer
        is 422 but the other edits are written all the same. */
    method EditUser(callerId: Id, pathId: Id, body: UserBody, file: Option<UploadedFile>) returns (r: Reply)
      requires Valid()
      requires callerId in users
      modifies this
      ensures Valid()
      ensures !Truthy(body.name) ==> r == Rejected(NameRequired)
      ensures Truthy(body.name) && !Truthy(body.email) ==> r == Rejected(EmailRequired)
      ensures Truthy(body.name) && Truthy(body.email)
              && body.email.value != old(users)[callerId].email && EmailHeld(old(users), body.email.value)
              ==> r == Rejected(EmailInUse)
      ensures Truthy(body.name) && Truthy(body.email) && !EmailTakenByOther(old(users), callerId, body.email.value)
              && !Truthy(body.phone)
              ==> r == Rejected(PhoneRequired)
      ensures !EditWrites(old(users), callerId, body) ==> users == old(users)
      ensures EditWrites(old(users), callerId, body) ==>
                && r == (if body.password != body.confirmpassword then Rejected(PasswordsDiffer) else Updated)
                && users == old(users)[callerId := Edited(old(users)[callerId], body, file, hash)]
      ensures r.Rejected? || r.Updated?
    {
      var user := users[callerId];
      if file.Some? {
        user := user.(image := Some(file.value.filename));
      }
      if !Truthy(body.name) { return Rejected(NameRequired); }
      user := user.(name := body.name.value);
      if !Truthy(body.email) { return Rejected(EmailRequired); }
      var email := body.email.value;
      var userExists := EmailHeld(users, email);
      if user.email != email && userExists { return Rejected(EmailInUse); }
      user := user.(email := email);
      if !Truthy(body.phone) { return Rejected(PhoneRequired); }
      user := user.(phone := body.phone.value);
      r := Updated;
      if body.password != body.confirmpassword {
        r := Rejected(PasswordsDiffer);
      } else if body.password.Some? {
        user := user.(password := hash(body.password.value));
      }
      EditKeepsEmailsUnique(users, callerId, user);
      users := users[user.id := user];
    }
  }

  /** The edit's email check fails: the email is not the caller's own and some user holds it. */
  predicate EmailTakenByOther(users: map<Id, User>, callerId: Id, email: string)
    requires callerId in users
  {
    email != users[callerId].email && EmailHeld(users, email)
  }

  /** Every check of `editUser` before the write passes. */
  predicate EditWrites(users: map<Id, User>, callerId: Id, body: UserBody)
    requires callerId in users
  {
    && Truthy(body.name) && Truthy(body.email) && Truthy(body.phone)
    && !EmailTakenByOther(users, callerId, body.email.value)
  }

  /** The record `editUser` writes once its checks pass. */
  function Edited(u: User, body: UserBody, file: Option<UploadedFile>, hash: string -> string): User
    requires Truthy(body.name) && Truthy(body.email) && Truthy(body.phone)
  {
    User(
      u.id,
      body.name.value,
      body.email.value,
      body.phone.value,
      if body.password == body.confirmpassword && body.password.Some? then hash(body.password.value) else u.password,
      if file.Some? then Some(file.value.filename) else u.image)
  }

  /** Replacing a user's record keeps emails unique when the new email is
      the user's old one or is held by nobody. */
  lemma EditKeepsEmailsUnique(users: map<Id, User>, id: Id, u: User)
    requires EmailsUnique(users) && id in users
    requires u.email == users[id].email || !EmailHeld(users, u.email)
    ensures EmailsUnique(users[id := u])
  {
  }
}
