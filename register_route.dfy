/** The `POST /api/register` handler over an in-memory user collection. */
module RegisterRoute {
  import opened Common

  /** A user document: the request body's six fields. In the stored document
      `password` holds the hash. `contact` and `profilePicture` may be absent. */
  datatype Account = Account(
    firstName: string,
    lastName: string,
    email: string,
    password: string,
    contact: Option<string>,
    profilePicture: Option<string>)

  /** Where a database or hashing call throws: connecting or `findOne`, or
      `bcrypt.hash` or `insertOne`. */
  datatype Fault = NoFault | LookupThrows | StoreThrows

  /** The JSON reply: its HTTP status, its `success` flag and its `message`. */
  datatype Reply = Reply(status: int, success: bool, message: Option<string>)

  const PictureRejected := Reply(400, false, Some("Invalid profile picture format."))
  const EmailTaken := Reply(409, false, Some("Email already registered."))
  /** `NextResponse.json` with no options: status 200. */
  const Registered := Reply(200, true, None)
  /** The `catch` branch: also status 200, carrying `error` rather than `message`. */
  const Crashed := Reply(200, false, None)

  /** The picture check: an absent or empty picture passes, anything else must
      start with `data:image`. */
  predicate PictureAccepted(picture: Option<string>)
  {
    picture == None || picture.value == "" || "data:image" <= picture.value
  }

  /** The document `insertOne` stores: the request's fields with the password
      replaced by its hash. */
  function Stored(body: Account, hash: string -> string): (doc: Account)
    ensures doc.password == hash(body.password)
    ensures doc.(password := body.password) == body
  {
    body.(password := hash(body.password))
  }

  /** The collection `myCollectionMyDBClass`, keyed by email: `findOne({ email })`
      is a key lookup. */
  class UserCollection {
    var users: map<string, Account>

    /** Each document is filed under its own email, so no two share an email. */
    ghost predicate Valid()
      reads this
    {
      forall e :: e in users ==> users[e].email == e
    }

    constructor ()
      ensures Valid() && users == map[]
    {
      users := map[];
    }

    /** `POST`. `body` is the parsed request body (`None` when `req.json()`
        throws); `hash` stands for `bcrypt.hash(_, 10)`; `fault` says which
        database or hashing call, if any, throws. */
    method Post(body: Option<Account>, hash: string -> string, fault: Fault) returns (reply: Reply)
      requires Valid()
      modifies this
      ensures Valid()
      ensures body == None ==> reply == Crashed && users == old(users)
      ensures body != None && !PictureAccepted(body.value.profilePicture) ==>
        reply == PictureRejected && users == old(users)
      ensures body != None && PictureAccepted(body.value.profilePicture) && fault == LookupThrows ==>
        reply == Crashed && users == old(users)
      ensures body != None && PictureAccepted(body.value.profilePicture) && fault != LookupThrows &&
              body.value.email in old(users) ==>
        reply == EmailTaken && users == old(users)
      ensures body != None && PictureAccepted(body.value.profilePicture) && fault == StoreThrows &&
              body.value.email !in old(users) ==>
        reply == Crashed && users == old(users)
      ensures body != None && PictureAccepted(body.value.profilePicture) && fault == NoFault &&
              body.value.email !in old(users) ==>
        reply == Registered && users == old(users)[body.value.email := Stored(body.value, hash)]
      ensures reply.success <==> users != old(users)
      ensures reply.success ==> users.Keys == old(users).Keys + {body.value.email} &&
                                |users| == |old(users)| + 1
    {
      if body == None {
        return Crashed;
      }
      var candidate := body.value;

      if !PictureAccepted(candidate.profilePicture) {
        return PictureRejected;
      }

      if fault == LookupThrows {
        return Crashed;
      }
      var existing := candidate.email in users;
      if existing {
        return EmailTaken;
      }

      if fault == StoreThrows {
        return Crashed;
      }
      var doc := Stored(candidate, hash);
      users := users[candidate.email := doc];
      return Registered;
    }
  }

  /** Registering the same email twice: the first call stores one document, the
      second is refused with 409 and leaves exactly that document in place. */
  method RegisterTwice(c: UserCollection, a: Account, hash: string -> string)
    returns (first: Reply, second: Reply)
    requires c.Valid() && a.email !in c.users && PictureAccepted(a.profilePicture)
    modifies c
    ensures c.Valid()
    ensures first == Registered && second == EmailTaken
    ensures c.users == old(c.users)[a.email := Stored(a, hash)]
  {
    first := c.Post(Some(a), hash, NoFault);
    second := c.Post(Some(a), hash, NoFault);
  }

  /** A bad picture is reported before the email is looked up: 400 even when
      the email is already taken. */
  method BadPictureBeforeDuplicate(c: UserCollection, a: Account, hash: string -> string)
    returns (reply: Reply)
    requires c.Valid() && a.email in c.users && !PictureAccepted(a.profilePicture)
    modifies c
    ensures reply.status == 400 && c.users == old(c.users)
  {
    reply := c.Post(Some(a), hash, NoFault);
  }
}
