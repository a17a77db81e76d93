// The auth service's profile update: the stored user record is fetched, the
// requested email and names are merged into it field by field, and the
// record is saved back.  The user table is a map from ID to record.
module UserAccounts {

  import opened Common

  datatype User = User(
    id: int,
    username: string,
    email: string,
    passwordHash: string,
    firstName: string,
    lastName: string,
    isActive: bool,
    roles: seq<string>)

  /** The body of a profile update; "" means "leave as it is". */
  datatype UpdateRequest = UpdateRequest(firstName: string, lastName: string, email: string)

  /** The lookup `GetUserByID` of the store: a missing row is the error
      "user not found", and `fault` is a failure of the query itself. */
  function Lookup(users: map<int, User>, id: int, fault: Option<Error>): (r: Result<User>)
    ensures r.Ok? <==> fault.None? && id in users
    ensures r.Ok? ==> r.value == users[id]
  {
    if fault.Some? then Err(fault.value)
    else if id in users then Ok(users[id])
    else Err(Plain("user not found"))
  }

  /** Some user of the table holds `email`. */
  predicate EmailTaken(users: map<int, User>, email: string)
  {
    exists id :: id in users && users[id].email == email
  }

  /** No two users share an email. */
  predicate UniqueEmails(users: map<int, User>)
  {
    forall a, b :: a in users && b in users && users[a].email == users[b].email ==> a == b
  }

  /** The requested email replaces the current one only when it is
      non-empty and different. */
  predicate ChangesEmail(u: User, req: UpdateRequest)
  {
    req.email != "" && req.email != u.email
  }

  /** The record after the merge: each non-empty requested field overwrites
      the stored one; everything else is kept. */
  function Merge(u: User, req: UpdateRequest): (m: User)
    ensures m.email == (if ChangesEmail(u, req) then req.email else u.email)
    ensures m.firstName == (if req.firstName != "" then req.firstName else u.firstName)
    ensures m.lastName == (if req.lastName != "" then req.lastName else u.lastName)
    ensures m.id == u.id && m.username == u.username && m.passwordHash == u.passwordHash
    ensures m.isActive == u.isActive && m.roles == u.roles
  {
    u.(email := if req.email != "" then req.email else u.email,
       firstName := if req.firstName != "" then req.firstName else u.firstName,
       lastName := if req.lastName != "" then req.lastName else u.lastName)
  }

  /** What an update returns and the table afterwards. */
  datatype Update = Update(result: Result<User>, users: map<int, User>)

  /** `UpdateUser` given the faults of the three store calls.  A failing
      email lookup is ignored, as if nobody held the email. */
  function UpdateOutcome(users: map<int, User>, userID: int, req: UpdateRequest,
                         lookupFault: Option<Error>, emailLookupFails: bool, saveFault: Option<Error>): Update
  {
    match Lookup(users, userID, lookupFault)
    case Err(e) => Update(Err(Wrapped("error getting user: ", e)), users)
    case Ok(u) =>
      if ChangesEmail(u, req) && !emailLookupFails && EmailTaken(users, req.email) then
        Update(Err(Plain("email already in use")), users)
      else if saveFault.Some? then Update(Err(Wrapped("error updating user: ", saveFault.value)), users)
      else Update(Ok(Merge(u, req)), users[userID := Merge(u, req)])
  }

  /** An update changes at most the caller's own record, and that record
      only in its email and names; it stores exactly what it returns. */
  lemma UpdateTouchesOnlyTheProfile(users: map<int, User>, userID: int, req: UpdateRequest,
                                    lookupFault: Option<Error>, emailLookupFails: bool, saveFault: Option<Error>)
    ensures var o := UpdateOutcome(users, userID, req, lookupFault, emailLookupFails, saveFault);
      o.users.Keys == users.Keys &&
      (forall id :: id in users && id != userID ==> o.users[id] == users[id]) &&
      (o.result.Err? ==> o.users == users) &&
      (o.result.Ok? ==>
         userID in users && o.users[userID] == o.result.value && o.result.value == Merge(users[userID], req))
  {
  }

  /** An update fails exactly when the lookup fails, the new email is
      already taken, or the save fails. */
  lemma UpdateFailsOnlyWhen(users: map<int, User>, userID: int, req: UpdateRequest,
                            lookupFault: Option<Error>, emailLookupFails: bool, saveFault: Option<Error>)
    ensures UpdateOutcome(users, userID, req, lookupFault, emailLookupFails, saveFault).result.Err? <==>
      lookupFault.Some? || userID !in users ||
      (ChangesEmail(users[userID], req) && !emailLookupFails && EmailTaken(users, req.email)) ||
      saveFault.Some?
    ensures lookupFault.None? && userID !in users ==>
      Message(UpdateOutcome(users, userID, req, lookupFault, emailLookupFails, saveFault).result.error) ==
        "error getting user: user not found"
  {
  }

  /** When the email lookup works, an update never makes two users share
      an email. */
  lemma UpdateKeepsEmailsUnique(users: map<int, User>, userID: int, req: UpdateRequest,
                                lookupFault: Option<Error>, saveFault: Option<Error>)
    requires UniqueEmails(users)
    ensures UniqueEmails(UpdateOutcome(users, userID, req, lookupFault, false, saveFault).users)
  {
    var o := UpdateOutcome(users, userID, req, lookupFault, false, saveFault);
    if o.result.Ok? {
      var u := users[userID];
      var m := Merge(u, req);
      assert o.users == users[userID := m];
      if ChangesEmail(u, req) {
        assert !EmailTaken(users, m.email);
      } else {
        assert m.email == u.email;
      }
      assert forall other :: other in users && other != userID ==> users[other].email != m.email;
    }
  }

  /** Sending the same update twice leaves the record as the first did. */
  lemma MergeIdempotent(u: User, req: UpdateRequest)
    ensures Merge(Merge(u, req), req) == Merge(u, req)
  {
  }

  /** The accounts table of the auth service. */
  class UserService {
    var users: map<int, User>

    constructor (users: map<int, User>)
      ensures this.users == users
    {
      this.users := users;
    }

    /** `GetUserByID`: the record, or the lookup's error wrapped. */
    method GetUserByID(id: int, lookupFault: Option<Error>) returns (r: Result<User>)
      ensures r.Ok? <==> lookupFault.None? && id in users
      ensures r.Ok? ==> r.value == users[id]
      ensures r.Err? ==> r.error == Wrapped("error getting user: ", Lookup(users, id, lookupFault).error)
    {
      var found := Lookup(users, id, lookupFault);
      if found.Err? {
        return Err(Wrapped("error getting user: ", found.error));
      }
      r := Ok(found.value);
    }

    /** `UpdateUser`: fetch, check the new email, merge field by field, save. */
    method UpdateUser(userID: int, req: UpdateRequest, lookupFault: Option<Error>,
                      emailLookupFails: bool, saveFault: Option<Error>) returns (r: Result<User>)
      modifies this
      ensures Update(r, users) == UpdateOutcome(old(users), userID, req, lookupFault, emailLookupFails, saveFault)
    {
      var found := Lookup(users, userID, lookupFault);
      if found.Err? {
        return Err(Wrapped("error getting user: ", found.error));
      }
      var user := found.value;
      if req.email != "" && req.email != user.email {
        var existing := !emailLookupFails && EmailTaken(users, req.email);
        if existing {
          return Err(Plain("email already in use"));
        }
        user := user.(email := req.email);
      }
      if req.firstName != "" {
        user := user.(firstName := req.firstName);
      }
      if req.lastName != "" {
        user := user.(lastName := req.lastName);
      }
      if saveFault.Some? {
        return Err(Wrapped("error updating user: ", saveFault.value));
      }
      users := users[userID := user];
      r := Ok(user);
    }
  }
}
