/** The session state of the client (app/src/contexts/UserContext.tsx): no
    user, a pending user (signed in but not yet onboarded, id `"pending"`),
    or an authenticated user. The server's replies to the sign-in, nickname
    and balance requests are parameters of the methods; the copy of the user
    kept in the browser's local storage is the field `stored`. */
module UserContext {
  import opened Types
  import opened JsText

  /** The id that marks a user who has signed in but not finished onboarding. */
  const PendingId: string := "pending"

  /** `isAuthenticated`: a user is present and is not the pending placeholder. */
  predicate Authenticated(user: Option<User>) {
    user.Some? && user.value.id != PendingId
  }

  /** `email.split('@')[0]`: the text before the first `@` (all of it when
      there is none). */
  function EmailLocalPart(email: string): (r: string)
    ensures |r| <= |email| && r == email[..|r|]
    ensures '@' !in r
    ensures |r| < |email| ==> email[|r|] == '@'
  {
    if |email| == 0 || email[0] == '@' then ""
    else [email[0]] + EmailLocalPart(email[1..])
  }

  /** A user record as the server's database returns it; absent fields are `None`. */
  datatype DbUser = DbUser(
    id: Option<nat>,
    email: string,
    nickname: Option<string>,
    phoneNumber: Option<string>,
    balanceKes: string,
    isAdmin: bool,
    name: Option<string>)

  /** `formatUser`; `nowMillis` stands for `Date.now()`, used as the id when
      the record has none. */
  function FormatUser(db: DbUser, nowMillis: nat): (u: User)
    ensures u.email == db.email && u.isAdmin == db.isAdmin
    ensures ParseFloat(db.balanceKes).None? ==> u.balance == 0.0
    ensures ParseFloat(db.balanceKes).Some? ==> u.balance == ParseFloat(db.balanceKes).value
    ensures db.name.None? || db.name == Some("") ==> u.name == EmailLocalPart(db.email)
    ensures db.name.Some? && db.name.value != "" ==> u.name == db.name.value
    ensures db.nickname.None? || db.nickname == Some("") ==> u.nickname == ""
    ensures db.nickname.Some? ==> u.nickname == db.nickname.value
    ensures db.phoneNumber.None? || db.phoneNumber == Some("") ==> u.phoneNumber == ""
    ensures db.phoneNumber.Some? ==> u.phoneNumber == db.phoneNumber.value
    ensures db.id.Some? ==> u.id == NatToString(db.id.value)
    ensures db.id.None? ==> u.id == NatToString(nowMillis)
    ensures |u.id| > 0 && AllDigits(u.id) && Authenticated(Some(u))
  {
    User(
      id := NatToString(db.id.GetOr(nowMillis)),
      email := db.email,
      phoneNumber := OrElse(db.phoneNumber, ""),
      name := OrElse(db.name, EmailLocalPart(db.email)),
      nickname := OrElse(db.nickname, ""),
      balance := ParseFloat(db.balanceKes).GetOr(0.0),
      isAdmin := db.isAdmin)
  }

  /** The placeholder installed for a new user. */
  function PendingUser(email: string): (u: User)
    ensures !Authenticated(Some(u))
    ensures u.email == email && u.name == EmailLocalPart(email)
    ensures u.balance == 0.0 && !u.isAdmin && u.nickname == "" && u.phoneNumber == ""
  {
    User(id := PendingId, email := email, phoneNumber := "", name := EmailLocalPart(email),
         nickname := "", balance := 0.0, isAdmin := false)
  }

  /** The reply to the Google and the e-mail sign-in requests. */
  datatype LoginReply = LoginReply(ok: bool, error: Option<string>, user: Option<DbUser>, isNewUser: bool, email: string)

  /** The reply to the e-mail registration request. */
  datatype RegisterReply = RegisterReply(ok: bool, error: Option<string>, isNewUser: bool, email: string)

  /** The reply to the nickname update: a user record, or a failed request. */
  datatype NicknameReply = Updated(db: DbUser) | RequestFailed(message: string)

  /** The reply to the balance lookup: `balance_kes` as text (`None` when the
      field is missing), or no usable reply. */
  datatype BalanceReply = BalanceField(balanceKes: Option<string>) | NoReply

  /** What a sign-in method resolves to, or the message it throws. */
  datatype AuthResult = AuthOk(isNewUser: bool, user: Option<User>, email: Option<string>) | AuthError(message: string)

  /** The body of the nickname update request. */
  datatype NicknameRequest = NicknameRequest(email: string, nickname: string, phoneNumber: string)

  /** The balance a reply carries: `parseFloat(balance_kes)`, with NaN read
      as 0; `None` when the reply has no `balance_kes`. */
  function FreshBalance(reply: BalanceReply): (b: Option<real>)
    ensures b.Some? <==> reply.BalanceField? && reply.balanceKes.Some?
    ensures b.Some? && ParseFloat(reply.balanceKes.value).None? ==> b.value == 0.0
    ensures b.Some? && ParseFloat(reply.balanceKes.value).Some? ==> b.value == ParseFloat(reply.balanceKes.value).value
  {
    if reply.BalanceField? && reply.balanceKes.Some? then Some(ParseFloat(reply.balanceKes.value).GetOr(0.0)) else None
  }

  /** The session's user after `refreshUser`: the balance is replaced by the
      reply's when a user is signed in, a stored user with an e-mail was
      looked up, and the reply carries a balance; otherwise nothing changes. */
  function AfterRefresh(user: Option<User>, stored: Option<User>, reply: BalanceReply): (u: Option<User>)
    ensures user.None? <==> u.None?
    ensures u.Some? ==> u.value.(balance := 0.0) == user.value.(balance := 0.0)
    ensures stored.Some? && stored.value.email != "" && FreshBalance(reply).Some? && user.Some? ==>
      u.value.balance == FreshBalance(reply).value
    ensures !(stored.Some? && stored.value.email != "" && FreshBalance(reply).Some?) ==> u == user
  {
    if user.Some? && stored.Some? && stored.value.email != "" && FreshBalance(reply).Some? then
      Some(user.value.(balance := FreshBalance(reply).value))
    else user
  }

  /** The stored copy after `refreshUser`: it becomes the refreshed user
      exactly when the user's balance is replaced, and is untouched otherwise. */
  function StoredAfterRefresh(user: Option<User>, stored: Option<User>, reply: BalanceReply): (st: Option<User>)
    ensures user.Some? && stored.Some? && stored.value.email != "" && FreshBalance(reply).Some? ==>
      st == AfterRefresh(user, stored, reply) && st.Some?
    ensures !(user.Some? && stored.Some? && stored.value.email != "" && FreshBalance(reply).Some?) ==> st == stored
  {
    if user.Some? && stored.Some? && stored.value.email != "" && FreshBalance(reply).Some? then AfterRefresh(user, stored, reply)
    else stored
  }

  class UserSession {
    var user: Option<User>
    var isLoading: bool
    /** The user saved under `unistake_user` in local storage. */
    var stored: Option<User>

    /** The provider as first rendered: no user yet, loading, and whatever
        an earlier visit left in local storage. */
    constructor (persisted: Option<User>)
      ensures user == None && isLoading && stored == persisted
    {
      user := None;
      isLoading := true;
      stored := persisted;
    }

    predicate IsAuthenticated()
      reads this
    {
      Authenticated(user)
    }

    /** `isAdmin: user?.isAdmin || false`. */
    predicate IsAdmin()
      reads this
    {
      user.Some? && user.value.isAdmin
    }

    /** The mount effect: the stored user, if any, becomes the session's user. */
    method Restore()
      modifies this
      ensures user == (if old(stored).Some? then old(stored) else old(user))
      ensures stored == old(stored) && !isLoading
    {
      if stored.Some? {
        user := stored;
      }
      isLoading := false;
    }

    /** `login` (Google sign-in), given the server's reply. */
    method Login(reply: LoginReply, nowMillis: nat) returns (r: AuthResult)
      modifies this
      ensures !isLoading
      ensures !reply.ok ==>
        r == AuthError(OrElse(reply.error, "Authentication failed")) && user == old(user) && stored == old(stored)
      ensures reply.ok && reply.user.Some? ==>
        var u := FormatUser(reply.user.value, nowMillis);
        user == Some(u) && stored == Some(u) && r == AuthOk(false, Some(u), None)
      ensures reply.ok && reply.user.None? && reply.isNewUser ==>
        user == Some(PendingUser(reply.email)) && stored == old(stored) && r == AuthOk(true, None, Some(reply.email))
      ensures reply.ok && reply.user.None? && !reply.isNewUser ==>
        user == old(user) && stored == old(stored) && r == AuthOk(true, None, None)
    {
      isLoading := true;
      if !reply.ok {
        r := AuthError(OrElse(reply.error, "Authentication failed"));
      } else if reply.user.Some? {
        var u := FormatUser(reply.user.value, nowMillis);
        user := Some(u);
        stored := Some(u);
        r := AuthOk(false, Some(u), None);
      } else if reply.isNewUser {
        user := Some(PendingUser(reply.email));
        r := AuthOk(true, None, Some(reply.email));
      } else {
        r := AuthOk(true, None, None);
      }
      isLoading := false;
    }

    /** `registerWithEmail`, given the server's reply. */
    method RegisterWithEmail(reply: RegisterReply) returns (r: AuthResult)
      modifies this
      ensures !isLoading && stored == old(stored)
      ensures !reply.ok ==>
        r == AuthError(OrElse(reply.error, "Registration failed")) && user == old(user)
      ensures reply.ok && reply.isNewUser ==>
        user == Some(PendingUser(reply.email)) && r == AuthOk(true, None, Some(reply.email))
      ensures reply.ok && !reply.isNewUser ==>
        user == old(user) && r == AuthOk(false, None, None)
    {
      isLoading := true;
      if !reply.ok {
        r := AuthError(OrElse(reply.error, "Registration failed"));
      } else if reply.isNewUser {
        user := Some(PendingUser(reply.email));
        r := AuthOk(true, None, Some(reply.email));
      } else {
        r := AuthOk(false, None, None);
      }
      isLoading := false;
    }

    /** `loginWithEmail`, given the server's reply. */
    method LoginWithEmail(reply: LoginReply, nowMillis: nat) returns (r: AuthResult)
      modifies this
      ensures !isLoading
      ensures !reply.ok ==>
        r == AuthError(OrElse(reply.error, "Login failed")) && user == old(user) && stored == old(stored)
      ensures reply.ok && reply.user.Some? ==>
        var u := FormatUser(reply.user.value, nowMillis);
        user == Some(u) && stored == Some(u) && r == AuthOk(reply.isNewUser, Some(u), None)
      ensures reply.ok && reply.user.None? && reply.isNewUser ==>
        user == Some(PendingUser(reply.email)) && stored == old(stored) && r == AuthOk(true, None, Some(reply.email))
      ensures reply.ok && reply.user.None? && !reply.isNewUser ==>
        user == old(user) && stored == old(stored) && r == AuthError("Invalid response from server")
    {
      isLoading := true;
      if !reply.ok {
        r := AuthError(OrElse(reply.error, "Login failed"));
      } else if reply.user.Some? {
        var u := FormatUser(reply.user.value, nowMillis);
        user := Some(u);
        stored := Some(u);
        r := AuthOk(reply.isNewUser, Some(u), None);
      } else if reply.isNewUser {
        user := Some(PendingUser(reply.email));
        r := AuthOk(true, None, Some(reply.email));
      } else {
        r := AuthError("Invalid response from server");
      }
      isLoading := false;
    }

    /** `updateNickname`: without a session it throws "No user session" and
        sends nothing; otherwise it sends the user's e-mail with the new
        nickname and phone number and installs the returned record. */
    method UpdateNickname(nickname: string, phoneNumber: string, reply: NicknameReply, nowMillis: nat)
      returns (o: Outcome, sent: Option<NicknameRequest>)
      modifies this
      ensures old(user).None? ==>
        o == Fail("No user session") && sent == None &&
        user == old(user) && stored == old(stored) && isLoading == old(isLoading)
      ensures old(user).Some? ==> sent == Some(NicknameRequest(old(user).value.email, nickname, phoneNumber)) && !isLoading
      ensures old(user).Some? && reply.Updated? ==>
        var u := FormatUser(reply.db, nowMillis);
        o == Pass && user == Some(u) && stored == Some(u)
      ensures old(user).Some? && reply.RequestFailed? ==>
        o == Fail(reply.message) && user == old(user) && stored == old(stored)
    {
      if user.None? {
        return Fail("No user session"), None;
      }
      isLoading := true;
      sent := Some(NicknameRequest(user.value.email, nickname, phoneNumber));
      match reply {
        case Updated(db) =>
          var u := FormatUser(db, nowMillis);
          user := Some(u);
          stored := Some(u);
          o := Pass;
        case RequestFailed(message) =>
          o := Fail(message);
      }
      isLoading := false;
    }

    /** `updateBalance`; `None` stands for NaN, which keeps the old balance.
        Only the balance changes, and the stored copy follows. */
    method UpdateBalance(newBalance: Option<real>)
      modifies this
      ensures old(user).None? ==> user == None && stored == old(stored)
      ensures old(user).Some? ==>
        user == Some(old(user).value.(balance := newBalance.GetOr(old(user).value.balance))) && stored == user
      ensures isLoading == old(isLoading)
    {
      if user.Some? {
        var updated := user.value.(balance := newBalance.GetOr(user.value.balance));
        user := Some(updated);
        stored := Some(updated);
      }
    }

    /** `refreshUser`: looks the balance up by the STORED user's e-mail
        (nothing happens without one), and writes an unparsable balance as 0.
        Only the balance of the session's user changes. */
    method RefreshUser(reply: BalanceReply) returns (queried: Option<string>)
      modifies this
      ensures queried == (if old(stored).Some? && old(stored).value.email != "" then Some(old(stored).value.email) else None)
      ensures isLoading == old(isLoading)
      ensures queried.Some? && reply.BalanceField? && reply.balanceKes.Some? && old(user).Some? ==>
        var freshBalance := ParseFloat(reply.balanceKes.value).GetOr(0.0);
        user == Some(old(user).value.(balance := freshBalance)) && stored == user
      ensures !(queried.Some? && reply.BalanceField? && reply.balanceKes.Some? && old(user).Some?) ==>
        user == old(user) && stored == old(stored)
      ensures old(user).None? ==> user == None
      ensures old(user).Some? ==> user.Some? && user.value.(balance := 0.0) == old(user).value.(balance := 0.0)
      ensures user == AfterRefresh(old(user), old(stored), reply)
      ensures stored == StoredAfterRefresh(old(user), old(stored), reply)
    {
      queried := None;
      if stored.None? || stored.value.email == "" {
        return;
      }
      queried := Some(stored.value.email);
      if reply.BalanceField? && reply.balanceKes.Some? {
        var safeBalance := ParseFloat(reply.balanceKes.value).GetOr(0.0);
        if user.Some? {
          var updated := user.value.(balance := safeBalance);
          user := Some(updated);
          stored := Some(updated);
        }
      }
    }

    /** `logout`: no user, and nothing stored. */
    method Logout()
      modifies this
      ensures user == None && stored == None && isLoading == old(isLoading)
      ensures !IsAuthenticated()
    {
      user := None;
      stored := None;
    }
  }
}
