/** The business rules of the Flask server in app.py. The database is a set of
    tables, each a sequence of records in insertion order, where the record at
    index `i` has the primary key `i + 1`. Every route is a function from the
    state before the request to the HTTP status code and the state after it.
    Passwords are compared as stored values (the hashing is not modelled) and
    the clock is an integer number of seconds passed in by the caller. */
module Backend {
  import opened Wrappers
  import Landing

  type Id = nat

  const OK := 200
  const Found := 302
  const BadRequest := 400
  const Unauthorized := 401
  const Forbidden := 403
  const NotFound := 404
  const ServerError := 500

  // ---------------------------------------------------------------- records

  datatype User = User(
    email: string, password: string, fullName: string,
    userType: string, role: string, isMainAdmin: bool, isApproved: bool,
    society: Option<string>, flat: Option<string>)

  datatype ApprovalRequest = ApprovalRequest(
    requester: Id, name: string, email: string, userType: string,
    society: string, status: string)

  datatype BusinessSociety = BusinessSociety(business: Id, society: string)

  datatype ResetToken = ResetToken(user: Id, token: string, createdAt: int, used: bool)

  datatype Society = Society(name: string, admin: Option<Id>)

  datatype Maintenance = Maintenance(
    requestType: string, status: string, society: Option<string>,
    createdBy: Id, assignee: Option<Id>,
    scheduledDate: Option<string>, scheduledTime: Option<string>,
    engaged: bool, upvotes: nat)

  datatype Upvote = Upvote(user: Id, request: Id)

  datatype Visitor = Visitor(
    name: string, flat: string, society: string,
    guard: Option<Id>, guardName: Option<string>, resident: Option<Id>,
    status: string, permission: string, entryTime: int, exitTime: Option<int>)

  datatype ChatGroup = ChatGroup(name: string, society: Option<string>)

  datatype Message = Message(group: Id, sender: Id, text: string)

  /** The tables and the session cookie's user id. */
  datatype State = State(
    users: seq<User>, approvals: seq<ApprovalRequest>,
    memberships: seq<BusinessSociety>, tokens: seq<ResetToken>,
    societies: seq<Society>, requests: seq<Maintenance>, upvotes: seq<Upvote>,
    visitors: seq<Visitor>, groups: seq<ChatGroup>, messages: seq<Message>,
    session: Option<Id>)

  /** A route's status code and the state once the request is committed. */
  datatype Reply = Reply(code: int, state: State)

  // ---------------------------------------------------------------- lookups

  /** `Model.query.get(id)`: the row with that primary key, if any. */
  function Row<T>(t: seq<T>, id: int): (r: Option<T>)
    ensures r.Some? <==> 1 <= id <= |t|
    ensures r.Some? ==> r.value == t[id - 1] && r.value in t
  {
    if 1 <= id <= |t| then Some(t[id - 1]) else None
  }

  /** `.filter_by(...).first()`: the index of the first row satisfying `p`. */
  function FirstIndex<T>(t: seq<T>, p: T -> bool): (r: Option<nat>)
    ensures r.None? <==> forall i :: 0 <= i < |t| ==> !p(t[i])
    ensures r.Some? ==> r.value < |t| && p(t[r.value])
    ensures r.Some? ==> forall j :: 0 <= j < r.value ==> !p(t[j])
  {
    if |t| == 0 then None
    else if p(t[0]) then Some(0)
    else
      match FirstIndex(t[1..], p)
      case None => None
      case Some(i) =>
        assert forall j :: 1 <= j <= i ==> t[j] == t[1..][j - 1];
        Some(i + 1)
  }

  /** `@login_required` with the user loader: the logged-in user's id when
      the session names an existing row. */
  function Caller(s: State): (c: Option<Id>)
    ensures c.Some? <==> s.session.Some? && 1 <= s.session.value <= |s.users|
    ensures c.Some? ==> c == s.session
  {
    if s.session.Some? && 1 <= s.session.value <= |s.users| then s.session else None
  }

  /** The logged-in user's record. */
  function Me(s: State): (u: User)
    requires Caller(s).Some?
    ensures u in s.users
    ensures Row(s.users, s.session.value) == Some(u)
  {
    s.users[s.session.value - 1]
  }

  predicate EmailTaken(users: seq<User>, email: string) {
    exists i :: 0 <= i < |users| && users[i].email == email
  }

  /** The `email` column is unique. */
  predicate EmailsUnique(users: seq<User>) {
    forall i, j :: 0 <= i < |users| && 0 <= j < |users| && users[i].email == users[j].email ==> i == j
  }

  // ---------------------------------------------------------------- signup and login

  /** The JSON body of `/api/signup`; the optional keys are `Option`s. */
  datatype SignupForm = SignupForm(
    email: string, password: string, fullName: string, userType: string,
    role: Option<string>, society: Option<string>, flat: Option<string>,
    societies: Option<seq<string>>)

  /** One `BusinessSociety` row per listed society, in order. */
  function Memberships(business: Id, names: seq<string>): (r: seq<BusinessSociety>)
    ensures |r| == |names|
    ensures forall i :: 0 <= i < |names| ==> r[i] == BusinessSociety(business, names[i])
  {
    if names == [] then []
    else Memberships(business, names[..|names| - 1]) + [BusinessSociety(business, names[|names| - 1])]
  }

  /** `signup`: a taken email is refused; otherwise the user is stored,
      approved exactly when it is a business. A business is linked to every
      listed society and logged in; anyone else gets one pending approval
      request and stays logged out. */
  function Signup(s: State, f: SignupForm): (r: Reply)
    ensures r.code == BadRequest <==> EmailTaken(s.users, f.email)
    ensures r.code != OK ==> r.code == BadRequest && r.state == s
    ensures r.code == OK ==>
      && |r.state.users| == |s.users| + 1
      && r.state.users[..|s.users|] == s.users
      && var u := r.state.users[|s.users|];
      && u.email == f.email && u.password == f.password && u.userType == f.userType
      && u.fullName == f.fullName && u.society == f.society && u.flat == f.flat
      && u.role == f.role.GetOr("resident") && !u.isMainAdmin
      && (u.isApproved <==> f.userType == "business")
    ensures r.code == OK && f.userType == "business" ==>
      && r.state.approvals == s.approvals
      && r.state.session == Some(|s.users| + 1)
      && r.state.memberships == s.memberships
           + (if f.societies.Some? then Memberships(|s.users| + 1, f.societies.value) else [])
    ensures r.code == OK && f.userType != "business" ==>
      && r.state.approvals == s.approvals
           + [ApprovalRequest(|s.users| + 1, f.fullName, f.email, f.userType, f.society.GetOr(""), "pending")]
      && r.state.session == s.session
      && r.state.memberships == s.memberships
    ensures r.state.tokens == s.tokens && r.state.requests == s.requests && r.state.visitors == s.visitors
    ensures r.state.societies == s.societies && r.state.upvotes == s.upvotes
    ensures r.state.groups == s.groups && r.state.messages == s.messages
  {
    if FirstIndex(s.users, (u: User) => u.email == f.email).Some? then
      Reply(BadRequest, s)
    else
      var id := |s.users| + 1;
      var business := f.userType == "business";
      var user := User(f.email, f.password, f.fullName, f.userType, f.role.GetOr("resident"),
                       false, business, f.society, f.flat);
      var s1 := s.(users := s.users + [user]);
      var s2 := if business && f.societies.Some?
                then s1.(memberships := s1.memberships + Memberships(id, f.societies.value))
                else s1;
      if !business then
        var request := ApprovalRequest(id, f.fullName, f.email, f.userType, f.society.GetOr(""), "pending");
        Reply(OK, s2.(approvals := s2.approvals + [request]))
      else
        Reply(OK, s2.(session := Some(id)))
  }

  /** The first user with `email`, the row `filter_by(email=...).first()` returns. */
  predicate FirstWithEmail(users: seq<User>, email: string, i: int) {
    0 <= i < |users| && users[i].email == email &&
    forall j :: 0 <= j < i ==> users[j].email != email
  }

  /** `login`: 401 for an unknown email or a wrong password, 403 while the
      account awaits approval, otherwise the session is set to that user. */
  function Login(s: State, email: string, password: string): (r: Reply)
    ensures r.code in {OK, Unauthorized, Forbidden}
    ensures r.code != OK ==> r.state == s
    ensures r.code == Unauthorized <==>
      forall i :: FirstWithEmail(s.users, email, i) ==> s.users[i].password != password
    ensures r.code == OK <==>
      exists i :: FirstWithEmail(s.users, email, i) && s.users[i].password == password && s.users[i].isApproved
    ensures r.code == OK ==>
      exists i :: FirstWithEmail(s.users, email, i) && r.state == s.(session := Some(i + 1))
  {
    match FirstIndex(s.users, (u: User) => u.email == email)
    case None => Reply(Unauthorized, s)
    case Some(i) =>
      if s.users[i].password != password then Reply(Unauthorized, s)
      else if !s.users[i].isApproved then Reply(Forbidden, s)
      else Reply(OK, s.(session := Some(i + 1)))
  }

  /** `logout`: behind `@login_required`, then the session is cleared. */
  function Logout(s: State): (r: Reply)
    ensures Caller(s).None? ==> r == Reply(Found, s)
    ensures r.code == Found <==> Caller(s).None?
    ensures Caller(s).Some? ==> r == Reply(OK, s.(session := None))
  {
    if Caller(s).None? then Reply(Found, s) else Reply(OK, s.(session := None))
  }

  lemma SignupKeepsEmailsUnique(s: State, f: SignupForm)
    requires EmailsUnique(s.users)
    ensures EmailsUnique(Signup(s, f).state.users)
  {
    var r := Signup(s, f);
    if r.code == OK {
      var n := |s.users|;
      forall i, j | 0 <= i < |r.state.users| && 0 <= j < |r.state.users| && r.state.users[i].email == r.state.users[j].email
        ensures i == j
      {
        if i < n { assert r.state.users[i] == s.users[i]; }
        if j < n { assert r.state.users[j] == s.users[j]; }
      }
    }
  }

  /** Signing up and then logging in with the same credentials: a business
      is let in, a resident or guard is held at 403 until approved. */
  lemma SignupThenLogin(s: State, f: SignupForm)
    requires !EmailTaken(s.users, f.email)
    ensures Login(Signup(s, f).state, f.email, f.password).code ==
            (if f.userType == "business" then OK else Forbidden)
  {
    var t := Signup(s, f).state;
    var n := |s.users|;
    assert FirstWithEmail(t.users, f.email, n) by {
      forall j | 0 <= j < n ensures t.users[j].email != f.email {
        assert t.users[j] == s.users[j];
      }
    }
    assert forall k :: 0 <= k < n ==> t.users[k] == s.users[k];
  }

  // ---------------------------------------------------------------- password reset

  predicate TokenTaken(tokens: seq<ResetToken>, token: string) {
    exists i :: 0 <= i < |tokens| && tokens[i].token == token
  }

  /** The `token` column is unique. */
  predicate TokensUnique(tokens: seq<ResetToken>) {
    forall i, j :: 0 <= i < |tokens| && 0 <= j < |tokens| && tokens[i].token == tokens[j].token ==> i == j
  }

  /** `forgot_password` with the random token drawn by the caller: an unknown
      email changes nothing and still answers 200; a colliding token breaks
      the unique constraint (500); otherwise one unused token row is added. */
  function ForgotPassword(s: State, email: Option<string>, token: string, now: int): (r: Reply)
    ensures email.None? || !EmailTaken(s.users, email.value) ==> r == Reply(OK, s)
    ensures r.code == ServerError <==> email.Some? && EmailTaken(s.users, email.value) && TokenTaken(s.tokens, token)
    ensures r.code in {OK, ServerError}
    ensures r.code != OK ==> r.state == s
    ensures email.Some? && EmailTaken(s.users, email.value) && !TokenTaken(s.tokens, token) ==>
      r.code == OK &&
      exists i :: FirstWithEmail(s.users, email.value, i) &&
        r.state == s.(tokens := s.tokens + [ResetToken(i + 1, token, now, false)])
  {
    if email.None? then Reply(OK, s)
    else
      match FirstIndex(s.users, (u: User) => u.email == email.value)
      case None => Reply(OK, s)
      case Some(i) =>
        if FirstIndex(s.tokens, (t: ResetToken) => t.token == token).Some? then Reply(ServerError, s)
        else
          assert FirstWithEmail(s.users, email.value, i);
          Reply(OK, s.(tokens := s.tokens + [ResetToken(i + 1, token, now, false)]))
  }

  /** True when a request body field is absent or empty (`not value`). */
  predicate Blank(v: Option<string>): (b: bool)
    ensures v.None? ==> b
    ensures v.Some? ==> (b <==> |v.value| == 0)
  {
    v.None? || v.value == ""
  }

  /** `filter_by(token=..., used=False).first()`: row `i` is the first unused
      row carrying that token. */
  predicate FirstUnused(tokens: seq<ResetToken>, token: string, i: int) {
    0 <= i < |tokens| && tokens[i].token == token && !tokens[i].used &&
    forall j :: 0 <= j < i ==> !(tokens[j].token == token && !tokens[j].used)
  }

  /** `reset_password`: both fields must be present, the token must name an
      unused row at most 3600 seconds old, and its user must exist; then the
      password is replaced and the token marked used. */
  function ResetPassword(s: State, token: Option<string>, newPassword: Option<string>, now: int): (r: Reply)
    ensures r.code in {OK, BadRequest, NotFound}
    ensures r.code == OK <==> (!Blank(token) && !Blank(newPassword) &&
      exists i :: FirstUnused(s.tokens, token.value, i) && now - s.tokens[i].createdAt <= 3600 && 1 <= s.tokens[i].user <= |s.users|)
    ensures r.code == NotFound <==> (!Blank(token) && !Blank(newPassword) &&
      exists i :: FirstUnused(s.tokens, token.value, i) && now - s.tokens[i].createdAt <= 3600 && !(1 <= s.tokens[i].user <= |s.users|))
    ensures forall i :: token.Some? && FirstUnused(s.tokens, token.value, i) && now - s.tokens[i].createdAt > 3600 ==> r.code == BadRequest
    ensures r.code != OK ==> r.state == s
    ensures Blank(token) || Blank(newPassword) ==> r.code == BadRequest
    ensures token.Some? && (forall i :: 0 <= i < |s.tokens| && s.tokens[i].token == token.value ==> s.tokens[i].used)
            ==> r.code == BadRequest
    ensures r.code == OK ==>
      exists i :: 0 <= i < |s.tokens| && s.tokens[i].token == token.value && !s.tokens[i].used &&
        now - s.tokens[i].createdAt <= 3600 && 1 <= s.tokens[i].user <= |s.users| &&
        r.state == s.(tokens := s.tokens[i := s.tokens[i].(used := true)],
                      users := s.users[s.tokens[i].user - 1 := s.users[s.tokens[i].user - 1].(password := newPassword.value)])
  {
    if Blank(token) || Blank(newPassword) then Reply(BadRequest, s)
    else
      match FirstIndex(s.tokens, (t: ResetToken) => t.token == token.value && !t.used)
      case None =>
        assert forall k :: !FirstUnused(s.tokens, token.value, k);
        Reply(BadRequest, s)
      case Some(i) =>
        assert FirstUnused(s.tokens, token.value, i);
        assert forall k :: FirstUnused(s.tokens, token.value, k) ==> k == i;
        var t := s.tokens[i];
        if now - t.createdAt > 3600 then Reply(BadRequest, s)
        else if Row(s.users, t.user).None? then Reply(NotFound, s)
        else
          Reply(OK, s.(tokens := s.tokens[i := t.(used := true)],
                       users := s.users[t.user - 1 := s.users[t.user - 1].(password := newPassword.value)]))
  }

  lemma ForgotPasswordKeepsTokensUnique(s: State, email: Option<string>, token: string, now: int)
    requires TokensUnique(s.tokens)
    ensures TokensUnique(ForgotPassword(s, email, token, now).state.tokens)
  {
    var r := ForgotPassword(s, email, token, now);
    if r.state != s {
      var n := |s.tokens|;
      assert r.state.tokens[..n] == s.tokens;
      forall i, j | 0 <= i < |r.state.tokens| && 0 <= j < |r.state.tokens| && r.state.tokens[i].token == r.state.tokens[j].token
        ensures i == j
      {
        if i < n { assert r.state.tokens[i] == s.tokens[i]; }
        if j < n { assert r.state.tokens[j] == s.tokens[j]; }
      }
    }
  }

  lemma ResetPasswordKeepsTokensUnique(s: State, token: Option<string>, newPassword: Option<string>, now: int)
    requires TokensUnique(s.tokens)
    ensures TokensUnique(ResetPassword(s, token, newPassword, now).state.tokens)
  {
  }

  /** A token works once: after a successful reset, the same token is
      refused with nothing changed, whatever password or time comes next. */
  lemma ResetTokenSingleUse(s: State, token: Option<string>, p1: Option<string>, p2: Option<string>, now: int, later: int)
    requires TokensUnique(s.tokens)
    requires ResetPassword(s, token, p1, now).code == OK
    ensures var t := ResetPassword(s, token, p1, now).state;
            ResetPassword(t, token, p2, later) == Reply(BadRequest, t)
  {
    var t := ResetPassword(s, token, p1, now).state;
    var i :| 0 <= i < |s.tokens| && s.tokens[i].token == token.value && !s.tokens[i].used &&
      t.tokens == s.tokens[i := s.tokens[i].(used := true)];
    assert forall k :: 0 <= k < |t.tokens| && k != i ==> t.tokens[k] == s.tokens[k];
  }

  /** A token issued by `forgot_password` resets the password when used
      within the hour. */
  lemma ForgotThenReset(s: State, email: string, token: string, newPassword: string, now: int, later: int)
    requires TokensUnique(s.tokens)
    requires EmailTaken(s.users, email) && !TokenTaken(s.tokens, token)
    requires token != "" && newPassword != "" && later - now <= 3600
    ensures var t := ForgotPassword(s, Some(email), token, now).state;
            ResetPassword(t, Some(token), Some(newPassword), later).code == OK
  {
    var t := ForgotPassword(s, Some(email), token, now).state;
    var n := |s.tokens|;
    assert t.tokens[n].token == token && !t.tokens[n].used;
    forall k | 0 <= k < n ensures t.tokens[k].token != token {
      assert t.tokens[k] == s.tokens[k];
    }
  }

  /** An hour and a second after issue, the same token is refused. */
  lemma ExpiredTokenRefused(s: State, email: string, token: string, newPassword: Option<string>, now: int, later: int)
    requires EmailTaken(s.users, email) && !TokenTaken(s.tokens, token)
    requires later - now > 3600
    ensures var t := ForgotPassword(s, Some(email), token, now).state;
            ResetPassword(t, Some(token), newPassword, later).code == BadRequest
  {
    var t := ForgotPassword(s, Some(email), token, now).state;
    var n := |s.tokens|;
    forall k | 0 <= k < n ensures t.tokens[k].token != token {
      assert t.tokens[k] == s.tokens[k];
    }
  }

  // ---------------------------------------------------------------- admin roles

  /** The caller holds the main-admin flag with the admin role. */
  predicate MainAdminCalling(s: State) {
    Caller(s).Some? && Me(s).role == "admin" && Me(s).isMainAdmin
  }

  /** `target` exists and is in the caller's society. */
  predicate InCallersSociety(s: State, target: int) {
    Caller(s).Some? && 1 <= target <= |s.users| && s.users[target - 1].society == Me(s).society
  }

  /** At most one user of each society holds the main-admin flag. */
  predicate OneMainAdminPerSociety(users: seq<User>) {
    forall i, j :: 0 <= i < |users| && 0 <= j < |users| &&
        users[i].isMainAdmin && users[j].isMainAdmin && users[i].society == users[j].society
      ==> i == j
  }

  /** `promote_user`: only the main admin, only within the society; the
      target becomes a co-admin (admin role, no main-admin flag). */
  function Promote(s: State, target: int): (r: Reply)
    ensures Caller(s).None? ==> r == Reply(Found, s)
    ensures r.code == Found <==> Caller(s).None?
    ensures r.code in {Found, Forbidden, NotFound, OK}
    ensures r.code != OK ==> r.state == s
    ensures r.code == Forbidden <==> Caller(s).Some? && !MainAdminCalling(s)
    ensures r.code == NotFound <==> MainAdminCalling(s) && !InCallersSociety(s, target)
    ensures r.code == OK <==> MainAdminCalling(s) && InCallersSociety(s, target)
    ensures r.code == OK ==>
      r.state == s.(users := s.users[target - 1 := s.users[target - 1].(role := "admin", isMainAdmin := false)])
  {
    if Caller(s).None? then Reply(Found, s)
    else if !MainAdminCalling(s) then Reply(Forbidden, s)
    else if !InCallersSociety(s, target) then Reply(NotFound, s)
    else Reply(OK, s.(users := s.users[target - 1 := s.users[target - 1].(role := "admin", isMainAdmin := false)]))
  }

  /** `demote_user`: the same checks as promotion, and the main admin
      cannot be demoted (400); anyone else becomes a resident. */
  function Demote(s: State, target: int): (r: Reply)
    ensures Caller(s).None? ==> r == Reply(Found, s)
    ensures r.code == Found <==> Caller(s).None?
    ensures r.code in {Found, Forbidden, NotFound, BadRequest, OK}
    ensures r.code != OK ==> r.state == s
    ensures r.code == Forbidden <==> Caller(s).Some? && !MainAdminCalling(s)
    ensures r.code == NotFound <==> MainAdminCalling(s) && !InCallersSociety(s, target)
    ensures r.code == BadRequest <==>
      MainAdminCalling(s) && InCallersSociety(s, target) && s.users[target - 1].isMainAdmin
    ensures r.code == OK <==>
      MainAdminCalling(s) && InCallersSociety(s, target) && !s.users[target - 1].isMainAdmin
    ensures r.code == OK ==>
      r.state == s.(users := s.users[target - 1 := s.users[target - 1].(role := "resident")])
  {
    if Caller(s).None? then Reply(Found, s)
    else if !MainAdminCalling(s) then Reply(Forbidden, s)
    else if !InCallersSociety(s, target) then Reply(NotFound, s)
    else if s.users[target - 1].isMainAdmin then Reply(BadRequest, s)
    else Reply(OK, s.(users := s.users[target - 1 := s.users[target - 1].(role := "resident")]))
  }

  /** `k` is the first society whose admin is `me`, the row
      `Society.query.filter_by(admin_id=...).first()` returns. */
  predicate FirstAdministered(societies: seq<Society>, me: Option<Id>, k: int) {
    0 <= k < |societies| && societies[k].admin == me &&
    forall j :: 0 <= j < k ==> societies[j].admin != me
  }

  /** `transfer_main_admin`: the caller's flag is cleared first, then the
      target gets the admin role and the flag, and the first society the
      caller administers passes to the target. */
  function TransferMainAdmin(s: State, target: int): (r: Reply)
    ensures Caller(s).None? ==> r == Reply(Found, s)
    ensures r.code == Found <==> Caller(s).None?
    ensures r.code in {Found, Forbidden, NotFound, OK}
    ensures r.code != OK ==> r.state == s
    ensures r.code == Forbidden <==> Caller(s).Some? && !MainAdminCalling(s)
    ensures r.code == NotFound <==> MainAdminCalling(s) && !InCallersSociety(s, target)
    ensures r.code == OK <==> MainAdminCalling(s) && InCallersSociety(s, target)
    ensures r.code == OK ==>
      && |r.state.users| == |s.users|
      && r.state.users[target - 1] == s.users[target - 1].(role := "admin", isMainAdmin := true)
      && (target != s.session.value ==> r.state.users[s.session.value - 1] == Me(s).(isMainAdmin := false))
      && (forall k :: 0 <= k < |s.users| && k != target - 1 && k != s.session.value - 1 ==>
            r.state.users[k] == s.users[k])
      && |r.state.societies| == |s.societies|
      && (forall k :: FirstAdministered(s.societies, s.session, k) ==>
            r.state.societies[k] == s.societies[k].(admin := Some(target)))
      && (forall k :: 0 <= k < |s.societies| && !FirstAdministered(s.societies, s.session, k) ==>
            r.state.societies[k] == s.societies[k])
      && r.state == s.(users := r.state.users, societies := r.state.societies)
  {
    if Caller(s).None? then Reply(Found, s)
    else if !MainAdminCalling(s) then Reply(Forbidden, s)
    else if !InCallersSociety(s, target) then Reply(NotFound, s)
    else
      var me := s.session.value;
      var users1 := s.users[me - 1 := s.users[me - 1].(isMainAdmin := false)];
      var users2 := users1[target - 1 := users1[target - 1].(role := "admin", isMainAdmin := true)];
      var societies :=
        match FirstIndex(s.societies, (c: Society) => c.admin == Some(me))
        case None => s.societies
        case Some(k) => s.societies[k := s.societies[k].(admin := Some(target))];
      Reply(OK, s.(users := users2, societies := societies))
  }

  /** `demote_admin`: any admin may demote another admin of the society to
      resident; demoting oneself is refused (400). */
  function DemoteAdmin(s: State, target: int): (r: Reply)
    ensures Caller(s).None? ==> r == Reply(Found, s)
    ensures r.code == Found <==> Caller(s).None?
    ensures r.code in {Found, Forbidden, NotFound, BadRequest, OK}
    ensures r.code != OK ==> r.state == s
    ensures r.code == Forbidden <==> Caller(s).Some? && Me(s).role != "admin"
    ensures r.code == NotFound <==>
      Caller(s).Some? && Me(s).role == "admin" &&
      !(InCallersSociety(s, target) && s.users[target - 1].role == "admin")
    ensures r.code == BadRequest <==>
      Caller(s).Some? && Me(s).role == "admin" && InCallersSociety(s, target) && target == s.session.value
    ensures r.code == OK <==>
      Caller(s).Some? && Me(s).role == "admin" && InCallersSociety(s, target) &&
      s.users[target - 1].role == "admin" && target != s.session.value
    ensures r.code == OK ==>
      r.state == s.(users := s.users[target - 1 := s.users[target - 1].(role := "resident")])
  {
    if Caller(s).None? then Reply(Found, s)
    else if Me(s).role != "admin" then Reply(Forbidden, s)
    else if !(InCallersSociety(s, target) && s.users[target - 1].role == "admin") then Reply(NotFound, s)
    else if target == s.session.value then Reply(BadRequest, s)
    else Reply(OK, s.(users := s.users[target - 1 := s.users[target - 1].(role := "resident")]))
  }

  /** `demote_user` never touches the main admin. */
  lemma MainAdminNotDemoted(s: State, target: int)
    requires 1 <= target <= |s.users| && s.users[target - 1].isMainAdmin
    ensures Demote(s, target).state == s
    ensures Demote(s, target).code != OK
  {
  }

  /** `demote_admin` does not check the main-admin flag: a co-admin can take
      the admin role away from the main admin, who keeps the flag. */
  lemma CoAdminDemotesMainAdmin(s: State, target: int)
    requires Caller(s).Some? && Me(s).role == "admin" && !Me(s).isMainAdmin
    requires InCallersSociety(s, target) && target != s.session.value
    requires s.users[target - 1].role == "admin" && s.users[target - 1].isMainAdmin
    ensures var r := DemoteAdmin(s, target);
            r.code == OK && r.state.users[target - 1].role == "resident" && r.state.users[target - 1].isMainAdmin
  {
  }

  /** Handing over to someone else moves the flag: the target holds it and
      the caller no longer does. Handing over to oneself keeps it. */
  lemma TransferMovesFlag(s: State, target: int)
    requires TransferMainAdmin(s, target).code == OK
    ensures var t := TransferMainAdmin(s, target).state;
            t.users[target - 1].isMainAdmin && t.users[target - 1].role == "admin" &&
            (target != s.session.value ==> !t.users[s.session.value - 1].isMainAdmin)
  {
  }

  /** None of the admin routes can give a society two main admins. */
  lemma AdminRoutesKeepOneMainAdmin(s: State, target: int)
    requires OneMainAdminPerSociety(s.users)
    ensures OneMainAdminPerSociety(Promote(s, target).state.users)
    ensures OneMainAdminPerSociety(Demote(s, target).state.users)
    ensures OneMainAdminPerSociety(DemoteAdmin(s, target).state.users)
    ensures OneMainAdminPerSociety(TransferMainAdmin(s, target).state.users)
  {
    TransferKeepsOneMainAdmin(s, target);
    var p := Promote(s, target);
    if p.code == OK {
      FlagsOnlyCleared(s.users, target - 1, s.users[target - 1].(role := "admin", isMainAdmin := false));
    }
    var d := Demote(s, target);
    if d.code == OK {
      FlagsOnlyCleared(s.users, target - 1, s.users[target - 1].(role := "resident"));
    }
    var a := DemoteAdmin(s, target);
    if a.code == OK {
      FlagsOnlyCleared(s.users, target - 1, s.users[target - 1].(role := "resident"));
    }
  }

  /** Replacing one user by a record with the same society and no new flag keeps
      one main admin per society. */
  lemma FlagsOnlyCleared(users: seq<User>, k: int, u: User)
    requires OneMainAdminPerSociety(users) && 0 <= k < |users|
    requires u.society == users[k].society && (u.isMainAdmin ==> users[k].isMainAdmin)
    ensures OneMainAdminPerSociety(users[k := u])
  {
    var t := users[k := u];
    forall i, j | 0 <= i < |t| && 0 <= j < |t| && t[i].isMainAdmin && t[j].isMainAdmin && t[i].society == t[j].society
      ensures i == j
    {
      assert users[i].isMainAdmin && users[j].isMainAdmin;
      assert users[i].society == users[j].society;
    }
  }

  /** `transfer_main_admin` leaves the target as the only flag holder of the caller's society. */
  lemma TransferKeepsOneMainAdmin(s: State, target: int)
    requires OneMainAdminPerSociety(s.users)
    ensures OneMainAdminPerSociety(TransferMainAdmin(s, target).state.users)
  {
    var r := TransferMainAdmin(s, target);
    if r.code == OK {
      var me := s.session.value - 1;
      var t := r.state.users;
      forall i, j | 0 <= i < |t| && 0 <= j < |t| && t[i].isMainAdmin && t[j].isMainAdmin && t[i].society == t[j].society
        ensures i == j
      {
        // Every flag left in the caller's society is the target's.
        assert t[target - 1].society == s.users[me].society;
      }
    }
  }

  // ---------------------------------------------------------------- maintenance requests

  /** The state with request `rid` replaced by `m`. */
  function SetRequest(s: State, rid: int, m: Maintenance): State
    requires 1 <= rid <= |s.requests|
  {
    s.(requests := s.requests[rid - 1 := m])
  }

  /** `engage_request`: a resident of the request's society marks a public
      request as engaged. */
  function Engage(s: State, rid: nat): (r: Reply)
    ensures Caller(s).None? ==> r == Reply(Found, s)
    ensures r.code == Found <==> Caller(s).None?
    ensures r.code in {Found, NotFound, Forbidden, BadRequest, OK}
    ensures r.code != OK ==> r.state == s
    ensures r.code == NotFound <==> Caller(s).Some? && Row(s.requests, rid).None?
    ensures r.code == Forbidden <==>
      Caller(s).Some? && 1 <= rid <= |s.requests| &&
      (Me(s).userType != "resident" || s.requests[rid - 1].society != Me(s).society)
    ensures r.code == OK <==>
      Caller(s).Some? && 1 <= rid <= |s.requests| && Me(s).userType == "resident" &&
      s.requests[rid - 1].society == Me(s).society && s.requests[rid - 1].requestType == "public"
    ensures r.code == BadRequest <==>
      Caller(s).Some? && 1 <= rid <= |s.requests| && Me(s).userType == "resident" &&
      s.requests[rid - 1].society == Me(s).society && s.requests[rid - 1].requestType != "public"
    ensures r.code == OK ==> r.state == SetRequest(s, rid, s.requests[rid - 1].(engaged := true))
  {
    if Caller(s).None? then Reply(Found, s)
    else if Row(s.requests, rid).None? then Reply(NotFound, s)
    else
      var m := s.requests[rid - 1];
      if Me(s).userType != "resident" then Reply(Forbidden, s)
      else if m.society != Me(s).society then Reply(Forbidden, s)
      else if m.requestType != "public" then Reply(BadRequest, s)
      else Reply(OK, SetRequest(s, rid, m.(engaged := true)))
  }

  /** Who may assign request `m`: an admin of its society for a public
      request, its creator for any other. */
  predicate MayAssign(s: State, m: Maintenance): (b: bool)
    requires Caller(s).Some?
    ensures m.requestType == "public" ==> (b <==> Me(s).role == "admin" && m.society == Me(s).society)
    ensures m.requestType != "public" ==> (b <==> m.createdBy == s.session.value)
    ensures b && Me(s).role != "admin" ==> m.createdBy == s.session.value
  {
    if m.requestType == "public" then Me(s).role == "admin" && m.society == Me(s).society
    else m.createdBy == s.session.value
  }

  /** `assign_to_business`: the assigner checks above, then the target must
      be a business user; the request is assigned to it and set pending. */
  function Assign(s: State, rid: nat, business: int): (r: Reply)
    ensures Caller(s).None? ==> r == Reply(Found, s)
    ensures r.code == Found <==> Caller(s).None?
    ensures r.code in {Found, NotFound, Forbidden, BadRequest, OK}
    ensures r.code != OK ==> r.state == s
    ensures r.code == NotFound <==> Caller(s).Some? && Row(s.requests, rid).None?
    ensures r.code == Forbidden <==> Caller(s).Some? && 1 <= rid <= |s.requests| && !MayAssign(s, s.requests[rid - 1])
    ensures r.code == BadRequest <==>
      Caller(s).Some? && 1 <= rid <= |s.requests| && MayAssign(s, s.requests[rid - 1]) &&
      !(1 <= business <= |s.users| && s.users[business - 1].userType == "business")
    ensures r.code == OK <==>
      Caller(s).Some? && 1 <= rid <= |s.requests| && MayAssign(s, s.requests[rid - 1]) &&
      1 <= business <= |s.users| && s.users[business - 1].userType == "business"
    ensures r.code == OK ==>
      r.state == SetRequest(s, rid, s.requests[rid - 1].(assignee := Some(business), status := "pending"))
  {
    if Caller(s).None? then Reply(Found, s)
    else if Row(s.requests, rid).None? then Reply(NotFound, s)
    else
      var m := s.requests[rid - 1];
      if !MayAssign(s, m) then Reply(Forbidden, s)
      else if !(1 <= business <= |s.users| && s.users[business - 1].userType == "business") then Reply(BadRequest, s)
      else Reply(OK, SetRequest(s, rid, m.(assignee := Some(business), status := "pending")))
  }

  /** The request exists and is assigned to the caller. */
  predicate AssignedToCaller(s: State, rid: int) {
    Caller(s).Some? && 1 <= rid <= |s.requests| && s.requests[rid - 1].assignee == s.session
  }

  /** The shared guard of approve, deny and complete: 404 for a missing
      request, 403 unless it is assigned to the caller, else the update. */
  function AssignedOnly(s: State, rid: nat, next: Maintenance -> Maintenance): (r: Reply)
    ensures Caller(s).None? ==> r == Reply(Found, s)
    ensures r.code == Found <==> Caller(s).None?
    ensures r.code in {Found, NotFound, Forbidden, OK}
    ensures r.code != OK ==> r.state == s
    ensures r.code == NotFound <==> Caller(s).Some? && Row(s.requests, rid).None?
    ensures r.code == Forbidden <==> Caller(s).Some? && 1 <= rid <= |s.requests| && !AssignedToCaller(s, rid)
    ensures r.code == OK <==> AssignedToCaller(s, rid)
    ensures r.code == OK ==> r.state == SetRequest(s, rid, next(s.requests[rid - 1]))
  {
    if Caller(s).None? then Reply(Found, s)
    else if Row(s.requests, rid).None? then Reply(NotFound, s)
    else if s.requests[rid - 1].assignee != s.session then Reply(Forbidden, s)
    else Reply(OK, SetRequest(s, rid, next(s.requests[rid - 1])))
  }

  /** `approve_request`: the assigned business schedules the work. */
  function Approve(s: State, rid: nat, date: Option<string>, time: Option<string>): (r: Reply)
    ensures r.code == OK <==> AssignedToCaller(s, rid)
    ensures r.code != OK ==> r.state == s
    ensures r.code == OK ==>
      r.state == SetRequest(s, rid, s.requests[rid - 1].(status := "in_progress", scheduledDate := date, scheduledTime := time))
  {
    AssignedOnly(s, rid, (m: Maintenance) => m.(status := "in_progress", scheduledDate := date, scheduledTime := time))
  }

  /** `deny_request`: the assigned business hands the request back. */
  function Deny(s: State, rid: nat): (r: Reply)
    ensures r.code == OK <==> AssignedToCaller(s, rid)
    ensures r.code != OK ==> r.state == s
    ensures r.code == OK ==> r.state == SetRequest(s, rid, s.requests[rid - 1].(assignee := None, status := "pending"))
  {
    AssignedOnly(s, rid, (m: Maintenance) => m.(assignee := None, status := "pending"))
  }

  /** `complete_request`: the assigned business closes the request. */
  function Complete(s: State, rid: nat): (r: Reply)
    ensures r.code == OK <==> AssignedToCaller(s, rid)
    ensures r.code != OK ==> r.state == s
    ensures r.code == OK ==> r.state == SetRequest(s, rid, s.requests[rid - 1].(status := "completed"))
  {
    AssignedOnly(s, rid, (m: Maintenance) => m.(status := "completed"))
  }

  /** Once assigned to a business, that business (logged in) can approve. */
  lemma AssignThenApprove(s: State, rid: nat, business: Id, date: Option<string>, time: Option<string>)
    requires Assign(s, rid, business).code == OK
    ensures var t := Assign(s, rid, business).state.(session := Some(business));
            Approve(t, rid, date, time).code == OK
  {
  }

  /** After denying, the business has no hold on the request any more. */
  lemma DenyReleases(s: State, rid: nat, date: Option<string>, time: Option<string>)
    requires Deny(s, rid).code == OK
    ensures var t := Deny(s, rid).state;
            Approve(t, rid, date, time) == Reply(Forbidden, t) &&
            Deny(t, rid) == Reply(Forbidden, t) &&
            Complete(t, rid) == Reply(Forbidden, t)
  {
  }

  /** A request nobody is assigned to cannot be approved, denied or completed. */
  lemma UnassignedIsLocked(s: State, rid: nat, date: Option<string>, time: Option<string>)
    requires 1 <= rid <= |s.requests| && s.requests[rid - 1].assignee.None?
    ensures Approve(s, rid, date, time).state == s && Approve(s, rid, date, time).code != OK
    ensures Deny(s, rid).state == s && Deny(s, rid).code != OK
    ensures Complete(s, rid).state == s && Complete(s, rid).code != OK
  {
  }

  // ---------------------------------------------------------------- upvotes

  predicate Voted(ups: seq<Upvote>, user: Id, rid: int) {
    exists i :: 0 <= i < |ups| && ups[i].user == user && ups[i].request == rid
  }

  /** The number of upvote rows for request `rid`. */
  function Votes(ups: seq<Upvote>, rid: int): nat {
    if ups == [] then 0
    else Votes(ups[..|ups| - 1], rid) + (if ups[|ups| - 1].request == rid then 1 else 0)
  }

  /** Each request's counter equals its number of upvote rows. */
  predicate VotesCounted(s: State) {
    forall k :: 0 <= k < |s.requests| ==> s.requests[k].upvotes == Votes(s.upvotes, k + 1)
  }

  /** The unique constraint on (user_id, request_id). */
  predicate OneVoteEach(ups: seq<Upvote>) {
    forall i, j :: 0 <= i < |ups| && 0 <= j < |ups| && ups[i] == ups[j] ==> i == j
  }

  /** `upvote_request`: a repeat by the same user is refused (400);
      otherwise one upvote row is stored and the counter goes up by one. */
  function UpvoteRequest(s: State, rid: nat): (r: Reply)
    ensures Caller(s).None? ==> r == Reply(Found, s)
    ensures r.code == Found <==> Caller(s).None?
    ensures r.code in {Found, NotFound, BadRequest, OK}
    ensures r.code != OK ==> r.state == s
    ensures r.code == NotFound <==> Caller(s).Some? && Row(s.requests, rid).None?
    ensures r.code == BadRequest <==> Caller(s).Some? && 1 <= rid <= |s.requests| && Voted(s.upvotes, s.session.value, rid)
    ensures r.code == OK <==> Caller(s).Some? && 1 <= rid <= |s.requests| && !Voted(s.upvotes, s.session.value, rid)
    ensures r.code == OK ==>
      r.state == s.(upvotes := s.upvotes + [Upvote(s.session.value, rid)],
                    requests := s.requests[rid - 1 := s.requests[rid - 1].(upvotes := s.requests[rid - 1].upvotes + 1)])
  {
    if Caller(s).None? then Reply(Found, s)
    else if Row(s.requests, rid).None? then Reply(NotFound, s)
    else
      var me := s.session.value;
      if FirstIndex(s.upvotes, (u: Upvote) => u.user == me && u.request == rid).Some? then Reply(BadRequest, s)
      else
        var m := s.requests[rid - 1];
        Reply(OK, s.(upvotes := s.upvotes + [Upvote(me, rid)],
                     requests := s.requests[rid - 1 := m.(upvotes := m.upvotes + 1)]))
  }

  /** One upvote per user and request: the second attempt is refused and
      leaves the count where the first one put it. */
  lemma UpvoteOnce(s: State, rid: nat)
    requires UpvoteRequest(s, rid).code == OK
    ensures var t := UpvoteRequest(s, rid).state;
            UpvoteRequest(t, rid) == Reply(BadRequest, t) &&
            t.requests[rid - 1].upvotes == s.requests[rid - 1].upvotes + 1
  {
    var t := UpvoteRequest(s, rid).state;
    assert t.upvotes[|s.upvotes|] == Upvote(s.session.value, rid);
  }

  /** Upvoting keeps every counter equal to its number of rows and keeps
      the rows unique. */
  lemma UpvoteKeepsCounts(s: State, rid: nat)
    requires VotesCounted(s) && OneVoteEach(s.upvotes)
    ensures VotesCounted(UpvoteRequest(s, rid).state)
    ensures OneVoteEach(UpvoteRequest(s, rid).state.upvotes)
  {
    var r := UpvoteRequest(s, rid);
    if r.code == OK {
      var t := r.state;
      assert t.upvotes[..|t.upvotes| - 1] == s.upvotes;
      forall k | 0 <= k < |t.requests| ensures t.requests[k].upvotes == Votes(t.upvotes, k + 1) {
        assert s.requests[k].upvotes == Votes(s.upvotes, k + 1);
      }
      var v := Upvote(s.session.value, rid);
      forall i, j | 0 <= i < |t.upvotes| && 0 <= j < |t.upvotes| && t.upvotes[i] == t.upvotes[j]
        ensures i == j
      {
      }
    }
  }

  // ---------------------------------------------------------------- chat messages

  /** The `limit` query argument as `int(...)` sees it. */
  datatype LimitArg = Missing | Integer(n: int) | NotInteger

  /** `get_messages`' page size: 50 by default and when the argument is not
      an integer, otherwise the argument clamped to [1, 200]. */
  function Clamp(arg: LimitArg): (k: int)
    ensures 1 <= k <= 200
    ensures arg.Integer? && 1 <= arg.n <= 200 ==> k == arg.n
    ensures arg.Integer? && arg.n < 1 ==> k == 1
    ensures arg.Integer? && arg.n > 200 ==> k == 200
    ensures !arg.Integer? ==> k == 50
  {
    var limit := if arg.Integer? then arg.n else 50;
    if arg.NotInteger? then 50
    else
      var atLeastOne := if limit > 1 then limit else 1;
      if atLeastOne < 200 then atLeastOne else 200
  }

  /** The messages of group `g`, oldest first. */
  function InGroup(ms: seq<Message>, g: int): (r: seq<Message>)
    ensures |r| <= |ms|
    ensures forall i :: 0 <= i < |r| ==> r[i].group == g && r[i] in ms
    ensures forall i :: 0 <= i < |ms| && ms[i].group == g ==> ms[i] in r
    ensures |ms| == 1 ==> r == if ms[0].group == g then ms else []
  {
    if ms == [] then []
    else
      var rest := InGroup(ms[..|ms| - 1], g);
      var last := ms[|ms| - 1];
      assert forall m :: m in ms[..|ms| - 1] ==> m in ms;
      if last.group == g then rest + [last] else rest
  }

  /** Filtering distributes over concatenation: every message of the group is
      kept, in its original order, duplicates included. */
  lemma {:induction false} InGroupConcat(a: seq<Message>, b: seq<Message>, g: int)
    ensures InGroup(a + b, g) == InGroup(a, g) + InGroup(b, g)
    decreases |b|
  {
    if b == [] {
      assert a + b == a;
    } else {
      var b', x := b[..|b| - 1], b[|b| - 1];
      assert b == b' + [x];
      assert a + b == (a + b') + [x];
      InGroupConcat(a, b', g);
      var keep := if x.group == g then [x] else [];
      calc {
        InGroup(a + b, g);
        { InGroupSnoc(a + b', x, g); }
        InGroup(a + b', g) + keep;
        InGroup(a, g) + InGroup(b', g) + keep;
        InGroup(a, g) + (InGroup(b', g) + keep);
        { InGroupSnoc(b', x, g); }
        InGroup(a, g) + InGroup(b, g);
      }
    }
  }

  /** One step of the filter: the last message is kept when it is of the group. */
  lemma InGroupSnoc(ms: seq<Message>, x: Message, g: int)
    ensures InGroup(ms + [x], g) == InGroup(ms, g) + (if x.group == g then [x] else [])
  {
    assert (ms + [x])[..|ms + [x]| - 1] == ms;
  }

  datatype Page = Page(code: int, messages: seq<Message>)

  /** `get_messages`: 404 for an unknown group, 403 for another society's
      group, otherwise the newest `Clamp(limit)` messages of the group in
      chronological order. */
  function GetMessages(s: State, group: Option<int>, limit: LimitArg): (p: Page)
    ensures Caller(s).None? ==> p == Page(Found, [])
    ensures p.code == Found <==> Caller(s).None?
    ensures p.code in {Found, NotFound, Forbidden, OK}
    ensures p.code != OK ==> p.messages == []
    ensures p.code == NotFound <==> Caller(s).Some? && (group.None? || Row(s.groups, group.value).None?)
    ensures p.code == Forbidden <==>
      Caller(s).Some? && group.Some? && 1 <= group.value <= |s.groups| &&
      s.groups[group.value - 1].society != Me(s).society
    ensures p.code == OK <==>
      Caller(s).Some? && group.Some? && 1 <= group.value <= |s.groups| &&
      s.groups[group.value - 1].society == Me(s).society
    ensures p.code == OK ==>
      var all := InGroup(s.messages, group.value);
      && |p.messages| == (if |all| < Clamp(limit) then |all| else Clamp(limit))
      && p.messages == all[|all| - |p.messages|..]
  {
    if Caller(s).None? then Page(Found, [])
    else if group.None? || Row(s.groups, group.value).None? then Page(NotFound, [])
    else if s.groups[group.value - 1].society != Me(s).society then Page(Forbidden, [])
    else
      var all := InGroup(s.messages, group.value);
      var k := Clamp(limit);
      var n := if k < |all| then k else |all|;
      NewestInOrder(all, n);
      Page(OK, Reverse(Reverse(all)[..n]))
  }

  /** The first `n` of the reversed list, reversed back, are the last `n` in order. */
  lemma NewestInOrder<T>(t: seq<T>, n: int)
    requires 0 <= n <= |t|
    ensures Reverse(Reverse(t)[..n]) == t[|t| - n..]
  {
    var u := Reverse(t);
    var r := Reverse(u[..n]);
    assert forall i :: 0 <= i < n ==> r[i] == u[n - 1 - i];
    TakeOfReversed(t, u, r, n);
  }

  /** `r` is the reverse of the first `n` of `u`, itself the reverse of `t`. */
  lemma TakeOfReversed<T>(t: seq<T>, u: seq<T>, r: seq<T>, n: int)
    requires 0 <= n <= |t| && |u| == |t| && |r| == n
    requires forall i :: 0 <= i < |t| ==> u[i] == t[|t| - 1 - i]
    requires forall i :: 0 <= i < n ==> r[i] == u[n - 1 - i]
    ensures r == t[|t| - n..]
  {
    forall i | 0 <= i < n
      ensures r[i] == t[|t| - n..][i]
    {
      assert r[i] == u[n - 1 - i];
    }
  }

  function Reverse<T>(t: seq<T>): (r: seq<T>)
    ensures |r| == |t|
    ensures forall i :: 0 <= i < |t| ==> r[i] == t[|t| - 1 - i]
  {
    seq(|t|, i requires 0 <= i < |t| => t[|t| - 1 - i])
  }

  // ---------------------------------------------------------------- visitors

  /** The visitor `vid` exists and is in the caller's society. */
  predicate VisitorInSociety(s: State, vid: int) {
    Caller(s).Some? && 1 <= vid <= |s.visitors| && Some(s.visitors[vid - 1].society) == Me(s).society
  }

  function SetVisitor(s: State, vid: int, v: Visitor): State
    requires 1 <= vid <= |s.visitors|
  {
    s.(visitors := s.visitors[vid - 1 := v])
  }

  /** `ask_visitor_permission`: a guard marks a visitor of the society as
      waiting for the resident's answer. */
  function AskPermission(s: State, vid: nat): (r: Reply)
    ensures Caller(s).None? ==> r == Reply(Found, s)
    ensures r.code == Found <==> Caller(s).None?
    ensures r.code in {Found, Forbidden, NotFound, OK}
    ensures r.code != OK ==> r.state == s
    ensures r.code == Forbidden <==> Caller(s).Some? && Me(s).role != "guard"
    ensures r.code == NotFound <==> Caller(s).Some? && Me(s).role == "guard" && !VisitorInSociety(s, vid)
    ensures r.code == OK <==> Caller(s).Some? && Me(s).role == "guard" && VisitorInSociety(s, vid)
    ensures r.code == OK ==>
      r.state == SetVisitor(s, vid, s.visitors[vid - 1].(permission := "pending", status := "permission_requested"))
  {
    if Caller(s).None? then Reply(Found, s)
    else if Me(s).role != "guard" then Reply(Forbidden, s)
    else if !VisitorInSociety(s, vid) then Reply(NotFound, s)
    else Reply(OK, SetVisitor(s, vid, s.visitors[vid - 1].(permission := "pending", status := "permission_requested")))
  }

  /** `respond_visitor_permission`: a resident whose flat number matches the
      visitor's answers 'allow' or 'deny', which sets both the status and
      the permission; any other action is refused (400). The visitor's
      society is not compared. */
  function RespondPermission(s: State, vid: nat, action: Option<string>): (r: Reply)
    ensures Caller(s).None? ==> r == Reply(Found, s)
    ensures r.code == Found <==> Caller(s).None?
    ensures r.code in {Found, Forbidden, NotFound, BadRequest, OK}
    ensures r.code != OK ==> r.state == s
    ensures r.code == Forbidden <==> Caller(s).Some? && Me(s).userType != "resident"
    ensures r.code == NotFound <==>
      Caller(s).Some? && Me(s).userType == "resident" &&
      !(1 <= vid <= |s.visitors| && Some(s.visitors[vid - 1].flat) == Me(s).flat)
    ensures r.code == BadRequest <==>
      Caller(s).Some? && Me(s).userType == "resident" &&
      1 <= vid <= |s.visitors| && Some(s.visitors[vid - 1].flat) == Me(s).flat &&
      action != Some("allow") && action != Some("deny")
    ensures r.code == OK <==>
      Caller(s).Some? && Me(s).userType == "resident" &&
      1 <= vid <= |s.visitors| && Some(s.visitors[vid - 1].flat) == Me(s).flat &&
      (action == Some("allow") || action == Some("deny"))
    ensures r.code == OK && action == Some("allow") ==>
      r.state == SetVisitor(s, vid, s.visitors[vid - 1].(permission := "allowed", status := "allowed"))
    ensures r.code == OK && action != Some("allow") ==>
      action == Some("deny") &&
      r.state == SetVisitor(s, vid, s.visitors[vid - 1].(permission := "denied", status := "denied"))
  {
    if Caller(s).None? then Reply(Found, s)
    else if Me(s).userType != "resident" then Reply(Forbidden, s)
    else if !(1 <= vid <= |s.visitors| && Some(s.visitors[vid - 1].flat) == Me(s).flat) then Reply(NotFound, s)
    else if action == Some("allow") then
      Reply(OK, SetVisitor(s, vid, s.visitors[vid - 1].(permission := "allowed", status := "allowed")))
    else if action == Some("deny") then
      Reply(OK, SetVisitor(s, vid, s.visitors[vid - 1].(permission := "denied", status := "denied")))
    else Reply(BadRequest, s)
  }

  /** `visitor_exit`: a guard of the society records the exit time. */
  function VisitorExit(s: State, vid: nat, now: int): (r: Reply)
    ensures Caller(s).None? ==> r == Reply(Found, s)
    ensures r.code == Found <==> Caller(s).None?
    ensures r.code in {Found, Forbidden, NotFound, OK}
    ensures r.code != OK ==> r.state == s
    ensures r.code == Forbidden <==> Caller(s).Some? && Me(s).role != "guard"
    ensures r.code == NotFound <==> Caller(s).Some? && Me(s).role == "guard" && !VisitorInSociety(s, vid)
    ensures r.code == OK <==> Caller(s).Some? && Me(s).role == "guard" && VisitorInSociety(s, vid)
    ensures r.code == OK ==>
      r.state == SetVisitor(s, vid, s.visitors[vid - 1].(exitTime := Some(now), status := "exited"))
  {
    if Caller(s).None? then Reply(Found, s)
    else if Me(s).role != "guard" then Reply(Forbidden, s)
    else if !VisitorInSociety(s, vid) then Reply(NotFound, s)
    else Reply(OK, SetVisitor(s, vid, s.visitors[vid - 1].(exitTime := Some(now), status := "exited")))
  }

  /** `pre_approve_visitor`: a resident registers a visitor for the own flat
      and society, pre-approved and allowed. The two columns are NOT NULL,
      so a resident without a flat or society makes the insert fail (500). */
  function PreApprove(s: State, name: string, now: int): (r: Reply)
    ensures Caller(s).None? ==> r == Reply(Found, s)
    ensures r.code == Found <==> Caller(s).None?
    ensures r.code in {Found, Forbidden, ServerError, OK}
    ensures r.code != OK ==> r.state == s
    ensures r.code == Forbidden <==> Caller(s).Some? && Me(s).userType != "resident"
    ensures r.code == ServerError <==>
      Caller(s).Some? && Me(s).userType == "resident" && (Me(s).flat.None? || Me(s).society.None?)
    ensures r.code == OK <==>
      Caller(s).Some? && Me(s).userType == "resident" && Me(s).flat.Some? && Me(s).society.Some?
    ensures r.code == OK ==>
      r.state == s.(visitors := s.visitors +
        [Visitor(name, Me(s).flat.value, Me(s).society.value, None, None, s.session,
                 "pre_approved", "allowed", now, None)])
  {
    if Caller(s).None? then Reply(Found, s)
    else if Me(s).userType != "resident" then Reply(Forbidden, s)
    else if Me(s).flat.None? || Me(s).society.None? then Reply(ServerError, s)
    else
      var v := Visitor(name, Me(s).flat.value, Me(s).society.value, None, None, s.session,
                       "pre_approved", "allowed", now, None);
      Reply(OK, s.(visitors := s.visitors + [v]))
  }

  /** The `qr_data` field of `verify_visitor_qr`'s body, by how
      `json.loads(...)` and `.get('visitor_id')` fare on it. */
  datatype QrData =
    | NoQrField            // KeyError: 500
    | NotText              // TypeError from json.loads: 500
    | Malformed            // JSONDecodeError: 400
    | NotObject            // valid JSON without .get: 500
    | QrObject(visitorId: Option<int>)

  /** `verify_visitor_qr`: the guard's scan; a falsy id is refused (400), an
      unknown visitor is 404, another society's 403, an exited visitor 400.
      Otherwise the guard and entry time are recorded and a pre-approved
      visitor becomes allowed; any other status stays. */
  function VerifyQr(s: State, qr: QrData, now: int): (r: Reply)
    ensures Caller(s).None? ==> r == Reply(Found, s)
    ensures r.code == Found <==> Caller(s).None?
    ensures r.code != OK ==> r.state == s
    ensures r.code in {Found, OK, BadRequest, Forbidden, NotFound, ServerError}
    ensures r.code == ServerError <==>
      Caller(s).Some? && Me(s).role == "guard" && (qr.NoQrField? || qr.NotText? || qr.NotObject?)
    ensures Caller(s).Some? && Me(s).role != "guard" ==> r.code == Forbidden
    ensures Caller(s).Some? && Me(s).role == "guard" && qr.Malformed? ==> r.code == BadRequest
    ensures Caller(s).Some? && Me(s).role == "guard" && qr.QrObject? && (qr.visitorId.None? || qr.visitorId.value == 0)
            ==> r.code == BadRequest
    ensures Caller(s).Some? && Me(s).role == "guard" && qr.QrObject? && qr.visitorId.Some? && qr.visitorId.value != 0
            ==> (r.code == NotFound <==> Row(s.visitors, qr.visitorId.value).None?)
    ensures Caller(s).Some? && Me(s).role == "guard" && qr.QrObject? && qr.visitorId.Some? &&
            1 <= qr.visitorId.value <= |s.visitors| && !VisitorInSociety(s, qr.visitorId.value)
            ==> r.code == Forbidden
    ensures r.code == OK <==>
      Caller(s).Some? && Me(s).role == "guard" && qr.QrObject? && qr.visitorId.Some? &&
      VisitorInSociety(s, qr.visitorId.value) && s.visitors[qr.visitorId.value - 1].status != "exited"
    ensures r.code == OK ==>
      && Me(s).role == "guard" && qr.QrObject? && qr.visitorId.Some?
      && var vid := qr.visitorId.value;
      && VisitorInSociety(s, vid)
      && var v := s.visitors[vid - 1];
      && v.status != "exited"
      && r.state == SetVisitor(s, vid, v.(
           guard := s.session, guardName := Some(Me(s).fullName), entryTime := now,
           status := if v.status == "pre_approved" then "allowed" else v.status))
    ensures qr.QrObject? && qr.visitorId.Some? && Caller(s).Some? && Me(s).role == "guard" &&
            VisitorInSociety(s, qr.visitorId.value) && s.visitors[qr.visitorId.value - 1].status == "exited"
            ==> r == Reply(BadRequest, s)
  {
    if Caller(s).None? then Reply(Found, s)
    else if Me(s).role != "guard" then Reply(Forbidden, s)
    else
      match qr
      case NoQrField => Reply(ServerError, s)
      case NotText => Reply(ServerError, s)
      case Malformed => Reply(BadRequest, s)
      case NotObject => Reply(ServerError, s)
      case QrObject(id) =>
        if id.None? || id.value == 0 then Reply(BadRequest, s)
        else if Row(s.visitors, id.value).None? then Reply(NotFound, s)
        else
          var vid := id.value;
          var v := s.visitors[vid - 1];
          if Some(v.society) != Me(s).society then Reply(Forbidden, s)
          else if v.status == "exited" then Reply(BadRequest, s)
          else
            Reply(OK, SetVisitor(s, vid, v.(
              guard := s.session, guardName := Some(Me(s).fullName), entryTime := now,
              status := if v.status == "pre_approved" then "allowed" else v.status)))
  }

  /** A pre-approved visitor passes a guard of the same society at the gate
      and ends up allowed. */
  lemma PreApproveThenScan(s: State, name: string, guard: Id, now: int, later: int)
    requires PreApprove(s, name, now).code == OK
    requires 1 <= guard <= |s.users| && s.users[guard - 1].role == "guard"
    requires s.users[guard - 1].society == Me(s).society
    ensures var t := PreApprove(s, name, now).state.(session := Some(guard));
            var r := VerifyQr(t, QrObject(Some(|s.visitors| + 1)), later);
            r.code == OK && r.state.visitors[|s.visitors|].status == "allowed"
  {
  }

  /** Once a guard logs the exit, every later scan of that visitor is refused. */
  lemma ExitThenScanRefused(s: State, vid: nat, now: int, later: int)
    requires VisitorExit(s, vid, now).code == OK
    ensures var t := VisitorExit(s, vid, now).state;
            VerifyQr(t, QrObject(Some(vid)), later) == Reply(BadRequest, t)
  {
  }

  /** The resident's answer is matched on the flat number only: a resident
      of another society with the same flat number can answer for the visitor,
      even one who has already left. */
  lemma RespondIgnoresSociety(s: State, vid: nat)
    requires Caller(s).Some? && Me(s).userType == "resident"
    requires 1 <= vid <= |s.visitors| && Some(s.visitors[vid - 1].flat) == Me(s).flat
    ensures RespondPermission(s, vid, Some("allow")).code == OK
    ensures RespondPermission(s, vid, Some("allow")).state.visitors[vid - 1].status == "allowed"
  {
  }

  // ---------------------------------------------------------------- dashboards

  datatype Dashboard = ResidentBoard | AdminBoard | GuardBoard | BusinessBoard

  /** What a `/dashboard/...` route answers: the login view for an anonymous
      request, a redirect, or the dashboard's template. */
  datatype View = ToLogin | Redirect(path: string) | Render(board: Dashboard)

  /** The per-dashboard role test that follows the approval check. */
  predicate MayOpen(u: User, d: Dashboard): (b: bool)
    ensures d == ResidentBoard ==> (b <==> u.userType == "resident" && u.role in {"resident", "admin"})
    ensures d == AdminBoard ==> (b <==> u.role == "admin")
    ensures d == GuardBoard ==> (b <==> u.role == "guard")
    ensures d == BusinessBoard ==> (b <==> u.userType == "business")
    ensures b && u.role == "guard" && u.userType == "resident" ==> d == GuardBoard
  {
    match d
    case ResidentBoard => u.userType == "resident" && (u.role == "resident" || u.role == "admin")
    case AdminBoard => u.role == "admin"
    case GuardBoard => u.role == "guard"
    case BusinessBoard => u.userType == "business"
  }

  /** The four dashboard routes: an unapproved user and a user of the wrong
      kind are both sent to "/". */
  function DashboardPage(s: State, d: Dashboard): (v: View)
    ensures Caller(s).None? <==> v == ToLogin
    ensures v.Render? ==> v.board == d
    ensures v.Render? <==> Caller(s).Some? && Me(s).isApproved && MayOpen(Me(s), d)
    ensures v.Redirect? ==> v.path == "/"
  {
    if Caller(s).None? then ToLogin
    else if !Me(s).isApproved then Redirect("/")
    else if !MayOpen(Me(s), d) then Redirect("/")
    else Render(d)
  }

  /** The dashboard a `/dashboard/...` path names. */
  function BoardAt(path: string): Option<Dashboard> {
    if path == "/dashboard/resident" then Some(ResidentBoard)
    else if path == "/dashboard/admin" then Some(AdminBoard)
    else if path == "/dashboard/guard" then Some(GuardBoard)
    else if path == "/dashboard/business" then Some(BusinessBoard)
    else None
  }

  /** Where the landing page sends a logged-in user after login, and whether
      the server then renders that dashboard: it does for businesses, admins,
      guards and resident-type residents, and bounces everyone else to "/"
      (for instance a user of type "guard" whose role is "resident"). */
  lemma LandingRedirectRenders(s: State)
    requires Caller(s).Some? && Me(s).isApproved
    ensures var d := BoardAt(Landing.RedirectToDashboard(Me(s).userType, Me(s).role));
            d.Some? &&
            (DashboardPage(s, d.value).Render? <==>
               Me(s).userType == "business" || Me(s).role == "admin" || Me(s).role == "guard" ||
               (Me(s).userType == "resident" && Me(s).role == "resident"))
  {
    var u := Me(s);
    var path := Landing.RedirectToDashboard(u.userType, u.role);
    if u.userType == "business" {
      assert path == "/dashboard/business";
    } else if u.role == "admin" {
      assert path == "/dashboard/admin";
    } else if u.role == "guard" {
      assert path == "/dashboard/guard";
    } else {
      assert path == "/dashboard/resident";
    }
  }
}
