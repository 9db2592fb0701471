/** The server's database as mutable tables. Each route handler of app.py is
    a method that checks its guards and then updates the rows in place, field
    by field as the handler does before `db.session.commit()`. Every method
    is proved to answer the status code and leave exactly the tables that
    the route's function in `Backend` gives. */
module BackendStore {
  import opened Wrappers
  import Backend

  class Store {
    var users: seq<Backend.User>
    var approvals: seq<Backend.ApprovalRequest>
    var memberships: seq<Backend.BusinessSociety>
    var tokens: seq<Backend.ResetToken>
    var societies: seq<Backend.Society>
    var requests: seq<Backend.Maintenance>
    var upvotes: seq<Backend.Upvote>
    var visitors: seq<Backend.Visitor>
    var groups: seq<Backend.ChatGroup>
    var messages: seq<Backend.Message>
    var session: Option<Backend.Id>

    /** The tables and the session as one value. */
    function State(): Backend.State
      reads this
    {
      Backend.State.State(users, approvals, memberships, tokens, societies, requests,
                          upvotes, visitors, groups, messages, session)
    }

    constructor(initial: Backend.State)
      ensures State() == initial
    {
      users := initial.users;
      approvals := initial.approvals;
      memberships := initial.memberships;
      tokens := initial.tokens;
      societies := initial.societies;
      requests := initial.requests;
      upvotes := initial.upvotes;
      visitors := initial.visitors;
      groups := initial.groups;
      messages := initial.messages;
      session := initial.session;
    }

    /** `signup`, adding one membership row per listed society in a loop. */
    method Signup(f: Backend.SignupForm) returns (code: int)
      modifies this
      ensures code == Backend.Signup(old(State()), f).code
      ensures State() == Backend.Signup(old(State()), f).state
    {
      if Backend.FirstIndex(users, (u: Backend.User) => u.email == f.email).Some? {
        return Backend.BadRequest;
      }
      var business := f.userType == "business";
      users := users + [Backend.User(f.email, f.password, f.fullName, f.userType, f.role.GetOr("resident"),
                                     false, business, f.society, f.flat)];
      var id := |users|;
      if business && f.societies.Some? {
        AddMemberships(id, f.societies.value);
      }
      if !business {
        approvals := approvals +
          [Backend.ApprovalRequest(id, f.fullName, f.email, f.userType, f.society.GetOr(""), "pending")];
        return Backend.OK;
      }
      session := Some(id);
      return Backend.OK;
    }

    /** The loop of `signup` that adds one `BusinessSociety` row per listed society. */
    method AddMemberships(id: Backend.Id, names: seq<string>)
      modifies this
      ensures State() == old(State()).(memberships := old(memberships) + Backend.Memberships(id, names))
    {
      var rows := memberships;
      var i := 0;
      while i < |names|
        invariant 0 <= i <= |names|
        invariant rows == old(memberships) + Backend.Memberships(id, names[..i])
      {
        assert names[..i + 1][..i] == names[..i];
        rows := rows + [Backend.BusinessSociety(id, names[i])];
        i := i + 1;
      }
      assert names[..|names|] == names;
      memberships := rows;
    }

    /** `login`. */
    method Login(email: string, password: string) returns (code: int)
      modifies this
      ensures code == Backend.Login(old(State()), email, password).code
      ensures State() == Backend.Login(old(State()), email, password).state
    {
      var found := Backend.FirstIndex(users, (u: Backend.User) => u.email == email);
      if found.None? || users[found.value].password != password {
        return Backend.Unauthorized;
      }
      if !users[found.value].isApproved {
        return Backend.Forbidden;
      }
      session := Some(found.value + 1);
      return Backend.OK;
    }

    /** `logout`. */
    method Logout() returns (code: int)
      modifies this
      ensures code == Backend.Logout(old(State())).code
      ensures State() == Backend.Logout(old(State())).state
    {
      if Backend.Caller(State()).None? {
        return Backend.Found;
      }
      session := None;
      return Backend.OK;
    }

    /** `forgot_password`, with the drawn token and the clock as inputs. */
    method ForgotPassword(email: Option<string>, token: string, now: int) returns (code: int)
      modifies this
      ensures code == Backend.ForgotPassword(old(State()), email, token, now).code
      ensures State() == Backend.ForgotPassword(old(State()), email, token, now).state
    {
      if email.None? {
        return Backend.OK;
      }
      var found := Backend.FirstIndex(users, (u: Backend.User) => u.email == email.value);
      if found.None? {
        return Backend.OK;
      }
      if Backend.FirstIndex(tokens, (t: Backend.ResetToken) => t.token == token).Some? {
        return Backend.ServerError;
      }
      tokens := tokens + [Backend.ResetToken(found.value + 1, token, now, false)];
      return Backend.OK;
    }

    /** `reset_password`: the password is set, then the token marked used. */
    method ResetPassword(token: Option<string>, newPassword: Option<string>, now: int) returns (code: int)
      modifies this
      ensures code == Backend.ResetPassword(old(State()), token, newPassword, now).code
      ensures State() == Backend.ResetPassword(old(State()), token, newPassword, now).state
    {
      if Backend.Blank(token) || Backend.Blank(newPassword) {
        return Backend.BadRequest;
      }
      var found := Backend.FirstIndex(tokens, (t: Backend.ResetToken) => t.token == token.value && !t.used);
      if found.None? {
        return Backend.BadRequest;
      }
      var i := found.value;
      if now - tokens[i].createdAt > 3600 {
        return Backend.BadRequest;
      }
      var owner := tokens[i].user;
      if !(1 <= owner <= |users|) {
        return Backend.NotFound;
      }
      users := users[owner - 1 := users[owner - 1].(password := newPassword.value)];
      tokens := tokens[i := tokens[i].(used := true)];
      return Backend.OK;
    }

    /** `promote_user`. */
    method Promote(target: int) returns (code: int)
      modifies this
      ensures code == Backend.Promote(old(State()), target).code
      ensures State() == Backend.Promote(old(State()), target).state
    {
      if Backend.Caller(State()).None? {
        return Backend.Found;
      }
      if !Backend.MainAdminCalling(State()) {
        return Backend.Forbidden;
      }
      if !Backend.InCallersSociety(State(), target) {
        return Backend.NotFound;
      }
      users := users[target - 1 := users[target - 1].(role := "admin")];
      users := users[target - 1 := users[target - 1].(isMainAdmin := false)];
      return Backend.OK;
    }

    /** `demote_user`. */
    method Demote(target: int) returns (code: int)
      modifies this
      ensures code == Backend.Demote(old(State()), target).code
      ensures State() == Backend.Demote(old(State()), target).state
    {
      if Backend.Caller(State()).None? {
        return Backend.Found;
      }
      if !Backend.MainAdminCalling(State()) {
        return Backend.Forbidden;
      }
      if !Backend.InCallersSociety(State(), target) {
        return Backend.NotFound;
      }
      if users[target - 1].isMainAdmin {
        return Backend.BadRequest;
      }
      users := users[target - 1 := users[target - 1].(role := "resident")];
      return Backend.OK;
    }

    /** `transfer_main_admin`: three field writes in the handler's order,
      then the society row. */
    method TransferMainAdmin(target: int) returns (code: int)
      modifies this
      ensures code == Backend.TransferMainAdmin(old(State()), target).code
      ensures State() == Backend.TransferMainAdmin(old(State()), target).state
    {
      if Backend.Caller(State()).None? {
        return Backend.Found;
      }
      if !Backend.MainAdminCalling(State()) {
        return Backend.Forbidden;
      }
      if !Backend.InCallersSociety(State(), target) {
        return Backend.NotFound;
      }
      var me := session.value;
      users := users[me - 1 := users[me - 1].(isMainAdmin := false)];
      users := users[target - 1 := users[target - 1].(role := "admin")];
      users := users[target - 1 := users[target - 1].(isMainAdmin := true)];
      var society := Backend.FirstIndex(societies, (c: Backend.Society) => c.admin == Some(me));
      if society.Some? {
        societies := societies[society.value := societies[society.value].(admin := Some(target))];
      }
      return Backend.OK;
    }

    /** `demote_admin`. */
    method DemoteAdmin(target: int) returns (code: int)
      modifies this
      ensures code == Backend.DemoteAdmin(old(State()), target).code
      ensures State() == Backend.DemoteAdmin(old(State()), target).state
    {
      if Backend.Caller(State()).None? {
        return Backend.Found;
      }
      if Backend.Me(State()).role != "admin" {
        return Backend.Forbidden;
      }
      if !(Backend.InCallersSociety(State(), target) && users[target - 1].role == "admin") {
        return Backend.NotFound;
      }
      if target == session.value {
        return Backend.BadRequest;
      }
      users := users[target - 1 := users[target - 1].(role := "resident")];
      return Backend.OK;
    }

    /** `engage_request`. */
    method Engage(rid: nat) returns (code: int)
      modifies this
      ensures code == Backend.Engage(old(State()), rid).code
      ensures State() == Backend.Engage(old(State()), rid).state
    {
      if Backend.Caller(State()).None? {
        return Backend.Found;
      }
      if !(1 <= rid <= |requests|) {
        return Backend.NotFound;
      }
      var me := Backend.Me(State());
      if me.userType != "resident" || requests[rid - 1].society != me.society {
        return Backend.Forbidden;
      }
      if requests[rid - 1].requestType != "public" {
        return Backend.BadRequest;
      }
      requests := requests[rid - 1 := requests[rid - 1].(engaged := true)];
      return Backend.OK;
    }

    /** `assign_to_business`. */
    method Assign(rid: nat, business: int) returns (code: int)
      modifies this
      ensures code == Backend.Assign(old(State()), rid, business).code
      ensures State() == Backend.Assign(old(State()), rid, business).state
    {
      if Backend.Caller(State()).None? {
        return Backend.Found;
      }
      if !(1 <= rid <= |requests|) {
        return Backend.NotFound;
      }
      if !Backend.MayAssign(State(), requests[rid - 1]) {
        return Backend.Forbidden;
      }
      if !(1 <= business <= |users| && users[business - 1].userType == "business") {
        return Backend.BadRequest;
      }
      requests := requests[rid - 1 := requests[rid - 1].(assignee := Some(business))];
      requests := requests[rid - 1 := requests[rid - 1].(status := "pending")];
      return Backend.OK;
    }

    /** The guard shared by approve, deny and complete: the code it answers,
      or `OK` when the caller may act on the request. */
    method CheckAssigned(rid: nat) returns (code: int)
      ensures code == Backend.OK <==> Backend.AssignedToCaller(State(), rid)
      ensures code != Backend.OK ==>
        code == Backend.AssignedOnly(State(), rid, (m: Backend.Maintenance) => m).code
    {
      if Backend.Caller(State()).None? {
        return Backend.Found;
      }
      if !(1 <= rid <= |requests|) {
        return Backend.NotFound;
      }
      if requests[rid - 1].assignee != session {
        return Backend.Forbidden;
      }
      return Backend.OK;
    }

    /** `approve_request`. */
    method Approve(rid: nat, date: Option<string>, time: Option<string>) returns (code: int)
      modifies this
      ensures code == Backend.Approve(old(State()), rid, date, time).code
      ensures State() == Backend.Approve(old(State()), rid, date, time).state
    {
      code := CheckAssigned(rid);
      if code != Backend.OK {
        return;
      }
      requests := requests[rid - 1 := requests[rid - 1].(status := "in_progress")];
      requests := requests[rid - 1 := requests[rid - 1].(scheduledDate := date)];
      requests := requests[rid - 1 := requests[rid - 1].(scheduledTime := time)];
    }

    /** `deny_request`. */
    method Deny(rid: nat) returns (code: int)
      modifies this
      ensures code == Backend.Deny(old(State()), rid).code
      ensures State() == Backend.Deny(old(State()), rid).state
    {
      code := CheckAssigned(rid);
      if code != Backend.OK {
        return;
      }
      requests := requests[rid - 1 := requests[rid - 1].(assignee := None)];
      requests := requests[rid - 1 := requests[rid - 1].(status := "pending")];
    }

    /** `complete_request`. */
    method Complete(rid: nat) returns (code: int)
      modifies this
      ensures code == Backend.Complete(old(State()), rid).code
      ensures State() == Backend.Complete(old(State()), rid).state
    {
      code := CheckAssigned(rid);
      if code != Backend.OK {
        return;
      }
      requests := requests[rid - 1 := requests[rid - 1].(status := "completed")];
    }

    /** `upvote_request`: the upvote row is added, then the counter bumped. */
    method UpvoteRequest(rid: nat) returns (code: int)
      modifies this
      ensures code == Backend.UpvoteRequest(old(State()), rid).code
      ensures State() == Backend.UpvoteRequest(old(State()), rid).state
    {
      if Backend.Caller(State()).None? {
        return Backend.Found;
      }
      if !(1 <= rid <= |requests|) {
        return Backend.NotFound;
      }
      var me := session.value;
      if Backend.FirstIndex(upvotes, (u: Backend.Upvote) => u.user == me && u.request == rid).Some? {
        return Backend.BadRequest;
      }
      upvotes := upvotes + [Backend.Upvote(me, rid)];
      requests := requests[rid - 1 := requests[rid - 1].(upvotes := requests[rid - 1].upvotes + 1)];
      return Backend.OK;
    }

    /** `ask_visitor_permission`. */
    method AskPermission(vid: nat) returns (code: int)
      modifies this
      ensures code == Backend.AskPermission(old(State()), vid).code
      ensures State() == Backend.AskPermission(old(State()), vid).state
    {
      if Backend.Caller(State()).None? {
        return Backend.Found;
      }
      if Backend.Me(State()).role != "guard" {
        return Backend.Forbidden;
      }
      if !Backend.VisitorInSociety(State(), vid) {
        return Backend.NotFound;
      }
      visitors := visitors[vid - 1 := visitors[vid - 1].(permission := "pending")];
      visitors := visitors[vid - 1 := visitors[vid - 1].(status := "permission_requested")];
      return Backend.OK;
    }

    /** `respond_visitor_permission`. */
    method RespondPermission(vid: nat, action: Option<string>) returns (code: int)
      modifies this
      ensures code == Backend.RespondPermission(old(State()), vid, action).code
      ensures State() == Backend.RespondPermission(old(State()), vid, action).state
    {
      if Backend.Caller(State()).None? {
        return Backend.Found;
      }
      var me := Backend.Me(State());
      if me.userType != "resident" {
        return Backend.Forbidden;
      }
      if !(1 <= vid <= |visitors| && Some(visitors[vid - 1].flat) == me.flat) {
        return Backend.NotFound;
      }
      if action == Some("allow") {
        visitors := visitors[vid - 1 := visitors[vid - 1].(permission := "allowed")];
        visitors := visitors[vid - 1 := visitors[vid - 1].(status := "allowed")];
      } else if action == Some("deny") {
        visitors := visitors[vid - 1 := visitors[vid - 1].(permission := "denied")];
        visitors := visitors[vid - 1 := visitors[vid - 1].(status := "denied")];
      } else {
        return Backend.BadRequest;
      }
      return Backend.OK;
    }

    /** `visitor_exit`. */
    method VisitorExit(vid: nat, now: int) returns (code: int)
      modifies this
      ensures code == Backend.VisitorExit(old(State()), vid, now).code
      ensures State() == Backend.VisitorExit(old(State()), vid, now).state
    {
      if Backend.Caller(State()).None? {
        return Backend.Found;
      }
      if Backend.Me(State()).role != "guard" {
        return Backend.Forbidden;
      }
      if !Backend.VisitorInSociety(State(), vid) {
        return Backend.NotFound;
      }
      visitors := visitors[vid - 1 := visitors[vid - 1].(exitTime := Some(now))];
      visitors := visitors[vid - 1 := visitors[vid - 1].(status := "exited")];
      return Backend.OK;
    }

    /** `pre_approve_visitor`. */
    method PreApprove(name: string, now: int) returns (code: int)
      modifies this
      ensures code == Backend.PreApprove(old(State()), name, now).code
      ensures State() == Backend.PreApprove(old(State()), name, now).state
    {
      if Backend.Caller(State()).None? {
        return Backend.Found;
      }
      var me := Backend.Me(State());
      if me.userType != "resident" {
        return Backend.Forbidden;
      }
      if me.flat.None? || me.society.None? {
        return Backend.ServerError;
      }
      visitors := visitors + [Backend.Visitor(name, me.flat.value, me.society.value, None, None, session,
                                               "pre_approved", "allowed", now, None)];
      return Backend.OK;
    }

    /** `verify_visitor_qr`. */
    method VerifyQr(qr: Backend.QrData, now: int) returns (code: int)
      modifies this
      ensures code == Backend.VerifyQr(old(State()), qr, now).code
      ensures State() == Backend.VerifyQr(old(State()), qr, now).state
    {
      if Backend.Caller(State()).None? {
        return Backend.Found;
      }
      var me := Backend.Me(State());
      if me.role != "guard" {
        return Backend.Forbidden;
      }
      if qr.Malformed? {
        return Backend.BadRequest;
      }
      if !qr.QrObject? {
        return Backend.ServerError;
      }
      if qr.visitorId.None? || qr.visitorId.value == 0 {
        return Backend.BadRequest;
      }
      var vid := qr.visitorId.value;
      if !(1 <= vid <= |visitors|) {
        return Backend.NotFound;
      }
      if Some(visitors[vid - 1].society) != me.society {
        return Backend.Forbidden;
      }
      if visitors[vid - 1].status == "exited" {
        return Backend.BadRequest;
      }
      visitors := visitors[vid - 1 := visitors[vid - 1].(guard := session)];
      visitors := visitors[vid - 1 := visitors[vid - 1].(guardName := Some(me.fullName))];
      visitors := visitors[vid - 1 := visitors[vid - 1].(entryTime := now)];
      if visitors[vid - 1].status == "pre_approved" {
        visitors := visitors[vid - 1 := visitors[vid - 1].(status := "allowed")];
      }
      return Backend.OK;
    }
  }
}
