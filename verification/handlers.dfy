/** The request handlers of the API, each a pure function from the store
    (and the request) to either an HTTP error or the new store and the
    response. An error carries no store: a handler that fails has written
    nothing. The bearer token reaches a protected handler as the outcome of
    decoding it; the clock reaches it as `now`. */
module Handlers {
  import opened Base
  import opened Models
  import opened Auth
  import opened Schemas
  import opened Feed

  /** What a handler reads of the request besides its body: the client's
      address, if known, and the headers, keyed by lower-case name. */
  datatype Request = Request(clientHost: Option<string>, headers: map<string, string>)

  const InvalidCredentials: Error := HttpError(Unauthorized, "Invalid authentication credentials")
  const InvalidPayload: Error := HttpError(Unauthorized, "Invalid token payload")
  const UserNotFound: Error := HttpError(Unauthorized, "User not found")
  const InvalidGoogleToken: Error := HttpError(Unauthorized, "Invalid Google token")
  const NotificationNotFound: Error := HttpError(NotFound, "Notification not found")

  const WelcomeTitle: string := "Welcome to Coding Ka Big Boss!"
  const WelcomeMessage: string := "Complete your profile to get started with the hackathon."

  /** At most this many notifications are listed. */
  const NotificationLimit: nat := 20

  /** The `details` of a login activity. */
  const GoogleLoginDetails: Payload := map["method" := Str("google")]

  // ---------------------------------------------------------------------
  // Session resolution

  /** The `user_id` claim names row `k`. */
  ghost predicate Names(payload: Payload, st: Store, k: nat) {
    k < |st.users| && Get(payload, "user_id") == Int(st.users[k].id)
  }

  /** `get_current_user`, answering with the caller's row index. A missing
      or null `user_id` is an invalid payload; an id no row carries, or one
      that is not an integer, is an unknown user. */
  function Authenticate(credentials: DecodeOutcome, st: Store): (r: Result<nat, Error>)
    ensures credentials.JWTError? ==> r == Err(InvalidCredentials)
    ensures credentials.Decoded? && Get(credentials.claims, "user_id") == Null ==> r == Err(InvalidPayload)
    ensures r.Ok? <==> credentials.Decoded? && exists k :: Names(credentials.claims, st, k)
    ensures r.Ok? ==> Names(credentials.claims, st, r.value)
    ensures r.Err? ==> r.error.status == Unauthorized
    ensures r.Err? && credentials.Decoded? && Get(credentials.claims, "user_id") != Null ==>
              r.error == UserNotFound
  {
    match VerifyToken(credentials)
    case None => Err(InvalidCredentials)
    case Some(payload) =>
      var claim := Get(payload, "user_id");
      if claim.Null? then Err(InvalidPayload)
      else if !claim.Int? then Err(UserNotFound)
      else match FirstIndex(st.users, HasId(claim.i))
        case None => Err(UserNotFound)
        case Some(k) =>
          assert Names(payload, st, k);
          Ok(k)
  }

  /** `get_current_user`, and the `/api/auth/me` route that returns it. */
  function GetCurrentUser(credentials: DecodeOutcome, st: Store): (r: Result<User, Error>)
    ensures r.Err? <==> Authenticate(credentials, st).Err?
    ensures r.Err? ==> r.error.status == Unauthorized
    ensures r.Err? ==> r.error == Authenticate(credentials, st).error
    ensures r.Ok? ==> r.value in st.users && Get(credentials.claims, "user_id") == Int(r.value.id)
  {
    var k :- Authenticate(credentials, st);
    Ok(st.users[k])
  }

  // ---------------------------------------------------------------------
  // Activity log

  function UserAgent(req: Request): Option<string> {
    if "user-agent" in req.headers then Some(req.headers["user-agent"]) else None
  }

  /** `log_activity`: appends one record and changes nothing else. */
  function LogActivity(st: Store, userId: nat, activityType: string, details: Payload,
                       req: Request, now: nat): (st': Store)
    ensures |st'.activities| == |st.activities| + 1
    ensures st'.activities[..|st.activities|] == st.activities
    ensures st'.activities[|st.activities|] ==
              Activity(userId, activityType, details, req.clientHost, UserAgent(req), now)
    ensures st' == st.(activities := st'.activities)
  {
    st.(activities := st.activities + [Activity(userId, activityType, details, req.clientHost, UserAgent(req), now)])
  }

  // ---------------------------------------------------------------------
  // Sign-in

  /** The row created for an email seen for the first time. */
  function NewUser(id: nat, g: GoogleUser, now: nat): User {
    User(id, g.email, g.name, None, None, None, None, None, None, Some(g.picture), now)
  }

  /** The notification a new user receives. */
  function Welcome(id: nat, userId: nat, now: nat): Notification {
    Notification(id, userId, WelcomeTitle, WelcomeMessage, Some("welcome"), false, now)
  }

  /** The user with `g`'s email, created (with a welcome notification) if
      there is none. */
  function ResolveUser(st: Store, g: GoogleUser, now: nat): (r: (Store, User))
    ensures (exists i :: 0 <= i < |st.users| && st.users[i].email == g.email) ==>
              r.0 == st && r.1 in st.users && r.1.email == g.email
    ensures (forall i :: 0 <= i < |st.users| ==> st.users[i].email != g.email) ==>
              && r.1 == NewUser(st.nextUserId, g, now)
              && r.0 == st.(users := st.users + [r.1],
                            notifications := st.notifications + [Welcome(st.nextNotificationId, r.1.id, now)],
                            nextUserId := st.nextUserId + 1,
                            nextNotificationId := st.nextNotificationId + 1)
  {
    match First(st.users, HasEmail(g.email))
    case Some(u) => (st, u)
    case None =>
      var u := NewUser(st.nextUserId, g, now);
      var n := Welcome(st.nextNotificationId, u.id, now);
      (st.(users := st.users + [u],
           notifications := st.notifications + [n],
           nextUserId := st.nextUserId + 1,
           nextNotificationId := st.nextNotificationId + 1), u)
  }

  /** The claims of the session token issued at sign-in. */
  function SessionClaims(u: User): Payload {
    map["user_id" := Int(u.id), "email" := Str(u.email)]
  }

  /** `google_auth`. */
  function GoogleAuth(st: Store, google: GoogleOutcome, req: Request, now: nat): (r: Result<(Store, TokenResponse), Error>)
    ensures VerifyGoogleToken(google).Err? ==> r == Err(ServerFault)
    ensures VerifyGoogleToken(google) == Ok(None) ==> r == Err(InvalidGoogleToken)
    ensures r.Ok? <==> google.Verified? && TrustedClaims(google.idinfo)
    ensures r.Ok? ==>
              var g := VerifyGoogleToken(google).value.value;
              var (st', resp) := r.value;
              && resp.user.email == g.email
              && resp.tokenType == "bearer"
              && resp.accessToken.claims ==
                   map["user_id" := Int(resp.user.id), "email" := Str(g.email), "exp" := Int(now + 1800)]
              && st'.activities ==
                   st.activities + [Activity(resp.user.id, "login", GoogleLoginDetails, req.clientHost, UserAgent(req), now)]
              && st'.stage1Results == st.stage1Results
              && st'.stage2Projects == st.stage2Projects
    ensures r.Ok? && (exists i :: 0 <= i < |st.users| && st.users[i].email == google.idinfo["email"]) ==>
              var (st', resp) := r.value;
              && st'.users == st.users && st'.notifications == st.notifications
              && st'.nextUserId == st.nextUserId && st'.nextNotificationId == st.nextNotificationId
              && resp.user in st.users
    ensures r.Ok? && (forall i :: 0 <= i < |st.users| ==> st.users[i].email != google.idinfo["email"]) ==>
              var g := VerifyGoogleToken(google).value.value;
              var (st', resp) := r.value;
              && resp.user == NewUser(st.nextUserId, g, now)
              && st'.users == st.users + [resp.user]
              && st'.notifications == st.notifications + [Welcome(st.nextNotificationId, st.nextUserId, now)]
              && st'.nextUserId == st.nextUserId + 1
              && st'.nextNotificationId == st.nextNotificationId + 1
  {
    var verified :- VerifyGoogleToken(google);
    if verified.None? then Err(InvalidGoogleToken)
    else
      var g := verified.value;
      var (st1, user) := ResolveUser(st, g, now);
      var st2 := LogActivity(st1, user.id, "login", GoogleLoginDetails, req, now);
      var token := CreateAccessToken(SessionClaims(user), None, now);
      Ok((st2, MakeTokenResponse(token, user)))
  }

  // ---------------------------------------------------------------------
  // Profile update

  function Patched<T>(f: Field<T>, current: Option<T>): Option<T> {
    if f.Set? then f.sent else current
  }

  /** The `setattr` loop over the fields the client sent. */
  function ApplyPatch(u: User, p: ProfilePatch): (v: User)
    ensures v.id == u.id && v.email == u.email && v.fullName == u.fullName
    ensures v.profilePictureUrl == u.profilePictureUrl && v.createdAt == u.createdAt
    ensures p == EmptyPatch ==> v == u
  {
    u.(phone := Patched(p.phone, u.phone),
       collegeName := Patched(p.collegeName, u.collegeName),
       branch := Patched(p.branch, u.branch),
       yearOfStudy := Patched(p.yearOfStudy, u.yearOfStudy),
       githubUrl := Patched(p.githubUrl, u.githubUrl),
       linkedinUrl := Patched(p.linkedinUrl, u.linkedinUrl))
  }

  /** `update_profile`. */
  function UpdateProfile(st: Store, credentials: DecodeOutcome, patch: ProfilePatch,
                         req: Request, now: nat): (r: Result<(Store, User), Error>)
    ensures r.Err? <==> Authenticate(credentials, st).Err?
    ensures r.Err? ==> r.error == Authenticate(credentials, st).error
    ensures r.Ok? ==>
              var k := Authenticate(credentials, st).value;
              var (st', u) := r.value;
              && u == ApplyPatch(st.users[k], patch)
              && st'.users == st.users[k := u]
              && st'.activities ==
                   st.activities + [Activity(u.id, "profile_update", PatchDetails(patch), req.clientHost, UserAgent(req), now)]
              && st' == st.(users := st'.users, activities := st'.activities)
  {
    var k :- Authenticate(credentials, st);
    var u := ApplyPatch(st.users[k], patch);
    var st1 := st.(users := st.users[k := u]);
    Ok((LogActivity(st1, u.id, "profile_update", PatchDetails(patch), req, now), u))
  }

  // ---------------------------------------------------------------------
  // Dashboard

  /** Stage 1 from the user's result row, if any. */
  function Stage1StatusOf(result: Option<Stage1Result>): (s: Stage1Status)
    ensures s == NotStarted <==> result.None?
    ensures s == Completed <==> result.Some? && result.value.completedAt.Some?
    ensures s == InProgress <==> result.Some? && result.value.completedAt.None?
  {
    if result.None? then NotStarted
    else if result.value.completedAt.Some? then Completed
    else InProgress
  }

  /** Stage 2, gated on the stage-1 qualification flag alone. */
  function Stage2StatusOf(result: Option<Stage1Result>, project: Option<Stage2Project>): (s: Stage2Status)
    ensures s == Locked <==> !(result.Some? && result.value.isQualified)
    ensures s == Submitted <==>
              result.Some? && result.value.isQualified && project.Some? && project.value.submittedAt.Some?
    ensures s == Available <==>
              result.Some? && result.value.isQualified && !(project.Some? && project.value.submittedAt.Some?)
  {
    if result.Some? && result.value.isQualified then
      if project.Some? && project.value.submittedAt.Some? then Submitted else Available
    else Locked
  }

  /** The number of `uid`'s unread notifications. */
  function UnreadCount(st: Store, uid: nat): (c: nat)
    ensures c <= |Filter(st.notifications, OwnedBy(uid))|
  {
    var c := |Filter(st.notifications, UnreadBy(uid))|;
    UnreadAreOwned(st.notifications, uid);
    c
  }

  lemma {:induction false} UnreadAreOwned(s: seq<Notification>, uid: nat)
    ensures |Filter(s, UnreadBy(uid))| <= |Filter(s, OwnedBy(uid))|
  {
    if |s| > 0 {
      UnreadAreOwned(s[1..], uid);
    }
  }

  /** `get_dashboard`. */
  function GetDashboard(st: Store, credentials: DecodeOutcome): (r: Result<DashboardResponse, Error>)
    ensures r.Err? <==> Authenticate(credentials, st).Err?
    ensures r.Err? ==> r.error == Authenticate(credentials, st).error
    ensures r.Ok? ==>
              var d := r.value;
              var uid := d.user.id;
              && Names(credentials.claims, st, Authenticate(credentials, st).value)
              && d.user == st.users[Authenticate(credentials, st).value]
              && d.stage1Status in Stage1Vocabulary
              && d.stage2Status in Stage2Vocabulary
              && d.stage1Status == Stage1StatusOf(d.stage1Result).Name()
              && d.stage2Status == Stage2StatusOf(d.stage1Result, d.stage2Project).Name()
              && (d.stage1Result.Some? ==> d.stage1Result.value in st.stage1Results && d.stage1Result.value.userId == uid)
              && (d.stage1Result.Some? ==>
                    && FirstIndex(st.stage1Results, ResultOf(uid)).Some?
                    && d.stage1Result.value == st.stage1Results[FirstIndex(st.stage1Results, ResultOf(uid)).value])
              && (d.stage1Result.None? <==> forall i :: 0 <= i < |st.stage1Results| ==> st.stage1Results[i].userId != uid)
              && (d.stage2Project.Some? ==> d.stage2Project.value in st.stage2Projects && d.stage2Project.value.userId == uid)
              && (d.stage2Project.Some? ==>
                    && FirstIndex(st.stage2Projects, ProjectOf(uid)).Some?
                    && d.stage2Project.value == st.stage2Projects[FirstIndex(st.stage2Projects, ProjectOf(uid)).value])
              && (d.stage2Project.None? <==> forall i :: 0 <= i < |st.stage2Projects| ==> st.stage2Projects[i].userId != uid)
              && (d.stage1Status == "not_started" <==> d.stage1Result.None?)
              && (d.stage2Status != "locked" ==> d.stage1Result.Some? && d.stage1Result.value.isQualified)
              && d.notificationsCount == |Filter(st.notifications, UnreadBy(uid))|
  {
    var k :- Authenticate(credentials, st);
    var user := st.users[k];
    var s1 := First(st.stage1Results, ResultOf(user.id));
    var s2 := First(st.stage2Projects, ProjectOf(user.id));
    var status1 := Stage1StatusOf(s1);
    var status2 := Stage2StatusOf(s1, s2);
    StatusNamesDocumented(status1, status2);
    Ok(DashboardResponse(user, status1.Name(), s1, status2.Name(), s2, UnreadCount(st, user.id)))
  }

  // ---------------------------------------------------------------------
  // Notifications

  /** `get_notifications`: the caller's notifications, newest first, at most
      `NotificationLimit` of them, and none older than one left out. */
  function GetNotifications(st: Store, credentials: DecodeOutcome): (r: Result<seq<Notification>, Error>)
    ensures r.Err? <==> Authenticate(credentials, st).Err?
    ensures r.Err? ==> r.error == Authenticate(credentials, st).error
    ensures r.Ok? ==>
              var uid := st.users[Authenticate(credentials, st).value].id;
              var mine := Filter(st.notifications, OwnedBy(uid));
              && |r.value| == Min(NotificationLimit, |mine|)
              && (forall i :: 0 <= i < |r.value| ==> r.value[i] in st.notifications && r.value[i].userId == uid)
              && multiset(r.value) <= multiset(mine)
              && (|mine| <= NotificationLimit ==> multiset(r.value) == multiset(mine))
              && NewestFirst(r.value)
              && (forall n :: n in mine && n !in r.value ==>
                    forall i :: 0 <= i < |r.value| ==> r.value[i].createdAt >= n.createdAt)
  {
    var k :- Authenticate(credentials, st);
    var mine := Filter(st.notifications, OwnedBy(st.users[k].id));
    var sorted := SortNewestFirst(mine);
    var page := sorted[..Min(NotificationLimit, |sorted|)];
    SortIsNewestFirst(mine);
    PageContents(mine, sorted, page);
    PageOrder(mine, sorted, page);
    Ok(page)
  }

  /** The first page of the sorted notifications holds only the caller's
      notifications, and all of them when there are few enough. */
  lemma PageContents(mine: seq<Notification>, sorted: seq<Notification>, page: seq<Notification>)
    requires multiset(sorted) == multiset(mine) && |sorted| == |mine|
    requires page == sorted[..Min(NotificationLimit, |sorted|)]
    ensures |page| == Min(NotificationLimit, |mine|)
    ensures forall i :: 0 <= i < |page| ==> page[i] in mine
    ensures multiset(page) <= multiset(mine)
    ensures |mine| <= NotificationLimit ==> multiset(page) == multiset(mine)
  {
    var m := Min(NotificationLimit, |sorted|);
    PageIsPart(sorted, m);
    forall i | 0 <= i < |page|
      ensures page[i] in mine
    {
      assert page[i] in multiset(sorted);
    }
  }

  /** The first page of the sorted notifications is newest first, and no
      notification left out is newer than one shown. */
  lemma PageOrder(mine: seq<Notification>, sorted: seq<Notification>, page: seq<Notification>)
    requires multiset(sorted) == multiset(mine) && NewestFirst(sorted)
    requires page == sorted[..Min(NotificationLimit, |sorted|)]
    ensures NewestFirst(page)
    ensures forall n :: n in mine && n !in page ==>
              forall i :: 0 <= i < |page| ==> page[i].createdAt >= n.createdAt
  {
    var m := Min(NotificationLimit, |sorted|);
    PrefixKeepsOrder(sorted, m);
    forall n | n in mine && n !in page
      ensures forall i :: 0 <= i < |page| ==> page[i].createdAt >= n.createdAt
    {
      assert n in multiset(sorted);
      PrefixIsNewest(sorted, m, n);
    }
  }

  /** A prefix takes part of a list, and all of it when it is the whole
      list. */
  lemma PageIsPart(s: seq<Notification>, m: nat)
    requires m <= |s|
    ensures multiset(s[..m]) <= multiset(s)
    ensures forall i :: 0 <= i < m ==> s[..m][i] in s
    ensures m == |s| ==> s[..m] == s
  {
    assert s == s[..m] + s[m..];
    assert multiset(s) == multiset(s[..m]) + multiset(s[m..]);
  }

  /** The reply of a successful `mark_notification_read`. */
  const MarkedRead: Payload := map["status" := Str("success")]

  /** `mark_notification_read`: 404 unless the caller owns a notification
      with that id; otherwise that notification, and nothing else, becomes
      read. */
  function MarkNotificationRead(st: Store, credentials: DecodeOutcome, nid: int): (r: Result<(Store, Payload), Error>)
    ensures Authenticate(credentials, st).Err? ==> r == Err(Authenticate(credentials, st).error)
    ensures Authenticate(credentials, st).Ok? ==> r.Ok? || r == Err(NotificationNotFound)
    ensures r == Err(NotificationNotFound) <==>
              Authenticate(credentials, st).Ok? &&
              var uid := st.users[Authenticate(credentials, st).value].id;
              forall j :: 0 <= j < |st.notifications| ==> !(st.notifications[j].id == nid && st.notifications[j].userId == uid)
    ensures r.Ok? ==>
              var uid := st.users[Authenticate(credentials, st).value].id;
              var (st', reply) := r.value;
              && reply == MarkedRead
              && st' == st.(notifications := st'.notifications)
              && exists j :: 0 <= j < |st.notifications| &&
                   st.notifications[j].id == nid && st.notifications[j].userId == uid &&
                   st'.notifications == st.notifications[j := st.notifications[j].(isRead := true)]
  {
    var k :- Authenticate(credentials, st);
    var uid := st.users[k].id;
    match FirstIndex(st.notifications, IdOwnedBy(nid, uid))
    case None => Err(NotificationNotFound)
    case Some(j) =>
      var n := st.notifications[j];
      Ok((st.(notifications := st.notifications[j := n.(isRead := true)]), MarkedRead))
  }
}
