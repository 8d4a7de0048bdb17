/** Properties that relate several handler calls, or a handler and the store
    integrity it keeps. */
module Properties {
  import opened Base
  import opened Models
  import opened Auth
  import opened Schemas
  import opened Handlers

  // ---------------------------------------------------------------------
  // Store integrity

  lemma GoogleAuthPreservesValid(st: Store, google: GoogleOutcome, req: Request, now: nat)
    requires Valid(st)
    requires GoogleAuth(st, google, req, now).Ok?
    ensures Valid(GoogleAuth(st, google, req, now).value.0)
  {
    var (st', resp) := GoogleAuth(st, google, req, now).value;
    if forall i :: 0 <= i < |st.users| ==> st.users[i].email != google.idinfo["email"] {
      var st1 := st'.(activities := st.activities);
      NewUserKeepsValid(st, resp.user, Welcome(st.nextNotificationId, st.nextUserId, now));
      assert Valid(st1);
    }
  }

  /** Adding a user with a fresh id and email, and a notification for it with
      a fresh id, keeps the store's integrity. */
  lemma NewUserKeepsValid(st: Store, u: User, n: Notification)
    requires Valid(st)
    requires u.id == st.nextUserId && n.id == st.nextNotificationId && n.userId == u.id
    requires forall i :: 0 <= i < |st.users| ==> st.users[i].email != u.email
    ensures Valid(st.(users := st.users + [u], notifications := st.notifications + [n],
                      nextUserId := st.nextUserId + 1, nextNotificationId := st.nextNotificationId + 1))
  {
    var st' := st.(users := st.users + [u], notifications := st.notifications + [n],
                   nextUserId := st.nextUserId + 1, nextNotificationId := st.nextNotificationId + 1);
    assert forall i :: 0 <= i < |st.users| ==> st'.users[i] == st.users[i];
    assert forall i :: 0 <= i < |st.notifications| ==> st'.notifications[i] == st.notifications[i];
  }

  lemma UpdateProfilePreservesValid(st: Store, credentials: DecodeOutcome, patch: ProfilePatch, req: Request, now: nat)
    requires Valid(st)
    requires UpdateProfile(st, credentials, patch, req, now).Ok?
    ensures Valid(UpdateProfile(st, credentials, patch, req, now).value.0)
  {
  }

  lemma MarkReadPreservesValid(st: Store, credentials: DecodeOutcome, nid: int)
    requires Valid(st)
    requires MarkNotificationRead(st, credentials, nid).Ok?
    ensures Valid(MarkNotificationRead(st, credentials, nid).value.0)
  {
  }

  // ---------------------------------------------------------------------
  // Sign-in

  /** A session token issued at sign-in identifies the signed-in user. */
  lemma IssuedTokenAuthenticates(st: Store, google: GoogleOutcome, req: Request, now: nat)
    requires Valid(st)
    requires google.Verified? && TrustedClaims(google.idinfo)
    ensures GoogleAuth(st, google, req, now).Ok?
    ensures var (st', resp) := GoogleAuth(st, google, req, now).value;
            GetCurrentUser(Decoded(resp.accessToken.claims), st') == Ok(resp.user)
  {
    var (st', resp) := GoogleAuth(st, google, req, now).value;
    GoogleAuthPreservesValid(st, google, req, now);
    var credentials := Decoded(resp.accessToken.claims);
    assert Get(resp.accessToken.claims, "user_id") == Int(resp.user.id);
    var i :| 0 <= i < |st'.users| && st'.users[i] == resp.user;
    assert Names(credentials.claims, st', i);
    var k := Authenticate(credentials, st').value;
    assert st'.users[k].id == st'.users[i].id;
  }

  /** Signing in twice with a new email creates one user and one
      notification for it, the welcome. */
  lemma RepeatedSignIn(st: Store, g1: GoogleOutcome, g2: GoogleOutcome,
                       req1: Request, req2: Request, t1: nat, t2: nat)
    requires Valid(st)
    requires g1.Verified? && TrustedClaims(g1.idinfo)
    requires g2.Verified? && TrustedClaims(g2.idinfo)
    requires g1.idinfo["email"] == g2.idinfo["email"]
    requires forall i :: 0 <= i < |st.users| ==> st.users[i].email != g1.idinfo["email"]
    ensures GoogleAuth(st, g1, req1, t1).Ok?
    ensures var (st1, resp1) := GoogleAuth(st, g1, req1, t1).value;
            GoogleAuth(st1, g2, req2, t2).Ok? &&
            var (st2, resp2) := GoogleAuth(st1, g2, req2, t2).value;
            && resp2.user == resp1.user
            && Filter(st2.users, HasEmail(g1.idinfo["email"])) == [resp1.user]
            && Filter(st2.notifications, OwnedBy(resp1.user.id)) ==
                 [Welcome(st.nextNotificationId, resp1.user.id, t1)]
            && |st2.activities| == |st.activities| + 2
  {
    var email := g1.idinfo["email"];
    var (st1, resp1) := GoogleAuth(st, g1, req1, t1).value;
    var u := resp1.user;
    assert st1.users[|st.users|] == u;
    var (st2, resp2) := GoogleAuth(st1, g2, req2, t2).value;
    FilterNone(st.users, HasEmail(email));
    FilterAppend(st.users, u, HasEmail(email));
    FilterNone(st.notifications, OwnedBy(u.id));
    FilterAppend(st.notifications, Welcome(st.nextNotificationId, u.id, t1), OwnedBy(u.id));
    assert st1.users[|st.users|].email == email;
    assert st2.users == st1.users;
    assert resp2.user in Filter(st1.users, HasEmail(email));
  }

  /** The store and the response of a first sign-in. */
  lemma FirstSignIn(st: Store, google: GoogleOutcome, req: Request, now: nat)
      returns (st': Store, u: User, w: Notification)
    requires Valid(st)
    requires google.Verified? && TrustedClaims(google.idinfo)
    requires forall i :: 0 <= i < |st.users| ==> st.users[i].email != google.idinfo["email"]
    ensures GoogleAuth(st, google, req, now).Ok?
    ensures st' == GoogleAuth(st, google, req, now).value.0
    ensures u == GoogleAuth(st, google, req, now).value.1.user && u.id == st.nextUserId
    ensures w == Welcome(st.nextNotificationId, u.id, now)
    ensures Authenticate(Decoded(GoogleAuth(st, google, req, now).value.1.accessToken.claims), st') == Ok(|st.users|)
    ensures st'.users[|st.users|] == u
    ensures Filter(st'.notifications, OwnedBy(u.id)) == [w]
    ensures Filter(st'.notifications, UnreadBy(u.id)) == [w]
    ensures st'.stage1Results == st.stage1Results && st'.stage2Projects == st.stage2Projects
  {
    var resp := GoogleAuth(st, google, req, now).value.1;
    st' := GoogleAuth(st, google, req, now).value.0;
    u := resp.user;
    w := Welcome(st.nextNotificationId, u.id, now);
    IssuedTokenAuthenticates(st, google, req, now);
    var k := Authenticate(Decoded(resp.accessToken.claims), st').value;
    GoogleAuthPreservesValid(st, google, req, now);
    assert st'.users[|st.users|] == u;
    assert k == |st.users|;
    FilterNone(st.notifications, OwnedBy(u.id));
    FilterAppend(st.notifications, w, OwnedBy(u.id));
    FilterNone(st.notifications, UnreadBy(u.id));
    FilterAppend(st.notifications, w, UnreadBy(u.id));
  }

  /** Right after a first sign-in the dashboard is the default one except
      for the welcome notification. */
  lemma FirstSignInDashboard(st: Store, google: GoogleOutcome, req: Request, now: nat)
    requires Valid(st)
    requires google.Verified? && TrustedClaims(google.idinfo)
    requires forall i :: 0 <= i < |st.users| ==> st.users[i].email != google.idinfo["email"]
    ensures GoogleAuth(st, google, req, now).Ok?
    ensures var (st', resp) := GoogleAuth(st, google, req, now).value;
            GetDashboard(st', Decoded(resp.accessToken.claims)) ==
              Ok(DefaultDashboard(resp.user).(notificationsCount := 1))
  {
    var st', u, w := FirstSignIn(st, google, req, now);
    var session := Decoded(GoogleAuth(st, google, req, now).value.1.accessToken.claims);
    assert First(st'.stage1Results, ResultOf(u.id)).None?;
    assert First(st'.stage2Projects, ProjectOf(u.id)).None?;
    assert UnreadCount(st', u.id) == 1;
    assert GetDashboard(st', session) == Ok(DashboardResponse(u, "not_started", None, "locked", None, 1));
  }

  /** Right after a first sign-in the listing shows the welcome alone. */
  lemma FirstSignInNotifications(st: Store, google: GoogleOutcome, req: Request, now: nat)
    requires Valid(st)
    requires google.Verified? && TrustedClaims(google.idinfo)
    requires forall i :: 0 <= i < |st.users| ==> st.users[i].email != google.idinfo["email"]
    ensures GoogleAuth(st, google, req, now).Ok?
    ensures var (st', resp) := GoogleAuth(st, google, req, now).value;
            GetNotifications(st', Decoded(resp.accessToken.claims)) ==
              Ok([Welcome(st.nextNotificationId, resp.user.id, now)])
  {
    var st', u, w := FirstSignIn(st, google, req, now);
    var session := Decoded(GoogleAuth(st, google, req, now).value.1.accessToken.claims);
    var r := GetNotifications(st', session);
    assert |r.value| == 1;
    assert multiset(r.value) == multiset{w};
    assert r.value[0] in multiset(r.value);
    assert r.value == [r.value[0]];
  }

  // ---------------------------------------------------------------------
  // Profile update

  /** The logged details and the change made agree field by field: a field
      changes only if it appears in the details, and then to the logged
      value. */
  lemma PatchAgreesWithDetails(u: User, p: ProfilePatch)
    ensures var v := ApplyPatch(u, p);
            var d := PatchDetails(p);
            && ("phone" in d ==> d["phone"] == StrValue(v.phone))
            && ("phone" !in d ==> v.phone == u.phone)
            && ("college_name" in d ==> d["college_name"] == StrValue(v.collegeName))
            && ("college_name" !in d ==> v.collegeName == u.collegeName)
            && ("branch" in d ==> d["branch"] == StrValue(v.branch))
            && ("branch" !in d ==> v.branch == u.branch)
            && ("year_of_study" in d ==> d["year_of_study"] == IntValue(v.yearOfStudy))
            && ("year_of_study" !in d ==> v.yearOfStudy == u.yearOfStudy)
            && ("github_url" in d ==> d["github_url"] == StrValue(v.githubUrl))
            && ("github_url" !in d ==> v.githubUrl == u.githubUrl)
            && ("linkedin_url" in d ==> d["linkedin_url"] == StrValue(v.linkedinUrl))
            && ("linkedin_url" !in d ==> v.linkedinUrl == u.linkedinUrl)
  {
  }

  /** After a profile update the same token resolves to the updated user. */
  lemma ProfileUpdateVisible(st: Store, credentials: DecodeOutcome, patch: ProfilePatch, req: Request, now: nat)
    requires UpdateProfile(st, credentials, patch, req, now).Ok?
    ensures var (st', u) := UpdateProfile(st, credentials, patch, req, now).value;
            GetCurrentUser(credentials, st') == Ok(u)
  {
    var (st', u) := UpdateProfile(st, credentials, patch, req, now).value;
    var k := Authenticate(credentials, st).value;
    assert Names(credentials.claims, st', k);
    assert Authenticate(credentials, st').value == k;
  }

  /** Sending the same patch again changes nothing more. */
  lemma ApplyPatchIdempotent(u: User, p: ProfilePatch)
    ensures ApplyPatch(ApplyPatch(u, p), p) == ApplyPatch(u, p)
  {
  }

  /** A patch that sends only `phone` changes only the phone. */
  lemma PhoneOnlyPatch(u: User, phone: Option<string>)
    ensures ApplyPatch(u, EmptyPatch.(phone := Set(phone))) == u.(phone := phone)
  {
  }

  // ---------------------------------------------------------------------
  // Dashboard

  /** Stage 1 does not look at the qualification flag. */
  lemma Stage1IgnoresQualification(result: Stage1Result, qualified: bool)
    ensures Stage1StatusOf(Some(result)) == Stage1StatusOf(Some(result.(isQualified := qualified)))
  {
  }

  /** Stage 2 opens on the flag alone: a qualified result whose stage 1 is
      not complete already makes it available. */
  lemma QualifiedBeforeCompletion(result: Stage1Result)
    requires result.isQualified && result.completedAt.None?
    ensures Stage1StatusOf(Some(result)) == InProgress
    ensures Stage2StatusOf(Some(result), None) == Available
  {
  }

  // ---------------------------------------------------------------------
  // Notifications

  /** The index of the caller's notification `nid`, in a valid store. */
  lemma MarkReadTarget(st: Store, credentials: DecodeOutcome, nid: int, j: nat)
    requires Valid(st)
    requires Authenticate(credentials, st).Ok?
    requires j < |st.notifications| && st.notifications[j].id == nid
    requires st.notifications[j].userId == st.users[Authenticate(credentials, st).value].id
    ensures MarkNotificationRead(st, credentials, nid) ==
              Ok((st.(notifications := st.notifications[j := st.notifications[j].(isRead := true)]), MarkedRead))
  {
    var uid := st.users[Authenticate(credentials, st).value].id;
    var f := FirstIndex(st.notifications, IdOwnedBy(nid, uid));
    assert IdOwnedBy(nid, uid)(st.notifications[j]);
    assert f.value == j;
  }

  /** Marking a notification read lowers its owner's unread count by one if
      it was unread, and leaves every other user's count alone. */
  lemma MarkReadCounts(st: Store, credentials: DecodeOutcome, nid: int, j: nat, other: nat)
    requires Valid(st)
    requires Authenticate(credentials, st).Ok?
    requires j < |st.notifications| && st.notifications[j].id == nid
    requires st.notifications[j].userId == st.users[Authenticate(credentials, st).value].id
    ensures MarkNotificationRead(st, credentials, nid).Ok?
    ensures var st' := MarkNotificationRead(st, credentials, nid).value.0;
            var uid := st.notifications[j].userId;
            && |Filter(st'.notifications, UnreadBy(uid))| ==
                 |Filter(st.notifications, UnreadBy(uid))| - (if st.notifications[j].isRead then 0 else 1)
            && (other != uid ==>
                 |Filter(st'.notifications, UnreadBy(other))| == |Filter(st.notifications, UnreadBy(other))|)
  {
    MarkReadTarget(st, credentials, nid, j);
    var y := st.notifications[j].(isRead := true);
    FilterUpdateCount(st.notifications, j, y, UnreadBy(st.notifications[j].userId));
    FilterUpdateCount(st.notifications, j, y, UnreadBy(other));
  }

  /** Marking a notification read twice is marking it once. */
  lemma MarkReadIdempotent(st: Store, credentials: DecodeOutcome, nid: int)
    requires MarkNotificationRead(st, credentials, nid).Ok?
    ensures var st1 := MarkNotificationRead(st, credentials, nid).value.0;
            MarkNotificationRead(st1, credentials, nid) == Ok((st1, MarkedRead))
  {
    var st1 := MarkNotificationRead(st, credentials, nid).value.0;
    var uid := st.users[Authenticate(credentials, st).value].id;
    var j := FirstIndex(st.notifications, IdOwnedBy(nid, uid)).value;
    assert st1.users == st.users;
    assert Authenticate(credentials, st1) == Authenticate(credentials, st);
    var f := FirstIndex(st1.notifications, IdOwnedBy(nid, uid));
    assert IdOwnedBy(nid, uid)(st1.notifications[j]);
    assert f.value == j;
    assert st1.notifications[j := st1.notifications[j].(isRead := true)] == st1.notifications;
  }

  /** Another user's notification cannot be marked: the answer is 404 (and,
      being an error, writes nothing). */
  lemma MarkOthersNotification(st: Store, credentials: DecodeOutcome, j: nat)
    requires Valid(st)
    requires Authenticate(credentials, st).Ok?
    requires j < |st.notifications|
    requires st.notifications[j].userId != st.users[Authenticate(credentials, st).value].id
    ensures MarkNotificationRead(st, credentials, st.notifications[j].id) == Err(NotificationNotFound)
  {
  }
}
