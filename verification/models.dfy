/** The persisted entities the request handlers read and write, and the store
    that holds them. Each table is a sequence of rows in primary-key order;
    the two counters play the part of the autoincrement ids. */
module Models {
  import opened Base

  /** A `users` row; the profile fields are the ones a `UserResponse` shows. */
  datatype User = User(
    id: nat,
    email: string,
    fullName: string,
    phone: Option<string>,
    collegeName: Option<string>,
    branch: Option<string>,
    yearOfStudy: Option<int>,
    githubUrl: Option<string>,
    linkedinUrl: Option<string>,
    profilePictureUrl: Option<string>,
    createdAt: nat)

  /** A `notifications` row; `kind` is the `type` column. */
  datatype Notification = Notification(
    id: nat,
    userId: nat,
    title: string,
    message: string,
    kind: Option<string>,
    isRead: bool,
    createdAt: nat)

  /** An `activity_logs` row: written once, never changed. */
  datatype Activity = Activity(
    userId: nat,
    activityType: string,
    details: Payload,
    ipAddress: Option<string>,
    userAgent: Option<string>,
    createdAt: nat)

  /** A `stage1_results` row. The float scores are not carried. */
  datatype Stage1Result = Stage1Result(
    userId: nat,
    rank: Option<int>,
    isQualified: bool,
    completedAt: Option<nat>)

  /** A `stage2_projects` row. The float score is not carried. */
  datatype Stage2Project = Stage2Project(
    id: nat,
    userId: nat,
    projectTitle: Option<string>,
    projectDescription: Option<string>,
    githubRepoUrl: Option<string>,
    liveDemoUrl: Option<string>,
    techStack: Option<seq<string>>,
    submissionStatus: string,
    submittedAt: Option<nat>,
    isQualified: bool)

  datatype Store = Store(
    users: seq<User>,
    notifications: seq<Notification>,
    stage1Results: seq<Stage1Result>,
    stage2Projects: seq<Stage2Project>,
    activities: seq<Activity>,
    nextUserId: nat,
    nextNotificationId: nat)

  // Row predicates, named once so that every query on the same condition is
  // the same query.

  function HasId(id: int): User -> bool {
    (u: User) => u.id == id
  }

  function HasEmail(email: string): User -> bool {
    (u: User) => u.email == email
  }

  function OwnedBy(uid: nat): Notification -> bool {
    (n: Notification) => n.userId == uid
  }

  function UnreadBy(uid: nat): Notification -> bool {
    (n: Notification) => n.userId == uid && !n.isRead
  }

  function IdOwnedBy(nid: int, uid: nat): Notification -> bool {
    (n: Notification) => n.id == nid && n.userId == uid
  }

  function ResultOf(uid: nat): Stage1Result -> bool {
    (r: Stage1Result) => r.userId == uid
  }

  function ProjectOf(uid: nat): Stage2Project -> bool {
    (p: Stage2Project) => p.userId == uid
  }

  /** The integrity the modelled handlers preserve: primary keys and emails
      are unique, every id already handed out is below its counter, and every
      row that refers to a user refers to an id already handed out. For stage
      rows, which other routes write, the last part is assumed. */
  ghost predicate Valid(st: Store) {
    && (forall i, j :: 0 <= i < |st.users| && 0 <= j < |st.users| && i != j ==>
          st.users[i].id != st.users[j].id && st.users[i].email != st.users[j].email)
    && (forall i :: 0 <= i < |st.users| ==> st.users[i].id < st.nextUserId)
    && (forall i, j :: 0 <= i < |st.notifications| && 0 <= j < |st.notifications| && i != j ==>
          st.notifications[i].id != st.notifications[j].id)
    && (forall i :: 0 <= i < |st.notifications| ==>
          st.notifications[i].id < st.nextNotificationId && st.notifications[i].userId < st.nextUserId)
    && (forall i :: 0 <= i < |st.stage1Results| ==> st.stage1Results[i].userId < st.nextUserId)
    && (forall i :: 0 <= i < |st.stage2Projects| ==> st.stage2Projects[i].userId < st.nextUserId)
  }
}
