/** Request and response shapes: which profile fields a client may patch,
    the MCQ answer validator, the stage-2 submission body, and the token and
    dashboard responses with their defaults. */
module Schemas {
  import opened Base
  import opened Models
  import opened Auth

  // ---------------------------------------------------------------------
  // Profile patch

  /** A field of a partial update: left out by the client, or sent, possibly
      as an explicit `null`. */
  datatype Field<+T> = Unset | Set(sent: Option<T>)

  /** `UserProfileUpdate`: the only user fields a client can change. Every
      field is optional and unset unless the client sends it. */
  datatype ProfilePatch = ProfilePatch(
    phone: Field<string>,
    collegeName: Field<string>,
    branch: Field<string>,
    yearOfStudy: Field<int>,
    githubUrl: Field<string>,
    linkedinUrl: Field<string>)

  const EmptyPatch: ProfilePatch := ProfilePatch(Unset, Unset, Unset, Unset, Unset, Unset)

  /** The names of the patchable fields, as the client spells them. */
  const PatchFieldNames: set<string> :=
    {"phone", "college_name", "branch", "year_of_study", "github_url", "linkedin_url"}

  function StrValue(v: Option<string>): Value {
    if v.Some? then Str(v.value) else Null
  }

  function IntValue(v: Option<int>): Value {
    if v.Some? then Int(v.value) else Null
  }

  /** Adds the entry of a sent field; `v` is `None` for an unset one. */
  function WithField(d: Payload, name: string, v: Option<Value>): Payload {
    if v.Some? then d[name := v.value] else d
  }

  function StrField(f: Field<string>): Option<Value> {
    if f.Set? then Some(StrValue(f.sent)) else None
  }

  function IntField(f: Field<int>): Option<Value> {
    if f.Set? then Some(IntValue(f.sent)) else None
  }

  /** `profile_data.dict(exclude_unset=True)`: one entry per field the client
      sent, an explicit `null` included. */
  function PatchDetails(p: ProfilePatch): (d: Payload)
    ensures d.Keys <= PatchFieldNames
    ensures "phone" in d <==> p.phone.Set?
    ensures "college_name" in d <==> p.collegeName.Set?
    ensures "branch" in d <==> p.branch.Set?
    ensures "year_of_study" in d <==> p.yearOfStudy.Set?
    ensures "github_url" in d <==> p.githubUrl.Set?
    ensures "linkedin_url" in d <==> p.linkedinUrl.Set?
  {
    var d := WithField(map[], "phone", StrField(p.phone));
    var d := WithField(d, "college_name", StrField(p.collegeName));
    var d := WithField(d, "branch", StrField(p.branch));
    var d := WithField(d, "year_of_study", IntField(p.yearOfStudy));
    var d := WithField(d, "github_url", StrField(p.githubUrl));
    WithField(d, "linkedin_url", StrField(p.linkedinUrl))
  }

  function ReadStr(d: Payload, name: string): Field<string> {
    if name !in d then Unset
    else match d[name]
      case Str(s) => Set(Some(s))
      case _ => Set(None)
  }

  function ReadInt(d: Payload, name: string): Field<int> {
    if name !in d then Unset
    else match d[name]
      case Int(i) => Set(Some(i))
      case _ => Set(None)
  }

  /** Reads a patch back from the details an activity record stores. */
  function PatchFromDetails(d: Payload): ProfilePatch {
    ProfilePatch(
      ReadStr(d, "phone"), ReadStr(d, "college_name"), ReadStr(d, "branch"),
      ReadInt(d, "year_of_study"), ReadStr(d, "github_url"), ReadStr(d, "linkedin_url"))
  }

  /** The details logged for a profile update record the patch without loss. */
  lemma PatchDetailsRoundTrip(p: ProfilePatch)
    ensures PatchFromDetails(PatchDetails(p)) == p
  {
  }

  // ---------------------------------------------------------------------
  // MCQ answer

  /** `selected_option` must match `^[A-D]$` (pydantic's regex engine: `$`
      is the very end of the string). */
  function SelectedOptionValid(s: string): (ok: bool)
    ensures ok <==> s in {"A", "B", "C", "D"}
  {
    if |s| == 1 && 'A' <= s[0] <= 'D' then
      assert s == [s[0]];
      assert s[0] in {'A', 'B', 'C', 'D'};
      true
    else
      false
  }

  // ---------------------------------------------------------------------
  // Stage-2 submission body

  /** A JSON value of a request body (floats and objects are not modelled). */
  datatype Json = JNull | JBool(b: bool) | JNumber(n: int) | JString(s: string) | JArray(items: seq<Json>)

  /** `Stage2ProjectSubmit`: four mandatory fields, one optional. */
  datatype Stage2ProjectSubmit = Stage2ProjectSubmit(
    projectTitle: string,
    projectDescription: string,
    githubRepoUrl: string,
    liveDemoUrl: Option<string>,
    techStack: seq<string>)

  const RequiredSubmitKeys: set<string> :=
    {"project_title", "project_description", "github_repo_url", "tech_stack"}

  const ValidationFailed: Error := HttpError(UnprocessableEntity, "Validation error")

  /** A JSON array read as `List[str]`. */
  function StringList(items: seq<Json>): (r: Option<seq<string>>)
    ensures r.Some? <==> forall i :: 0 <= i < |items| ==> items[i].JString?
    ensures r.Some? ==> |r.value| == |items| &&
                        forall i :: 0 <= i < |items| ==> r.value[i] == items[i].s
  {
    if |items| == 0 then Some([])
    else if !items[0].JString? then None
    else match StringList(items[1..])
      case None => None
      case Some(rest) => Some([items[0].s] + rest)
  }

  function JsonStrings(xs: seq<string>): (r: seq<Json>)
    ensures |r| == |xs| && forall i :: 0 <= i < |xs| ==> r[i] == JString(xs[i])
  {
    if |xs| == 0 then [] else [JString(xs[0])] + JsonStrings(xs[1..])
  }

  function RequiredString(body: map<string, Json>, key: string): Option<string> {
    if key in body && body[key].JString? then Some(body[key].s) else None
  }

  /** A mandatory string field: present and a JSON string. */
  ghost predicate HasString(body: map<string, Json>, key: string) {
    key in body && body[key].JString?
  }

  /** The bodies pydantic accepts as a `Stage2ProjectSubmit`; other keys are
      ignored. */
  ghost predicate SubmitAcceptable(body: map<string, Json>) {
    && HasString(body, "project_title")
    && HasString(body, "project_description")
    && HasString(body, "github_repo_url")
    && "tech_stack" in body && body["tech_stack"].JArray?
    && (forall i :: 0 <= i < |body["tech_stack"].items| ==> body["tech_stack"].items[i].JString?)
    && ("live_demo_url" in body ==> body["live_demo_url"].JNull? || body["live_demo_url"].JString?)
  }

  /** Validation of a submission body. */
  function ParseStage2Submit(body: map<string, Json>): (r: Result<Stage2ProjectSubmit, Error>)
    ensures r.Ok? <==> SubmitAcceptable(body)
    ensures r.Err? ==> r.error == ValidationFailed
    ensures r.Ok? ==>
              && r.value.projectTitle == body["project_title"].s
              && r.value.projectDescription == body["project_description"].s
              && r.value.githubRepoUrl == body["github_repo_url"].s
              && |r.value.techStack| == |body["tech_stack"].items|
              && (forall i :: 0 <= i < |r.value.techStack| ==>
                    JString(r.value.techStack[i]) == body["tech_stack"].items[i])
              && (r.value.liveDemoUrl.Some? <==> "live_demo_url" in body && body["live_demo_url"].JString?)
              && (r.value.liveDemoUrl.Some? ==> r.value.liveDemoUrl.value == body["live_demo_url"].s)
  {
    var title := RequiredString(body, "project_title");
    var description := RequiredString(body, "project_description");
    var repo := RequiredString(body, "github_repo_url");
    var stack := if "tech_stack" in body && body["tech_stack"].JArray?
                 then StringList(body["tech_stack"].items) else None;
    var demoOk := "live_demo_url" !in body || body["live_demo_url"].JNull? || body["live_demo_url"].JString?;
    if title.None? || description.None? || repo.None? || stack.None? || !demoOk then
      Err(ValidationFailed)
    else
      var demo := if "live_demo_url" in body && body["live_demo_url"].JString?
                  then Some(body["live_demo_url"].s) else None;
      Ok(Stage2ProjectSubmit(title.value, description.value, repo.value, demo, stack.value))
  }

  /** The body a client sends for a submission. */
  function SubmitToJson(s: Stage2ProjectSubmit): map<string, Json> {
    map[
      "project_title" := JString(s.projectTitle),
      "project_description" := JString(s.projectDescription),
      "github_repo_url" := JString(s.githubRepoUrl),
      "live_demo_url" := (if s.liveDemoUrl.Some? then JString(s.liveDemoUrl.value) else JNull),
      "tech_stack" := JArray(JsonStrings(s.techStack))]
  }

  /** Every submission survives being sent and validated. */
  lemma SubmitRoundTrip(s: Stage2ProjectSubmit)
    ensures ParseStage2Submit(SubmitToJson(s)) == Ok(s)
  {
    var r := ParseStage2Submit(SubmitToJson(s));
    assert r.Ok?;
    assert r.value.techStack == s.techStack;
  }

  /** A body missing any mandatory field is rejected; one missing only the
      demo link is not. */
  lemma MandatoryFields(s: Stage2ProjectSubmit, key: string)
    ensures key in RequiredSubmitKeys ==> ParseStage2Submit(SubmitToJson(s) - {key}).Err?
    ensures ParseStage2Submit(SubmitToJson(s) - {"live_demo_url"}) == Ok(s.(liveDemoUrl := None))
  {
    var body := SubmitToJson(s) - {"live_demo_url"};
    var r := ParseStage2Submit(body);
    assert SubmitAcceptable(body);
    assert r.value.techStack == s.techStack;
  }

  // ---------------------------------------------------------------------
  // Responses

  /** `TokenResponse`. */
  datatype TokenResponse = TokenResponse(accessToken: AccessToken, tokenType: string, user: User)

  /** A token response built without naming the token type gets `"bearer"`. */
  function MakeTokenResponse(token: AccessToken, user: User): TokenResponse
  {
    TokenResponse(token, "bearer", user)
  }

  /** The stage-1 track of the dashboard. */
  datatype Stage1Status = NotStarted | InProgress | Completed {
    function Name(): string {
      match this
      case NotStarted => "not_started"
      case InProgress => "in_progress"
      case Completed => "completed"
    }
  }

  /** The stage-2 track of the dashboard. */
  datatype Stage2Status = Locked | Available | Submitted {
    function Name(): string {
      match this
      case Locked => "locked"
      case Available => "available"
      case Submitted => "submitted"
    }
  }

  const Stage1Vocabulary: set<string> := {"not_started", "in_progress", "completed"}
  const Stage2Vocabulary: set<string> := {"locked", "available", "submitted"}

  /** Each status is reported by a word of the documented vocabulary. */
  lemma StatusNamesDocumented(s1: Stage1Status, s2: Stage2Status)
    ensures s1.Name() in Stage1Vocabulary && s2.Name() in Stage2Vocabulary
  {
  }

  /** No two statuses of a stage share a word. */
  lemma StatusNamesDistinct(s1: Stage1Status, s2: Stage2Status)
    ensures forall t: Stage1Status :: s1.Name() == t.Name() ==> s1 == t
    ensures forall t: Stage2Status :: s2.Name() == t.Name() ==> s2 == t
  {
  }

  /** `DashboardResponse`. */
  datatype DashboardResponse = DashboardResponse(
    user: User,
    stage1Status: string,
    stage1Result: Option<Stage1Result>,
    stage2Status: string,
    stage2Project: Option<Stage2Project>,
    notificationsCount: int)

  /** A dashboard built from the user alone, every other field at its default. */
  function DefaultDashboard(user: User): DashboardResponse {
    DashboardResponse(user, NotStarted.Name(), None, Locked.Name(), None, 0)
  }
}
