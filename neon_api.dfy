/**
 * The data-access layer of the admin console: request headers, the request
 * each accessor issues (path, verb, return preference, body), the
 * classification of every response, and the mappers between backend rows
 * (snake_case) and the console's records (camelCase).
 *
 * The network call itself is not modelled: a request is a value, and a
 * response is an input.
 */
module NeonApi {
  import opened JsString
  import opened JsValue
  import opened Types

  const ApiEndpoint: string := "https://ep-bold-sea-aegb739d.apirest.c-2.us-east-2.aws.neon.tech/rest/v1"
  const PublishableKey: string := "pk_sq2grgrv20rwnjthf1xf01k3oy6ndybvnd8zcd"

  // ---------------------------------------------------------------------------
  // Headers
  // ---------------------------------------------------------------------------

  /** The two values of the `Prefer: return=...` preference (RFC 7240, section 4.2). */
  datatype ReturnPreference = Representation | Minimal

  datatype Headers = Headers(apikey: string, contentType: string, prefer: string)

  function PreferenceName(p: ReturnPreference): string {
    match p
    case Representation => "representation"
    case Minimal => "minimal"
  }

  /** `getHeaders(preferReturn)`; callers that pass nothing get Representation. */
  function GetHeaders(p: ReturnPreference): (h: Headers)
    ensures PreferenceOf(h) == Some(p)
    ensures h.apikey == PublishableKey && h.contentType == "application/json"
  {
    Headers(PublishableKey, "application/json", "return=" + PreferenceName(p))
  }

  /** The preference a server reads from the `Prefer` header. */
  function PreferenceOf(h: Headers): Option<ReturnPreference> {
    if h.prefer == "return=representation" then Some(Representation)
    else if h.prefer == "return=minimal" then Some(Minimal)
    else None
  }

  /** Every header set carries the key, JSON content and the preference asked for. */
  lemma HeadersCarryPreference(p: ReturnPreference)
    ensures PreferenceOf(GetHeaders(p)) == Some(p)
    ensures GetHeaders(p).apikey == PublishableKey
    ensures GetHeaders(p).contentType == "application/json"
  {
  }

  // ---------------------------------------------------------------------------
  // Requests
  // ---------------------------------------------------------------------------

  datatype Verb = Get | Post | Patch | Delete {
    /** Whether the verb changes an existing row. */
    predicate IsMutation() {
      this == Patch || this == Delete
    }

    /** Whether the verb sends a body. */
    predicate SendsBody() {
      this == Post || this == Patch
    }
  }

  /**
   * One call to the backend: the path after the endpoint, the verb, the
   * headers, and the value handed to JSON.stringify as the body.
   */
  datatype Request = Request(path: string, verb: Verb, headers: Headers, body: Option<Value>)

  /** `${API_ENDPOINT}${path}`: where `apiRequest` sends the request. */
  function Url(q: Request): string {
    ApiEndpoint + q.path
  }

  function Read(path: string): (r: Request)
    ensures r.path == path && r.verb == Get && r.body.None?
    ensures r.headers == GetHeaders(Representation)
  {
    Request(path, Get, GetHeaders(Representation), None)
  }

  function Create(path: string, body: Value): (r: Request)
    ensures r.path == path && r.verb == Post && r.body == Some(body)
    ensures r.headers == GetHeaders(Representation)
  {
    Request(path, Post, GetHeaders(Representation), Some(body))
  }

  function Change(path: string, body: Value): (r: Request)
    ensures r.path == path && r.verb == Patch && r.body == Some(body)
    ensures r.headers == GetHeaders(Minimal)
  {
    Request(path, Patch, GetHeaders(Minimal), Some(body))
  }

  function Remove(path: string): (r: Request)
    ensures r.path == path && r.verb == Delete && r.body.None?
    ensures r.headers == GetHeaders(Minimal)
  {
    Request(path, Delete, GetHeaders(Minimal), None)
  }

  /** The path that selects one row of a table: `/<table>?id=eq.<id>`. */
  function RowPath(table: string, id: int): string {
    "/" + table + "?id=eq." + IntText(id)
  }

  /** Every accessor of the data-access layer, with its arguments. */
  datatype Call =
    | GetHeroData
    | UpdateHeroData(data: Value)
    | GetAboutData
    | UpdateAboutData(data: Value)
    | GetSkillCategories
    | AddSkillCategory(data: Value)
    | UpdateSkillCategory(id: int, data: Value)
    | DeleteSkillCategory(id: int)
    | AddSkill(data: Value)
    | UpdateSkill(id: int, data: Value)
    | DeleteSkill(id: int)
    | GetProjects
    | AddProject(data: Value)
    | UpdateProject(id: int, data: Value)
    | DeleteProject(id: int)
    | GetTimelineEvents
    | AddTimelineEvent(data: Value)
    | UpdateTimelineEvent(id: int, data: Value)
    | DeleteTimelineEvent(id: int)
    | GetSocialLinks
    | AddSocialLink(data: Value)
    | UpdateSocialLink(id: int, data: Value)
    | DeleteSocialLink(id: int)
    | GetServices
    | AddService(data: Value)
    | UpdateService(id: int, data: Value)
    | DeleteService(id: int)
    | GetTestimonials
    | AddTestimonial(data: Value)
    | UpdateTestimonial(id: int, data: Value)
    | DeleteTestimonial(id: int)
    | GetContactSubmissions
    | DeleteContactSubmission(id: int)

  /**
   * The accessors whose body is built by reading properties of their argument
   * need an object there (reading a property of null or undefined throws).
   */
  predicate ArgumentReadable(c: Call) {
    match c
    case UpdateAboutData(d) => Readable(d)
    case AddSkill(d) => Readable(d)
    case UpdateSkill(_, d) => Readable(d)
    case AddProject(d) => Readable(d)
    case UpdateProject(_, d) => Readable(d)
    case AddTestimonial(d) => Readable(d)
    case UpdateTestimonial(_, d) => Readable(d)
    case _ => true
  }

  /** The request each accessor issues. */
  function RequestOf(c: Call): Request
    requires ArgumentReadable(c)
  {
    match c
    case GetHeroData => Read("/hero?limit=1")
    case UpdateHeroData(d) => Change(RowPath("hero", 1), d)
    case GetAboutData => Read("/about?limit=1")
    case UpdateAboutData(d) => Change(RowPath("about", 1), AboutToApi(d))
    case GetSkillCategories => Read("/skill_categories?select=*,skills(*)")
    case AddSkillCategory(d) => Create("/skill_categories", d)
    case UpdateSkillCategory(id, d) => Change(RowPath("skill_categories", id), d)
    case DeleteSkillCategory(id) => Remove(RowPath("skill_categories", id))
    case AddSkill(d) => Create("/skills", SkillToApi(d))
    case UpdateSkill(id, d) => Change(RowPath("skills", id), SkillToApi(d))
    case DeleteSkill(id) => Remove(RowPath("skills", id))
    case GetProjects => Read("/projects?order=id.asc")
    case AddProject(d) => Create("/projects", ProjectToApi(d))
    case UpdateProject(id, d) => Change(RowPath("projects", id), ProjectToApi(d))
    case DeleteProject(id) => Remove(RowPath("projects", id))
    case GetTimelineEvents => Read("/timeline_events?order=year.desc")
    case AddTimelineEvent(d) => Create("/timeline_events", d)
    case UpdateTimelineEvent(id, d) => Change(RowPath("timeline_events", id), d)
    case DeleteTimelineEvent(id) => Remove(RowPath("timeline_events", id))
    case GetSocialLinks => Read("/social_links?order=id.asc")
    case AddSocialLink(d) => Create("/social_links", d)
    case UpdateSocialLink(id, d) => Change(RowPath("social_links", id), d)
    case DeleteSocialLink(id) => Remove(RowPath("social_links", id))
    case GetServices => Read("/services?order=id.asc")
    case AddService(d) => Create("/services", d)
    case UpdateService(id, d) => Change(RowPath("services", id), d)
    case DeleteService(id) => Remove(RowPath("services", id))
    case GetTestimonials => Read("/testimonials?order=id.asc")
    case AddTestimonial(d) => Create("/testimonials", TestimonialToApi(d))
    case UpdateTestimonial(id, d) => Change(RowPath("testimonials", id), TestimonialToApi(d))
    case DeleteTestimonial(id) => Remove(RowPath("testimonials", id))
    case GetContactSubmissions => Read("/contact_submissions?order=received_at.desc")
    case DeleteContactSubmission(id) => Remove(RowPath("contact_submissions", id))
  }

  /** The table each accessor works on. */
  function TableOf(c: Call): string {
    match c
    case GetHeroData | UpdateHeroData(_) => "hero"
    case GetAboutData | UpdateAboutData(_) => "about"
    case GetSkillCategories | AddSkillCategory(_) | UpdateSkillCategory(_, _)
      | DeleteSkillCategory(_) => "skill_categories"
    case AddSkill(_) | UpdateSkill(_, _) | DeleteSkill(_) => "skills"
    case GetProjects | AddProject(_) | UpdateProject(_, _) | DeleteProject(_) => "projects"
    case GetTimelineEvents | AddTimelineEvent(_) | UpdateTimelineEvent(_, _)
      | DeleteTimelineEvent(_) => "timeline_events"
    case GetSocialLinks | AddSocialLink(_) | UpdateSocialLink(_, _)
      | DeleteSocialLink(_) => "social_links"
    case GetServices | AddService(_) | UpdateService(_, _) | DeleteService(_) => "services"
    case GetTestimonials | AddTestimonial(_) | UpdateTestimonial(_, _)
      | DeleteTestimonial(_) => "testimonials"
    case GetContactSubmissions | DeleteContactSubmission(_) => "contact_submissions"
  }

  /**
   * The row an update or delete is about: its id argument, or row 1 for the
   * two singletons (hero and about). Reads and creations address no row.
   */
  function TargetRow(c: Call): Option<int> {
    match c
    case UpdateHeroData(_) | UpdateAboutData(_) => Some(1)
    case UpdateSkillCategory(id, _) => Some(id)
    case DeleteSkillCategory(id) => Some(id)
    case UpdateSkill(id, _) => Some(id)
    case DeleteSkill(id) => Some(id)
    case UpdateProject(id, _) => Some(id)
    case DeleteProject(id) => Some(id)
    case UpdateTimelineEvent(id, _) => Some(id)
    case DeleteTimelineEvent(id) => Some(id)
    case UpdateSocialLink(id, _) => Some(id)
    case DeleteSocialLink(id) => Some(id)
    case UpdateService(id, _) => Some(id)
    case DeleteService(id) => Some(id)
    case UpdateTestimonial(id, _) => Some(id)
    case DeleteTestimonial(id) => Some(id)
    case DeleteContactSubmission(id) => Some(id)
    case _ => None
  }

  /** Exactly the updates and deletes address a row; reads and creations address none. */
  lemma OnlyMutationsAddressRows(c: Call)
    requires ArgumentReadable(c)
    ensures TargetRow(c).Some? <==> RequestOf(c).verb.IsMutation()
  {
  }

  /**
   * Every update and delete is addressed to exactly its row,
   * `/<table>?id=eq.<id>`, the singletons always to row 1.
   */
  lemma MutationsAddressTheirRow(c: Call)
    requires ArgumentReadable(c) && TargetRow(c).Some?
    ensures RequestOf(c).path == RowPath(TableOf(c), TargetRow(c).value)
  {
  }

  /** The singletons' row paths are the literal `/hero?id=eq.1` and `/about?id=eq.1`. */
  lemma SingletonRowPaths()
    ensures RowPath("hero", 1) == "/hero?id=eq.1"
    ensures RowPath("about", 1) == "/about?id=eq.1"
  {
    assert IntText(1) == "1";
  }

  /** Two different rows of a table are never addressed by the same path. */
  lemma DistinctRowsDistinctPaths(table: string, a: int, b: int)
    ensures RowPath(table, a) == RowPath(table, b) <==> a == b
  {
    var prefix := "/" + table + "?id=eq.";
    if RowPath(table, a) == RowPath(table, b) {
      assert RowPath(table, a)[|prefix|..] == IntText(a);
      assert RowPath(table, b)[|prefix|..] == IntText(b);
      IntTextInjective(a, b);
    }
  }

  /**
   * Updates and deletes ask for a minimal reply; reads and creations ask for
   * the written representation; every request carries the publishable key.
   */
  lemma {:induction false} PreferenceFollowsVerb(c: Call)
    requires ArgumentReadable(c)
    ensures PreferenceOf(RequestOf(c).headers)
         == Some(if RequestOf(c).verb.IsMutation() then Minimal else Representation)
    ensures RequestOf(c).headers.apikey == PublishableKey
  {
    HeadersCarryPreference(Minimal);
    HeadersCarryPreference(Representation);
  }

  /** Creations and updates send a body; reads and deletes send none. */
  lemma BodyFollowsVerb(c: Call)
    requires ArgumentReadable(c)
    ensures RequestOf(c).body.Some? <==> RequestOf(c).verb.SendsBody()
  {
  }

  // ---------------------------------------------------------------------------
  // Responses
  // ---------------------------------------------------------------------------

  /**
   * What `fetch` resolved to: the status line, `ok`, the `content-length`
   * header if present, and the body as `response.json()` would parse it
   * (None when the body is not valid JSON).
   */
  datatype Response = Response(
    status: int,
    ok: bool,
    statusText: string,
    contentLength: Option<string>,
    body: Option<Value>)

  /** Why an accessor's promise rejects. */
  datatype Failure =
    | RequestFailed(message: string)  // the Error thrown for a non-ok response
    | InvalidJson                     // response.json() rejected
    | TypeError                       // a property of null/undefined, or .map of a non-array

  datatype Outcome<T> = Done(value: T) | Thrown(failure: Failure)

  /** The message `handleResponse` starts with (line 26 of the service). */
  function InitialErrorMessage(r: Response): string {
    "API request failed with status " + IntText(r.status)
  }

  /** The message when the error body cannot be read. */
  function FallbackMessage(r: Response): string {
    "API request failed: " + IntText(r.status) + " " + r.statusText
  }

  /** `errorData.code || response.status`, as text. */
  function CodeOrStatus(d: Value, status: int): string
    requires Readable(d)
  {
    var code := Prop(d, "code");
    if Truthy(code) then TemplateText(code) else IntText(status)
  }

  /** `errorData.message || JSON.stringify(errorData)`, as text. */
  function MessageOrJson(d: Value): string
    requires Readable(d)
  {
    var message := Prop(d, "message");
    if Truthy(message) then TemplateText(message) else Text(d)
  }

  function ErrorMessage(r: Response): string {
    match r.body
    case Some(d) =>
      if Readable(d) then "Error " + CodeOrStatus(d, r.status) + ": " + MessageOrJson(d)
      else FallbackMessage(r)   // reading `.code` of a JSON null throws, and is caught
    case None => FallbackMessage(r)
  }

  /** Status 204 (No Content, RFC 9110 section 15.3.5) or `content-length: 0`. */
  predicate DeclaresNoContent(r: Response) {
    r.status == 204 || r.contentLength == Some("0")
  }

  /** `handleResponse`: throw for a non-ok response, null for no content, else the JSON body. */
  function HandleResponse(r: Response): Outcome<Value> {
    if !r.ok then Thrown(RequestFailed(ErrorMessage(r)))
    else if DeclaresNoContent(r) then Done(Null)
    else match r.body
      case Some(v) => Done(v)
      case None => Thrown(InvalidJson)
  }

  predicate HasCodedForm(m: string) {
    "Error " <= m
  }

  /**
   * A non-ok response always throws, with a message of exactly one of two
   * forms: `Error <code-or-status>: <message-or-JSON>` when the error body
   * parses to something whose properties can be read, and
   * `API request failed: <status> <statusText>` otherwise. The initial message
   * is never the one thrown.
   */
  lemma NonOkResponseThrows(r: Response)
    requires !r.ok
    ensures HandleResponse(r).Thrown? && HandleResponse(r).failure.RequestFailed?
    ensures var m := HandleResponse(r).failure.message;
      && (HasCodedForm(m) <==> r.body.Some? && Readable(r.body.value))
      && (m == FallbackMessage(r) <==> !HasCodedForm(m))
      && m != InitialErrorMessage(r)
  {
    var m := HandleResponse(r).failure.message;
    var fb := FallbackMessage(r);
    assert fb[0] == 'A';
    assert InitialErrorMessage(r)[18] == ' ' && fb[18] == ':';
    if r.body.Some? && Readable(r.body.value) {
      assert m[0] == 'E';
    }
  }

  /**
   * The coded message names the backend's code, or the status when there is
   * none, and the backend's message, or the whole error body as JSON.
   */
  lemma CodedMessageParts(r: Response, code: string, message: string)
    requires !r.ok && r.body.Some? && Readable(r.body.value)
    ensures var d := r.body.value;
      var m := HandleResponse(r).failure.message;
      && (Prop(d, "code") == Str(code) && code != "" ==> "Error " + code + ": " <= m)
      && (!Truthy(Prop(d, "code")) ==> "Error " + IntText(r.status) + ": " <= m)
      && (Prop(d, "message") == Str(message) && message != "" ==> m[|m| - |message|..] == message)
      && (!Truthy(Prop(d, "message")) ==> m[|m| - |Text(d)|..] == Text(d))
  {
  }

  /**
   * An ok response that declares no content yields null without its body
   * being read, even if that body would not parse; any other ok response
   * yields its parsed body.
   */
  lemma OkResponseData(r: Response)
    requires r.ok
    ensures DeclaresNoContent(r) ==> HandleResponse(r) == Done(Null)
    ensures !DeclaresNoContent(r) && r.body.Some? ==> HandleResponse(r) == Done(r.body.value)
    ensures !DeclaresNoContent(r) && r.body.None? ==> HandleResponse(r) == Thrown(InvalidJson)
  {
  }

  // ---------------------------------------------------------------------------
  // Mappers
  // ---------------------------------------------------------------------------

  /** The `getProjects` row map. */
  function ProjectFromRow(p: Value): Value
    requires Readable(p)
  {
    var tags := Prop(p, "tags");
    Obj(["id", "title", "description", "imageUrl", "tags", "demoUrl", "repoUrl", "isFeatured"],
        map["id" := Prop(p, "id"), "title" := Prop(p, "title"),
            "description" := Prop(p, "description"), "imageUrl" := Prop(p, "image_url"),
            "tags" := if tags.Arr? then tags else Arr([]),
            "demoUrl" := Prop(p, "demo_url"), "repoUrl" := Prop(p, "repo_url"),
            "isFeatured" := Prop(p, "is_featured")])
  }

  /** `projectToApi`. */
  function ProjectToApi(p: Value): Value
    requires Readable(p)
  {
    Obj(["title", "description", "image_url", "tags", "demo_url", "repo_url", "is_featured"],
        map["title" := Prop(p, "title"), "description" := Prop(p, "description"),
            "image_url" := Prop(p, "imageUrl"), "tags" := Prop(p, "tags"),
            "demo_url" := Prop(p, "demoUrl"), "repo_url" := Prop(p, "repoUrl"),
            "is_featured" := Prop(p, "isFeatured")])
  }

  /** `testimonialFromApi`. */
  function TestimonialFromApi(t: Value): Value
    requires Readable(t)
  {
    Obj(["id", "clientName", "clientRole", "quote", "imageUrl"],
        map["id" := Prop(t, "id"), "clientName" := Prop(t, "client_name"),
            "clientRole" := Prop(t, "client_role"), "quote" := Prop(t, "quote"),
            "imageUrl" := Prop(t, "image_url")])
  }

  /** `testimonialToApi`. */
  function TestimonialToApi(t: Value): Value
    requires Readable(t)
  {
    Obj(["client_name", "client_role", "quote", "image_url"],
        map["client_name" := Prop(t, "clientName"), "client_role" := Prop(t, "clientRole"),
            "quote" := Prop(t, "quote"), "image_url" := Prop(t, "imageUrl")])
  }

  /** `submissionFromApi`: the row itself plus `receivedAt`. */
  function SubmissionFromApi(s: Value): Value
    requires Readable(s)
  {
    Put(Spread(s), "receivedAt", Prop(s, "received_at"))
  }

  /** The body of `addSkill` and `updateSkill`: the argument plus `is_learning`. */
  function SkillToApi(d: Value): Value
    requires Readable(d)
  {
    Put(Spread(d), "is_learning", Prop(d, "isLearning"))
  }

  /** The body of `updateAboutData`. */
  function AboutToApi(d: Value): Value
    requires Readable(d)
  {
    Obj(["image_url", "description", "info_items"],
        map["image_url" := Prop(d, "imageUrl"), "description" := Prop(d, "description"),
            "info_items" := Prop(d, "infoItems")])
  }

  /** The rename `getAboutData` applies to the row it picked. */
  function AboutFromRow(about: Value): Value
    requires Readable(about)
  {
    Put(Put(Spread(about), "imageUrl", Prop(about, "image_url")), "infoItems", Prop(about, "info_items"))
  }

  /**
   * Sending a project and reading it back as a row gives the same title,
   * description, image, links and flag, and the same tags when they are an
   * array (an empty array otherwise). No id is sent, so none comes back.
   */
  lemma ProjectRoundTrip(p: Value)
    requires Readable(p)
    ensures var r := ProjectFromRow(ProjectToApi(p));
      && Prop(r, "title") == Prop(p, "title")
      && Prop(r, "description") == Prop(p, "description")
      && Prop(r, "imageUrl") == Prop(p, "imageUrl")
      && Prop(r, "demoUrl") == Prop(p, "demoUrl")
      && Prop(r, "repoUrl") == Prop(p, "repoUrl")
      && Prop(r, "isFeatured") == Prop(p, "isFeatured")
      && Prop(r, "tags") == (if Prop(p, "tags").Arr? then Prop(p, "tags") else Arr([]))
      && Prop(r, "id") == Undefined
  {
    var api := ProjectToApi(p);
    assert "id" !in api.fields;
  }

  /** An array of strings reaches the backend unchanged. */
  lemma StringsSurviveWire(ss: seq<string>)
    ensures Wire(Strs(ss)) == Strs(ss)
  {
    var e := Strs(ss).elems;
    var w := Wire(Strs(ss)).elems;
    assert |w| == |e|;
    forall i | 0 <= i < |e| ensures w[i] == e[i] {
      assert e[i] == Str(ss[i]);
      assert Wire(e[i]) == e[i];
      assert w[i] == (if e[i].Undefined? then Null else Wire(e[i]));
    }
  }

  /**
   * A project record written by `addProject` and read back by `getProjects`
   * comes back with every field the form owns unchanged, even after
   * JSON.stringify has dropped the absent demo and repository links.
   */
  lemma ProjectSurvivesBackend(pd: ProjectData)
    ensures var back := ProjectFromRow(Wire(ProjectToApi(ProjectDataValue(pd))));
      && Prop(back, "title") == Str(pd.title)
      && Prop(back, "description") == Str(pd.description)
      && Prop(back, "imageUrl") == Str(pd.imageUrl)
      && Prop(back, "tags") == Strs(pd.tags)
      && Prop(back, "demoUrl") == OptionalStr(pd.demoUrl)
      && Prop(back, "repoUrl") == OptionalStr(pd.repoUrl)
      && Prop(back, "isFeatured") == Bool(pd.isFeatured)
  {
    var sent := ProjectDataValue(pd);
    var api := ProjectToApi(sent);
    var row := Wire(api);
    ProjectApiFields(sent);
    ProjectDataFields(pd);
    StringsSurviveWire(pd.tags);
    WireProp(api, "title");
    WireProp(api, "description");
    WireProp(api, "image_url");
    WireProp(api, "tags");
    WireProp(api, "demo_url");
    WireProp(api, "repo_url");
    WireProp(api, "is_featured");
    ProjectRowFields(row);
    assert Wire(Str(pd.title)) == Str(pd.title);
    assert Wire(Str(pd.description)) == Str(pd.description);
    assert Wire(Str(pd.imageUrl)) == Str(pd.imageUrl);
  }

  /** The fields of a project record as an object. */
  lemma ProjectDataFields(pd: ProjectData)
    ensures var v := ProjectDataValue(pd);
      && Prop(v, "title") == Str(pd.title)
      && Prop(v, "description") == Str(pd.description)
      && Prop(v, "imageUrl") == Str(pd.imageUrl)
      && Prop(v, "tags") == Strs(pd.tags)
      && Prop(v, "demoUrl") == OptionalStr(pd.demoUrl)
      && Prop(v, "repoUrl") == OptionalStr(pd.repoUrl)
      && Prop(v, "isFeatured") == Bool(pd.isFeatured)
  {
  }

  /** Where each field of a project read from a row comes from. */
  lemma ProjectRowFields(row: Value)
    requires Readable(row)
    ensures var p := ProjectFromRow(row);
      && Prop(p, "title") == Prop(row, "title")
      && Prop(p, "description") == Prop(row, "description")
      && Prop(p, "imageUrl") == Prop(row, "image_url")
      && Prop(p, "tags") == (if Prop(row, "tags").Arr? then Prop(row, "tags") else Arr([]))
      && Prop(p, "demoUrl") == Prop(row, "demo_url")
      && Prop(p, "repoUrl") == Prop(row, "repo_url")
      && Prop(p, "isFeatured") == Prop(row, "is_featured")
  {
  }

  /** Where each column of a project sent to the backend comes from. */
  lemma ProjectApiFields(p: Value)
    requires Readable(p)
    ensures var a := ProjectToApi(p);
      && Prop(a, "title") == Prop(p, "title")
      && Prop(a, "description") == Prop(p, "description")
      && Prop(a, "image_url") == Prop(p, "imageUrl")
      && Prop(a, "tags") == Prop(p, "tags")
      && Prop(a, "demo_url") == Prop(p, "demoUrl")
      && Prop(a, "repo_url") == Prop(p, "repoUrl")
      && Prop(a, "is_featured") == Prop(p, "isFeatured")
  {
  }

  /**
   * Sending a testimonial and reading it back gives the same client name,
   * role, quote and image; the outgoing object never carries an id.
   */
  lemma TestimonialRoundTrip(t: Value)
    requires Readable(t)
    ensures var r := TestimonialFromApi(TestimonialToApi(t));
      && Prop(r, "clientName") == Prop(t, "clientName")
      && Prop(r, "clientRole") == Prop(t, "clientRole")
      && Prop(r, "quote") == Prop(t, "quote")
      && Prop(r, "imageUrl") == Prop(t, "imageUrl")
      && Prop(r, "id") == Undefined
  {
    assert "id" !in TestimonialToApi(t).fields;
  }

  /**
   * A contact submission keeps every property of its row and gains
   * `receivedAt`, equal to the row's `received_at`.
   */
  lemma SubmissionKeepsRow(s: Value, k: string)
    requires s.Obj?
    ensures Prop(SubmissionFromApi(s), "receivedAt") == Prop(s, "received_at")
    ensures k != "receivedAt" ==> Prop(SubmissionFromApi(s), k) == Prop(s, k)
  {
  }

  /**
   * The skill body is the argument with `is_learning` set to its
   * `isLearning`: every other key, `isLearning` and `category_id` included,
   * is sent as it was.
   */
  lemma SkillBodyKeepsKeys(d: Value, k: string)
    requires d.Obj?
    ensures Prop(SkillToApi(d), "is_learning") == Prop(d, "isLearning")
    ensures k != "is_learning" ==> Prop(SkillToApi(d), k) == Prop(d, k)
    ensures forall j :: j in d.keys ==> j in SkillToApi(d).keys
  {
  }

  // ---------------------------------------------------------------------------
  // Accessor results
  // ---------------------------------------------------------------------------

  const HeroDefault: HeroData := HeroData("Hi, I'm", "Your Name", "Your Title", "Your subtitle")

  /** `getHeroData`: the first row, or the default record when there is none. */
  function GetHeroResult(r: Response): Outcome<Value> {
    match HandleResponse(r)
    case Thrown(f) => Thrown(f)
    case Done(d) =>
      if !Readable(d) then Thrown(TypeError)            // `null.length`
      else if Truthy(Prop(d, "length")) then Done(At(d, 0))
      else Done(HeroValue(HeroDefault))
  }

  /**
   * For a list of rows, `getHeroData` returns the first row unchanged, or the
   * default record when the list is empty; a reply with no content makes it
   * throw.
   */
  lemma HeroResultOfRows(r: Response)
    ensures HandleResponse(r).Done? && HandleResponse(r).value.Arr? ==>
      var rows := HandleResponse(r).value.elems;
      GetHeroResult(r) == Done(if |rows| > 0 then rows[0] else HeroValue(HeroDefault))
    ensures HandleResponse(r) == Done(Null) ==> GetHeroResult(r) == Thrown(TypeError)
    ensures HandleResponse(r).Thrown? ==> GetHeroResult(r) == HandleResponse(r)
  {
  }

  /** The default `getAboutData` falls back to when there is no row. */
  const AboutDefault: Value :=
    Obj(["imageUrl", "description", "infoItems"],
        map["imageUrl" := Str(""), "description" := Str(""), "infoItems" := Arr([])])

  /** The row `getAboutData` picks: the first one, or the default. */
  function AboutPick(d: Value, default: Value): Value
    requires Readable(d)
  {
    if Truthy(Prop(d, "length")) then At(d, 0) else default
  }

  /** `getAboutData`, as written. */
  function GetAboutResult(r: Response): Outcome<Value> {
    match HandleResponse(r)
    case Thrown(f) => Thrown(f)
    case Done(d) =>
      if !Readable(d) then Thrown(TypeError)
      else
        var about := AboutPick(d, AboutDefault);
        if !Readable(about) then Thrown(TypeError) else Done(AboutFromRow(about))
  }

  /**
   * The rename keeps every property of the row and adds
   * `imageUrl := image_url` and `infoItems := info_items`.
   */
  lemma AboutFromRowProps(row: Value, k: string)
    requires row.Obj?
    ensures var a := AboutFromRow(row);
      && Prop(a, "imageUrl") == Prop(row, "image_url")
      && Prop(a, "infoItems") == Prop(row, "info_items")
      && (k != "imageUrl" && k != "infoItems" ==> Prop(a, k) == Prop(row, k))
  {
    var a := Put(Spread(row), "imageUrl", Prop(row, "image_url"));
    assert Prop(a, "image_url") == Prop(row, "image_url");
  }

  /** With a row, `getAboutData` returns the row renamed. */
  lemma AboutResultOfRow(r: Response, row: Value, k: string)
    requires HandleResponse(r) == Done(Arr([row])) && row.Obj?
    ensures GetAboutResult(r).Done?
    ensures var a := GetAboutResult(r).value;
      && Prop(a, "imageUrl") == Prop(row, "image_url")
      && Prop(a, "infoItems") == Prop(row, "info_items")
      && (k != "imageUrl" && k != "infoItems" ==> Prop(a, k) == Prop(row, k))
  {
    assert AboutPick(Arr([row]), AboutDefault) == row;
    assert GetAboutResult(r) == Done(AboutFromRow(row));
    AboutFromRowProps(row, k);
  }

  /**
   * With no row, the as-written `getAboutData` keeps the default's empty
   * description but loses its `imageUrl` and `infoItems`: the default has no
   * `image_url` or `info_items` to copy them from.
   */
  lemma AboutDefaultLosesFields(r: Response)
    requires HandleResponse(r) == Done(Arr([]))
    ensures GetAboutResult(r).Done?
    ensures var a := GetAboutResult(r).value;
      && Prop(a, "description") == Str("")
      && Prop(a, "imageUrl") == Undefined
      && Prop(a, "infoItems") == Undefined
  {
    assert AboutPick(Arr([]), AboutDefault) == AboutDefault;
    assert GetAboutResult(r) == Done(AboutFromRow(AboutDefault));
    AboutFromRowProps(AboutDefault, "description");
    assert Prop(AboutDefault, "image_url") == Undefined;
    assert Prop(AboutDefault, "info_items") == Undefined;
  }

  /** The default written in the backend's own spelling. */
  const AboutRowDefault: Value :=
    Obj(["image_url", "description", "info_items"],
        map["image_url" := Str(""), "description" := Str(""), "info_items" := Arr([])])

  /** `getAboutData` with its default spelled as a row, so the rename keeps it. */
  function IntendedAboutResult(r: Response): Outcome<Value> {
    match HandleResponse(r)
    case Thrown(f) => Thrown(f)
    case Done(d) =>
      if !Readable(d) then Thrown(TypeError)
      else
        var about := AboutPick(d, AboutRowDefault);
        if !Readable(about) then Thrown(TypeError) else Done(AboutFromRow(about))
  }

  /**
   * With no row, the intended `getAboutData` returns an about record with an
   * empty image, an empty description and no info items.
   */
  lemma IntendedAboutDefault(r: Response)
    requires HandleResponse(r) == Done(Arr([]))
    ensures IntendedAboutResult(r).Done?
    ensures var a := IntendedAboutResult(r).value;
      && Prop(a, "imageUrl") == Str("")
      && Prop(a, "description") == Str("")
      && Prop(a, "infoItems") == Arr([])
  {
    assert AboutPick(Arr([]), AboutRowDefault) == AboutRowDefault;
    assert IntendedAboutResult(r) == Done(AboutFromRow(AboutRowDefault));
    AboutFromRowProps(AboutRowDefault, "description");
  }

  /**
   * The correction changes nothing but the fallback: whenever the reply
   * fails, is null, or has a non-zero length (a row was found), the intended
   * `getAboutData` settles exactly as the written one.
   */
  lemma IntendedAboutAgrees(r: Response)
    requires HandleResponse(r).Thrown? || !Readable(HandleResponse(r).value)
             || Truthy(Prop(HandleResponse(r).value, "length"))
    ensures IntendedAboutResult(r) == GetAboutResult(r)
  {
    match HandleResponse(r)
    case Thrown(_) =>
    case Done(d) =>
      if Readable(d) {
        assert AboutPick(d, AboutRowDefault) == At(d, 0) == AboutPick(d, AboutDefault);
      }
  }

  predicate AllReadable(rows: seq<Value>) {
    forall i :: 0 <= i < |rows| ==> Readable(rows[i])
  }

  /** `getProjects`: every row through the row map, in order. */
  function GetProjectsResult(r: Response): Outcome<Value> {
    match HandleResponse(r)
    case Thrown(f) => Thrown(f)
    case Done(d) =>
      if d.Arr? && AllReadable(d.elems) then
        Done(Arr(seq(|d.elems|, i requires 0 <= i < |d.elems| => ProjectFromRow(d.elems[i]))))
      else Thrown(TypeError)   // `.map` of a non-array, or a property of a null row
  }

  /**
   * `getProjects` keeps the number and order of the rows; every project has
   * its row's id, and its row's tags when they are an array, else an empty
   * array — so `tags` is always an array.
   */
  lemma ProjectsKeepRows(r: Response)
    requires HandleResponse(r).Done? && HandleResponse(r).value.Arr?
    requires AllReadable(HandleResponse(r).value.elems)
    ensures GetProjectsResult(r).Done? && GetProjectsResult(r).value.Arr?
    ensures var rows := HandleResponse(r).value.elems;
      var ps := GetProjectsResult(r).value.elems;
      && |ps| == |rows|
      && forall i :: 0 <= i < |ps| ==>
           && Prop(ps[i], "id") == Prop(rows[i], "id")
           && Prop(ps[i], "tags").Arr?
           && Prop(ps[i], "tags") == (if Prop(rows[i], "tags").Arr? then Prop(rows[i], "tags") else Arr([]))
  {
  }

  /** `getTestimonials`. */
  function GetTestimonialsResult(r: Response): Outcome<Value> {
    match HandleResponse(r)
    case Thrown(f) => Thrown(f)
    case Done(d) =>
      if d.Arr? && AllReadable(d.elems) then
        Done(Arr(seq(|d.elems|, i requires 0 <= i < |d.elems| => TestimonialFromApi(d.elems[i]))))
      else Thrown(TypeError)
  }

  /** `getContactSubmissions`. */
  function GetContactSubmissionsResult(r: Response): Outcome<Value> {
    match HandleResponse(r)
    case Thrown(f) => Thrown(f)
    case Done(d) =>
      if d.Arr? && AllReadable(d.elems) then
        Done(Arr(seq(|d.elems|, i requires 0 <= i < |d.elems| => SubmissionFromApi(d.elems[i]))))
      else Thrown(TypeError)
  }

  /**
   * An accessor that maps its rows (projects, testimonials, contact
   * submissions) throws when its reply has no content or is not an array,
   * instead of returning an empty list.
   */
  lemma ListAccessorsNeedArrays(r: Response)
    requires HandleResponse(r).Done? && !HandleResponse(r).value.Arr?
    ensures GetProjectsResult(r) == Thrown(TypeError)
    ensures GetTestimonialsResult(r) == Thrown(TypeError)
    ensures GetContactSubmissionsResult(r) == Thrown(TypeError)
  {
  }
}
