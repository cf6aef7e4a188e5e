/**
 * The console's shell: the session flag kept in local storage, the view
 * shown, the loading flag, and the data every editor is given, loaded from
 * the backend after sign-in.
 */
module App {
  import opened JsString
  import opened JsValue
  import opened Types
  import NeonApi

  const AuthTokenKey: string := "neon-auth-token"

  datatype ViewType =
    | Dashboard | Hero | About | Skills | Projects | Timeline | Socials | Services | Testimonials | Contact

  /** The nine pieces of data the shell loads, one per accessor it calls. */
  datatype Resource =
    | HeroRes | AboutRes | SkillCategoriesRes | ProjectsRes | TimelineRes
    | SocialLinksRes | ServicesRes | TestimonialsRes | ContactSubmissionsRes

  /** `!!localStorage.getItem(AUTH_TOKEN_KEY)`: a stored, non-empty token. */
  predicate HasSession(storage: map<string, string>) {
    AuthTokenKey in storage && storage[AuthTokenKey] != ""
  }

  /** The data before anything is loaded: no hero or about record, every list empty. */
  function InitialData(): map<Resource, Value> {
    map[HeroRes := Null, AboutRes := Null, SkillCategoriesRes := Arr([]), ProjectsRes := Arr([]),
        TimelineRes := Arr([]), SocialLinksRes := Arr([]), ServicesRes := Arr([]),
        TestimonialsRes := Arr([]), ContactSubmissionsRes := Arr([])]
  }

  /** Before loading, every piece of data is present: null for the two records, `[]` for the lists. */
  lemma {:induction false} InitialDataComplete(r: Resource)
    ensures r in InitialData()
    ensures InitialData()[r] == if r == HeroRes || r == AboutRes then Null else Arr([])
  {
    match r
    case HeroRes =>
    case AboutRes =>
    case SkillCategoriesRes =>
    case ProjectsRes =>
    case TimelineRes =>
    case SocialLinksRes =>
    case ServicesRes =>
    case TestimonialsRes =>
    case ContactSubmissionsRes =>
  }

  /** What the accessor's promise settles to, given the backend's reply. */
  function FetchResult(r: Resource, reply: NeonApi.Response): NeonApi.Outcome<Value> {
    match r
    case HeroRes => NeonApi.GetHeroResult(reply)
    case AboutRes => NeonApi.GetAboutResult(reply)
    case ProjectsRes => NeonApi.GetProjectsResult(reply)
    case TestimonialsRes => NeonApi.GetTestimonialsResult(reply)
    case ContactSubmissionsRes => NeonApi.GetContactSubmissionsResult(reply)
    case _ => NeonApi.HandleResponse(reply)
  }

  /**
   * The data after `fetchData`: each `fetchX` stores its own result when its
   * promise resolves, whether or not the others fail.
   */
  function AfterFetch(data: map<Resource, Value>, replies: Resource -> NeonApi.Response): map<Resource, Value> {
    map r | r in data :: if FetchResult(r, replies(r)).Done? then FetchResult(r, replies(r)).value else data[r]
  }

  /**
   * A load is not all-or-nothing: every piece whose accessor succeeded is
   * replaced by its result and every piece whose accessor failed keeps its
   * old value, regardless of what happened to the others.
   */
  lemma AfterFetchPieceByPiece(data: map<Resource, Value>, replies: Resource -> NeonApi.Response, r: Resource)
    requires r in data
    ensures r in AfterFetch(data, replies)
    ensures FetchResult(r, replies(r)).Done? ==> AfterFetch(data, replies)[r] == FetchResult(r, replies(r)).value
    ensures FetchResult(r, replies(r)).Thrown? ==> AfterFetch(data, replies)[r] == data[r]
    ensures AfterFetch(data, replies).Keys == data.Keys
  {
  }

  /**
   * A reply with no content (`null`) reaches the stored data only through
   * the accessors that pass their reply on unmapped (skill categories,
   * timeline, social links, services); those that map their rows (projects,
   * testimonials, contact submissions) throw on it and keep the old list.
   */
  lemma NullReachesOnlyPassThroughLists(data: map<Resource, Value>, replies: Resource -> NeonApi.Response, r: Resource)
    requires r in data && r != HeroRes && r != AboutRes
    requires NeonApi.HandleResponse(replies(r)) == NeonApi.Done(Null)
    ensures r in {SkillCategoriesRes, TimelineRes, SocialLinksRes, ServicesRes} ==>
      AfterFetch(data, replies)[r] == Null
    ensures r in {ProjectsRes, TestimonialsRes, ContactSubmissionsRes} ==>
      AfterFetch(data, replies)[r] == data[r]
  {
    if r in {ProjectsRes, TestimonialsRes, ContactSubmissionsRes} {
      NeonApi.ListAccessorsNeedArrays(replies(r));
    }
  }

  /** A failed project load leaves the old projects in place even when the hero loaded. */
  lemma PartialLoad(data: map<Resource, Value>, replies: Resource -> NeonApi.Response)
    requires HeroRes in data && ProjectsRes in data
    requires NeonApi.GetHeroResult(replies(HeroRes)).Done?
    requires NeonApi.GetProjectsResult(replies(ProjectsRes)).Thrown?
    ensures AfterFetch(data, replies)[HeroRes] == NeonApi.GetHeroResult(replies(HeroRes)).value
    ensures AfterFetch(data, replies)[ProjectsRes] == data[ProjectsRes]
  {
  }

  /**
   * When the about table has no row the shell stores the about record
   * `getAboutData` falls back to, whose `imageUrl` and `infoItems` are
   * `undefined`: the about editor is then given no list of info items.
   */
  lemma EmptyAboutLoadsNoItems(data: map<Resource, Value>, replies: Resource -> NeonApi.Response)
    requires AboutRes in data
    requires NeonApi.HandleResponse(replies(AboutRes)) == NeonApi.Done(Arr([]))
    ensures var about := AfterFetch(data, replies)[AboutRes];
      && about.Obj?
      && Prop(about, "description") == Str("")
      && Prop(about, "imageUrl") == Undefined
      && Prop(about, "infoItems") == Undefined
  {
    NeonApi.AboutDefaultLosesFields(replies(AboutRes));
  }

  /** The accessors `fetchData` calls, in the order it calls them. */
  const LoadCalls: seq<NeonApi.Call> :=
    [NeonApi.GetHeroData, NeonApi.GetAboutData, NeonApi.GetSkillCategories,
     NeonApi.GetProjects, NeonApi.GetTimelineEvents, NeonApi.GetSocialLinks,
     NeonApi.GetServices, NeonApi.GetTestimonials, NeonApi.GetContactSubmissions]

  class Shell {
    var isAuthenticated: bool
    var activeView: ViewType
    /** Local storage. */
    var storage: map<string, string>
    var isLoading: bool
    var data: map<Resource, Value>
    /** The accessors called, oldest first. */
    var calls: seq<NeonApi.Call>
    /** Whether the loading flag was on when the accessors were called. */
    ghost var loadingWhenCalled: bool

    /** The shell as first rendered, over what local storage holds. */
    constructor(stored: map<string, string>)
      ensures isAuthenticated == HasSession(stored)
      ensures activeView == Dashboard && isLoading
      ensures storage == stored && data == InitialData() && calls == []
    {
      isAuthenticated := HasSession(stored);
      activeView := Dashboard;
      storage := stored;
      isLoading := true;
      data := InitialData();
      calls := [];
      loadingWhenCalled := false;
    }

    /**
     * `fetchData`, given the backend's reply to each accessor: the flag is
     * set before the accessors are called and clear at the end, and the data
     * is what it is once every accessor has settled.
     */
    method FetchData(replies: Resource -> NeonApi.Response)
      modifies this
      ensures loadingWhenCalled && !isLoading
      ensures data == AfterFetch(old(data), replies)
      ensures calls == old(calls) + LoadCalls
      ensures isAuthenticated == old(isAuthenticated) && activeView == old(activeView)
      ensures storage == old(storage)
    {
      isLoading := true;
      calls := calls + LoadCalls;
      loadingWhenCalled := isLoading;
      data := AfterFetch(data, replies);
      isLoading := false;
    }

    /** The effect that runs whenever `isAuthenticated` changes: load only when signed in. */
    method OnAuthenticationChanged(replies: Resource -> NeonApi.Response)
      modifies this
      ensures !isLoading
      ensures isAuthenticated == old(isAuthenticated) && activeView == old(activeView)
      ensures storage == old(storage)
      ensures old(isAuthenticated) ==> data == AfterFetch(old(data), replies) && calls == old(calls) + LoadCalls
      ensures !old(isAuthenticated) ==> data == old(data) && calls == old(calls)
    {
      if isAuthenticated {
        FetchData(replies);
      } else {
        isLoading := false;
      }
    }

    /** `handleLoginSuccess`: keep the token, sign in, show the dashboard. */
    method HandleLoginSuccess(token: string)
      modifies this
      ensures storage == old(storage)[AuthTokenKey := token]
      ensures isAuthenticated && activeView == Dashboard
      ensures data == old(data) && isLoading == old(isLoading) && calls == old(calls)
    {
      storage := storage[AuthTokenKey := token];
      isAuthenticated := true;
      activeView := Dashboard;
    }

    /**
     * `handleLogout`: forget the token and sign out; the loaded data and the
     * view shown are left as they are.
     */
    method HandleLogout()
      modifies this
      ensures storage == old(storage) - {AuthTokenKey}
      ensures !isAuthenticated
      ensures data == old(data) && activeView == old(activeView)
      ensures isLoading == old(isLoading) && calls == old(calls)
    {
      storage := storage - {AuthTokenKey};
      isAuthenticated := false;
    }

    /** Choosing a view in the sidebar. */
    method SetActiveView(v: ViewType)
      modifies this
      ensures activeView == v
      ensures isAuthenticated == old(isAuthenticated) && storage == old(storage)
      ensures data == old(data) && isLoading == old(isLoading) && calls == old(calls)
    {
      activeView := v;
    }
  }

  /**
   * The session outlives a reload exactly as far as storage keeps it: after
   * a sign-in the next start is signed in when the token is not empty, and
   * after a sign-out it is signed out; other stored entries play no part.
   */
  lemma SessionSurvivesReload(storage: map<string, string>, token: string, other: string, v: string)
    requires other != AuthTokenKey
    ensures HasSession(storage[AuthTokenKey := token]) <==> token != ""
    ensures !HasSession(storage - {AuthTokenKey})
    ensures HasSession(storage[other := v]) <==> HasSession(storage)
  {
  }

  // ---------------------------------------------------------------------------
  // The dashboard's skill count
  // ---------------------------------------------------------------------------

  /** `categories.reduce((acc, cat) => acc + cat.skills.length, 0)`. */
  function SkillCount(categories: seq<SkillCategory>): nat {
    if categories == [] then 0
    else SkillCount(categories[..|categories| - 1]) + |categories[|categories| - 1].skills|
  }

  /** Every skill of every category, category by category. */
  function AllSkills(categories: seq<SkillCategory>): seq<Skill> {
    if categories == [] then [] else categories[0].skills + AllSkills(categories[1..])
  }

  lemma {:induction false} AllSkillsAppend(a: seq<SkillCategory>, b: seq<SkillCategory>)
    ensures AllSkills(a + b) == AllSkills(a) + AllSkills(b)
    decreases |a|
  {
    if a == [] {
      assert a + b == b;
    } else {
      AllSkillsAppend(a[1..], b);
      assert (a + b)[1..] == a[1..] + b;
    }
  }

  /** The dashboard counts every skill of every category once. */
  lemma {:induction false} SkillCountIsTotal(categories: seq<SkillCategory>)
    ensures SkillCount(categories) == |AllSkills(categories)|
    decreases |categories|
  {
    if categories != [] {
      var n := |categories|;
      var init := categories[..n - 1];
      SkillCountIsTotal(init);
      AllSkillsAppend(init, [categories[n - 1]]);
      assert init + [categories[n - 1]] == categories;
      assert AllSkills([categories[n - 1]]) == categories[n - 1].skills + AllSkills([]);
    }
  }

  /**
   * One category's term of the dashboard's reduce, `cat.skills.length`:
   * nothing when reading it throws or does not give a number.
   */
  function SkillsLength(cat: Value): Option<int> {
    if Readable(cat) && Readable(Prop(cat, "skills")) && Prop(Prop(cat, "skills"), "length").Num? then
      Some(Prop(Prop(cat, "skills"), "length").n)
    else None
  }

  /** The reduce over the elements of the stored list, first to last. */
  function SkillsTotal(cats: seq<Value>): Option<int> {
    if cats == [] then Some(0)
    else
      match (SkillsTotal(cats[..|cats| - 1]), SkillsLength(cats[|cats| - 1]))
      case (Some(acc), Some(n)) => Some(acc + n)
      case _ => None
  }

  /**
   * The dashboard's skill count over the stored skill categories: nothing
   * when `reduce` throws, as it does on the `null` of an empty reply.
   */
  function StoredSkillCount(v: Value): (r: Option<int>)
    ensures !v.Arr? ==> r.None?
  {
    if v.Arr? then SkillsTotal(v.elems) else None
  }

  /** The list of category rows `getSkillCategories` returns for these categories. */
  function CategoriesValue(cs: seq<SkillCategory>): Value {
    Arr(seq(|cs|, i requires 0 <= i < |cs| => CategoryRowValue(cs[i])))
  }

  lemma {:induction false} SkillsTotalOfRows(cs: seq<SkillCategory>)
    ensures SkillsTotal(CategoriesValue(cs).elems) == Some(SkillCount(cs))
    decreases |cs|
  {
    if cs != [] {
      var n := |cs|;
      var rows := CategoriesValue(cs).elems;
      SkillsTotalOfRows(cs[..n - 1]);
      assert rows[..n - 1] == CategoriesValue(cs[..n - 1]).elems;
      assert SkillsLength(rows[n - 1]) == Some(|cs[n - 1].skills|);
    }
  }

  /**
   * On the rows the backend returns, the count the dashboard shows from the
   * stored data is the number of all skills of all categories.
   */
  lemma StoredSkillCountIsTotal(cs: seq<SkillCategory>)
    ensures StoredSkillCount(CategoriesValue(cs)) == Some(|AllSkills(cs)|)
  {
    SkillsTotalOfRows(cs);
    SkillCountIsTotal(cs);
  }

  /**
   * After a load whose skill-categories reply had no content, the stored
   * categories are `null` and the dashboard's count throws.
   */
  lemma NullCategoriesHaveNoCount(data: map<Resource, Value>, replies: Resource -> NeonApi.Response)
    requires SkillCategoriesRes in data
    requires NeonApi.HandleResponse(replies(SkillCategoriesRes)) == NeonApi.Done(Null)
    ensures StoredSkillCount(AfterFetch(data, replies)[SkillCategoriesRes]).None?
  {
    NullReachesOnlyPassThroughLists(data, replies, SkillCategoriesRes);
  }
}
