# Portfolio admin console: data-access layer and editor logic

This project models the core of a portfolio admin console. The console is
a single-page app that edits a portfolio site's content (hero, about
section, skills, projects, social links and more) in a PostgREST-style REST
backend. The model has three layers.

- **The data-access layer** (`src/lib/neonApiService.ts`):
  - the request headers, with their `Prefer: return=representation|minimal`
    preference (RFC 7240, section 4.2);
  - the path, verb and body of the request each accessor issues;
  - how `handleResponse` classifies a response: it throws, returns `null`
    for "no content" (status 204, RFC 9110 section 15.3.5, or a zero
    `Content-Length`, RFC 9110 section 8.6), or returns the parsed JSON body;
  - the mappers between the backend's snake_case rows and the console's
    camelCase records;
  - the default records of the two singletons.
- **The editors' logic**:
  - the about editor's record transforms and its save flow;
  - the projects editor's tag parsing and formatting, its add/update
    dispatch and its form state;
  - the skills and social-links editors' guards, drafts and payloads.
- **The shell** (`App.tsx`): the session flag kept in local storage, the
  loading flag around the data load, and the dashboard's skill count.

JavaScript values are a datatype `JsValue.Value`. `undefined` and `null`
are kept apart, and objects keep their keys in insertion order.
`JSON.stringify` is modelled twice:
- as text (`JsValue.Text`);
- as the document the backend parses (`JsValue.Wire`), which drops keys
  that hold `undefined`.

The network is abstract. A response is a value carrying:
- the status, `ok` and the status text;
- the `content-length` header, if present;
- the body as `response.json()` would parse it, or nothing when it is not
  JSON.

An awaited call in an editor is an input: it resolved, or it rejected with
a message. What a handler sets in motion is written to an effect log. Each
entry is a call to the data-access layer or the parent's refresh.

The pure parts are functions and lemmas. The editors whose handlers set
state fields one after the other around an awaited call are classes with
those fields:
- `ProjectsView.ProjectsList` and `ProjectsView.ProjectForm`;
- `SkillsView.SkillsEditor`;
- `SocialsView.SocialsEditor`;
- `App.Shell`.

Files:

| file | module | what it holds |
|---|---|---|
| js_string.dfy | JsString | `${n}` for integers, `trim`, `split(c)`, `join(sep)` |
| js_value.dfy | JsValue | JS values, property reads, spread, `String(v)`, `JSON.stringify` |
| types.dfy | Types | the records of `types.ts` and their object forms |
| neon_api.dfy | NeonApi | headers, requests, response handling, mappers, accessor results |
| ui.dfy | Ui | awaited outcomes, the effect log, `handleApiCall` |
| about_view.dfy | AboutView | the about editor |
| projects_view.dfy | ProjectsView | the projects list and form |
| skills_view.dfy | SkillsView | the skills editor |
| socials_view.dfy | SocialsView | the social-links editor |
| app.dfy | App | the shell |

## Model

| member | source | states |
|---|---|---|
| JsString.NatText | src/lib/neonApiService.ts:76 | the decimal text of a natural number is non-empty, all digits, with no leading zero |
| JsString.IntTextRoundTrip | src/lib/neonApiService.ts:76 | `${id}` reads back as `id`, so the text of an id in a path loses nothing |
| JsString.IntTextInjective | src/lib/neonApiService.ts:76 | two ids render to the same text exactly when they are equal |
| JsString.NatTextValue | src/lib/neonApiService.ts:76 | the digits of a natural number have that value |
| JsString.TrimStartSpec | components/views/ProjectsView.tsx:40 | trimming the start removes a whitespace-only prefix and stops at the first other character |
| JsString.TrimEndSpec | components/views/ProjectsView.tsx:40 | trimming the end removes a whitespace-only suffix and stops at the last other character |
| JsString.TrimSpec | components/views/ProjectsView.tsx:40 | `trim` returns a slice of its input; everything cut before and after it is whitespace, and the slice has no whitespace at either end |
| JsString.TrimIsTrimmed | components/views/ProjectsView.tsx:40 | what `trim` leaves has no whitespace at either end |
| JsString.TrimOfTrimmed | components/views/ProjectsView.tsx:40 | `trim` is the identity on a string with no whitespace at either end |
| JsString.NotInTrim | components/views/ProjectsView.tsx:40 | `trim` adds no character: one absent from the input is absent from the result |
| JsString.TrimOfWhitespace | components/views/SkillsView.tsx:50 | a string of whitespace only trims to `''` |
| JsString.TrimDropsLeadingSpace | components/views/ProjectsView.tsx:40 | a leading whitespace character does not change the trim |
| JsString.Split | components/views/ProjectsView.tsx:40 | `split` always yields at least one piece |
| JsString.SplitCount | components/views/ProjectsView.tsx:40 | `split(c)` yields one piece more than there are `c`s |
| JsString.SplitPiecesFree | components/views/ProjectsView.tsx:40 | no piece of `split(c)` contains `c` |
| JsString.JoinSplit | components/views/ProjectsView.tsx:40 | joining the pieces of `split(c)` with `c` gives the input back |
| JsString.SplitJoin | components/views/ProjectsView.tsx:40-65 | splitting the join of at least one `c`-free piece gives the pieces back |
| JsValue.Put | components/views/SkillsView.tsx:45 | `{ ...o, [k]: v }` holds `v` at `k` and `o`'s value at every other key; an existing key keeps its place and a new one goes last |
| JsValue.Spread | src/lib/neonApiService.ts:134 | spreading an object copies it; spreading anything else gives an object |
| JsValue.PutKeepsWellFormed | components/views/SkillsView.tsx:45 | `{ ...o, [k]: v }` of an object whose keys are listed once and exactly match its properties is again such an object |
| JsValue.SpreadKeepsWellFormed | src/lib/neonApiService.ts:134 | spreading a well-formed value gives a well-formed object |
| JsValue.WireKeepsWellFormed | src/lib/neonApiService.ts:57 | the object the backend parses from a well-formed object is well-formed |
| JsValue.DefinedKeys | src/lib/neonApiService.ts:57 | `JSON.stringify` writes exactly the keys whose value is not `undefined` |
| JsValue.Wire | src/lib/neonApiService.ts:57 | what the backend parses is `undefined` exactly when what was sent is |
| JsValue.WireProp | src/lib/neonApiService.ts:57 | a property of a sent object reads, on the backend, as that property sent on its own |
| JsValue.WireDropsUndefined | src/lib/neonApiService.ts:57 | a sent object keeps a key exactly when it held a value other than `undefined` |
| JsValue.WireHasNoUndefined | src/lib/neonApiService.ts:57 | what the backend parses holds no `undefined` at any depth |
| JsValue.WireText | src/lib/neonApiService.ts:57 | serialising what the backend parsed gives the text that was sent |
| NeonApi.GetHeaders | src/lib/neonApiService.ts:16-22 | the headers carry the publishable key, JSON content and the preference asked for |
| NeonApi.OnlyMutationsAddressRows | src/lib/neonApiService.ts:49-139 | an accessor addresses a row exactly when it is a PATCH or a DELETE |
| NeonApi.MutationsAddressTheirRow | src/lib/neonApiService.ts:54-139 | every update and delete goes to `/<table>?id=eq.<id>` for its own table and id, and the two singletons to row 1 |
| NeonApi.SingletonRowPaths | src/lib/neonApiService.ts:54-67 | the singletons' paths are exactly `/hero?id=eq.1` and `/about?id=eq.1` |
| NeonApi.DistinctRowsDistinctPaths | src/lib/neonApiService.ts:76-77 | two rows of a table have the same path exactly when they are the same row |
| NeonApi.PreferenceFollowsVerb | src/lib/neonApiService.ts:16-139 | PATCH and DELETE ask for `return=minimal`, GET and POST for `return=representation`; every request carries the publishable key |
| NeonApi.BodyFollowsVerb | src/lib/neonApiService.ts:49-139 | an accessor sends a body exactly when it is a POST or a PATCH |
| NeonApi.NonOkResponseThrows | src/lib/neonApiService.ts:24-34 | a non-ok response throws. The message is `Error …` exactly when the error body parses to a readable value, and `API request failed: <status> <statusText>` exactly otherwise. The initial message is never the one thrown |
| NeonApi.CodedMessageParts | src/lib/neonApiService.ts:29 | the coded message starts with the backend's code, or the status when there is none. It ends with the backend's message, or with the error body as JSON when there is none |
| NeonApi.OkResponseData | src/lib/neonApiService.ts:35-38 | an ok 204 or `content-length: 0` response yields `null` whatever its body; any other ok response yields its parsed body, or throws when the body is not JSON |
| NeonApi.ProjectRoundTrip | src/lib/neonApiService.ts:86-94 | a project sent through `projectToApi` and read back through the row map has its title, description, image, links and flag; its tags when they are an array, else `[]`; and no id |
| NeonApi.StringsSurviveWire | src/lib/neonApiService.ts:95 | an array of strings reaches the backend unchanged |
| NeonApi.ProjectSurvivesBackend | src/lib/neonApiService.ts:86-96 | a project record sent as JSON, taking the row read back to be the document the backend parsed, comes back field for field, with its tags and optional links |
| NeonApi.TestimonialRoundTrip | src/lib/neonApiService.ts:119-124 | `testimonialFromApi(testimonialToApi(t))` recovers the client name, role, quote and image; no id is sent |
| NeonApi.SubmissionKeepsRow | src/lib/neonApiService.ts:134 | a submission keeps every property of its row and gains `receivedAt = received_at` |
| NeonApi.SkillBodyKeepsKeys | src/lib/neonApiService.ts:79-80 | the skill body is the argument with `is_learning := isLearning`; every other key, `isLearning` and `category_id` included, is kept |
| NeonApi.HeroResultOfRows | src/lib/neonApiService.ts:49-52 | `getHeroData` returns the first row unchanged, or the fixed default when there is none; a `null` reply makes it throw |
| NeonApi.AboutFromRowProps | src/lib/neonApiService.ts:64 | the about rename keeps every property of the row and sets `imageUrl := image_url` and `infoItems := info_items` |
| NeonApi.AboutResultOfRow | src/lib/neonApiService.ts:61-65 | with a row, `getAboutData` returns that row renamed |
| NeonApi.AboutDefaultLosesFields | src/lib/neonApiService.ts:63-64 | as written, with no row `getAboutData` keeps the empty description but returns `imageUrl` and `infoItems` as `undefined` |
| NeonApi.IntendedAboutDefault | src/lib/neonApiService.ts:63-64 | with the default spelled as a row, no row gives an empty image, an empty description and no info items |
| NeonApi.IntendedAboutAgrees | src/lib/neonApiService.ts:61-65 | the corrected `getAboutData` differs from the written one only when it falls back to the default |
| NeonApi.ProjectsKeepRows | src/lib/neonApiService.ts:84-90 | `getProjects` keeps the number and order of the rows and copies each id; every `tags` is the row's when that is an array, else `[]` |
| NeonApi.ListAccessorsNeedArrays | src/lib/neonApiService.ts:84-138 | a mapped list accessor (projects, testimonials, contact submissions) whose reply is `null` or not an array throws instead of returning a list |
| Ui.ApiCallEffects | components/views/SkillsView.tsx:17-25 | `handleApiCall` calls the accessor first, then refreshes the parent exactly when the call resolves |
| Ui.ApiCallRefreshesOnce | components/views/SocialsView.tsx:17-25 | `handleApiCall` refreshes once on success and never on failure |
| AboutView.HandleTextChange | components/views/AboutView.tsx:23-25 | the input's value replaces only the field its name selects; the info items are untouched |
| AboutView.WithInfoField | components/views/AboutView.tsx:29 | `{ ...item, [field]: value }` sets the named field and keeps the other three |
| AboutView.HandleInfoItemChange | components/views/AboutView.tsx:27-32 | changing an info item keeps the image and the description |
| AboutView.UpdateItemsSpec | components/views/AboutView.tsx:27-31 | the items keep their number and order. Items with another id are unchanged. Every item with the id, duplicates included, gets the value in the named field and keeps its other fields |
| AboutView.UpdateMissingIdChangesNothing | components/views/AboutView.tsx:28-31 | an id no item carries leaves the form unchanged |
| AboutView.HandleSaveFlow | components/views/AboutView.tsx:34-46 | saving sends the form as the about update with the loading flag on; `onSave` runs exactly when the update resolves, and only after it; the flag is off at the end on both paths |
| AboutView.SaveSendsForm | src/lib/neonApiService.ts:67-71 | the about update sends `image_url`, `description` and `info_items`, in that order, taken from the form |
| ProjectsView.ParseTagsSpec | components/views/ProjectsView.tsx:39-41 | parsing gives one tag more than there are commas; each tag is its comma-separated piece trimmed, holds no comma and no outer whitespace |
| ProjectsView.TagsRoundTrip | components/views/ProjectsView.tsx:40-65 | formatting a non-empty list of trimmed, comma-free tags and parsing the text gives the list back |
| ProjectsView.EmptyTagsComeBackAsOne | components/views/ProjectsView.tsx:40-65 | an empty tag list comes back as `['']` |
| ProjectsView.JoinSpaced | components/views/ProjectsView.tsx:65 | `join(', ')` is `join(',')` of the tags with a space before each one after the first |
| ProjectsView.FormatAsPieces | components/views/ProjectsView.tsx:65 | the formatted text is the comma-join of the first tag and the space-led others |
| ProjectsView.TrimPieces | components/views/ProjectsView.tsx:40 | trimming each piece of the formatted text gives back the tags |
| ProjectsView.WithText | components/views/ProjectsView.tsx:34-37 | a text input changes only the field it names; tags and flag are kept |
| ProjectsView.InitialFormSpec | components/views/ProjectsView.tsx:24-32 | a new form is blank, with no tags, not featured, and shows `''` as its tags; an edit form starts from the project |
| ProjectsView.SaveErrorText | components/views/ProjectsView.tsx:53 | the error shown is never empty, and is the error's message when it has one |
| ProjectsView.SaveCall | components/views/ProjectsView.tsx:86-95 | saving either adds or updates, with the form's record as the data |
| ProjectsView.SaveDispatch | components/views/ProjectsView.tsx:87 | saving updates exactly when an id other than 0 is given, and updates that id; id 0 adds |
| ProjectsView.ProjectsList.HandleSave | components/views/ProjectsView.tsx:86-97 | the call is made, then on success the saving form closes (`editingId` for an update, `isAdding` for an add) and the parent refreshes once; on failure nothing else changes and the error is passed on |
| ProjectsView.ProjectsList.HandleDelete | components/views/ProjectsView.tsx:99-110 | the project is deleted only on confirmation, and the parent refreshes only when the delete succeeds |
| ProjectsView.ProjectsList.StartAdding | components/views/ProjectsView.tsx:113 | the add form opens and nothing else changes |
| ProjectsView.ProjectsList.StartEditing | components/views/ProjectsView.tsx:136 | the edit form opens for the id and nothing else changes |
| ProjectsView.ProjectForm.constructor | components/views/ProjectsView.tsx:22-32 | the form starts from the initial record, not loading and with no error |
| ProjectsView.ProjectForm.HandleChange | components/views/ProjectsView.tsx:34-37 | only the named field of the form changes |
| ProjectsView.ProjectForm.HandleTagsChange | components/views/ProjectsView.tsx:39-41 | only the tags change, to the parsed text |
| ProjectsView.ProjectForm.HandleCheckboxChange | components/views/ProjectsView.tsx:43-45 | only the featured flag changes |
| ProjectsView.ProjectForm.HandleSubmit | components/views/ProjectsView.tsx:47-57 | the form saves through the list view with the loading flag on and the old error cleared; a failure becomes the form's error; the flag is off at the end |
| SkillsView.NewSkillRequest | components/views/SkillsView.tsx:51 | the new skill has the untrimmed draft name, `isLearning` and `is_learning` false and the category's id |
| SkillsView.SkillUpdatePayload | components/views/SkillsView.tsx:44-46 | the update payload is the whole skill row with only the named field replaced, keys in the row's order and a new key last |
| SkillsView.SkillUpdateSent | src/lib/neonApiService.ts:80 | the backend reads the edited field's new value, every other column of the row as it was, and as `is_learning` the new flag for a toggle but the row's camelCase `isLearning` for a name edit |
| SkillsView.RowNameEditSendsNoFlag | src/lib/neonApiService.ts:80 | renaming a skill row as the backend returns it (no `isLearning` key) sends the new name and no learning flag under either spelling |
| SkillsView.ToggleSendsFlag | components/views/SkillsView.tsx:44-46 | ticking or clearing the checkbox sends the new flag as both `isLearning` and `is_learning` |
| SkillsView.CategoryToAdd | components/views/SkillsView.tsx:27-32 | a category is added exactly when the prompt returns a non-empty name, and it has that name |
| SkillsView.SkillsEditor.HandleApiCall | components/views/SkillsView.tsx:17-25 | the effect log grows by the call and, on success, one refresh; the drafts are kept |
| SkillsView.SkillsEditor.AddCategory | components/views/SkillsView.tsx:27-32 | a cancelled or empty prompt issues nothing; otherwise the category is added |
| SkillsView.SkillsEditor.RemoveCategory | components/views/SkillsView.tsx:34-38 | the category is deleted only on confirmation |
| SkillsView.SkillsEditor.HandleCategoryNameChange | components/views/SkillsView.tsx:40-42 | the category is renamed by its id |
| SkillsView.SkillsEditor.HandleSkillUpdate | components/views/SkillsView.tsx:44-46 | the skill row, with the named field replaced, is sent as an update of the row's own id; the drafts are kept |
| SkillsView.SkillsEditor.AddSkill | components/views/SkillsView.tsx:48-56 | a blank draft changes nothing; otherwise the skill is added and that category's draft becomes `''` whatever the outcome, the other drafts kept |
| SkillsView.SkillsEditor.RemoveSkill | components/views/SkillsView.tsx:58-62 | the skill is deleted only on confirmation |
| SkillsView.SkillsEditor.HandleNewSkillNameChange | components/views/SkillsView.tsx:64-66 | only the category's draft changes |
| SkillsView.DraftsAreIndependent | components/views/SkillsView.tsx:64-66 | setting one category's draft leaves every other category's draft as it was |
| SkillsView.BlankDraftRefused | components/views/SkillsView.tsx:49-50 | a missing or whitespace-only draft adds nothing |
| SkillsView.NoDoubleAdd | components/views/SkillsView.tsx:52 | after an add the category's draft is refused until it is edited |
| SocialsView.FindLink | components/views/SocialsView.tsx:28 | the lookup finds nothing exactly when no link has the id; otherwise it finds the first link with it |
| SocialsView.LinkUpdatePayload | components/views/SocialsView.tsx:30 | the update payload is the found link with only the named field replaced, keeping its id |
| SocialsView.SocialsEditor.HandleApiCall | components/views/SocialsView.tsx:17-25 | the effect log grows by the call and, on success, one refresh; the form is kept |
| SocialsView.SocialsEditor.HandleChange | components/views/SocialsView.tsx:27-32 | an id no link has issues nothing; otherwise the edited link is sent for that id |
| SocialsView.SocialsEditor.AddLink | components/views/SocialsView.tsx:34-41 | an incomplete form issues nothing and stays; otherwise the form is sent and then cleared whatever the outcome |
| SocialsView.SocialsEditor.RemoveLink | components/views/SocialsView.tsx:43-47 | the link is deleted only on confirmation |
| SocialsView.SocialsEditor.SetPlatform | components/views/SocialsView.tsx:81 | only the new link's platform changes |
| SocialsView.SocialsEditor.SetUrl | components/views/SocialsView.tsx:89 | only the new link's URL changes |
| SocialsView.ClearedFormRefused | components/views/SocialsView.tsx:35-37 | a cleared form cannot be added again until both fields are filled in |
| SocialsView.NewLinkRequest | components/views/SocialsView.tsx:36 | the link created carries the typed platform and URL and no id |
| App.InitialDataComplete | App.tsx:27-35 | before loading, the hero and about records are `null` and every list is `[]` |
| App.AfterFetchPieceByPiece | App.tsx:38-68 | a load replaces each piece whose accessor succeeded with its result and keeps each piece whose accessor failed, whatever happened to the others |
| App.EmptyAboutLoadsNoItems | App.tsx:41-63 | when the about table has no row, the shell stores an about record with an empty description and `imageUrl` and `infoItems` undefined |
| App.NullReachesOnlyPassThroughLists | App.tsx:62-68 | a reply with no content stores `null` for skill categories, timeline, social links and services, which pass their reply on; projects, testimonials and contact submissions throw on it and keep the old list |
| App.PartialLoad | App.tsx:41-63 | a failed project load leaves the old projects in place even when the hero loaded |
| App.Shell.constructor | App.tsx:22-35 | the shell starts signed in exactly when storage holds a non-empty token, on the dashboard, loading, with no data loaded |
| App.Shell.FetchData | App.tsx:38-68 | the loading flag is set before the nine accessors are called and cleared at the end; once every accessor has settled, the data is the piece-by-piece result; session and view are kept |
| App.Shell.OnAuthenticationChanged | App.tsx:70-76 | when signed in, the nine accessors are called in `fetchData`'s order and the data is the piece-by-piece result; otherwise nothing is called and only the loading flag goes off |
| App.Shell.HandleLoginSuccess | App.tsx:78-82 | the token is stored, the session starts and the dashboard is shown |
| App.Shell.HandleLogout | App.tsx:84-87 | the token is removed and the session ends; the data and the view shown are kept |
| App.Shell.SetActiveView | App.tsx:23 | only the view shown changes |
| App.SessionSurvivesReload | App.tsx:22-87 | after a sign-in the next start is signed in exactly when the token is non-empty; after a sign-out it is signed out; other stored entries play no part |
| App.SkillCountIsTotal | App.tsx:102 | the dashboard's skill count is the number of all skills of all categories |
| App.StoredSkillCountIsTotal | App.tsx:102 | on the category rows the backend returns, the reduce over the stored categories gives the number of all skills of all categories |
| App.NullCategoriesHaveNoCount | App.tsx:102 | after a skill-categories reply with no content, the stored `null` makes the dashboard's reduce throw |
| App.AllSkillsAppend | App.tsx:102 | the skills of two category lists together are the skills of each, in order |

## Left out

- The network call, `fetch` and `response.json()`, is not modelled. A request is a value, and a response (status, `ok`, status text, `content-length`, parsed body) is an input.
- The module-load check that the endpoint and key are set always passes with the fixed constants, so it is not modelled.
- `NeonApi.Url` only concatenates the endpoint and the path; no lemma is stated about it.
- App.Shell.FetchData: `Promise.all` rejects at the first failure, and `finally` then clears the loading flag while other fetches may still be pending; their pieces are written later. The model clears the flag after every piece is stored.
- Time and interleaving are not modelled. The nine fetches of the shell's load run at once; the model applies each one's result to its own piece of data, independently.
  - No ordering between the fetches is modelled.
  - The alert shown when one of them fails is not modelled.
- AboutView.HandleInfoItemChange: the about form is a typed record. The record the shell loads after an empty about reply has `infoItems` undefined (`App.EmptyAboutLoadsNoItems`, see Findings). The failure of `formData.infoItems.map` on it is not modelled.
- `alert`, `console.error` and all rendering are not modelled.
- `window.confirm` and `prompt` are inputs: the user's answer.
- An awaited call is reduced to whether it resolved, plus the rejection's `message`.
- The hero, timeline, services, testimonials, contact, login, dashboard and header views are not part of this model. The testimonials, services and timeline editors repeat the `if (x.id)` add/update dispatch modelled for projects; the hero editor only updates, the contact view only deletes, and the login, dashboard and header views edit nothing.
- App.StoredSkillCount: a `skills.length` that is not a number would make the sum `NaN`; the model gives no count then, as it does when the reduce throws.
- Numbers are integers. Floating point, `NaN` and the text of non-integral numbers are not modelled.
- JsValue.Text: numbers are exact, so integers of 2^53 and more do not lose precision as they would in JavaScript. Keys are written in insertion order, whereas `JSON.stringify` writes integer-like keys first. Only the error-message fallback (`src/lib/neonApiService.ts:29`) depends on this text.
- NeonApi.ProjectSurvivesBackend: the backend is taken to echo the document it parsed as the row. A real table returns every column, so an absent demo or repository link would come back `null`, not absent.
- SkillsView.SkillsEditor.HandleSkillUpdate: the skill row is taken to be an object with an integer `id`, as the table's key is. A path for any other id is not modelled.
- JsValue.Spread: spreading a string or an array gives `{}` here. The index keys JavaScript would copy are not modelled. `submissionFromApi`, the about rename and the skill body spread values that come from the backend or the caller, so a string or array row there loses its index keys in the model.
- JsValue.Prop: reads of the `length` of arrays and strings and of object keys are modelled. Other built-in properties (prototype methods) read as `undefined`.
- Strings are sequences of characters. There is no Unicode normalisation, and no surrogate pairs beyond single characters.
- ProjectsView.ProjectsList.HandleSave: when editing, the form record in the source also carries the project's `id`. The model's form record has no id; `projectToApi` drops it either way. The form's links are `Option<string>`, so they cannot hold the `null` that `getProjects` copies from a row with `demo_url: null`: re-saving such a project sends `"demo_url": null` in the source, while the model leaves the key out. The stored row is the same either way.
- SkillsView.SkillsEditor.AddSkill: the call and the draft reset are recorded as one step. In the source the draft resets before the awaited call settles.
- SocialsView.SocialsEditor.AddLink: the call and the form reset are recorded as one step, in the same way.
- App.Shell.constructor: follows the code, `!!localStorage.getItem(key)`. An empty stored token counts as signed out, whereas the bare "token key is present" reading would count it as signed in.

## Findings

| source | as written | input that shows it | evidently intended | confidence | as-written member | corrected member |
|---|---|---|---|---|---|---|
| src/lib/neonApiService.ts:63-64 | with no row, `getAboutData` falls back to `{ imageUrl: '', description: '', infoItems: [] }`, then overwrites `imageUrl` with `about.image_url` and `infoItems` with `about.info_items`, both `undefined` | a reply whose body is `[]` (`HandleResponse(r) == Done(Arr([]))`) | an empty about record: `imageUrl == ''`, `description == ''`, `infoItems == []` (the default written with the row's own key names) | not executed | NeonApi.AboutDefaultLosesFields | NeonApi.IntendedAboutDefault |

The shell loads the about record through the accessor as written, so `App.EmptyAboutLoadsNoItems` shows what the editors are given after an empty reply. The corrected accessor, `NeonApi.IntendedAboutResult`, appears only in this finding.
