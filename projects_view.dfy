/**
 * The projects editor: the list view, which decides between adding and
 * updating and refreshes the parent afterwards, and the project form, whose
 * tags are edited as one comma-separated text.
 */
module ProjectsView {
  import opened JsString
  import opened Types
  import NeonApi
  import opened Ui

  // ---------------------------------------------------------------------------
  // Tags as text
  // ---------------------------------------------------------------------------

  /** `value.split(',').map(tag => tag.trim())`. */
  function ParseTags(text: string): seq<string> {
    var pieces := Split(text, ',');
    seq(|pieces|, i requires 0 <= i < |pieces| => Trim(pieces[i]))
  }

  /** `tags.join(', ')`, what the tags input displays. */
  function FormatTags(tags: seq<string>): string {
    Join(tags, ", ")
  }

  /**
   * Parsing yields one tag per comma-separated piece, one more than there
   * are commas; each tag is its piece with the surrounding whitespace
   * trimmed, so no tag contains a comma or starts or ends with whitespace,
   * and the pieces rejoined with commas are the text typed.
   */
  lemma ParseTagsSpec(text: string)
    ensures var tags := ParseTags(text);
      && |tags| == Count(text, ',') + 1
      && Join(Split(text, ','), ",") == text
      && forall i :: 0 <= i < |tags| ==>
           && tags[i] == Trim(Split(text, ',')[i])
           && IsTrimmed(tags[i])
           && ',' !in tags[i]
  {
    var pieces := Split(text, ',');
    SplitCount(text, ',');
    JoinSplit(text, ',');
    SplitPiecesFree(text, ',');
    forall i | 0 <= i < |pieces| ensures IsTrimmed(Trim(pieces[i])) && ',' !in Trim(pieces[i]) {
      TrimIsTrimmed(pieces[i]);
      NotInTrim(pieces[i], ',');
    }
  }

  /** Each tag after the first, as it appears in the formatted text. */
  function Spaced(tags: seq<string>): seq<string> {
    seq(|tags|, i requires 0 <= i < |tags| => " " + tags[i])
  }

  lemma {:induction false} JoinSpaced(tags: seq<string>)
    requires |tags| >= 1
    ensures Join(Spaced(tags), ",") == " " + Join(tags, ", ")
  {
    if |tags| > 1 {
      JoinSpaced(tags[1..]);
      assert Spaced(tags)[1..] == Spaced(tags[1..]);
    }
  }

  /** The formatted text is the tags joined by bare commas, every tag after the first led by a space. */
  lemma FormatAsPieces(tags: seq<string>)
    requires |tags| >= 1
    ensures FormatTags(tags) == Join([tags[0]] + Spaced(tags[1..]), ",")
  {
    var pieces := [tags[0]] + Spaced(tags[1..]);
    if |tags| > 1 {
      JoinSpaced(tags[1..]);
      assert pieces[1..] == Spaced(tags[1..]);
    }
  }

  /** Trimming each piece of the formatted text gives back the trimmed tags. */
  lemma TrimPieces(tags: seq<string>)
    requires |tags| >= 1
    requires forall i :: 0 <= i < |tags| ==> IsTrimmed(tags[i])
    ensures var pieces := [tags[0]] + Spaced(tags[1..]);
      forall k :: 0 <= k < |pieces| ==> Trim(pieces[k]) == tags[k]
  {
    var pieces := [tags[0]] + Spaced(tags[1..]);
    forall k | 0 <= k < |pieces| ensures Trim(pieces[k]) == tags[k] {
      if k > 0 {
        assert pieces[k] == [' '] + tags[k];
        TrimDropsLeadingSpace(' ', tags[k]);
      }
      TrimOfTrimmed(tags[k]);
    }
  }

  /**
   * Formatting a tag list and parsing the text back gives the list again
   * when it has at least one tag and no tag holds a comma or outer
   * whitespace.
   */
  lemma {:induction false} TagsRoundTrip(tags: seq<string>)
    requires |tags| >= 1
    requires forall i :: 0 <= i < |tags| ==> IsTrimmed(tags[i]) && ',' !in tags[i]
    ensures ParseTags(FormatTags(tags)) == tags
  {
    var pieces := [tags[0]] + Spaced(tags[1..]);
    FormatAsPieces(tags);
    forall k | 0 <= k < |pieces| ensures ',' !in pieces[k] {
      if k > 0 {
        assert pieces[k] == " " + tags[k];
      }
    }
    SplitJoin(pieces, ',');
    TrimPieces(tags);
    ParseOfPieces(FormatTags(tags), pieces, tags);
  }

  /** Text whose comma-separated pieces trim to `tags` parses to `tags`. */
  lemma ParseOfPieces(text: string, pieces: seq<string>, tags: seq<string>)
    requires Split(text, ',') == pieces && |pieces| == |tags|
    requires forall k :: 0 <= k < |pieces| ==> Trim(pieces[k]) == tags[k]
    ensures ParseTags(text) == tags
  {
  }

  /** An empty tag list does not survive: its text `''` parses to one empty tag. */
  lemma EmptyTagsComeBackAsOne()
    ensures ParseTags(FormatTags([])) == [""]
  {
  }

  // ---------------------------------------------------------------------------
  // The project form
  // ---------------------------------------------------------------------------

  /** The inputs routed through `handleChange`, by their `name`. */
  datatype TextField = Title | Description | ImageUrl | DemoUrl | RepoUrl

  /** What a text input displays; the links show `''` when absent. */
  function FieldText(form: ProjectData, field: TextField): string {
    match field
    case Title => form.title
    case Description => form.description
    case ImageUrl => form.imageUrl
    case DemoUrl => if form.demoUrl.Some? then form.demoUrl.value else ""
    case RepoUrl => if form.repoUrl.Some? then form.repoUrl.value else ""
  }

  /** `{ ...prev, [name]: value }` for a text input. */
  function WithText(form: ProjectData, field: TextField, value: string): (r: ProjectData)
    ensures FieldText(r, field) == value
    ensures forall f :: f != field ==> FieldText(r, f) == FieldText(form, f)
    ensures r.tags == form.tags && r.isFeatured == form.isFeatured
  {
    match field
    case Title => form.(title := value)
    case Description => form.(description := value)
    case ImageUrl => form.(imageUrl := value)
    case DemoUrl => form.(demoUrl := Some(value))
    case RepoUrl => form.(repoUrl := Some(value))
  }

  /** `initialData || { ...empty project... }`. */
  function InitialForm(initial: Option<Project>): ProjectData {
    match initial
    case Some(p) => p.data
    case None => ProjectData("", "", "", [], Some(""), Some(""), false)
  }

  /**
   * A new form starts blank — every text input empty, no tags, not
   * featured — and an edit form starts from the project being edited.
   */
  lemma InitialFormSpec(initial: Option<Project>)
    ensures initial.None? ==>
      && (forall f :: FieldText(InitialForm(initial), f) == "")
      && InitialForm(initial).tags == []
      && !InitialForm(initial).isFeatured
      && FormatTags(InitialForm(initial).tags) == ""
    ensures initial.Some? ==> InitialForm(initial) == initial.value.data
  {
  }

  /** The message the form shows when saving fails: `err.message || 'Failed to save project'`. */
  function SaveErrorText(message: string): (r: string)
    ensures r != ""
    ensures message != "" ==> r == message
  {
    if message != "" then message else "Failed to save project"
  }

  // ---------------------------------------------------------------------------
  // The list view
  // ---------------------------------------------------------------------------

  /** `if (id)`: an absent id and the id `0` both mean a new project. */
  predicate IsExisting(id: Option<int>) {
    id.Some? && id.value != 0
  }

  /** The accessor `handleSave` calls. */
  function SaveCall(data: ProjectData, id: Option<int>): (c: NeonApi.Call)
    ensures c.UpdateProject? || c.AddProject?
    ensures c.data == ProjectDataValue(data)
  {
    if IsExisting(id) then NeonApi.UpdateProject(id.value, ProjectDataValue(data))
    else NeonApi.AddProject(ProjectDataValue(data))
  }

  /**
   * Saving updates exactly when an id other than 0 is given, and then the
   * project with that id; the id 0 is saved as a new project.
   */
  lemma SaveDispatch(data: ProjectData, id: Option<int>)
    ensures SaveCall(data, id).UpdateProject? <==> id.Some? && id.value != 0
    ensures SaveCall(data, id).UpdateProject? ==> SaveCall(data, id).id == id.value
    ensures SaveCall(data, Some(0)) == NeonApi.AddProject(ProjectDataValue(data))
  {
  }

  class ProjectsList {
    var isAdding: bool
    var editingId: Option<int>
    /** The calls made and refreshes requested, oldest first. */
    var effects: seq<Effect>

    constructor()
      ensures !isAdding && editingId.None? && effects == []
    {
      isAdding := false;
      editingId := None;
      effects := [];
    }

    /** The "+ Add Project" button. */
    method StartAdding()
      modifies this
      ensures isAdding && editingId == old(editingId) && effects == old(effects)
    {
      isAdding := true;
    }

    /** A project's "Edit" button. */
    method StartEditing(id: int)
      modifies this
      ensures editingId == Some(id) && isAdding == old(isAdding) && effects == old(effects)
    {
      editingId := Some(id);
    }

    /**
     * `handleSave`: update or add, then close the form that was saving and
     * refresh. A rejected call propagates to the form (it is returned) and
     * nothing after it happens.
     */
    method HandleSave(data: ProjectData, id: Option<int>, outcome: Awaited) returns (thrown: Option<string>)
      modifies this
      ensures thrown.Some? <==> outcome.Rejected?
      ensures outcome.Rejected? ==> thrown.value == outcome.message
      ensures effects == old(effects) + [Api(SaveCall(data, id))]
                         + (if outcome.Resolved? then [DataChanged] else [])
      ensures editingId == (if outcome.Resolved? && IsExisting(id) then None else old(editingId))
      ensures isAdding == (if outcome.Resolved? && !IsExisting(id) then false else old(isAdding))
    {
      effects := effects + [Api(SaveCall(data, id))];
      if outcome.Rejected? {
        return Some(outcome.message);
      }
      if IsExisting(id) {
        editingId := None;
      } else {
        isAdding := false;
      }
      effects := effects + [DataChanged];
      return None;
    }

    /** `handleDelete`, given the user's answer to the confirmation. */
    method HandleDelete(id: int, confirmed: bool, outcome: Awaited)
      modifies this
      ensures !confirmed ==> effects == old(effects)
      ensures confirmed ==> effects == old(effects) + ApiCallEffects(NeonApi.DeleteProject(id), outcome)
      ensures isAdding == old(isAdding) && editingId == old(editingId)
    {
      if confirmed {
        effects := effects + ApiCallEffects(NeonApi.DeleteProject(id), outcome);
      }
    }
  }

  class ProjectForm {
    /** The id of the project being edited; None for a new one. */
    const initialId: Option<int>
    var isLoading: bool
    var error: Option<string>
    var formState: ProjectData
    /** Whether the loading flag was on when the save was awaited. */
    ghost var loadingDuringSave: bool

    constructor(initial: Option<Project>)
      ensures initialId == (if initial.Some? then Some(initial.value.id) else None)
      ensures formState == InitialForm(initial)
      ensures !isLoading && error.None?
    {
      initialId := if initial.Some? then Some(initial.value.id) else None;
      formState := InitialForm(initial);
      isLoading := false;
      error := None;
      loadingDuringSave := false;
    }

    /** `handleChange` for a text input. */
    method HandleChange(field: TextField, value: string)
      modifies this
      ensures formState == WithText(old(formState), field, value)
      ensures isLoading == old(isLoading) && error == old(error)
    {
      formState := WithText(formState, field, value);
    }

    /** `handleTagsChange`. */
    method HandleTagsChange(text: string)
      modifies this
      ensures formState == old(formState).(tags := ParseTags(text))
      ensures isLoading == old(isLoading) && error == old(error)
    {
      formState := formState.(tags := ParseTags(text));
    }

    /** `handleCheckboxChange`: only the featured flag changes. */
    method HandleCheckboxChange(checked: bool)
      modifies this
      ensures formState == old(formState).(isFeatured := checked)
      ensures isLoading == old(isLoading) && error == old(error)
    {
      formState := formState.(isFeatured := checked);
    }

    /**
     * `handleSubmit`: save through the list view with the loading flag on
     * and the old error cleared; a failure is shown as the form's error; the
     * flag is off again at the end on both paths.
     */
    method HandleSubmit(view: ProjectsList, outcome: Awaited)
      modifies this, view
      ensures loadingDuringSave && !isLoading
      ensures error == (if outcome.Rejected? then Some(SaveErrorText(outcome.message)) else None)
      ensures formState == old(formState)
      ensures view.effects == old(view.effects) + [Api(SaveCall(formState, initialId))]
                              + (if outcome.Resolved? then [DataChanged] else [])
      ensures view.editingId == (if outcome.Resolved? && IsExisting(initialId) then None else old(view.editingId))
      ensures view.isAdding == (if outcome.Resolved? && !IsExisting(initialId) then false else old(view.isAdding))
    {
      isLoading := true;
      error := None;
      loadingDuringSave := isLoading;
      var thrown := view.HandleSave(formState, initialId, outcome);
      if thrown.Some? {
        error := Some(SaveErrorText(thrown.value));
      }
      isLoading := false;
    }
  }
}
