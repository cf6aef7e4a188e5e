/**
 * The skills editor: categories and their skills, with one draft name per
 * category for the skill about to be added. Every change is sent to the
 * backend at once and the parent refreshes when the call succeeds.
 */
module SkillsView {
  import opened JsString
  import opened JsValue
  import opened Types
  import NeonApi
  import opened Ui

  /** `newSkillName[catId] || ''`. */
  function Draft(drafts: map<int, string>, catId: int): (name: string)
    ensures catId in drafts ==> name == drafts[catId]
    ensures catId !in drafts ==> name == ""
  {
    if catId in drafts then drafts[catId] else ""
  }

  /** The body of the skill `addSkill` creates. */
  function NewSkill(name: string, catId: int): Value {
    Obj(["name", "isLearning", "category_id"],
        map["name" := Str(name), "isLearning" := Bool(false), "category_id" := Num(catId)])
  }

  /** Whether `addSkill` creates a skill: the draft is not blank. */
  predicate CanAddSkill(drafts: map<int, string>, catId: int) {
    Trim(Draft(drafts, catId)) != ""
  }

  /**
   * The backend receives the draft name as typed (not trimmed), a skill
   * that is not being learnt, under both spellings of the flag, and the
   * category it was added to.
   */
  lemma NewSkillRequest(drafts: map<int, string>, catId: int)
    ensures var body := NeonApi.RequestOf(NeonApi.AddSkill(NewSkill(Draft(drafts, catId), catId))).body;
      && body.Some?
      && Prop(body.value, "name") == Str(Draft(drafts, catId))
      && Prop(body.value, "isLearning") == Bool(false)
      && Prop(body.value, "is_learning") == Bool(false)
      && Prop(body.value, "category_id") == Num(catId)
  {
  }

  /** The only two fields `handleSkillUpdate` edits, under the names the editor gives them. */
  datatype SkillField = Name | IsLearning

  function SkillKey(f: SkillField): string {
    match f
    case Name => "name"
    case IsLearning => "isLearning"
  }

  /**
   * A skill as the editor is handed it: a row of the `skills` table exactly
   * as `getSkillCategories` passes it on, unmapped, so its learning flag is
   * the `is_learning` column. Its id is the table's integer key.
   */
  predicate IsSkillRow(skill: Value) {
    skill.Obj? && Prop(skill, "id").Num?
  }

  /** `{ ...skill, [field]: value }`. */
  function SkillUpdate(skill: Value, field: SkillField, value: Value): Value {
    Put(Spread(skill), SkillKey(field), value)
  }

  /** The document the backend receives for `updateSkill(skill.id, payload)`. */
  function SentSkillUpdate(skill: Value, field: SkillField, value: Value): Value {
    Wire(NeonApi.SkillToApi(SkillUpdate(skill, field, value)))
  }

  /**
   * The update payload is the whole skill with only the named field
   * replaced: the other columns, and the order of the keys, are the skill's.
   */
  lemma SkillUpdatePayload(skill: Value, field: SkillField, value: Value, k: string)
    requires skill.Obj?
    ensures var p := SkillUpdate(skill, field, value);
      && Prop(p, SkillKey(field)) == value
      && (k != SkillKey(field) ==> Prop(p, k) == Prop(skill, k))
      && p.keys == if SkillKey(field) in skill.keys then skill.keys else skill.keys + [SkillKey(field)]
  {
  }

  /**
   * What the backend reads from a skill update: the edited field's new
   * value; as `is_learning`, the new value for a toggle but the skill's own
   * camelCase `isLearning` for a name edit; and every other column of the
   * skill as it was.
   */
  lemma SkillUpdateSent(skill: Value, field: SkillField, value: Value, k: string)
    requires skill.Obj?
    ensures var sent := SentSkillUpdate(skill, field, value);
      && Prop(sent, SkillKey(field)) == Wire(value)
      && Prop(sent, "is_learning") == Wire(if field == IsLearning then value else Prop(skill, "isLearning"))
      && (k in skill.keys && k != SkillKey(field) && k != "is_learning" ==>
            Prop(sent, k) == Wire(Prop(skill, k)))
  {
    var p := SkillUpdate(skill, field, value);
    var body := NeonApi.SkillToApi(p);
    WireProp(body, SkillKey(field));
    WireProp(body, "is_learning");
    if k in skill.keys && k != SkillKey(field) && k != "is_learning" {
      WireProp(body, k);
    }
  }

  /**
   * A row as the backend returns it has no `isLearning` key, so renaming the
   * skill sends no learning flag at all: `is_learning` is overwritten with
   * `undefined`, which JSON.stringify drops, and the flag in the table is
   * left as it was.
   */
  lemma RowNameEditSendsNoFlag(skill: Value, name: string)
    requires skill.Obj? && "isLearning" !in skill.fields
    ensures var sent := SentSkillUpdate(skill, Name, Str(name));
      && sent.Obj?
      && Prop(sent, "name") == Str(name)
      && "is_learning" !in sent.fields && "isLearning" !in sent.fields
  {
    SkillUpdateSent(skill, Name, Str(name), "name");
  }

  /** Ticking or clearing the checkbox sends the new flag under both spellings. */
  lemma ToggleSendsFlag(skill: Value, checked: bool)
    requires skill.Obj?
    ensures var sent := SentSkillUpdate(skill, IsLearning, Bool(checked));
      && Prop(sent, "isLearning") == Bool(checked)
      && Prop(sent, "is_learning") == Bool(checked)
  {
    SkillUpdateSent(skill, IsLearning, Bool(checked), "isLearning");
  }

  /** What `addCategory` does with the prompt's answer (None when cancelled). */
  function CategoryToAdd(answer: Option<string>): (r: Option<Value>)
    ensures r.Some? <==> answer.Some? && answer.value != ""
    ensures r.Some? ==> r.value.Obj? && Prop(r.value, "name") == Str(answer.value)
  {
    if answer.Some? && answer.value != "" then
      Some(Obj(["name"], map["name" := Str(answer.value)]))
    else None
  }

  class SkillsEditor {
    /** The draft skill name of each category. */
    var newSkillName: map<int, string>
    /** The calls made and refreshes requested, oldest first. */
    var effects: seq<Effect>

    constructor()
      ensures newSkillName == map[] && effects == []
    {
      newSkillName := map[];
      effects := [];
    }

    /** `handleApiCall(promise)` for the call that created the promise. */
    method HandleApiCall(call: NeonApi.Call, outcome: Awaited)
      modifies this
      ensures effects == old(effects) + ApiCallEffects(call, outcome)
      ensures newSkillName == old(newSkillName)
    {
      effects := effects + ApiCallEffects(call, outcome);
    }

    /** `addCategory`, given the prompt's answer. */
    method AddCategory(answer: Option<string>, outcome: Awaited)
      modifies this
      ensures CategoryToAdd(answer).None? ==> effects == old(effects)
      ensures CategoryToAdd(answer).Some? ==>
        effects == old(effects) + ApiCallEffects(NeonApi.AddSkillCategory(CategoryToAdd(answer).value), outcome)
      ensures newSkillName == old(newSkillName)
    {
      var category := CategoryToAdd(answer);
      if category.Some? {
        HandleApiCall(NeonApi.AddSkillCategory(category.value), outcome);
      }
    }

    /** `removeCategory`, given the user's answer to the confirmation. */
    method RemoveCategory(catId: int, confirmed: bool, outcome: Awaited)
      modifies this
      ensures effects == old(effects)
        + (if confirmed then ApiCallEffects(NeonApi.DeleteSkillCategory(catId), outcome) else [])
      ensures newSkillName == old(newSkillName)
    {
      if confirmed {
        HandleApiCall(NeonApi.DeleteSkillCategory(catId), outcome);
      }
    }

    /** `handleCategoryNameChange`. */
    method HandleCategoryNameChange(catId: int, newName: string, outcome: Awaited)
      modifies this
      ensures effects == old(effects) + ApiCallEffects(
        NeonApi.UpdateSkillCategory(catId, Obj(["name"], map["name" := Str(newName)])), outcome)
      ensures newSkillName == old(newSkillName)
    {
      HandleApiCall(NeonApi.UpdateSkillCategory(catId, Obj(["name"], map["name" := Str(newName)])), outcome);
    }

    /** `handleSkillUpdate`: the edited skill row, sent for its own id. */
    method HandleSkillUpdate(skill: Value, field: SkillField, value: Value, outcome: Awaited)
      requires IsSkillRow(skill)
      modifies this
      ensures effects == old(effects)
        + ApiCallEffects(NeonApi.UpdateSkill(Prop(skill, "id").n, SkillUpdate(skill, field, value)), outcome)
      ensures newSkillName == old(newSkillName)
    {
      HandleApiCall(NeonApi.UpdateSkill(Prop(skill, "id").n, SkillUpdate(skill, field, value)), outcome);
    }

    /**
     * `addSkill`: a blank draft adds nothing and changes nothing; otherwise
     * the skill is added under the draft name and that category's draft is
     * emptied whatever the call's outcome, the other drafts untouched.
     */
    method AddSkill(catId: int, outcome: Awaited)
      modifies this
      ensures !CanAddSkill(old(newSkillName), catId) ==>
        effects == old(effects) && newSkillName == old(newSkillName)
      ensures CanAddSkill(old(newSkillName), catId) ==>
        && effects == old(effects) + ApiCallEffects(
             NeonApi.AddSkill(NewSkill(Draft(old(newSkillName), catId), catId)), outcome)
        && newSkillName == old(newSkillName)[catId := ""]
    {
      var name := Draft(newSkillName, catId);
      if CanAddSkill(newSkillName, catId) {
        HandleApiCall(NeonApi.AddSkill(NewSkill(name, catId)), outcome);
        newSkillName := newSkillName[catId := ""];
      }
    }

    /** `removeSkill`, given the user's answer to the confirmation. */
    method RemoveSkill(skillId: int, confirmed: bool, outcome: Awaited)
      modifies this
      ensures effects == old(effects)
        + (if confirmed then ApiCallEffects(NeonApi.DeleteSkill(skillId), outcome) else [])
      ensures newSkillName == old(newSkillName)
    {
      if confirmed {
        HandleApiCall(NeonApi.DeleteSkill(skillId), outcome);
      }
    }

    /** `handleNewSkillNameChange`: only this category's draft changes. */
    method HandleNewSkillNameChange(catId: int, name: string)
      modifies this
      ensures newSkillName == old(newSkillName)[catId := name]
      ensures effects == old(effects)
    {
      newSkillName := newSkillName[catId := name];
    }
  }

  /**
   * Setting a category's draft leaves every other category's draft as it
   * was, and the category then offers exactly the name set.
   */
  lemma DraftsAreIndependent(drafts: map<int, string>, catId: int, name: string, other: int)
    requires other != catId
    ensures Draft(drafts[catId := name], catId) == name
    ensures Draft(drafts[catId := name], other) == Draft(drafts, other)
  {
  }

  /** A draft of only whitespace is refused, as is a missing one. */
  lemma BlankDraftRefused(drafts: map<int, string>, catId: int)
    requires catId !in drafts || AllWhitespace(drafts[catId])
    ensures !CanAddSkill(drafts, catId)
  {
    TrimOfWhitespace(Draft(drafts, catId));
  }

  /** After an accepted add the category's draft is blank, so adding again is refused. */
  lemma NoDoubleAdd(drafts: map<int, string>, catId: int)
    ensures !CanAddSkill(drafts[catId := ""], catId)
  {
  }
}
