/**
 * The about-section editor. Its handlers build a new form record from the
 * old one and the event; saving sends the whole form and reports back to the
 * parent only when the backend accepted it.
 */
module AboutView {
  import opened JsValue
  import opened Types
  import NeonApi
  import opened Ui

  /** The two inputs routed through `handleTextChange`, by their `name`. */
  datatype TextField = ImageUrl | Description

  /** `handleTextChange`: the input's value replaces the field its name selects. */
  function HandleTextChange(form: AboutData, field: TextField, value: string): (r: AboutData)
    ensures r.infoItems == form.infoItems
    ensures field == ImageUrl ==> r.imageUrl == value && r.description == form.description
    ensures field == Description ==> r.description == value && r.imageUrl == form.imageUrl
  {
    match field
    case ImageUrl => form.(imageUrl := value)
    case Description => form.(description := value)
  }

  /** The keys of an info item. */
  datatype InfoField = Id | Icon | Label | ItemValue

  function InfoFieldOf(item: InfoItem, field: InfoField): string {
    match field
    case Id => item.id
    case Icon => item.icon
    case Label => item.labelText
    case ItemValue => item.value
  }

  /** `{ ...item, [field]: value }`. */
  function WithInfoField(item: InfoItem, field: InfoField, value: string): (r: InfoItem)
    ensures InfoFieldOf(r, field) == value
    ensures forall f :: f != field ==> InfoFieldOf(r, f) == InfoFieldOf(item, f)
  {
    match field
    case Id => item.(id := value)
    case Icon => item.(icon := value)
    case Label => item.(labelText := value)
    case ItemValue => item.(value := value)
  }

  /** The `infoItems.map(...)` of `handleInfoItemChange`. */
  function UpdateItems(items: seq<InfoItem>, id: string, field: InfoField, value: string): seq<InfoItem>
  {
    if items == [] then []
    else
      var head := if items[0].id == id then WithInfoField(items[0], field, value) else items[0];
      [head] + UpdateItems(items[1..], id, field, value)
  }

  /** `handleInfoItemChange`. */
  function HandleInfoItemChange(form: AboutData, id: string, field: InfoField, value: string): (r: AboutData)
    ensures r.imageUrl == form.imageUrl && r.description == form.description
  {
    form.(infoItems := UpdateItems(form.infoItems, id, field, value))
  }

  /**
   * Changing an info item keeps the number and order of the items; an item
   * with another id is left as it was, and every item with the id — each of
   * them, if there are duplicates — gets the new value in the named field and
   * keeps its other fields.
   */
  lemma {:induction false} UpdateItemsSpec(items: seq<InfoItem>, id: string, field: InfoField, value: string)
    ensures var r := UpdateItems(items, id, field, value);
      && |r| == |items|
      && (forall i :: 0 <= i < |items| && items[i].id != id ==> r[i] == items[i])
      && (forall i :: 0 <= i < |items| && items[i].id == id ==>
            && InfoFieldOf(r[i], field) == value
            && forall f :: f != field ==> InfoFieldOf(r[i], f) == InfoFieldOf(items[i], f))
  {
    if items != [] {
      UpdateItemsSpec(items[1..], id, field, value);
      var r := UpdateItems(items, id, field, value);
      assert forall i :: 1 <= i < |items| ==> r[i] == UpdateItems(items[1..], id, field, value)[i - 1];
    }
  }

  /** Changing an item no list member carries the id of leaves the form as it was. */
  lemma {:induction false} UpdateMissingIdChangesNothing(
    form: AboutData, id: string, field: InfoField, value: string)
    requires forall i :: 0 <= i < |form.infoItems| ==> form.infoItems[i].id != id
    ensures HandleInfoItemChange(form, id, field, value) == form
  {
    var r := HandleInfoItemChange(form, id, field, value);
    UpdateItemsSpec(form.infoItems, id, field, value);
    assert r.infoItems == form.infoItems;
  }

  // ---------------------------------------------------------------------------
  // handleSave
  // ---------------------------------------------------------------------------

  /** What `handleSave` does, in order. */
  datatype SaveStep =
    | SetLoading(on: bool)
    | Send(call: NeonApi.Call)   // `updateAboutData(formData)`, awaited
    | OnSave                     // the parent's `onSave`

  /** `handleSave`, given how the awaited update settles. */
  function HandleSave(form: AboutData, outcome: Awaited): seq<SaveStep> {
    [SetLoading(true), Send(NeonApi.UpdateAboutData(AboutValue(form)))]
    + (if outcome.Resolved? then [OnSave] else [])
    + [SetLoading(false)]
  }

  /** Whether the loading flag is on after the first `n` steps. */
  function LoadingAfter(steps: seq<SaveStep>, n: nat, initially: bool): bool
    requires n <= |steps|
  {
    if n == 0 then initially
    else match steps[n - 1]
      case SetLoading(on) => on
      case _ => LoadingAfter(steps, n - 1, initially)
  }

  /**
   * Saving sends the whole form as the about update, with the loading flag
   * on while the update is awaited; `onSave` runs exactly when the update
   * resolves, and only after it; the flag is off at the end on both paths.
   */
  lemma HandleSaveFlow(form: AboutData, outcome: Awaited, initially: bool)
    ensures var steps := HandleSave(form, outcome);
      && steps[1] == Send(NeonApi.UpdateAboutData(AboutValue(form)))
      && LoadingAfter(steps, 1, initially)
      && (OnSave in steps <==> outcome.Resolved?)
      && (forall i :: 0 <= i < |steps| && steps[i] == OnSave ==> i > 1)
      && !LoadingAfter(steps, |steps|, initially)
  {
  }

  /** The update carries the form's image, description and info items, under their row names. */
  lemma SaveSendsForm(form: AboutData)
    ensures var request := NeonApi.RequestOf(NeonApi.UpdateAboutData(AboutValue(form)));
      && request.body.Some? && request.body.value.Obj?
      && Prop(request.body.value, "image_url") == Str(form.imageUrl)
      && Prop(request.body.value, "description") == Str(form.description)
      && Prop(request.body.value, "info_items") == Prop(AboutValue(form), "infoItems")
      && request.body.value.keys == ["image_url", "description", "info_items"]
  {
  }
}
