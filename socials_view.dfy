/**
 * The social-links editor: existing links are changed in place when an
 * input loses focus, and a small form adds new ones.
 */
module SocialsView {
  import opened JsString
  import opened JsValue
  import opened Types
  import NeonApi
  import opened Ui

  /** `links.find(l => l.id === id)`: the first link with the id, if any. */
  function FindLink(links: seq<SocialLink>, id: int): (r: Option<SocialLink>)
    ensures r.None? <==> forall i :: 0 <= i < |links| ==> links[i].id != id
    ensures r.Some? ==> exists i :: (0 <= i < |links| && links[i] == r.value
                                     && forall j :: 0 <= j < i ==> links[j].id != id)
    ensures r.Some? ==> r.value.id == id
  {
    if links == [] then None
    else if links[0].id == id then Some(links[0])
    else
      var rest := FindLink(links[1..], id);
      if rest.Some? then
        ghost var i :| 0 <= i < |links[1..]| && links[1..][i] == rest.value
                       && forall j :: 0 <= j < i ==> links[1..][j].id != id;
        assert links[i + 1] == rest.value;
        rest
      else rest
  }

  /** The two fields of a link the editor changes. */
  datatype LinkField = Platform | Url

  function LinkKey(f: LinkField): string {
    match f
    case Platform => "platform"
    case Url => "url"
  }

  /** `{ ...link, [field]: value }`. */
  function LinkUpdate(link: SocialLink, field: LinkField, value: string): Value {
    Put(SocialLinkValue(link), LinkKey(field), Str(value))
  }

  /**
   * The update payload is the found link with only the named field
   * replaced; its id is the link's own.
   */
  lemma LinkUpdatePayload(link: SocialLink, field: LinkField, value: string, k: string)
    ensures var p := LinkUpdate(link, field, value);
      && Prop(p, LinkKey(field)) == Str(value)
      && (k != LinkKey(field) ==> Prop(p, k) == Prop(SocialLinkValue(link), k))
      && Prop(p, "id") == Num(link.id)
  {
  }

  /** The new-link form. */
  datatype LinkForm = LinkForm(platform: string, url: string)

  const EmptyForm: LinkForm := LinkForm("", "")

  function LinkFormValue(f: LinkForm): Value {
    Obj(["platform", "url"], map["platform" := Str(f.platform), "url" := Str(f.url)])
  }

  /** `newLinkForm.platform && newLinkForm.url`. */
  predicate CanAddLink(f: LinkForm) {
    f.platform != "" && f.url != ""
  }

  class SocialsEditor {
    var newLinkForm: LinkForm
    /** The calls made and refreshes requested, oldest first. */
    var effects: seq<Effect>

    constructor()
      ensures newLinkForm == EmptyForm && effects == []
    {
      newLinkForm := EmptyForm;
      effects := [];
    }

    /** `handleApiCall(promise)` for the call that created the promise. */
    method HandleApiCall(call: NeonApi.Call, outcome: Awaited)
      modifies this
      ensures effects == old(effects) + ApiCallEffects(call, outcome)
      ensures newLinkForm == old(newLinkForm)
    {
      effects := effects + ApiCallEffects(call, outcome);
    }

    /**
     * `handleChange`: an id that no displayed link has changes nothing;
     * otherwise the first link with the id is sent back, edited, for that id.
     */
    method HandleChange(links: seq<SocialLink>, id: int, field: LinkField, value: string, outcome: Awaited)
      modifies this
      ensures FindLink(links, id).None? ==> effects == old(effects)
      ensures FindLink(links, id).Some? ==>
        effects == old(effects)
          + ApiCallEffects(NeonApi.UpdateSocialLink(id, LinkUpdate(FindLink(links, id).value, field, value)), outcome)
      ensures newLinkForm == old(newLinkForm)
    {
      var link := FindLink(links, id);
      if link.Some? {
        HandleApiCall(NeonApi.UpdateSocialLink(id, LinkUpdate(link.value, field, value)), outcome);
      }
    }

    /**
     * `addLink`: an incomplete form adds nothing and stays as it is;
     * otherwise the form is sent and then cleared whatever the call's outcome.
     */
    method AddLink(outcome: Awaited)
      modifies this
      ensures !CanAddLink(old(newLinkForm)) ==>
        effects == old(effects) && newLinkForm == old(newLinkForm)
      ensures CanAddLink(old(newLinkForm)) ==>
        && effects == old(effects) + ApiCallEffects(NeonApi.AddSocialLink(LinkFormValue(old(newLinkForm))), outcome)
        && newLinkForm == EmptyForm
    {
      if CanAddLink(newLinkForm) {
        HandleApiCall(NeonApi.AddSocialLink(LinkFormValue(newLinkForm)), outcome);
        newLinkForm := EmptyForm;
      }
    }

    /** `removeLink`, given the user's answer to the confirmation. */
    method RemoveLink(id: int, confirmed: bool, outcome: Awaited)
      modifies this
      ensures effects == old(effects)
        + (if confirmed then ApiCallEffects(NeonApi.DeleteSocialLink(id), outcome) else [])
      ensures newLinkForm == old(newLinkForm)
    {
      if confirmed {
        HandleApiCall(NeonApi.DeleteSocialLink(id), outcome);
      }
    }

    /** The "New Platform" input. */
    method SetPlatform(value: string)
      modifies this
      ensures newLinkForm == old(newLinkForm).(platform := value)
      ensures effects == old(effects)
    {
      newLinkForm := newLinkForm.(platform := value);
    }

    /** The "New URL" input. */
    method SetUrl(value: string)
      modifies this
      ensures newLinkForm == old(newLinkForm).(url := value)
      ensures effects == old(effects)
    {
      newLinkForm := newLinkForm.(url := value);
    }
  }

  /** A cleared form cannot be added again until both fields are filled in. */
  lemma ClearedFormRefused()
    ensures !CanAddLink(EmptyForm)
  {
  }

  /** The link created carries the typed platform and URL, and no id. */
  lemma NewLinkRequest(f: LinkForm)
    ensures var body := NeonApi.RequestOf(NeonApi.AddSocialLink(LinkFormValue(f))).body;
      && body.Some?
      && Prop(body.value, "platform") == Str(f.platform)
      && Prop(body.value, "url") == Str(f.url)
      && Prop(body.value, "id") == Undefined
  {
  }
}
