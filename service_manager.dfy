/** frontend/pages/admin/ServiceManager.tsx: the administrator's service editor. */
module ServiceManager {
  import opened Js
  import opened Admin

  /** `Partial<Service>` */
  datatype Draft = Draft(id: Option<nat>, title: Option<string>, description: Option<string>, icon: Option<string>)

  const Blank := Draft(None, None, None, None)

  /** `JSON.stringify(currentService)`: the fields the service has, missing ones omitted. */
  function ToJson(d: Draft): (ms: seq<Member>)
    ensures |ms| <= 4
  {
    IdPart(d) + TitlePart(d) + DescriptionPart(d) + IconPart(d)
  }

  /** The member each field contributes to the JSON text: none when the field is missing. */
  function IdPart(d: Draft): seq<Member> {
    if d.id.Some? then [Member("id", JNum(d.id.value))] else []
  }

  function TitlePart(d: Draft): seq<Member> {
    if d.title.Some? then [Member("title", JStr(d.title.value))] else []
  }

  function DescriptionPart(d: Draft): seq<Member> {
    if d.description.Some? then [Member("description", JStr(d.description.value))] else []
  }

  function IconPart(d: Draft): seq<Member> {
    if d.icon.Some? then [Member("icon", JStr(d.icon.value))] else []
  }

  /** Reading the JSON back by name gives each present field, so the body carries the whole service. */
  function FromJson(ms: seq<Member>): Draft {
    if |ms| == 0 then Blank else Read(FromJson(ms[..|ms| - 1]), ms[|ms| - 1])
  }

  /** One member read into a draft; a later member with the same name overrides an earlier one. */
  function Read(d: Draft, m: Member): Draft {
    match m.value
    case JNum(n) => if m.name == "id" then d.(id := Some(n)) else d
    case JStr(s) =>
      if m.name == "title" then d.(title := Some(s))
      else if m.name == "description" then d.(description := Some(s))
      else if m.name == "icon" then d.(icon := Some(s))
      else d
    case JBool(_) => d
  }

  lemma ReadOptional(ms: seq<Member>, present: bool, m: Member)
    ensures FromJson(ms + (if present then [m] else [])) == if present then Read(FromJson(ms), m) else FromJson(ms)
  {
    if present {
      assert (ms + [m])[..|ms|] == ms;
    } else {
      assert ms + [] == ms;
    }
  }

  /** Reading back each field's member in turn rebuilds the draft one field at a time. */
  lemma ReadTitlePart(ms: seq<Member>, d: Draft)
    requires FromJson(ms) == Draft(d.id, None, None, None)
    ensures FromJson(ms + TitlePart(d)) == Draft(d.id, d.title, None, None)
  {
    ReadOptional(ms, d.title.Some?, Member("title", JStr(if d.title.Some? then d.title.value else "")));
  }

  lemma ReadDescriptionPart(ms: seq<Member>, d: Draft)
    requires FromJson(ms) == Draft(d.id, d.title, None, None)
    ensures FromJson(ms + DescriptionPart(d)) == Draft(d.id, d.title, d.description, None)
  {
    ReadOptional(ms, d.description.Some?, Member("description", JStr(if d.description.Some? then d.description.value else "")));
  }

  lemma ReadIconPart(ms: seq<Member>, d: Draft)
    requires FromJson(ms) == Draft(d.id, d.title, d.description, None)
    ensures FromJson(ms + IconPart(d)) == d
  {
    ReadOptional(ms, d.icon.Some?, Member("icon", JStr(if d.icon.Some? then d.icon.value else "")));
  }

  /** The body of a save is the entire service being edited: reading it back gives the same draft. */
  lemma JsonRoundTrip(d: Draft)
    ensures FromJson(ToJson(d)) == d
  {
    var a := IdPart(d);
    ReadOptional([], d.id.Some?, Member("id", JNum(if d.id.Some? then d.id.value else 0)));
    assert [] + a == a;
    ReadTitlePart(a, d);
    ReadDescriptionPart(a + TitlePart(d), d);
    ReadIconPart(a + TitlePart(d) + DescriptionPart(d), d);
  }

  class Editor {
    var isEditing: bool
    var currentService: Draft

    constructor()
      ensures !isEditing && currentService == Blank
    {
      isEditing := false;
      currentService := Blank;
    }

    /** A typed change: `{ ...currentService, title: value }` and the like. */
    method EditTitle(value: string)
      modifies this
      ensures currentService == old(currentService).(title := Some(value)) && isEditing == old(isEditing)
    {
      currentService := currentService.(title := Some(value));
    }

    /** `handleSave`, answered by `reply`. */
    method Save(reply: Reply) returns (req: Request, effects: seq<Effect>)
      modifies this
      ensures var target := SaveTarget("services", old(currentService.id));
        req == Request(target.0, target.1, Json(ToJson(old(currentService))))
      ensures effects == Effects(reply, ContentApi + "/services", "Failed to save service")
      ensures reply.Status? && Ok(reply.code) ==> !isEditing && currentService == Blank
      ensures !(reply.Status? && Ok(reply.code)) ==>
        isEditing == old(isEditing) && currentService == old(currentService)
    {
      var target := SaveTarget("services", currentService.id);
      req := Request(target.0, target.1, Json(ToJson(currentService)));
      effects := Effects(reply, ContentApi + "/services", "Failed to save service");
      if reply.Status? && Ok(reply.code) {
        isEditing := false;
        currentService := Blank;
      }
    }
  }
}
