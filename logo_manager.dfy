/** frontend/pages/admin/LogoManager.tsx: the administrator's logo upload. */
module LogoManager {
  import opened Js
  import opened Admin
  import opened SiteContent

  const LogoKey := "logo_url"

  /** The form of a save: always the key, then the chosen file or else the current URL. */
  function SaveForm(logoUrl: string, file: Option<File>): (fs: seq<Field>)
    ensures |fs| == 2 && fs[0] == Field("key", Text(LogoKey))
    ensures FormValue(fs, "key") == Some(Text("logo_url"))
    ensures file.Some? ==> FormValue(fs, "image") == Some(Upload(file.value)) && FormValue(fs, "value") == None
    ensures file.None? ==> FormValue(fs, "value") == Some(Text(logoUrl)) && FormValue(fs, "image") == None
  {
    var fs := [Field("key", Text(LogoKey))] + if file.Some? then [Field("image", Upload(file.value))] else [Field("value", Text(logoUrl))];
    FormValueAt(fs, 0);
    FormValueAt(fs, 1);
    fs
  }

  /** The image the page shows: the local preview of a chosen file first, then the stored logo
      (made absolute like every image path), and nothing when both are empty. */
  function Shown(preview: Option<string>, logoUrl: string): (r: Option<string>)
    ensures Truthy(preview) ==> r == preview
    ensures !Truthy(preview) && logoUrl != "" ==> r == Some(ResolveImage(logoUrl))
    ensures r.None? <==> !Truthy(preview) && logoUrl == ""
  {
    if Truthy(preview) then preview
    else if logoUrl != "" then Some(ResolveImage(logoUrl))
    else None
  }

  /** The `FormData` of a save, appended field by field. */
  method BuildForm(logoUrl: string, file: Option<File>) returns (form: seq<Field>)
    ensures form == SaveForm(logoUrl, file)
  {
    form := [Field("key", Text(LogoKey))];
    if file.Some? {
      form := form + [Field("image", Upload(file.value))];
    } else {
      form := form + [Field("value", Text(logoUrl))];
    }
  }

  class Page {
    var logoUrl: string
    var loading: bool
    var saving: bool
    var preview: Option<string>
    var file: Option<File>

    constructor()
      ensures logoUrl == "" && loading && !saving && preview == None && file == None
    {
      logoUrl := "";
      loading := true;
      saving := false;
      preview := None;
      file := None;
    }

    /** `fetchLogo`, answered with the site content, or `None` when the fetch fails. */
    method FetchLogo(data: Option<seq<Entry>>)
      modifies this
      ensures !loading
      ensures data.Some? && Lookup(data.value, LogoKey).Some? ==> logoUrl == Lookup(data.value, LogoKey).value
      ensures data.None? || Lookup(data.value, LogoKey).None? ==> logoUrl == old(logoUrl)
      ensures saving == old(saving) && preview == old(preview) && file == old(file)
    {
      if data.Some? {
        var logoItem := Lookup(data.value, LogoKey);
        if logoItem.Some? {
          logoUrl := logoItem.value;
        }
      }
      loading := false;
    }

    /** A file picked in the input, shown through the object URL the browser made for it. */
    method ChooseFile(picked: Option<File>, objectUrl: string)
      modifies this
      ensures picked.Some? ==> file == picked && preview == Some(objectUrl)
      ensures picked.None? ==> file == old(file) && preview == old(preview)
      ensures logoUrl == old(logoUrl) && loading == old(loading) && saving == old(saving)
    {
      if picked.Some? {
        file := picked;
        preview := Some(objectUrl);
      }
    }

    /** `handleSave`: `reply` answers the POST and, when it is ok, `stored` is the `value` read
        from its body, or `None` when `res.json()` fails; every failure ends in the same alert. */
    method Save(reply: Reply, stored: Option<string>) returns (req: Request, effects: seq<Effect>)
      modifies this
      ensures req == Request(Post, ContentApi + "/site-content", Form(SaveForm(old(logoUrl), old(file))))
      ensures reply.Status? && Ok(reply.code) && stored.Some? ==>
        logoUrl == stored.value && file == None && preview == None
        && effects == [Alert("Logo updated successfully!"), Reload]
      ensures !(reply.Status? && Ok(reply.code) && stored.Some?) ==>
        logoUrl == old(logoUrl) && file == old(file) && preview == old(preview)
        && effects == [Alert("Failed to save logo")]
      ensures !saving && loading == old(loading)
    {
      saving := true;
      var form := BuildForm(logoUrl, file);
      req := Request(Post, ContentApi + "/site-content", Form(form));
      if reply.Status? && Ok(reply.code) && stored.Some? {
        logoUrl := stored.value;
        file := None;
        preview := None;
        effects := [Alert("Logo updated successfully!"), Reload];
      } else {
        effects := [Alert("Failed to save logo")];
      }
      saving := false;
    }
  }

  /** A save sends exactly one of the chosen file and the current URL, never both. */
  lemma ExactlyOneSource(logoUrl: string, file: Option<File>)
    ensures FormValue(SaveForm(logoUrl, file), "image").Some? != FormValue(SaveForm(logoUrl, file), "value").Some?
  {
  }
}
