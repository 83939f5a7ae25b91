/** frontend/pages/admin/LegalManager.tsx: the administrator's editor for the legal pages. */
module LegalManager {
  import opened Js
  import opened Admin
  import opened SiteContent

  datatype Tab = Terms | Privacy

  /** `activeTab === 'terms' ? 'terms_content' : 'privacy_content'` */
  function KeyOf(tab: Tab): (key: string)
    ensures tab == Terms <==> key == "terms_content"
    ensures tab == Privacy <==> key == "privacy_content"
  {
    match tab
    case Terms => assert "terms_content"[0] != "privacy_content"[0]; "terms_content"
    case Privacy => assert "terms_content"[0] != "privacy_content"[0]; "privacy_content"
  }

  /** The one write a save sends: the active tab's key and its text, or '' when there is none. */
  function SaveRequest(content: seq<Entry>, tab: Tab): (req: Request)
    ensures req.verb == Post && req.url == ContentApi + "/site-content"
    ensures Truthy(Lookup(content, KeyOf(tab))) ==> req.body == KeyValue(KeyOf(tab), Lookup(content, KeyOf(tab)).value)
    ensures !Truthy(Lookup(content, KeyOf(tab))) ==> req.body == KeyValue(KeyOf(tab), "")
  {
    Request(Post, ContentApi + "/site-content", KeyValue(KeyOf(tab), Or(Lookup(content, KeyOf(tab)), "")))
  }

  /** The alert after a save: it only depends on whether the fetch settled, not on the status. */
  function SaveAlert(reply: Reply, tab: Tab): (e: Effect)
    ensures reply.Rejected? ==> e == Alert("Failed to save changes")
    ensures reply.Status? ==> e == Alert((if tab == Terms then "Terms" else "Privacy Policy") + " updated successfully!")
  {
    if reply.Rejected? then Alert("Failed to save changes")
    else Alert((if tab == Terms then "Terms" else "Privacy Policy") + " updated successfully!")
  }

  /** Typing in the text area changes the active tab's key and no other; a save right after sends
      exactly what was typed. */
  lemma EditOnlyActiveKey(content: seq<Entry>, tab: Tab, typed: string, key: string)
    ensures Lookup(Assign(content, KeyOf(tab), typed), key) == if key == KeyOf(tab) then Some(typed) else Lookup(content, key)
    ensures SaveRequest(Assign(content, KeyOf(tab), typed), tab).body == KeyValue(KeyOf(tab), typed)
  {
    AssignLookup(content, KeyOf(tab), typed, key);
    AssignLookup(content, KeyOf(tab), typed, KeyOf(tab));
  }

  class Page {
    var content: seq<Entry>
    var loading: bool
    var saving: bool
    var activeTab: Tab

    constructor()
      ensures content == [] && loading && !saving && activeTab == Terms
    {
      content := [];
      loading := true;
      saving := false;
      activeTab := Terms;
    }

    /** `fetchContent`, answered with the site content, or `None` when the fetch fails. */
    method FetchContent(data: Option<seq<Entry>>)
      modifies this
      ensures data.Some? ==> content == AssignAll([], data.value)
      ensures data.None? ==> content == old(content)
      ensures !loading && saving == old(saving) && activeTab == old(activeTab)
    {
      if data.Some? {
        content := BuildContentMap(data.value);
      }
      loading := false;
    }

    method SelectTab(tab: Tab)
      modifies this
      ensures activeTab == tab && content == old(content)
      ensures loading == old(loading) && saving == old(saving)
    {
      activeTab := tab;
    }

    /** The text area's `onChange`. */
    method Edit(typed: string)
      modifies this
      ensures content == Assign(old(content), KeyOf(activeTab), typed)
      ensures activeTab == old(activeTab) && loading == old(loading) && saving == old(saving)
    {
      content := Assign(content, KeyOf(activeTab), typed);
    }

    /** `handleSave`, whose fetch settles as `reply`. */
    method Save(reply: Reply) returns (req: Request, effects: seq<Effect>)
      modifies this
      ensures req == SaveRequest(content, activeTab) && effects == [SaveAlert(reply, activeTab)]
      ensures content == old(content) && activeTab == old(activeTab) && loading == old(loading) && !saving
    {
      saving := true;
      var key := if activeTab == Terms then "terms_content" else "privacy_content";
      var value := Or(Lookup(content, key), "");
      req := Request(Post, ContentApi + "/site-content", KeyValue(key, value));
      if reply.Rejected? {
        effects := [Alert("Failed to save changes")];
      } else {
        effects := [Alert((if activeTab == Terms then "Terms" else "Privacy Policy") + " updated successfully!")];
      }
      saving := false;
    }
  }
}
