/** frontend/pages/admin/StoryManager.tsx: the administrator's editor for the About page story. */
module StoryManager {
  import opened Js
  import opened Seqs
  import opened Admin
  import opened SiteContent

  const SiteContentUrl := ContentApi + "/site-content"

  /** The text keys a save considers, in the order it writes them: the two story paragraphs, then
      the title and text of the mission, the vision and the values. */
  const TextFields: seq<string> :=
    ["story_p1", "story_p2"]
    + ["mission_title", "mission_text"]
    + ["vision_title", "vision_text"]
    + ["values_title", "values_text"]

  /** `if (content[key])` */
  function IsSet(content: seq<Entry>): string -> bool {
    (key: string) => Truthy(Lookup(content, key))
  }

  /** The keys a save writes: those of `keys` whose value is set, in order. */
  function SavedKeys(content: seq<Entry>, keys: seq<string>): seq<string> {
    Filter(keys, IsSet(content))
  }

  /** The JSON write of one text key. */
  function TextWrite(content: seq<Entry>, key: string): Request {
    Request(Post, SiteContentUrl, KeyValue(key, Or(Lookup(content, key), "")))
  }

  function TextWrites(content: seq<Entry>, keys: seq<string>): (rs: seq<Request>)
    ensures |rs| == |keys|
  {
    seq(|keys|, i requires 0 <= i < |keys| => TextWrite(content, keys[i]))
  }

  /** The form write of a chosen image under 'story_image'. */
  function ImageWrite(file: Option<File>): (rs: seq<Request>)
    ensures |rs| == 1 <==> file.Some?
  {
    if file.Some? then [Request(Post, SiteContentUrl, Form([Field("key", Text("story_image")), Field("image", Upload(file.value))]))]
    else []
  }

  /** Every request a save sends when no fetch fails, with `keys` the text keys it considers. */
  function Writes(content: seq<Entry>, keys: seq<string>, file: Option<File>): seq<Request> {
    TextWrites(content, SavedKeys(content, keys)) + ImageWrite(file)
  }

  /** A save writes exactly the set text keys, each with its current value, in the listed order,
      and never a key that is missing or empty; the image goes last, and only when one is chosen. */
  lemma SavedWrites(content: seq<Entry>, keys: seq<string>, file: Option<File>)
    ensures var saved := SavedKeys(content, keys);
      IsSubsequence(saved, keys)
      && (forall k :: multiset(saved)[k] == if Truthy(Lookup(content, k)) then multiset(keys)[k] else 0)
      && (forall i :: 0 <= i < |saved| ==>
            Writes(content, keys, file)[i].body == KeyValue(saved[i], Lookup(content, saved[i]).value))
      && |Writes(content, keys, file)| == |saved| + (if file.Some? then 1 else 0)
  {
    var saved := SavedKeys(content, keys);
    FilterIsSubsequence(keys, IsSet(content));
    forall k ensures multiset(saved)[k] == if Truthy(Lookup(content, k)) then multiset(keys)[k] else 0 {
      FilterKeepsMatches(keys, IsSet(content), k);
    }
    forall i | 0 <= i < |saved|
      ensures Writes(content, keys, file)[i].body == KeyValue(saved[i], Lookup(content, saved[i]).value)
    {
      assert IsSet(content)(saved[i]);
    }
  }

  /** Every write of a save is a POST to the site-content endpoint; a chosen image is sent last,
      as a form holding the 'story_image' key and the file. */
  lemma WritesTarget(content: seq<Entry>, keys: seq<string>, file: Option<File>)
    ensures forall r :: r in Writes(content, keys, file) ==> r.verb == Post && r.url == SiteContentUrl
    ensures file.Some? ==> var w := Writes(content, keys, file);
      |w| >= 1 && w[|w| - 1].body.Form?
      && FormValue(w[|w| - 1].body.fields, "key") == Some(Text("story_image"))
      && FormValue(w[|w| - 1].body.fields, "image") == Some(Upload(file.value))
  {
    var texts := TextWrites(content, SavedKeys(content, keys));
    var w := Writes(content, keys, file);
    assert w == texts + ImageWrite(file);
    forall r | r in w ensures r.verb == Post && r.url == SiteContentUrl {
      var i :| 0 <= i < |w| && w[i] == r;
      if i >= |texts| {
        assert r == ImageWrite(file)[i - |texts|];
      }
    }
    if file.Some? {
      assert w[|w| - 1] == ImageWrite(file)[0];
    }
  }

  /** The title inputs show 'Mission', 'Vision' or 'Values' while the stored title is missing or
      empty; such a title is not written by a save, so the shown default never reaches the server. */
  function TitleInput(content: seq<Entry>, key: string, fallback: string): (shown: string)
    ensures Truthy(Lookup(content, key)) ==> shown == Lookup(content, key).value
    ensures !Truthy(Lookup(content, key)) ==> shown == fallback
  {
    Or(Lookup(content, key), fallback)
  }

  lemma DefaultTitleNotSaved(content: seq<Entry>, key: string, fallback: string)
    requires fallback != ""
    requires TitleInput(content, key, fallback) == fallback && Lookup(content, key) != Some(fallback)
    ensures key !in SavedKeys(content, TextFields)
  {
    FilterKeepsMatches(TextFields, IsSet(content), key);
    assert multiset(SavedKeys(content, TextFields))[key] == 0;
  }

  class Page {
    var content: seq<Entry>
    var loading: bool
    var saving: bool
    var imageFile: Option<File>

    constructor()
      ensures content == [] && loading && !saving && imageFile == None
    {
      content := [];
      loading := true;
      saving := false;
      imageFile := None;
    }

    /** `fetchContent`, answered with the site content, or `None` when the fetch fails. */
    method FetchContent(data: Option<seq<Entry>>)
      modifies this
      ensures data.Some? ==> content == AssignAll([], data.value)
      ensures data.None? ==> content == old(content)
      ensures !loading && saving == old(saving) && imageFile == old(imageFile)
    {
      if data.Some? {
        content := BuildContentMap(data.value);
      }
      loading := false;
    }

    /** A typed change: `{ ...content, [key]: value }`. */
    method Edit(key: string, value: string)
      modifies this
      ensures content == Assign(old(content), key, value)
      ensures loading == old(loading) && saving == old(saving) && imageFile == old(imageFile)
    {
      content := Assign(content, key, value);
    }

    /** `handleSave`. `failAt` is the index of the request whose fetch rejects, if any; response
        statuses are never looked at. */
    method Save(failAt: Option<nat>) returns (sent: seq<Request>, effects: seq<Effect>)
      modifies this
      ensures var all := Writes(content, TextFields, old(imageFile));
        if failAt.Some? && failAt.value < |all| then
          sent == all[..failAt.value + 1] && effects == [Alert("Failed to save changes")]
          && imageFile == old(imageFile)
        else
          sent == all && effects == [Alert("Story updated successfully!"), Refetch(SiteContentUrl)]
          && imageFile == None
      ensures content == old(content) && loading == old(loading) && !saving
    {
      saving := true;
      var failed;
      sent, failed := SendAll(content, TextFields, imageFile, failAt);
      if failed {
        effects := [Alert("Failed to save changes")];
      } else {
        effects := [Alert("Story updated successfully!"), Refetch(SiteContentUrl)];
        imageFile := None;
      }
      saving := false;
    }
  }

  /** The loop over the text keys followed by the image upload, stopping at the rejected fetch. */
  method SendAll(content: seq<Entry>, keys: seq<string>, file: Option<File>, failAt: Option<nat>)
    returns (sent: seq<Request>, failed: bool)
    ensures var all := Writes(content, keys, file);
      failed == (failAt.Some? && failAt.value < |all|)
      && sent == if failed then all[..failAt.value + 1] else all
  {
    ghost var texts := TextWrites(content, SavedKeys(content, keys));
    sent, failed := SendTexts(content, keys, failAt);
    ghost var all := Writes(content, keys, file);
    assert all == texts + ImageWrite(file);
    if failed {
      assert all[..failAt.value + 1] == texts[..failAt.value + 1];
    } else if file.Some? {
      sent := sent + ImageWrite(file);
      failed := failAt == Some(|sent| - 1);
    } else {
      assert all == texts;
    }
  }

  /** `for (const key of textFields) if (content[key]) await fetch(…)` */
  method SendTexts(content: seq<Entry>, keys: seq<string>, failAt: Option<nat>)
    returns (sent: seq<Request>, failed: bool)
    ensures var all := TextWrites(content, SavedKeys(content, keys));
      failed == (failAt.Some? && failAt.value < |all|)
      && sent == if failed then all[..failAt.value + 1] else all
  {
    ghost var all := TextWrites(content, SavedKeys(content, keys));
    sent := [];
    failed := false;
    var i := 0;
    while i < |keys| && !failed
      invariant 0 <= i <= |keys|
      invariant !failed ==> sent == TextWrites(content, SavedKeys(content, keys[..i]))
      invariant !failed ==> failAt.None? || failAt.value >= |sent|
      invariant |sent| <= |all| && sent == all[..|sent|]
      invariant failed ==> failAt == Some(|sent| - 1)
    {
      var key := keys[i];
      SavedStep(content, keys, i);
      SavedPrefix(content, keys, i + 1);
      if Truthy(Lookup(content, key)) {
        sent := sent + [TextWrite(content, key)];
        failed := failAt == Some(|sent| - 1);
      }
      i := i + 1;
    }
    if !failed {
      assert keys[..i] == keys;
    }
  }

  /** One more key adds its write exactly when its value is set. */
  lemma SavedStep(content: seq<Entry>, keys: seq<string>, i: nat)
    requires i < |keys|
    ensures TextWrites(content, SavedKeys(content, keys[..i + 1])) ==
      TextWrites(content, SavedKeys(content, keys[..i]))
      + if Truthy(Lookup(content, keys[i])) then [TextWrite(content, keys[i])] else []
  {
    assert keys[..i + 1] == keys[..i] + [keys[i]];
    FilterAppend(keys[..i], [keys[i]], IsSet(content));
  }

  /** The text writes for a prefix of the keys are a prefix of all the writes. */
  lemma SavedPrefix(content: seq<Entry>, keys: seq<string>, n: nat)
    requires n <= |keys|
    ensures var pre := TextWrites(content, SavedKeys(content, keys[..n]));
      |pre| <= |TextWrites(content, SavedKeys(content, keys))|
      && pre == TextWrites(content, SavedKeys(content, keys))[..|pre|]
  {
    assert keys == keys[..n] + keys[n..];
    FilterAppend(keys[..n], keys[n..], IsSet(content));
  }
}
