/** frontend/pages/About.tsx: the story, image and mission/vision/values texts of the About page,
    each from site content with a built-in fallback. */
module About {
  import opened Js
  import opened SiteContent
  import StoryManager

  /** The text blocks of the page, in page order: the site-content key and the text shown when
      that key is missing or empty. */
  const Texts: seq<(string, string)> := [
    ("story_p1", "Gradevo was born from a simple idea: The digital world shouldn't just be functional; it should be immersive. We are a collective of designers, engineers, and strategists obsessed with the space where art meets technology."),
    ("story_p2", "Our name, Gra#Devo, represents the fusion of Graphics (Design) and Development. The hashtag isn't just a symbol; it's a connector. It connects brands to audiences, problems to solutions, and dreams to reality."),
    ("mission_title", "Mission"),
    ("mission_text", "To elevate brands through digital innovation that defies the ordinary."),
    ("vision_title", "Vision"),
    ("vision_text", "A web where every interaction is a memorable experience."),
    ("values_title", "Values"),
    ("values_text", "Innovation. Transparency. Perfection. Speed.")
  ]

  /** The picture shown when no story image is set. */
  const StockImage := "https://images.unsplash.com/photo-1522071820081-009f0129c71c?auto=format&fit=crop&q=80&w=800"

  /** The page reads exactly the text keys the story editor saves, in the same order. */
  lemma ReadsStoryKeys()
    ensures seq(|Texts|, i requires 0 <= i < |Texts| => Texts[i].0) == StoryManager.TextFields
  {
  }

  /** The content object after the fetch: the fetched entries folded into an empty object, or the
      empty object when the fetch or the JSON parse failed. */
  function ContentAfter(data: Option<seq<Entry>>): seq<Entry> {
    match data
    case None => []
    case Some(d) => AssignAll([], d)
  }

  /** `content.key || fallback` for every text block. */
  function ShownTexts(content: seq<Entry>): (r: seq<string>)
    ensures |r| == |Texts|
    ensures forall i :: 0 <= i < |r| ==> r[i] == Or(Lookup(content, Texts[i].0), Texts[i].1)
  {
    seq(|Texts|, i requires 0 <= i < |Texts| => Or(Lookup(content, Texts[i].0), Texts[i].1))
  }

  /** `content.story_image ? resolve(content.story_image) : <stock photo>` */
  function StoryImage(content: seq<Entry>): (src: string)
    ensures Truthy(Lookup(content, "story_image")) ==> src == ResolveImage(Lookup(content, "story_image").value)
    ensures !Truthy(Lookup(content, "story_image")) ==> src == StockImage
  {
    var img := Lookup(content, "story_image");
    if Truthy(img) then ResolveImage(img.value) else StockImage
  }

  /** A text block shows the last fetched value of its key when that value is non-empty, and its
      fallback otherwise. */
  lemma ShowsFetchedText(data: seq<Entry>, i: nat)
    requires i < |Texts|
    ensures var key := Texts[i].0;
      ShownTexts(ContentAfter(Some(data)))[i] ==
        match LastIndex(data, key)
        case Some(j) => if data[j].value != "" then data[j].value else Texts[i].1
        case None => Texts[i].1
  {
    LastWins([], data, Texts[i].0);
  }

  /** When the content cannot be fetched every block shows its fallback and the stock photo is shown. */
  lemma FailedFetchShowsFallbacks()
    ensures ShownTexts(ContentAfter(None)) == seq(|Texts|, i requires 0 <= i < |Texts| => Texts[i].1)
    ensures StoryImage(ContentAfter(None)) == StockImage
  {
  }

  /** The page's state: the content object. */
  class Page {
    var content: seq<Entry>

    /** Before the fetch: the empty object, so every fallback shows. */
    constructor()
      ensures content == []
    {
      content := [];
    }

    /** `fetchContent` answered with `data`: the `forEach` fold replaces the content; a failed fetch
        or parse keeps it. */
    method FetchContent(data: Option<seq<Entry>>)
      modifies this
      ensures data.Some? ==> content == ContentAfter(data)
      ensures data.None? ==> content == old(content)
    {
      if data.Some? {
        var contentMap := BuildContentMap(data.value);
        content := contentMap;
      }
    }
  }
}
