/** frontend/pages/Terms.tsx: the Terms of Service page, showing the stored markdown. */
module Terms {
  import opened Js
  import opened SiteContent

  const TermsKey := "terms_content"
  const NotFoundText := "Terms of Service content not found."

  /** The content before the fetch settles. */
  const Initial := ""

  /** The content after the fetch: the value of the first 'terms_content' entry, the not-found text
      when there is none, and the content as it was when the fetch or the parse failed. */
  function AfterFetch(current: string, data: Option<seq<Entry>>): (r: string)
    ensures data.None? ==> r == current
    ensures data.Some? && FirstIndex(data.value, TermsKey).Some? ==>
      r == data.value[FirstIndex(data.value, TermsKey).value].value
    ensures data.Some? && FirstIndex(data.value, TermsKey).None? ==> r == NotFoundText
  {
    match data
    case None => current
    case Some(d) =>
      match Lookup(d, TermsKey)
      case Some(v) => v
      case None => NotFoundText
  }

  /** With two 'terms_content' entries the page shows the first; an entry with an empty value is
      still found and shows as empty. */
  lemma FirstEntryShown(a: string, b: string)
    ensures AfterFetch(Initial, Some([Entry(TermsKey, a), Entry(TermsKey, b)])) == a
    ensures AfterFetch(Initial, Some([Entry(TermsKey, "")])) == ""
  {
  }

  /** The not-found text replaces the content exactly when no entry carries the key (or when an
      entry stores that very text). */
  lemma NotFoundExactlyWhenMissing(current: string, data: seq<Entry>)
    ensures TermsKey !in Keys(data) ==> AfterFetch(current, Some(data)) == NotFoundText
    ensures TermsKey in Keys(data) ==> AfterFetch(current, Some(data)) == Lookup(data, TermsKey).value
    ensures TermsKey in Keys(data) ==> Lookup(data, TermsKey).value in set e | e in data :: e.value
  {
    if TermsKey in Keys(data) {
      var e :| e in data && e.key == TermsKey;
    }
  }
}
