/** frontend/components/Testimonials.tsx: the client stories block. */
module Testimonials {
  import opened Js
  import opened Seqs
  import opened SiteContent

  datatype Testimonial = Testimonial(name: string, role: string, content: string, imageUrl: Option<string>, linkedinUrl: Option<string>)

  /** The photo, resolved like every image path, or the first character of the name. */
  datatype Avatar = Photo(src: string) | Initial(text: string)

  datatype Card = Card(avatar: Avatar, linkedIn: Option<string>, quote: string)

  datatype Block = Block(large: bool, cards: seq<Card>, viewAll: bool)

  /** `name.charAt(0)`: the empty string for an empty name. */
  function CharAt0(s: string): (r: string)
    ensures |r| <= 1 && |r| <= |s|
    ensures r == s[..|r|]
    ensures |r| == 0 <==> |s| == 0
  {
    if |s| == 0 then "" else s[..1]
  }

  function CardOf(t: Testimonial): (c: Card)
    ensures c.avatar.Photo? <==> Truthy(t.imageUrl)
    ensures c.avatar.Photo? ==> c.avatar.src == ResolveImage(t.imageUrl.value)
    ensures c.avatar.Initial? ==> c.avatar.text == CharAt0(t.name)
    ensures c.linkedIn.Some? <==> Truthy(t.linkedinUrl)
    ensures c.linkedIn.Some? ==> c.linkedIn == t.linkedinUrl
    ensures c.quote == t.content
  {
    Card(
      if Truthy(t.imageUrl) then Photo(ResolveImage(t.imageUrl.value)) else Initial(CharAt0(t.name)),
      if Truthy(t.linkedinUrl) then t.linkedinUrl else None,
      t.content)
  }

  function Render(ts: seq<Testimonial>): (b: Block)
    ensures b.large <==> |ts| <= 3
    ensures b.viewAll <==> |ts| > 6
    ensures |b.cards| == if |ts| < 6 then |ts| else 6
  {
    var shown := Take(ts, 6);
    Block(|ts| <= 3, seq(|shown|, i requires 0 <= i < |shown| => CardOf(shown[i])), |ts| > 6)
  }

  /** The cards are those of the first testimonials in order, and 'View All Stories' appears
      exactly when some testimonial has no card. */
  lemma CardsInOrder(ts: seq<Testimonial>)
    ensures forall i :: 0 <= i < |Render(ts).cards| ==> Render(ts).cards[i] == CardOf(ts[i])
    ensures Render(ts).viewAll <==> |Render(ts).cards| < |ts|
  {
  }
}
