/** frontend/components/ui/SectionHeader.tsx: a heading whose '#' marks are drawn highlighted. */
module SectionHeader {
  import opened Js
  import opened Strings

  /** A child of the heading: a run of title text, or a highlighted '#'. */
  datatype Piece = Plain(text: string) | Hash

  /** Each part of `title.split('#')`, followed by a highlighted '#' unless it is the last. */
  function Pieces(parts: seq<string>): seq<Piece> {
    if |parts| <= 1 then (if |parts| == 0 then [] else [Plain(parts[0])])
    else [Plain(parts[0]), Hash] + Pieces(parts[1..])
  }

  function TitlePieces(title: string): seq<Piece> {
    Pieces(Split(title, '#'))
  }

  /** The text a reader sees. */
  function Shown(pieces: seq<Piece>): string {
    if |pieces| == 0 then []
    else (match pieces[0] case Plain(t) => t case Hash => "#") + Shown(pieces[1..])
  }

  function HashCount(pieces: seq<Piece>): nat {
    if |pieces| == 0 then 0 else (if pieces[0] == Hash then 1 else 0) + HashCount(pieces[1..])
  }

  /** Pieces alternate part, '#', part, ..., and end with a part. */
  ghost predicate Alternates(pieces: seq<Piece>) {
    |pieces| % 2 == 1
    && forall i :: 0 <= i < |pieces| ==> (pieces[i] == Hash <==> i % 2 == 1)
  }

  lemma {:induction false} PiecesShape(parts: seq<string>)
    requires |parts| >= 1
    ensures |Pieces(parts)| == 2 * |parts| - 1
    ensures Alternates(Pieces(parts))
    ensures forall i :: 0 <= i < |parts| ==> Pieces(parts)[2 * i] == Plain(parts[i])
    ensures HashCount(Pieces(parts)) == |parts| - 1
    ensures Shown(Pieces(parts)) == Join(parts, '#')
  {
    if |parts| > 1 {
      PiecesShape(parts[1..]);
      var rest := Pieces(parts[1..]);
      var all := [Plain(parts[0]), Hash] + rest;
      forall i | 0 <= i < |all| ensures (all[i] == Hash <==> i % 2 == 1) {
        if i >= 2 {
          assert all[i] == rest[i - 2];
        }
      }
      forall i | 0 <= i < |parts| ensures all[2 * i] == Plain(parts[i]) {
        if i > 0 {
          assert all[2 * i] == rest[2 * (i - 1)];
        }
      }
      assert all[1..] == [Hash] + rest;
      assert all[1..][1..] == rest;
      assert Join(parts, '#') == parts[0] + "#" + Join(parts[1..], '#');
    }
  }

  /** The heading shows the title exactly; it has one highlighted '#' per '#' in the title, one
      '#'-free part more than that, and never a '#' after the last part. */
  lemma {:induction false} HeadingShowsTitle(title: string)
    ensures Shown(TitlePieces(title)) == title
    ensures HashCount(TitlePieces(title)) == Count(title, '#')
    ensures |TitlePieces(title)| == 2 * Count(title, '#') + 1
    ensures Alternates(TitlePieces(title))
    ensures forall i :: 0 <= i < |TitlePieces(title)| && TitlePieces(title)[i].Plain? ==> '#' !in TitlePieces(title)[i].text
  {
    var parts := Split(title, '#');
    PiecesShape(parts);
    JoinSplit(title, '#');
    SplitLength(title, '#');
    SplitPiecesFree(title, '#');
    forall i | 0 <= i < |TitlePieces(title)| && TitlePieces(title)[i].Plain?
      ensures '#' !in TitlePieces(title)[i].text
    {
      assert i % 2 == 0;
      assert TitlePieces(title)[2 * (i / 2)] == Plain(parts[i / 2]);
    }
  }

  /** A title without '#' is one plain part. */
  lemma PlainTitle(title: string)
    requires '#' !in title
    ensures TitlePieces(title) == [Plain(title)]
  {
    SplitFree(title, '#');
  }

  /** The rendered header: alignment class, heading, and the subtitle paragraph if any. */
  datatype Header = Header(align: string, heading: seq<Piece>, subtitle: Option<Paragraph>)
  datatype Paragraph = Paragraph(text: string, centeredClass: string)

  function Render(title: string, subtitle: Option<string>, centered: bool): (h: Header)
    ensures h.subtitle.Some? <==> Truthy(subtitle)
    ensures h.subtitle.Some? ==> h.subtitle.value.text == subtitle.value
    ensures h.align == "text-center" <==> centered
    ensures h.align in {"text-center", "text-left"}
  {
    Header(
      if centered then "text-center" else "text-left",
      TitlePieces(title),
      if Truthy(subtitle) then Some(Paragraph(subtitle.value, if centered then "mx-auto" else "")) else None)
  }
}
