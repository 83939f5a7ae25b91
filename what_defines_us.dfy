/** frontend/components/WhatDefinesUs.tsx: the DNA cards, their numbering and their titles. */
module WhatDefinesUs {
  import opened Strings
  import opened SiteContent

  datatype DnaItem = DnaItem(id: nat, title: string, description: string, image: string)

  /** A fragment of a card title: the first part plainly, every later part highlighted and
      preceded by '#', and a single space after each. */
  datatype Fragment = Lead(text: string) | Tag(text: string) | Space

  function Fragments(parts: seq<string>, first: bool): seq<Fragment> {
    if |parts| == 0 then []
    else [if first then Lead(parts[0]) else Tag("#" + parts[0]), Space] + Fragments(parts[1..], false)
  }

  function TitleFragments(title: string): seq<Fragment> {
    Fragments(Split(title, '#'), true)
  }

  /** The title text with the spaces that follow each segment left out. */
  function Unspaced(fs: seq<Fragment>): string {
    if |fs| == 0 then []
    else (match fs[0] case Lead(t) => t case Tag(t) => t case Space => "") + Unspaced(fs[1..])
  }

  function TagCount(fs: seq<Fragment>): nat {
    if |fs| == 0 then 0 else (if fs[0].Tag? then 1 else 0) + TagCount(fs[1..])
  }

  lemma {:induction false} FragmentsShape(parts: seq<string>, first: bool)
    ensures |Fragments(parts, first)| == 2 * |parts|
    ensures forall i :: 0 <= i < |Fragments(parts, first)| ==> (Fragments(parts, first)[i] == Space <==> i % 2 == 1)
    ensures TagCount(Fragments(parts, first)) == if first && |parts| > 0 then |parts| - 1 else |parts|
    ensures |parts| > 0 ==> Unspaced(Fragments(parts, first)) == (if first then "" else "#") + Join(parts, '#')
  {
    if |parts| > 0 {
      FragmentsShape(parts[1..], false);
      var head := if first then Lead(parts[0]) else Tag("#" + parts[0]);
      var rest := Fragments(parts[1..], false);
      var all := [head, Space] + rest;
      forall i | 0 <= i < |all| ensures (all[i] == Space <==> i % 2 == 1) {
        if i >= 2 {
          assert all[i] == rest[i - 2];
        }
      }
      assert all[1..] == [Space] + rest;
      assert all[1..][1..] == rest;
      if |parts| > 1 {
        assert Join(parts, '#') == parts[0] + "#" + Join(parts[1..], '#');
      }
    }
  }

  /** The card title: one space after each segment, one highlighted segment per '#' in the
      title, and taking the spaces out gives the title back. */
  lemma {:induction false} CardTitle(title: string)
    ensures forall i :: 0 <= i < |TitleFragments(title)| ==> (TitleFragments(title)[i] == Space <==> i % 2 == 1)
    ensures |TitleFragments(title)| % 2 == 0
    ensures TagCount(TitleFragments(title)) == Count(title, '#')
    ensures Unspaced(TitleFragments(title)) == title
    ensures TitleFragments(title)[0] == Lead(Split(title, '#')[0])
  {
    FragmentsShape(Split(title, '#'), true);
    SplitLength(title, '#');
    JoinSplit(title, '#');
  }

  /** `String(index + 1).padStart(2, '0')` */
  function CardLabel(index: nat): string {
    PadStart(DecimalString(index + 1), 2, '0')
  }

  /** Cards 1 to 9 read '01' to '09'; from 10 on the number is shown unpadded. */
  lemma CardLabelForm(index: nat)
    ensures index < 9 ==> CardLabel(index) == ['0', Digit(index + 1)]
    ensures index >= 9 ==> CardLabel(index) == DecimalString(index + 1)
  {
    LabelDecodes(index);
  }

  /** No two cards share a label. */
  lemma {:induction false} CardLabelsDistinct(index: nat, other: nat)
    requires index != other
    ensures CardLabel(index) != CardLabel(other)
  {
    if index < 9 && other < 9 {
      SmallLabelsDistinct(index, other);
    } else if index >= 9 && other >= 9 {
      LargeLabelsDistinct(index, other);
    } else if index < 9 {
      MixedLabelsDistinct(index, other);
    } else {
      MixedLabelsDistinct(other, index);
    }
  }

  lemma {:induction false} SmallLabelsDistinct(index: nat, other: nat)
    requires index < 9 && other < 9 && index != other
    ensures CardLabel(index) != CardLabel(other)
  {
    LabelDecodes(index);
    LabelDecodes(other);
    if CardLabel(index) == CardLabel(other) {
      assert DecimalString(index + 1) == CardLabel(index)[1..] == DecimalString(other + 1);
      DecimalInjective(index + 1, other + 1);
    }
  }

  lemma {:induction false} LargeLabelsDistinct(index: nat, other: nat)
    requires 9 <= index && 9 <= other && index != other
    ensures CardLabel(index) != CardLabel(other)
  {
    assert CardLabel(index) == DecimalString(index + 1) by { LargeLabel(index); }
    assert CardLabel(other) == DecimalString(other + 1) by { LargeLabel(other); }
    assert DecimalString(index + 1) != DecimalString(other + 1) by { DecimalDistinct(index + 1, other + 1); }
  }

  /** From the tenth card on, the label is the number itself. */
  lemma LargeLabel(index: nat)
    requires 9 <= index
    ensures CardLabel(index) == DecimalString(index + 1)
  {
    DecimalLength(index + 1);
  }

  lemma {:induction false} MixedLabelsDistinct(small: nat, large: nat)
    requires small < 9 <= large
    ensures CardLabel(small) != CardLabel(large)
  {
    LabelDecodes(small);
    LabelDecodes(large);
    DecimalLeading(large + 1);
    assert CardLabel(small)[0] == '0';
    assert CardLabel(large)[0] != '0';
  }

  /** The number can be read back from the label. */
  lemma LabelDecodes(index: nat)
    ensures CardLabel(index) == if index < 9 then "0" + DecimalString(index + 1) else DecimalString(index + 1)
    ensures index < 9 ==> DecimalString(index + 1) == [Digit(index + 1)]
  {
    DecimalLength(index + 1);
    var d := DecimalString(index + 1);
    var l := CardLabel(index);
    if index < 9 {
      assert l[1..] == d;
      assert l == [l[0]] + l[1..];
    } else {
      assert l[|l| - |d|..] == d;
    }
  }

  /** The card as drawn: label, resolved image, title fragments and description. */
  datatype Card = Card(number: string, image: string, title: seq<Fragment>, description: string)

  function Cards(items: seq<DnaItem>): (cards: seq<Card>)
    ensures |cards| == |items|
    ensures forall i :: 0 <= i < |items| ==> cards[i].number == CardLabel(i) && cards[i].image == ResolveImage(items[i].image)
  {
    seq(|items|, i requires 0 <= i < |items| =>
      Card(CardLabel(i), ResolveImage(items[i].image), TitleFragments(items[i].title), items[i].description))
  }
}
