/** frontend/components/ui/CustomCursor.tsx: the custom pointer's states (view-more, hover, default,
    clicking) as the mouse handlers set them, and the follower look each state selects. */
module CustomCursor {
  import opened Js

  /** One element under the pointer: its tag name (upper case, as `tagName` gives it for HTML), its
      classes and its `data-cursor` attribute when it has one. */
  datatype Element = Element(tagName: string, classes: seq<string>, dataCursor: Option<string>)

  /** `el.closest(sel)` over `path`, the event target followed by its ancestors: the position of the
      first element (the target itself included) that matches. */
  function Closest(path: seq<Element>, matches: Element -> bool): (r: Option<nat>)
    ensures r.Some? ==> r.value < |path| && matches(path[r.value])
    ensures r.Some? ==> forall j :: 0 <= j < r.value ==> !matches(path[j])
    ensures r.None? ==> forall j :: 0 <= j < |path| ==> !matches(path[j])
  {
    if |path| == 0 then None
    else if matches(path[0]) then Some(0)
    else match Closest(path[1..], matches)
      case None => None
      case Some(i) => Some(i + 1)
  }

  /** `[data-cursor]`: the attribute is present, whatever its value. */
  function HasDataCursor(): Element -> bool {
    (e: Element) => e.dataCursor.Some?
  }

  /** `closest('a')` and `closest('button')` */
  function IsTag(tag: string): Element -> bool {
    (e: Element) => e.tagName == tag
  }

  /** The generic hover test of `onMouseOver`. */
  predicate IsInteractive(path: seq<Element>)
    requires |path| >= 1
  {
    path[0].tagName == "A" || path[0].tagName == "BUTTON"
    || Closest(path, IsTag("A")).Some? || Closest(path, IsTag("BUTTON")).Some?
    || "cursor-hover" in path[0].classes
  }

  /** The target is interactive exactly when it or an ancestor is a link or a button, or the target
      itself carries the 'cursor-hover' class: the two tag tests on the target are subsumed by the
      `closest` tests. */
  lemma InteractiveMeaning(path: seq<Element>)
    requires |path| >= 1
    ensures IsInteractive(path) <==>
      (exists j :: 0 <= j < |path| && (path[j].tagName == "A" || path[j].tagName == "BUTTON"))
      || "cursor-hover" in path[0].classes
  {
    var a, b := Closest(path, IsTag("A")), Closest(path, IsTag("BUTTON"));
    if exists j :: 0 <= j < |path| && (path[j].tagName == "A" || path[j].tagName == "BUTTON") {
      var j :| 0 <= j < |path| && (path[j].tagName == "A" || path[j].tagName == "BUTTON");
      assert IsTag("A")(path[j]) || IsTag("BUTTON")(path[j]);
    }
  }

  /** The three follower styles: the large label disc, the red ring and the small default ring. */
  datatype Look = ViewMoreLook | HoverLook | DefaultLook

  function Size(l: Look): nat {
    match l
    case ViewMoreLook => 100
    case HoverLook => 50
    case DefaultLook => 20
  }

  class Cursor {
    var isHovering: bool
    var isViewMore: bool
    var cursorText: string
    var isClicking: bool

    /** The view-more and hover states never hold together. */
    predicate Valid()
      reads this
    {
      !(isViewMore && isHovering)
    }

    constructor()
      ensures Valid()
      ensures !isHovering && !isViewMore && cursorText == "" && !isClicking
    {
      isHovering := false;
      isViewMore := false;
      cursorText := "";
      isClicking := false;
    }

    /** `onMouseOver` for the event target followed by its ancestors. */
    method MouseOver(path: seq<Element>)
      modifies this
      requires |path| >= 1
      ensures Valid()
      ensures var v := Closest(path, HasDataCursor());
        v.Some? ==> isViewMore && !isHovering && cursorText == Or(path[v.value].dataCursor, "View")
      ensures Closest(path, HasDataCursor()).None? ==>
        !isViewMore && isHovering == IsInteractive(path) && cursorText == old(cursorText)
      ensures isClicking == old(isClicking)
    {
      var viewMoreEl := Closest(path, HasDataCursor());
      if viewMoreEl.Some? {
        var text := path[viewMoreEl.value].dataCursor;
        cursorText := Or(text, "View");
        isViewMore := true;
        isHovering := false;
      } else {
        isViewMore := false;
        var isInteractive := path[0].tagName == "A" || path[0].tagName == "BUTTON"
          || Closest(path, IsTag("A")).Some? || Closest(path, IsTag("BUTTON")).Some?
          || "cursor-hover" in path[0].classes;
        isHovering := isInteractive;
      }
    }

    method MouseDown()
      modifies this
      ensures isClicking
      ensures isHovering == old(isHovering) && isViewMore == old(isViewMore) && cursorText == old(cursorText)
    {
      isClicking := true;
    }

    method MouseUp()
      modifies this
      ensures !isClicking
      ensures isHovering == old(isHovering) && isViewMore == old(isViewMore) && cursorText == old(cursorText)
    {
      isClicking := false;
    }

    /** The follower's look: view-more before hover before the default ring. */
    function FollowerLook(): (l: Look)
      reads this
      ensures l == ViewMoreLook <==> isViewMore
      ensures l == HoverLook <==> !isViewMore && isHovering
      ensures l == DefaultLook <==> !isViewMore && !isHovering
    {
      if isViewMore then ViewMoreLook else if isHovering then HoverLook else DefaultLook
    }

    /** The follower's scale in percent: pressed while the button is down. */
    function ScalePercent(): nat
      reads this
    {
      if isClicking then 90 else 100
    }
  }

  /** With the view-more and hover states exclusive, the look is decided by whichever one holds:
      100 pixels for view-more, 50 for hover, 20 otherwise. */
  lemma LookOfValidCursor(c: Cursor)
    requires c.Valid()
    ensures c.isHovering ==> c.FollowerLook() == HoverLook && Size(c.FollowerLook()) == 50
    ensures c.isViewMore ==> Size(c.FollowerLook()) == 100
    ensures !c.isHovering && !c.isViewMore ==> Size(c.FollowerLook()) == 20
  {
  }
}
