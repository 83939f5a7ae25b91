/** frontend/components/Navbar.tsx and the NAV_LINKS of frontend/constants.ts: the public site's
    top bar with its scroll state, logo, rotating tagline, links and mobile menu. */
module Navbar {
  import opened Js
  import opened SiteContent
  import Seqs

  /** `{ name, path }` of one navigation link. */
  datatype NavLink = NavLink(name: string, path: string)

  const NavLinks: seq<NavLink> := [
    NavLink("Home", "/"), NavLink("About", "/about"), NavLink("Services", "/services"),
    NavLink("Portfolio", "/portfolio"), NavLink("Contact", "/contact")
  ]

  /** The tagline words the bar cycles through. */
  const Words: seq<string> := [".Design", ".Develop", ".Deploy"]

  /** The word shown after `n` ticks of the interval. */
  function WordAfter(n: nat): (w: string)
    ensures w in Words
  {
    Words[n % |Words|]
  }

  /** The tagline repeats every three ticks and never shows the same word twice in a row. */
  lemma TaglineCycle(n: nat)
    ensures WordAfter(n + 3) == WordAfter(n)
    ensures WordAfter(n + 1) != WordAfter(n)
  {
    assert (n + 3) % 3 == n % 3;
    var k := n % 3;
    assert (n + 1) % 3 == (k + 1) % 3;
    assert Words[0][3] != Words[1][3] && Words[1][3] != Words[2][3] && Words[2][3] != Words[0][3];
  }

  /** How the brand is drawn: the configured logo image or the "Gra"/"Devo" wordmark. */
  datatype Logo = Image(src: string) | Wordmark

  /** `scrollY > 50` */
  predicate ScrolledAt(scrollY: int) {
    scrollY > 50
  }

  /** `location.pathname === link.path`: the links highlighted on `pathname`. */
  function ActiveLinks(pathname: string): (r: seq<NavLink>)
    ensures forall l :: l in r <==> l in NavLinks && l.path == pathname
    ensures |r| <= 1
  {
    Seqs.Filter(NavLinks, (l: NavLink) => l.path == pathname)
  }

  /** Every page of the bar has exactly one highlighted link, and any other path has none. */
  lemma ActiveLinkUnique(pathname: string)
    ensures |ActiveLinks(pathname)| == 1 <==> exists l :: l in NavLinks && l.path == pathname
  {
    if exists l :: l in NavLinks && l.path == pathname {
      var l :| l in NavLinks && l.path == pathname;
      assert l in ActiveLinks(pathname);
    }
  }

  class Bar {
    var isOpen: bool
    var scrolled: bool
    var logoUrl: string
    /** The interval's `currentIndex`. */
    var currentIndex: nat
    /** The tagline span's text. */
    var tagline: string
    /** `document.body.style.overflow` */
    var bodyOverflow: string

    /** The tagline shows the word of the current index. */
    predicate Valid()
      reads this
    {
      currentIndex < |Words| && tagline == Words[currentIndex]
      && bodyOverflow == (if isOpen then "hidden" else "auto")
    }

    /** Mounting: closed, not scrolled, no logo yet, ".Design" shown, background scrolling. */
    constructor()
      ensures Valid()
      ensures !isOpen && !scrolled && logoUrl == "" && currentIndex == 0 && tagline == ".Design"
      ensures bodyOverflow == "auto"
    {
      isOpen := false;
      scrolled := false;
      logoUrl := "";
      currentIndex := 0;
      tagline := Words[0];
      bodyOverflow := "auto";
    }

    /** The scroll listener. */
    method OnScroll(scrollY: int)
      modifies this
      requires Valid()
      ensures Valid()
      ensures scrolled == ScrolledAt(scrollY)
      ensures isOpen == old(isOpen) && logoUrl == old(logoUrl) && currentIndex == old(currentIndex)
      ensures tagline == old(tagline) && bodyOverflow == old(bodyOverflow)
    {
      scrolled := scrollY > 50;
    }

    /** `fetchLogo` answered with `data` (None: the fetch or the JSON parse failed). The first
        'logo_url' entry is taken, even with an empty value; otherwise the logo stays as it was. */
    method FetchLogo(data: Option<seq<Entry>>)
      modifies this
      requires Valid()
      ensures Valid()
      ensures data.Some? && Lookup(data.value, "logo_url").Some? ==> logoUrl == Lookup(data.value, "logo_url").value
      ensures !(data.Some? && Lookup(data.value, "logo_url").Some?) ==> logoUrl == old(logoUrl)
      ensures isOpen == old(isOpen) && scrolled == old(scrolled) && currentIndex == old(currentIndex)
      ensures tagline == old(tagline) && bodyOverflow == old(bodyOverflow)
    {
      if data.Some? {
        var logoItem := Lookup(data.value, "logo_url");
        if logoItem.Some? {
          logoUrl := logoItem.value;
        }
      }
    }

    /** One firing of the 2.5-second interval: the next word, wrapping after the third. */
    method Tick()
      modifies this
      requires Valid()
      ensures Valid()
      ensures currentIndex == (old(currentIndex) + 1) % |Words|
      ensures tagline == WordAfter(old(currentIndex) + 1)
      ensures tagline != old(tagline)
      ensures isOpen == old(isOpen) && scrolled == old(scrolled) && logoUrl == old(logoUrl)
      ensures bodyOverflow == old(bodyOverflow)
    {
      TaglineCycle(currentIndex);
      currentIndex := (currentIndex + 1) % |Words|;
      tagline := Words[currentIndex];
    }

    /** The menu button. */
    method Toggle()
      modifies this
      requires Valid()
      ensures Valid()
      ensures isOpen == !old(isOpen)
      ensures bodyOverflow == (if old(isOpen) then "auto" else "hidden")
      ensures scrolled == old(scrolled) && logoUrl == old(logoUrl) && currentIndex == old(currentIndex)
      ensures tagline == old(tagline)
    {
      isOpen := !isOpen;
      bodyOverflow := if isOpen then "hidden" else "auto";
    }

    /** The close button of the mobile menu and a change of location: the menu closes and the
        page scrolls again. */
    method Close()
      modifies this
      requires Valid()
      ensures Valid()
      ensures !isOpen && bodyOverflow == "auto"
      ensures scrolled == old(scrolled) && logoUrl == old(logoUrl) && currentIndex == old(currentIndex)
      ensures tagline == old(tagline)
    {
      isOpen := false;
      bodyOverflow := "auto";
    }

    /** The brand: the resolved logo image when a logo URL is set, else the wordmark. */
    function Brand(): (b: Logo)
      reads this
      ensures b.Image? <==> logoUrl != ""
      ensures b.Image? ==> b.src == ResolveImage(logoUrl)
    {
      if logoUrl != "" then Image(ResolveImage(logoUrl)) else Wordmark
    }

    /** The '#' is hidden only while an image logo is shown at the top of the page. */
    predicate HashtagShown()
      reads this
    {
      !(logoUrl != "" && !scrolled)
    }
  }

  /** With the wordmark the '#' is always there; with an image it appears once the page scrolls. */
  lemma HashtagRule(b: Bar)
    ensures b.Brand() == Wordmark ==> b.HashtagShown()
    ensures b.Brand().Image? ==> (b.HashtagShown() <==> b.scrolled)
  {
  }
}
