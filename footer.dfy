/** frontend/components/Footer.tsx: the contact details, social links and logo of the site footer. */
module Footer {
  import opened Js
  import opened SiteContent

  /** The details the footer shows before (and unless) the site content arrives. */
  const Defaults: seq<Entry> :=
    [Entry("email", "hello@gradevo.com"), Entry("phone", "+1 (555) 123-4567"), Entry("address", "Los Angeles, CA")]
    + [Entry("social_instagram", ""), Entry("social_linkedin", ""), Entry("social_whatsapp", "")]
    + [Entry("logo_url", "")]

  /** `fetchContactInfo` answered with `data` (None: the fetch or the JSON parse failed, and the
      defaults stay). */
  function AfterFetch(data: Option<seq<Entry>>): seq<Entry> {
    match data
    case None => Defaults
    case Some(d) => Merge(Defaults, d)
  }

  /** What a footer detail reads after the fetch: its last fetched value, or else its default. */
  lemma FooterDetail(data: seq<Entry>, key: string)
    ensures Lookup(AfterFetch(Some(data)), key) ==
      match LastIndex(data, key)
      case Some(i) => Some(data[i].value)
      case None => Lookup(Defaults, key)
    ensures Keys(Defaults) <= Keys(AfterFetch(Some(data)))
  {
    MergeOverDefaults(Defaults, data, key);
  }

  /** A failed fetch leaves the defaults: the default email, phone and address, no social link and
      no logo. */
  lemma FailedFetchKeepsDefaults()
    ensures Lookup(AfterFetch(None), "email") == Some("hello@gradevo.com")
    ensures Lookup(AfterFetch(None), "phone") == Some("+1 (555) 123-4567")
    ensures Lookup(AfterFetch(None), "address") == Some("Los Angeles, CA")
    ensures Socials(AfterFetch(None)) == []
    ensures FooterLogo(AfterFetch(None)) == Wordmark
  {
    DefaultDetails();
    DefaultLinksEmpty();
  }

  lemma DefaultDetails()
    ensures Lookup(Defaults, "email") == Some("hello@gradevo.com")
    ensures Lookup(Defaults, "phone") == Some("+1 (555) 123-4567")
    ensures Lookup(Defaults, "address") == Some("Los Angeles, CA")
  {
    var d := Defaults;
    LookupAt(d, "email", 0);
    LookupAt(d, "phone", 1);
    LookupAt(d, "address", 2);
  }

  lemma DefaultLinksEmpty()
    ensures Lookup(Defaults, "social_instagram") == Some("")
    ensures Lookup(Defaults, "social_linkedin") == Some("")
    ensures Lookup(Defaults, "social_whatsapp") == Some("")
    ensures Lookup(Defaults, "logo_url") == Some("")
  {
    var d := Defaults;
    LookupAt(d, "social_instagram", 3);
    LookupAt(d, "social_linkedin", 4);
    LookupAt(d, "social_whatsapp", 5);
    LookupAt(d, "logo_url", 6);
  }

  datatype Network = Instagram | WhatsApp | LinkedIn

  /** One social button: the network's icon linking to `href`. */
  datatype Social = Social(network: Network, href: string)

  /** The social buttons, in the order the footer draws them; each only when its link is set. */
  function Socials(info: seq<Entry>): (r: seq<Social>)
    ensures |r| <= 3
    ensures forall s :: s in r ==> Truthy(Lookup(info, KeyOf(s.network))) && s.href == Lookup(info, KeyOf(s.network)).value
  {
    Button(info, Instagram) + Button(info, WhatsApp) + Button(info, LinkedIn)
  }

  /** Every network with a link set gets its button, and the buttons keep the order Instagram,
      WhatsApp, LinkedIn. */
  lemma SocialsComplete(info: seq<Entry>)
    ensures forall n :: Truthy(Lookup(info, KeyOf(n))) ==> Social(n, Lookup(info, KeyOf(n)).value) in Socials(info)
    ensures forall i, j :: 0 <= i < j < |Socials(info)| ==> Rank(Socials(info)[i].network) < Rank(Socials(info)[j].network)
  {
    SocialsCover(info);
    SocialsOrdered(info);
  }

  lemma SocialsCover(info: seq<Entry>)
    ensures forall n :: Truthy(Lookup(info, KeyOf(n))) ==> Social(n, Lookup(info, KeyOf(n)).value) in Socials(info)
  {
    var a, b, c := Button(info, Instagram), Button(info, WhatsApp), Button(info, LinkedIn);
    var r := Socials(info);
    assert r == a + b + c;
    forall n | Truthy(Lookup(info, KeyOf(n)))
      ensures Social(n, Lookup(info, KeyOf(n)).value) in r
    {
      match n
      case Instagram => assert a[0] in r;
      case WhatsApp => assert b[0] in r;
      case LinkedIn => assert c[0] in r;
    }
  }

  lemma SocialsOrdered(info: seq<Entry>)
    ensures forall i, j :: 0 <= i < j < |Socials(info)| ==> Rank(Socials(info)[i].network) < Rank(Socials(info)[j].network)
  {
    var a, b, c := Button(info, Instagram), Button(info, WhatsApp), Button(info, LinkedIn);
    assert Socials(info) == a + b + c;
    RanksIncrease(a, b, c);
  }

  /** At most one button of each network, Instagram's before WhatsApp's before LinkedIn's. */
  lemma RanksIncrease(a: seq<Social>, b: seq<Social>, c: seq<Social>)
    requires |a| <= 1 && |b| <= 1 && |c| <= 1
    requires forall x :: x in a ==> Rank(x.network) == 0
    requires forall x :: x in b ==> Rank(x.network) == 1
    requires forall x :: x in c ==> Rank(x.network) == 2
    ensures forall i, j :: 0 <= i < j < |a + b + c| ==> Rank((a + b + c)[i].network) < Rank((a + b + c)[j].network)
  {
    var r := a + b + c;
    forall i | 0 <= i < |r|
      ensures Rank(r[i].network) == if i < |a| then 0 else if i < |a| + |b| then 1 else 2
    {
      if i < |a| {
        assert r[i] == a[i];
      } else if i < |a| + |b| {
        assert r[i] == b[i - |a|];
      } else {
        assert r[i] == c[i - |a| - |b|];
      }
    }
  }

  /** The site-content key that holds a network's link. */
  function KeyOf(n: Network): string {
    match n
    case Instagram => "social_instagram"
    case WhatsApp => "social_whatsapp"
    case LinkedIn => "social_linkedin"
  }

  /** A network's place in the row of buttons. */
  function Rank(n: Network): nat {
    match n
    case Instagram => 0
    case WhatsApp => 1
    case LinkedIn => 2
  }

  /** `{info.social_x && <a href={info.social_x}>…</a>}` */
  function Button(info: seq<Entry>, n: Network): (r: seq<Social>)
    ensures |r| <= 1
    ensures |r| == 1 <==> Truthy(Lookup(info, KeyOf(n)))
    ensures |r| == 1 ==> r[0] == Social(n, Lookup(info, KeyOf(n)).value)
  {
    var link := Lookup(info, KeyOf(n));
    if Truthy(link) then [Social(n, link.value)] else []
  }

  datatype Logo = Image(src: string) | Wordmark

  /** The logo image when 'logo_url' is set (resolved against the API origin), else the wordmark. */
  function FooterLogo(info: seq<Entry>): (l: Logo)
    ensures l.Image? <==> Truthy(Lookup(info, "logo_url"))
    ensures l.Image? ==> l.src == ResolveImage(Lookup(info, "logo_url").value)
  {
    var logo := Lookup(info, "logo_url");
    if Truthy(logo) then Image(ResolveImage(logo.value)) else Wordmark
  }

  /** The footer's state: the contact details. */
  class Footer {
    var contactInfo: seq<Entry>

    constructor()
      ensures contactInfo == Defaults
    {
      contactInfo := Defaults;
    }

    /** `fetchContactInfo` answered with `data`: the fetched list folded into `info` and spread over
        the current details; a failed fetch or parse keeps them. */
    method FetchContactInfo(data: Option<seq<Entry>>)
      modifies this
      ensures data.Some? ==> contactInfo == Merge(old(contactInfo), data.value)
      ensures data.None? ==> contactInfo == old(contactInfo)
    {
      if data.Some? {
        var info := BuildContentMap(data.value);
        contactInfo := AssignAll(contactInfo, info);
      }
    }
  }
}
