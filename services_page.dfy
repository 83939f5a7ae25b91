/** frontend/pages/Services.tsx: the services page, one card per service with an icon and a number. */
module ServicesPage {
  import opened Js
  import opened Strings

  /** The icons the page imports; `Sparkles` is also the fallback. */
  datatype Icon = Code2 | Laptop | LayoutTemplate | Fingerprint | Megaphone | Sparkles

  /** The own keys of the `icons` object literal. */
  const IconNames: set<string> := {"Code2", "Laptop", "LayoutTemplate", "Fingerprint", "Megaphone", "Sparkles"}

  function IconName(icon: Icon): string {
    match icon
    case Code2 => "Code2"
    case Laptop => "Laptop"
    case LayoutTemplate => "LayoutTemplate"
    case Fingerprint => "Fingerprint"
    case Megaphone => "Megaphone"
    case Sparkles => "Sparkles"
  }

  predicate IsIconName(name: string) {
    name in IconNames
  }

  /** Names every plain object inherits from `Object.prototype`; all of them read as truthy values. */
  const PrototypeNames: set<string> := {
    "constructor", "hasOwnProperty", "isPrototypeOf", "propertyIsEnumerable",
    "toLocaleString", "toString", "valueOf", "__proto__",
    "__defineGetter__", "__defineSetter__", "__lookupGetter__", "__lookupSetter__"
  }

  /** What `icons[iconName] || Sparkles` evaluates to: a lucide icon, or an inherited member. */
  datatype Lookup = Component(icon: Icon) | Inherited(member: string)

  function IconOf(name: string): (r: Option<Icon>)
    ensures r.Some? <==> IsIconName(name)
    ensures r.Some? ==> IconName(r.value) == name
  {
    if name == "Code2" then Some(Code2)
    else if name == "Laptop" then Some(Laptop)
    else if name == "LayoutTemplate" then Some(LayoutTemplate)
    else if name == "Fingerprint" then Some(Fingerprint)
    else if name == "Megaphone" then Some(Megaphone)
    else if name == "Sparkles" then Some(Sparkles)
    else None
  }

  /** `getIcon` as written: the property lookup also finds members inherited from
      `Object.prototype`, which are truthy, so the fallback is not taken for them.
      A missing icon (`null`/`undefined`) is looked up under "null"/"undefined" and falls back. */
  function GetIconAsWritten(iconName: Option<string>): (r: Lookup)
    ensures iconName.None? ==> r == Component(Sparkles)
    ensures iconName.Some? && iconName.value in PrototypeNames ==> r == Inherited(iconName.value)
  {
    if iconName.None? then Component(Sparkles)
    else
      var own := IconOf(iconName.value);
      if own.Some? then Component(own.value)
      else if iconName.value in PrototypeNames then Inherited(iconName.value)
      else Component(Sparkles)
  }

  /** A service whose icon field reads "constructor" (or "toString", ...) gets no lucide icon at all:
      the page hands a built-in function or object to React as a component. */
  lemma PrototypeNameIsNoIcon()
    ensures GetIconAsWritten(Some("constructor")) == Inherited("constructor")
    ensures GetIconAsWritten(Some("toString")) == Inherited("toString")
    ensures forall name :: name in PrototypeNames ==> !GetIconAsWritten(Some(name)).Component?
  {
  }

  /** `getIcon` as intended: the named icon when there is one, `Sparkles` for every other name. */
  function GetIcon(iconName: Option<string>): (r: Icon)
    ensures iconName.Some? && IsIconName(iconName.value) ==> IconName(r) == iconName.value
    ensures (iconName.None? || !IsIconName(iconName.value)) ==> r == Sparkles
  {
    if iconName.None? then Sparkles
    else
      var own := IconOf(iconName.value);
      if own.Some? then own.value else Sparkles
  }

  /** The corrected lookup agrees with the page wherever the page yields an icon, and every icon
      is reachable by its own name. */
  lemma GetIconAgrees(iconName: Option<string>, icon: Icon)
    ensures GetIconAsWritten(iconName).Component? ==> GetIconAsWritten(iconName).icon == GetIcon(iconName)
    ensures GetIcon(Some(IconName(icon))) == icon
  {
  }

  /** The icon names the seed script stores ("code", "layout", "pen-tool", "star") are not keys,
      so every seeded service shows the fallback icon. */
  lemma SeededIconsFallBack()
    ensures GetIcon(Some("code")) == Sparkles && GetIcon(Some("layout")) == Sparkles
    ensures GetIcon(Some("pen-tool")) == Sparkles && GetIcon(Some("star")) == Sparkles
  {
  }

  datatype Service = Service(id: nat, title: string, description: string, icon: Option<string>)

  /** `0{service.id}`: the id's digits after a literal 0. */
  function Number(id: nat): (r: string)
    ensures |r| >= 2 && r[0] == '0' && r[1..] == DecimalString(id)
  {
    "0" + DecimalString(id)
  }

  /** Distinct services carry distinct numbers, and ids from 1 to 9 give the two-character form;
      from 10 on the number has three or more characters ("010"). */
  lemma NumberForm(a: nat, b: nat)
    ensures Number(a) == Number(b) ==> a == b
    ensures |Number(a)| == 2 <==> a < 10
  {
    if Number(a) == Number(b) {
      assert Number(a)[1..] == Number(b)[1..];
      DecimalInjective(a, b);
    }
    DecimalLength(a);
  }

  datatype Card = Card(icon: Icon, number: string, title: string, description: string)

  /** One card per fetched service, in fetched order; no services before a fetch or after it fails. */
  function Cards(services: Option<seq<Service>>): (cs: seq<Card>)
    ensures services.None? ==> cs == []
    ensures services.Some? ==> |cs| == |services.value|
    ensures services.Some? ==> forall i :: 0 <= i < |cs| ==>
      cs[i].icon == GetIcon(services.value[i].icon) && cs[i].number == Number(services.value[i].id)
      && cs[i].title == services.value[i].title
  {
    if services.None? then []
    else
      var ss := services.value;
      seq(|ss|, i requires 0 <= i < |ss| => Card(GetIcon(ss[i].icon), Number(ss[i].id), ss[i].title, ss[i].description))
  }

  /** The cards show what the page as written shows for every service whose icon name is not an
      inherited member of `Object.prototype`; for the others the page has no icon to show. */
  lemma CardsMatchPage(services: seq<Service>)
    ensures forall i :: 0 <= i < |services| ==>
      (GetIconAsWritten(services[i].icon) == Component(Cards(Some(services))[i].icon)
       <==> !(services[i].icon.Some? && services[i].icon.value in PrototypeNames))
  {
    var cs := Cards(Some(services));
    forall i | 0 <= i < |services|
      ensures GetIconAsWritten(services[i].icon) == Component(cs[i].icon)
        <==> !(services[i].icon.Some? && services[i].icon.value in PrototypeNames)
    {
      var name := services[i].icon;
      if name.Some? && IsIconName(name.value) {
        assert name.value !in PrototypeNames;
        assert GetIconAsWritten(name) == Component(IconOf(name.value).value);
      }
    }
  }
}
