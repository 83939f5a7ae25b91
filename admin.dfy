/** What the admin pages send to the content API and how they read its answers. */
module Admin {
  import opened Js
  import opened Strings

  const ContentApi := "http://localhost:5000/api/content"
  const LoginPage := "/#/admin/login"
  const SessionExpiredText := "Session expired. Please login again."

  datatype Method = Get | Post | Put | Delete

  /** A file the administrator picked in a file input. */
  datatype File = File(name: string)

  /** A `FormData` value: a string or a file. */
  datatype Part = Text(text: string) | Upload(file: File)
  datatype Field = Field(name: string, part: Part)

  /** A JSON value as the pages put it in a request body. */
  datatype JsonValue = JStr(s: string) | JNum(n: nat) | JBool(b: bool)
  datatype Member = Member(name: string, value: JsonValue)

  datatype Body = NoBody | Form(fields: seq<Field>) | Json(members: seq<Member>)

  /** One `fetch` a page issues (the bearer token header is left implicit). */
  datatype Request = Request(verb: Method, url: string, body: Body)

  /** What a `fetch` settles to: a response with its status, or a rejection (network failure). */
  datatype Reply = Status(code: nat) | Rejected

  /** `res.ok` */
  predicate Ok(code: nat) {
    200 <= code <= 299
  }

  /** What a page does besides changing its own state. */
  datatype Effect = Alert(text: string) | Navigate(url: string) | Reload | Refetch(url: string)

  /** `formData.get(name)`: the first value appended under `name`. */
  function FormValue(fields: seq<Field>, name: string): (r: Option<Part>)
    ensures r.Some? <==> exists i :: 0 <= i < |fields| && fields[i].name == name
    ensures r.Some? ==> exists i :: 0 <= i < |fields| && fields[i] == Field(name, r.value)
  {
    if |fields| == 0 then None
    else if fields[0].name == name then Some(fields[0].part)
    else
      var r := FormValue(fields[1..], name);
      assert r.Some? ==> exists i :: 0 <= i < |fields[1..]| && fields[1..][i] == Field(name, r.value);
      assert r.Some? ==> exists i :: 1 <= i < |fields| && fields[i] == Field(name, r.value);
      r
  }

  /** A field is read back from the form unless an earlier field has the same name. */
  lemma {:induction false} FormValueAt(fields: seq<Field>, i: nat)
    requires i < |fields|
    requires forall j :: 0 <= j < i ==> fields[j].name != fields[i].name
    ensures FormValue(fields, fields[i].name) == Some(fields[i].part)
  {
    if i > 0 {
      FormValueAt(fields[1..], i - 1);
    }
  }

  /** Reading a form made of two parts: the first part's field wins. */
  lemma {:induction false} FormValueConcat(a: seq<Field>, b: seq<Field>, name: string)
    ensures FormValue(a + b, name) == if FormValue(a, name).Some? then FormValue(a, name) else FormValue(b, name)
  {
    if |a| > 0 {
      assert (a + b)[1..] == a[1..] + b;
      FormValueConcat(a[1..], b, name);
    } else {
      assert a + b == b;
    }
  }

  /** `if (imageFile) append(file) else if (current.image) append(current.image)`: the editors send
      the chosen file, else the image URL the item already has, else no image field. */
  function ImageField(image: Option<string>, file: Option<File>): (fs: seq<Field>)
    ensures |fs| <= 1
    ensures FormValue(fs, "image") ==
      if file.Some? then Some(Upload(file.value))
      else if Truthy(image) then Some(Text(image.value))
      else None
  {
    if file.Some? then [Field("image", Upload(file.value))]
    else if Truthy(image) then [Field("image", Text(image.value))]
    else []
  }

  /** The JSON body `{ key, value }` of a site-content write. */
  function KeyValue(key: string, value: string): (b: Body)
    ensures b.Json? && |b.members| == 2
    ensures b.members[0] == Member("key", JStr(key)) && b.members[1] == Member("value", JStr(value))
  {
    Json([Member("key", JStr(key)), Member("value", JStr(value))])
  }

  /** The URL of one item of a collection: `${ContentApi}/${collection}/${id}`. */
  function ItemUrl(collection: string, id: nat): string {
    ContentApi + "/" + collection + "/" + DecimalString(id)
  }

  /** `item.id ? 'PUT' : 'POST'` with the matching URL: an item that has an id is updated in place,
      one without (or with id 0) is created in the collection. */
  function SaveTarget(collection: string, id: Option<nat>): (r: (Method, string))
    ensures r.0 == Put <==> TruthyNumber(id)
    ensures r.0 == Post <==> !TruthyNumber(id)
    ensures TruthyNumber(id) ==> r.1 == ItemUrl(collection, id.value)
    ensures !TruthyNumber(id) ==> r.1 == ContentApi + "/" + collection
  {
    if TruthyNumber(id) then (Put, ItemUrl(collection, id.value)) else (Post, ContentApi + "/" + collection)
  }

  /** Every update URL extends the collection URL, and different items have different URLs. */
  lemma ItemUrlsDistinct(collection: string, a: nat, b: nat)
    ensures StartsWith(ItemUrl(collection, a), ContentApi + "/" + collection + "/")
    ensures ItemUrl(collection, a) == ItemUrl(collection, b) ==> a == b
  {
    var base := ContentApi + "/" + collection + "/";
    assert ItemUrl(collection, a) == base + DecimalString(a);
    assert ItemUrl(collection, b) == base + DecimalString(b);
    if ItemUrl(collection, a) == ItemUrl(collection, b) {
      assert DecimalString(a) == ItemUrl(collection, a)[|base|..];
      assert DecimalString(b) == ItemUrl(collection, b)[|base|..];
      DecimalInjective(a, b);
    }
  }

  /** How the item editors read the answer to a save or a delete. */
  datatype Outcome = Done | SessionExpired | Failed

  function Classify(code: nat): (o: Outcome)
    ensures o == Done <==> Ok(code)
    ensures o == SessionExpired <==> !Ok(code) && (code == 401 || code == 403)
    ensures o == Failed <==> !Ok(code) && code != 401 && code != 403
  {
    if Ok(code) then Done else if code == 401 || code == 403 then SessionExpired else Failed
  }

  /** The effects of an answered save or delete: on success the list is fetched again from `listUrl`;
      an expired session alerts and sends the browser to the login page; any other failure alerts
      `failText`. A rejected fetch ends the handler before any effect. */
  function Effects(reply: Reply, listUrl: string, failText: string): (es: seq<Effect>)
    ensures reply.Rejected? ==> es == []
    ensures reply.Status? && Ok(reply.code) ==> es == [Refetch(listUrl)]
    ensures reply.Status? && !Ok(reply.code) ==> Refetch(listUrl) !in es && |es| >= 1 && es[0].Alert?
    ensures reply.Status? ==> (Navigate(LoginPage) in es <==> Classify(reply.code) == SessionExpired)
  {
    if reply.Rejected? then []
    else match Classify(reply.code)
      case Done => [Refetch(listUrl)]
      case SessionExpired => [Alert(SessionExpiredText), Navigate(LoginPage)]
      case Failed => [Alert(failText)]
  }

  /** `handleDelete(id)` of the item editors: nothing without confirmation; otherwise one DELETE of
      the item, answered by `reply`. */
  function DeleteFlow(collection: string, id: nat, confirmed: bool, reply: Reply, failText: string): (r: (seq<Request>, seq<Effect>))
    ensures !confirmed ==> r.0 == [] && r.1 == []
    ensures confirmed ==> r.0 == [Request(Delete, ItemUrl(collection, id), NoBody)]
    ensures confirmed ==> r.1 == Effects(reply, ContentApi + "/" + collection, failText)
  {
    if !confirmed then ([], [])
    else ([Request(Delete, ItemUrl(collection, id), NoBody)], Effects(reply, ContentApi + "/" + collection, failText))
  }

  /** A confirmed delete refetches the list exactly when the server accepted it. */
  lemma DeleteRefetchesOnSuccess(collection: string, id: nat, reply: Reply, failText: string)
    ensures var es := DeleteFlow(collection, id, true, reply, failText).1;
      Refetch(ContentApi + "/" + collection) in es <==> reply.Status? && Ok(reply.code)
  {
  }
}
