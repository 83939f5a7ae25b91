/** Site-content entries as the pages receive them from `GET /api/content/site-content`, the two ways
    the pages read them (`Array.prototype.find` and a `forEach` into a plain object), and image paths. */
module SiteContent {
  import opened Js
  import opened Strings

  /** One `{key, value}` row of the site_content table. */
  datatype Entry = Entry(key: string, value: string)

  /** Position of the first entry with `key`. */
  function FirstIndex(entries: seq<Entry>, key: string): (r: Option<nat>)
    ensures r.Some? ==> r.value < |entries| && entries[r.value].key == key
    ensures r.Some? ==> forall j :: 0 <= j < r.value ==> entries[j].key != key
    ensures r.None? ==> forall j :: 0 <= j < |entries| ==> entries[j].key != key
  {
    if |entries| == 0 then None
    else if entries[0].key == key then Some(0)
    else match FirstIndex(entries[1..], key)
      case None => None
      case Some(i) => Some(i + 1)
  }

  /** `entries.find(item => item.key === key)?.value`: the value of the FIRST entry with `key`. */
  function Lookup(entries: seq<Entry>, key: string): (r: Option<string>)
  {
    match FirstIndex(entries, key)
    case None => None
    case Some(i) => Some(entries[i].value)
  }

  /** The entry at `i` is the first with its key, so a lookup finds its value. */
  lemma LookupAt(entries: seq<Entry>, key: string, i: nat)
    requires i < |entries| && entries[i].key == key
    requires forall j :: 0 <= j < i ==> entries[j].key != key
    ensures Lookup(entries, key) == Some(entries[i].value)
  {
  }

  /** The keys that occur in `entries`. */
  function Keys(entries: seq<Entry>): set<string> {
    set e | e in entries :: e.key
  }

  lemma KeysConcat(a: seq<Entry>, b: seq<Entry>)
    ensures Keys(a + b) == Keys(a) + Keys(b)
  {
    assert forall e :: e in a + b <==> e in a || e in b;
  }

  /** No key occurs twice: the shape of a plain JavaScript object's entries. */
  ghost predicate UniqueKeys(entries: seq<Entry>) {
    forall i, j :: 0 <= i < j < |entries| ==> entries[i].key != entries[j].key
  }

  /** `obj[k] = v` on a plain object whose entries (in key order) are `obj`: an existing key keeps
      its place and gets the new value, a new key is added at the end. */
  function Assign(obj: seq<Entry>, k: string, v: string): (r: seq<Entry>)
    ensures |r| == |obj| || |r| == |obj| + 1
  {
    if |obj| == 0 then [Entry(k, v)]
    else if obj[0].key == k then [Entry(k, v)] + obj[1..]
    else [obj[0]] + Assign(obj[1..], k, v)
  }

  /** After `obj[k] = v`, reading `k` gives `v` and reading any other key gives what it gave before. */
  lemma {:induction false} AssignLookup(obj: seq<Entry>, k: string, v: string, k': string)
    ensures Lookup(Assign(obj, k, v), k') == if k' == k then Some(v) else Lookup(obj, k')
  {
    if |obj| > 0 && obj[0].key != k {
      AssignLookup(obj[1..], k, v, k');
      assert Assign(obj, k, v)[1..] == Assign(obj[1..], k, v);
    } else if |obj| > 0 {
      assert Assign(obj, k, v)[1..] == obj[1..];
    }
  }

  /** `obj[k] = v` adds `k` to the keys and keeps them free of duplicates. */
  lemma AssignKeys(obj: seq<Entry>, k: string, v: string)
    ensures Keys(Assign(obj, k, v)) == Keys(obj) + {k}
    ensures UniqueKeys(obj) ==> UniqueKeys(Assign(obj, k, v))
  {
    AssignKeySet(obj, k, v);
    if UniqueKeys(obj) {
      AssignUnique(obj, k, v);
    }
  }

  lemma {:induction false} AssignKeySet(obj: seq<Entry>, k: string, v: string)
    ensures Keys(Assign(obj, k, v)) == Keys(obj) + {k}
  {
    if |obj| > 0 {
      assert obj == [obj[0]] + obj[1..];
      KeysConcat([obj[0]], obj[1..]);
      if obj[0].key == k {
        KeysConcat([Entry(k, v)], obj[1..]);
        assert Assign(obj, k, v) == [Entry(k, v)] + obj[1..];
      } else {
        AssignKeySet(obj[1..], k, v);
        KeysConcat([obj[0]], Assign(obj[1..], k, v));
      }
    }
  }

  lemma {:induction false} AssignUnique(obj: seq<Entry>, k: string, v: string)
    requires UniqueKeys(obj)
    ensures UniqueKeys(Assign(obj, k, v))
  {
    if |obj| > 0 && obj[0].key != k {
      var rest := Assign(obj[1..], k, v);
      AssignUnique(obj[1..], k, v);
      AssignKeySet(obj[1..], k, v);
      HeadKeyNotInTail(obj);
      forall j | 0 <= j < |rest| ensures rest[j].key != obj[0].key {
        assert rest[j] in rest;
        assert rest[j].key in Keys(rest);
      }
      assert Assign(obj, k, v) == [obj[0]] + rest;
    }
  }

  lemma HeadKeyNotInTail(obj: seq<Entry>)
    requires |obj| > 0 && UniqueKeys(obj)
    ensures obj[0].key !in Keys(obj[1..])
  {
    forall e | e in obj[1..] ensures e.key != obj[0].key {
      var i :| 0 <= i < |obj[1..]| && obj[1..][i] == e;
      assert obj[i + 1] == e;
    }
  }

  /** `data.forEach(item => { obj[item.key] = item.value; })`, starting from `obj`. */
  function AssignAll(obj: seq<Entry>, data: seq<Entry>): seq<Entry>
  {
    if |data| == 0 then obj
    else
      var last := data[|data| - 1];
      Assign(AssignAll(obj, data[..|data| - 1]), last.key, last.value)
  }

  /** Position of the last entry with `key`. */
  function LastIndex(entries: seq<Entry>, key: string): (r: Option<nat>)
    ensures r.Some? ==> r.value < |entries| && entries[r.value].key == key
    ensures r.Some? ==> forall j :: r.value < j < |entries| ==> entries[j].key != key
    ensures r.None? ==> forall j :: 0 <= j < |entries| ==> entries[j].key != key
  {
    if |entries| == 0 then None
    else if entries[|entries| - 1].key == key then Some(|entries| - 1)
    else LastIndex(entries[..|entries| - 1], key)
  }

  /** The object a `forEach` builds holds, for each fetched key, the value of its LAST entry;
      keys that were not fetched keep what `obj` had. */
  lemma {:induction false} LastWins(obj: seq<Entry>, data: seq<Entry>, key: string)
    ensures Lookup(AssignAll(obj, data), key) ==
      match LastIndex(data, key)
      case Some(i) => Some(data[i].value)
      case None => Lookup(obj, key)
  {
    if |data| > 0 {
      var last := data[|data| - 1];
      LastWins(obj, data[..|data| - 1], key);
      AssignLookup(AssignAll(obj, data[..|data| - 1]), last.key, last.value, key);
    }
  }

  /** The keys of the built object: those of `obj` and the fetched ones. */
  lemma AssignAllKeys(obj: seq<Entry>, data: seq<Entry>)
    ensures Keys(AssignAll(obj, data)) == Keys(obj) + Keys(data)
    ensures UniqueKeys(obj) ==> UniqueKeys(AssignAll(obj, data))
  {
    AssignAllKeySet(obj, data);
    if UniqueKeys(obj) {
      AssignAllUnique(obj, data);
    }
  }

  lemma {:induction false} AssignAllKeySet(obj: seq<Entry>, data: seq<Entry>)
    ensures Keys(AssignAll(obj, data)) == Keys(obj) + Keys(data)
  {
    if |data| > 0 {
      var init := data[..|data| - 1];
      var last := data[|data| - 1];
      var a := AssignAll(obj, init);
      assert AssignAll(obj, data) == Assign(a, last.key, last.value);
      AssignAllKeySet(obj, init);
      AssignKeySet(a, last.key, last.value);
      KeysSnoc(data);
    }
  }

  lemma KeysSnoc(data: seq<Entry>)
    requires |data| > 0
    ensures Keys(data) == Keys(data[..|data| - 1]) + {data[|data| - 1].key}
  {
    var init, last := data[..|data| - 1], data[|data| - 1];
    assert data == init + [last];
    KeysConcat(init, [last]);
    assert Keys([last]) == {last.key};
  }

  lemma {:induction false} AssignAllUnique(obj: seq<Entry>, data: seq<Entry>)
    requires UniqueKeys(obj)
    ensures UniqueKeys(AssignAll(obj, data))
  {
    if |data| > 0 {
      var init := data[..|data| - 1];
      var last := data[|data| - 1];
      AssignAllUnique(obj, init);
      AssignUnique(AssignAll(obj, init), last.key, last.value);
    }
  }

  /** The `forEach` loop itself, proved to build `AssignAll([], data)`. */
  method BuildContentMap(data: seq<Entry>) returns (obj: seq<Entry>)
    ensures obj == AssignAll([], data)
    ensures UniqueKeys(obj)
  {
    obj := [];
    for i := 0 to |data|
      invariant obj == AssignAll([], data[..i])
      invariant UniqueKeys(obj)
    {
      assert data[..i + 1][..i] == data[..i];
      AssignKeys(obj, data[i].key, data[i].value);
      obj := Assign(obj, data[i].key, data[i].value);
    }
    assert data[..|data|] == data;
  }

  /** With no duplicate keys, the first entry (`find`) and the last one (`forEach`) agree. */
  lemma FindAgreesWithForEach(data: seq<Entry>, key: string)
    requires UniqueKeys(data)
    ensures Lookup(data, key) == Lookup(AssignAll([], data), key)
  {
    LastWins([], data, key);
    match FirstIndex(data, key)
    case None =>
    case Some(i) =>
      var j := LastIndex(data, key).value;
      assert !(i < j) && !(j < i);
  }

  /** With a duplicate key the two readings differ: `find` sees the first value, `forEach` the last. */
  lemma FindDiffersFromForEach(key: string, first: string, second: string)
    requires first != second
    ensures Lookup([Entry(key, first), Entry(key, second)], key) == Some(first)
    ensures Lookup(AssignAll([], [Entry(key, first), Entry(key, second)]), key) == Some(second)
  {
    LastWins([], [Entry(key, first), Entry(key, second)], key);
  }

  /** `setState(prev => ({ ...prev, ...info }))` where `info` is the fetched list folded into an
      object by `forEach`: the fetched keys spread over the previous state. */
  function Merge(prev: seq<Entry>, data: seq<Entry>): seq<Entry> {
    AssignAll(prev, AssignAll([], data))
  }

  /** Fetched keys take their last fetched value, every other key keeps its value, and fetched keys
      that were not there before are added. */
  lemma MergeOverDefaults(prev: seq<Entry>, data: seq<Entry>, key: string)
    ensures Lookup(Merge(prev, data), key) ==
      match LastIndex(data, key)
      case Some(i) => Some(data[i].value)
      case None => Lookup(prev, key)
    ensures Keys(Merge(prev, data)) == Keys(prev) + Keys(data)
  {
    var info := AssignAll([], data);
    LastWins(prev, info, key);
    LastWins([], data, key);
    AssignAllKeys([], data);
    AssignAllKeys(prev, info);
    match LastIndex(info, key)
    case Some(i) =>
      FirstIndexOfUnique(info, i);
    case None =>
  }

  /** In an object without repeated keys the last entry with a key is also the first. */
  lemma FirstIndexOfUnique(entries: seq<Entry>, i: nat)
    requires UniqueKeys(entries) && i < |entries|
    ensures Lookup(entries, entries[i].key) == Some(entries[i].value)
  {
    var f := FirstIndex(entries, entries[i].key);
    assert f.Some? && !(f.value < i) && !(i < f.value);
  }

  /** Where uploaded files are served from. */
  const ApiOrigin := "http://localhost:5000"

  /** `p.startsWith('http') ? p : `http://localhost:5000${p}``: absolute URLs are kept, server paths
      are made absolute. */
  function ResolveImage(p: string): (r: string)
    ensures StartsWith(p, "http") ==> r == p
    ensures !StartsWith(p, "http") ==> r == ApiOrigin + p
  {
    if StartsWith(p, "http") then p else ApiOrigin + p
  }

  /** A resolved image always starts with "http", so resolving twice changes nothing. */
  lemma ResolveImageIdempotent(p: string)
    ensures StartsWith(ResolveImage(p), "http")
    ensures ResolveImage(ResolveImage(p)) == ResolveImage(p)
  {
    if !StartsWith(p, "http") {
      assert (ApiOrigin + p)[..4] == ApiOrigin[..4];
    }
  }
}
