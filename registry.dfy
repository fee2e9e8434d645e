/** The data-source registry helpers of WkwData: the long form (one record
    per source, keyed 'datasource_<id>'), the short form that factors the
    properties every source shares into a 'shared_properties' record, the
    merge that restores the long form, and the concatenation of source lists
    with sequential ids. */
module Registry {
  import opened Outcomes

  /** A JSON-compatible property value (a path, a box, a statistic, a class). */
  datatype Value = Str(s: string) | Int(i: int) | Ints(v: seq<int>) | Real(r: real)

  /** A dict of properties (a DataSource._asdict() or a JSON object). */
  type Record = map<string, Value>

  /** An insertion-ordered dict, as Python keeps it. */
  type Dict<V> = seq<(string, V)>

  /** The fields of the DataSource named tuple besides "id". */
  const OtherFields: set<string> := {"input_path", "input_bbox", "input_mean", "input_std",
                                     "target_path", "target_bbox", "target_class", "target_binary"}

  const SharedKey: string := "shared_properties"
  const KeyPrefix: string := "datasource_"

  /** A DataSource named tuple: its string id and its other eight fields. */
  datatype DataSource = DataSource(id: string, props: Record)

  predicate WellFormed(d: DataSource) {
    d.props.Keys == OtherFields
  }

  /** d._asdict() */
  function AsDict(d: DataSource): (r: Record)
    ensures "id" in r && r["id"] == Str(d.id)
  {
    d.props["id" := Str(d.id)]
  }

  /** DataSource(**m): unknown keys raise, missing fields take the default
      'NaN'. */
  function FromDict(m: Record): (r: Result<DataSource>)
    ensures r.Ok? ==> WellFormed(r.value)
    ensures r.Ok? ==> forall f :: f in OtherFields && f in m ==> r.value.props[f] == m[f]
  {
    if exists k :: k in m && k != "id" && k !in OtherFields then Err(UnexpectedField)
    else if "id" !in m || !m["id"].Str? then Err(NonStringId)
    else Ok(DataSource(m["id"].s, map f | f in OtherFields :: if f in m then m[f] else Str("NaN")))
  }

  /** The dict of a named tuple converts back to the same named tuple. */
  lemma {:induction false} FromAsDict(d: DataSource)
    requires WellFormed(d)
    ensures FromDict(AsDict(d)) == Ok(d)
  {
    var m := AsDict(d);
    assert !exists k :: k in m && k != "id" && k !in OtherFields;
    var p := map f | f in OtherFields :: if f in m then m[f] else Str("NaN");
    assert p == d.props;
  }

  function KeyOf(d: DataSource): string {
    KeyPrefix + d.id
  }

  lemma {:induction false} KeyOfInjective(a: DataSource, b: DataSource)
    requires KeyOf(a) == KeyOf(b)
    ensures a.id == b.id
  {
    assert a.id == KeyOf(a)[|KeyPrefix|..];
    assert b.id == KeyOf(b)[|KeyPrefix|..];
  }

  function Keys<V>(d: Dict<V>): (r: seq<string>)
    ensures |r| == |d| && forall i :: 0 <= i < |d| ==> r[i] == d[i].0
  {
    seq(|d|, i requires 0 <= i < |d| => d[i].0)
  }

  /** d[k] = v on an ordered dict: an existing key keeps its position and
      takes the new value, a new key goes last. */
  function Put<V>(d: Dict<V>, k: string, v: V): (r: Dict<V>)
    ensures k in Keys(d) ==> |r| == |d|
    ensures k !in Keys(d) ==> r == d + [(k, v)]
  {
    if d == [] then [(k, v)]
    else if d[0].0 == k then [(k, v)] + d[1..]
    else
      assert Keys(d) == [d[0].0] + Keys(d[1..]);
      [d[0]] + Put(d[1..], k, v)
  }

  /** Storing under a key an ordered dict with distinct keys already has
      replaces that entry's value in place and leaves every other entry
      as it was. */
  lemma {:induction false} PutEntries<V>(d: Dict<V>, k: string, v: V)
    requires forall i, j :: 0 <= i < j < |d| ==> d[i].0 != d[j].0
    requires k in Keys(d)
    ensures |Put(d, k, v)| == |d|
    ensures forall j :: 0 <= j < |d| ==> Put(d, k, v)[j] == if d[j].0 == k then (k, v) else d[j]
    decreases |d|
  {
    if d[0].0 != k {
      assert Keys(d) == [d[0].0] + Keys(d[1..]);
      PutEntries(d[1..], k, v);
    }
  }

  /** {f'datasource_{d.id}': d._asdict() for d in datasources}: a later
      source with the same id replaces the earlier one's record in place. */
  function ConvertDsToDict(ds: seq<DataSource>): Dict<Record> {
    if ds == [] then []
    else Put(ConvertDsToDict(ds[..|ds| - 1]), KeyOf(ds[|ds| - 1]), AsDict(ds[|ds| - 1]))
  }

  predicate DistinctIds(ds: seq<DataSource>) {
    forall i, j :: 0 <= i < j < |ds| ==> ds[i].id != ds[j].id
  }

  /** With distinct ids the long dict lists every source, in order. */
  lemma {:induction false} ConvertDsToDictListing(ds: seq<DataSource>)
    requires DistinctIds(ds)
    ensures |ConvertDsToDict(ds)| == |ds|
    ensures forall i :: 0 <= i < |ds| ==> ConvertDsToDict(ds)[i] == (KeyOf(ds[i]), AsDict(ds[i]))
  {
    if ds != [] {
      var init, last := ds[..|ds| - 1], ds[|ds| - 1];
      assert DistinctIds(init) by {
        forall i, j | 0 <= i < j < |init| ensures init[i].id != init[j].id {
          assert init[i] == ds[i] && init[j] == ds[j];
        }
      }
      ConvertDsToDictListing(init);
      var d := ConvertDsToDict(init);
      if KeyOf(last) in Keys(d) {
        var i :| 0 <= i < |d| && Keys(d)[i] == KeyOf(last);
        assert d[i].0 == KeyOf(init[i]) && init[i] == ds[i];
        KeyOfInjective(init[i], last);
        assert false;
      }
    }
  }

  /** The value of a key shared by all records: all agree with the first. */
  predicate SharedBy(long: Dict<Record>, k: string)
    requires |long| > 0 && k in long[0].1
  {
    forall e :: e in long ==> k in e.1 && e.1[k] == long[0].1[k]
  }

  /** ds_find_shared_properties: the properties of the first source whose
      value every source repeats; an empty list raises. */
  function FindShared(ds: seq<DataSource>): (r: Result<Record>)
    ensures r.Err? <==> ds == []
    ensures r.Err? ==> r.error == EmptySequence
  {
    var long := ConvertDsToDict(ds);
    if ds == [] then Err(EmptySequence)
    else
      assert long != [] by { if ds != [] { PutNonEmpty(ConvertDsToDict(ds[..|ds| - 1]), KeyOf(ds[|ds| - 1]), AsDict(ds[|ds| - 1])); } }
      var first := long[0].1;
      Ok(map k | k in first && SharedBy(long, k) :: first[k])
  }

  lemma {:induction false} PutNonEmpty<V>(d: Dict<V>, k: string, v: V)
    ensures Put(d, k, v) != []
  {
  }

  /** Each shared property has its shared value in every record of the long
      dict, and every property of the first record that all agree on is
      shared. */
  lemma {:induction false} FindSharedMeaning(ds: seq<DataSource>)
    requires ds != []
    ensures var long, shared := ConvertDsToDict(ds), FindShared(ds).value;
      && long != []
      && (forall k :: k in shared ==> forall e :: e in long ==> k in e.1 && e.1[k] == shared[k])
      && (forall k :: k in long[0].1 && (forall e :: e in long ==> k in e.1 && e.1[k] == long[0].1[k]) ==> k in shared)
  {
    PutNonEmpty(ConvertDsToDict(ds[..|ds| - 1]), KeyOf(ds[|ds| - 1]), AsDict(ds[|ds| - 1]));
  }

  /** record.pop(k, None) for every k of keys. */
  function Strip(rec: Record, keys: set<string>): (r: Record)
    ensures r.Keys == rec.Keys - keys
    ensures forall k :: k in r ==> r[k] == rec[k]
  {
    map k | k in rec && k !in keys :: rec[k]
  }

  /** What convert_to_short_ds accepts: a list of sources or a JSON dict. */
  datatype Sources = SourceList(ds: seq<DataSource>) | SourceDict(doc: Dict<Record>)

  /** convert_to_short_ds: a dict that already has 'shared_properties' is
      returned as it is; a list of sources becomes 'shared_properties'
      followed by each source's record without the shared keys. */
  function ConvertToShort(src: Sources, given: Option<Record>): (r: Result<Dict<Record>>)
    ensures src.SourceDict? && SharedKey in Keys(src.doc) ==> r == Ok(src.doc)
    ensures src.SourceDict? && SharedKey !in Keys(src.doc) ==> r == Err(NotAList)
    ensures src.SourceList? && given.None? && src.ds == [] ==> r == Err(EmptySequence)
    ensures r.Ok? && src.SourceList? ==> |r.value| == |ConvertDsToDict(src.ds)| + 1 && r.value[0].0 == SharedKey
  {
    match src
    case SourceDict(doc) =>
      if SharedKey in Keys(doc) then Ok(doc) else Err(NotAList)
    case SourceList(ds) =>
      var shared := if given.Some? then Ok(given.value) else FindShared(ds);
      if shared.Err? then Err(shared.error)
      else
        Ok([(SharedKey, shared.value)] + StripAll(ConvertDsToDict(ds), shared.value.Keys))
  }

  /** Every record of a dict with the given keys popped. */
  function StripAll(long: Dict<Record>, keys: set<string>): (r: Dict<Record>)
    ensures |r| == |long| && forall i :: 0 <= i < |long| ==> r[i] == (long[i].0, Strip(long[i].1, keys))
  {
    seq(|long|, i requires 0 <= i < |long| => (long[i].0, Strip(long[i].1, keys)))
  }

  /** The substring test `sub in s`. */
  predicate Contains(s: string, sub: string)
    decreases |s|
  {
    |sub| <= |s| && (s[..|sub|] == sub || Contains(s[1..], sub))
  }

  /** The entries other than 'shared_properties', in order. */
  function Rest(doc: Dict<Record>): (r: Dict<Record>)
    ensures forall e :: e in r <==> e in doc && e.0 != SharedKey
  {
    if doc == [] then []
    else
      var tail := Rest(doc[..|doc| - 1]);
      var last := doc[|doc| - 1];
      assert doc == doc[..|doc| - 1] + [last];
      if last.0 == SharedKey then tail else tail + [last]
  }

  /** The first record stored under a key. */
  function Lookup(doc: Dict<Record>, k: string): (r: Record)
    requires k in Keys(doc)
    ensures exists i :: 0 <= i < |doc| && doc[i] == (k, r)
  {
    if doc[0].0 == k then doc[0].1
    else
      assert Keys(doc) == [doc[0].0] + Keys(doc[1..]);
      var r := Lookup(doc[1..], k);
      var i :| 0 <= i < |doc[1..]| && doc[1..][i] == (k, r);
      assert doc[i + 1] == (k, r);
      r
  }

  /** [DataSource(**cur_ds) for cur_ds in dict.values()]: the first record
      that does not convert raises. */
  function ConvertDsToList(doc: Dict<Record>): (r: Result<seq<DataSource>>)
    ensures r.Ok? ==> |r.value| == |doc| && forall i :: 0 <= i < |doc| ==> FromDict(doc[i].1) == Ok(r.value[i])
  {
    if doc == [] then Ok([])
    else
      match ConvertDsToList(doc[..|doc| - 1])
      case Err(e) => Err(e)
      case Ok(init) =>
        match FromDict(doc[|doc| - 1].1)
        case Err(e) => Err(e)
        case Ok(d) => Ok(init + [d])
  }

  /** all(['datasource_' in key for key in keys]) */
  predicate KeysPrefixed(d: Dict<Record>) {
    forall i :: 0 <= i < |d| ==> Contains(d[i].0, KeyPrefix)
  }

  /** The merge of read_short_ds_json: every other key must contain
      'datasource_'; each record takes the shared properties (over its own
      values) and 'shared_properties' is dropped. */
  function MergeShort(doc: Dict<Record>): (r: Result<Dict<Record>>)
    ensures SharedKey !in Keys(doc) ==> r == Ok(doc)
    ensures SharedKey in Keys(doc) ==>
      (r.Ok? <==> KeysPrefixed(Rest(doc)))
    ensures SharedKey in Keys(doc) && r.Ok? ==>
      && |r.value| == |Rest(doc)|
      && forall i :: 0 <= i < |r.value| ==> r.value[i] == (Rest(doc)[i].0, Rest(doc)[i].1 + Lookup(doc, SharedKey))
  {
    if SharedKey !in Keys(doc) then Ok(doc)
    else
      var rest, shared := Rest(doc), Lookup(doc, SharedKey);
      if !KeysPrefixed(rest) then Err(NotADataSourceKey)
      else Ok(Overlay(rest, shared))
  }

  /** ds_dict[key].update(shared) for every entry: shared values win. */
  function Overlay(d: Dict<Record>, shared: Record): (r: Dict<Record>)
    ensures |r| == |d| && forall i :: 0 <= i < |d| ==> r[i] == (d[i].0, d[i].1 + shared)
  {
    seq(|d|, i requires 0 <= i < |d| => (d[i].0, d[i].1 + shared))
  }

  /** read_short_ds_json after the JSON is parsed. */
  function ReadShort(doc: Dict<Record>): Result<seq<DataSource>> {
    match MergeShort(doc)
    case Err(e) => Err(e)
    case Ok(long) => ConvertDsToList(long)
  }

  /** The short form of a list of well-formed sources with distinct ids
      reads back as the same list. */
  lemma {:induction false} ShortRoundTrip(ds: seq<DataSource>)
    requires ds != [] && DistinctIds(ds)
    requires forall i :: 0 <= i < |ds| ==> WellFormed(ds[i])
    ensures ConvertToShort(SourceList(ds), None).Ok?
    ensures ReadShort(ConvertToShort(SourceList(ds), None).value) == Ok(ds)
  {
    var long := ConvertDsToDict(ds);
    ConvertDsToDictListing(ds);
    FindSharedMeaning(ds);
    var shared := FindShared(ds).value;
    var body := StripAll(long, shared.Keys);
    var doc := ConvertToShort(SourceList(ds), None).value;
    assert doc == [(SharedKey, shared)] + body;
    forall i | 0 <= i < |body|
      ensures body[i].0 == long[i].0 && body[i].1 + shared == long[i].1
      ensures body[i].0 != SharedKey && Contains(body[i].0, KeyPrefix)
    {
      assert long[i] in long;
      StripRestore(long[i].1, shared);
      PrefixedKey(ds[i]);
    }
    MergeOfShort(doc, body, shared, long);
    forall i | 0 <= i < |ds| ensures FromDict(long[i].1) == Ok(ds[i]) {
      FromAsDict(ds[i]);
    }
    ListOfRecords(long, ds);
  }

  /** A long-form key is not 'shared_properties' and contains the prefix. */
  lemma {:induction false} PrefixedKey(d: DataSource)
    ensures KeyOf(d) != SharedKey && Contains(KeyOf(d), KeyPrefix)
  {
    assert KeyOf(d)[0] == 'd' && SharedKey[0] == 's';
    assert KeyOf(d)[..|KeyPrefix|] == KeyPrefix;
  }

  /** Merging a short dict whose records, with the shared record laid over
      them, are those of a long dict gives that long dict. */
  lemma {:induction false} MergeOfShort(doc: Dict<Record>, body: Dict<Record>, shared: Record, long: Dict<Record>)
    requires doc == [(SharedKey, shared)] + body && |body| == |long|
    requires forall i :: 0 <= i < |body| ==> body[i].0 != SharedKey && Contains(body[i].0, KeyPrefix)
    requires forall i :: 0 <= i < |body| ==> body[i].0 == long[i].0 && body[i].1 + shared == long[i].1
    ensures MergeShort(doc) == Ok(long)
  {
    assert Keys(doc)[0] == SharedKey;
    assert doc[1..] == body;
    RestSkipsHead(doc);
    assert Lookup(doc, SharedKey) == shared;
    var merged := Overlay(body, shared);
    forall i | 0 <= i < |body| ensures merged[i] == long[i] {
      assert merged[i].0 == long[i].0 && merged[i].1 == long[i].1;
    }
    assert merged == long;
  }

  /** Rest drops a leading 'shared_properties' entry and keeps the others
      when none of them carries that key. */
  lemma {:induction false} RestSkipsHead(doc: Dict<Record>)
    requires |doc| > 0 && doc[0].0 == SharedKey
    requires forall i :: 1 <= i < |doc| ==> doc[i].0 != SharedKey
    ensures Rest(doc) == doc[1..]
    decreases |doc|
  {
    var init, last := doc[..|doc| - 1], doc[|doc| - 1];
    if |doc| == 1 {
      assert Rest(doc) == Rest(init) + [] == [];
    } else {
      assert last.0 != SharedKey;
      assert Rest(doc) == Rest(init) + [last];
      assert Rest(init) == init[1..] by {
        assert forall i :: 1 <= i < |init| ==> init[i].0 == doc[i].0;
        RestSkipsHead(init);
      }
      assert doc[1..] == init[1..] + [last];
    }
  }

  /** Stripping the shared keys and merging the shared record back gives the
      record again when it agrees with the shared values. */
  lemma {:induction false} StripRestore(rec: Record, shared: Record)
    requires forall k :: k in shared ==> k in rec && rec[k] == shared[k]
    ensures Strip(rec, shared.Keys) + shared == rec
  {
  }

  /** Converting the listing of well-formed records gives the sources back. */
  lemma {:induction false} ListOfRecords(doc: Dict<Record>, ds: seq<DataSource>)
    requires |doc| == |ds|
    requires forall i :: 0 <= i < |ds| ==> FromDict(doc[i].1) == Ok(ds[i])
    ensures ConvertDsToList(doc) == Ok(ds)
    decreases |doc|
  {
    if doc != [] {
      ListOfRecords(doc[..|doc| - 1], ds[..|ds| - 1]);
      SplitLast(ds);
    }
  }

  lemma {:induction false} SplitLast<T>(s: seq<T>)
    requires s != []
    ensures s == s[..|s| - 1] + [s[|s| - 1]]
  {
  }

  /** The decimal digits of a natural number, as str() writes them. */
  function NatToString(n: nat): (r: string)
    ensures |r| > 0
    decreases n
  {
    var digit := "0123456789"[n % 10];
    if n < 10 then [digit] else NatToString(n / 10) + [digit]
  }

  /** Different numbers have different decimal strings. */
  lemma {:induction false} NatToStringInjective(a: nat, b: nat)
    requires NatToString(a) == NatToString(b)
    ensures a == b
    decreases a
  {
    var sa, sb := NatToString(a), NatToString(b);
    assert "0123456789"[a % 10] == sa[|sa| - 1] == sb[|sb| - 1] == "0123456789"[b % 10];
    assert a % 10 == b % 10;
    if a >= 10 && b >= 10 {
      assert NatToString(a / 10) == sa[..|sa| - 1] == sb[..|sb| - 1] == NatToString(b / 10);
      NatToStringInjective(a / 10, b / 10);
    }
  }

  /** The sources of several lists in order, each with id str(position). */
  function Renumbered(all: seq<DataSource>): (r: seq<DataSource>)
    ensures |r| == |all| && forall i :: 0 <= i < |all| ==> r[i] == all[i].(id := NatToString(i))
  {
    seq(|all|, i requires 0 <= i < |all| => all[i].(id := NatToString(i)))
  }

  function Concat(lists: seq<seq<DataSource>>): seq<DataSource> {
    if lists == [] then [] else Concat(lists[..|lists| - 1]) + lists[|lists| - 1]
  }

  /** concat_datasources on the lists already read from the JSON files. */
  method ConcatDatasources(lists: seq<seq<DataSource>>) returns (out: seq<DataSource>)
    ensures out == Renumbered(Concat(lists))
  {
    var all: seq<DataSource> := [];
    for n := 0 to |lists|
      invariant all == Concat(lists[..n])
    {
      assert Concat(lists[..n + 1]) == Concat(lists[..n]) + lists[n] by {
        assert lists[..n + 1][..n] == lists[..n];
      }
      all := all + lists[n];
    }
    assert all == Concat(lists) by {
      assert lists[..|lists|] == lists;
    }
    ghost var want := Renumbered(all);
    out := [];
    for it := 0 to |all|
      invariant |out| == it
      invariant forall i :: 0 <= i < it ==> out[i] == all[i].(id := NatToString(i))
    {
      out := out + [all[it].(id := NatToString(it))];
    }
    assert out == want;
  }

  /** After concatenation the ids are distinct, so the long dict of the
      result keeps every source. */
  lemma {:induction false} RenumberedDistinct(all: seq<DataSource>)
    ensures DistinctIds(Renumbered(all))
  {
    var r := Renumbered(all);
    forall i, j | 0 <= i < j < |r| ensures r[i].id != r[j].id {
      if r[i].id == r[j].id {
        NatToStringInjective(i, j);
      }
    }
  }
}
