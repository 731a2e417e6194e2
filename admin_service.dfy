/*
 * The admin service calls for sarees and collections. Create and update
 * build a multipart body from the submitted object: every own property, in
 * key order, whose value is neither undefined nor null becomes one part.
 * Update and delete address one resource by the id written into the path.
 */
module AdminService {
  import opened Js
  import opened Http

  /** One own property of a submitted object. */
  datatype Property = Property(key: string, value: Value)

  /** A plain object as `Object.keys` walks it: its properties in key order. */
  type OrderedObject = seq<Property>

  /** A JavaScript object never has two properties with the same key. */
  predicate DistinctKeys(o: OrderedObject) {
    forall i, j :: 0 <= i < j < |o| ==> o[i].key != o[j].key
  }

  /** `o[key] !== undefined && o[key] !== null` */
  predicate IsPresent(p: Property) {
    !Nullish(p.value)
  }

  /** The part `formData.append(key, o[key])` adds for a property. */
  function EntryOf(p: Property): Entry {
    Entry(p.key, PartOf(p.value))
  }

  /** Every property converted, kept or not. */
  function EntriesOf(o: OrderedObject): (r: seq<Entry>)
    ensures |r| == |o|
    ensures forall i :: 0 <= i < |o| ==> r[i] == EntryOf(o[i])
  {
    seq(|o|, i requires 0 <= i < |o| => EntryOf(o[i]))
  }

  /** The parts the `forEach` over `Object.keys(o)` appends. */
  function Present(o: OrderedObject): seq<Entry>
    decreases |o|
  {
    if o == [] then []
    else (if IsPresent(o[0]) then [EntryOf(o[0])] else []) + Present(o[1..])
  }

  /** The parts of a concatenation are the parts of each half, in order;
      this is what lets the loop build the body one property at a time. */
  lemma {:induction false} PresentAppend(a: OrderedObject, b: OrderedObject)
    ensures Present(a + b) == Present(a) + Present(b)
    decreases |a|
  {
    if a == [] {
      assert a + b == b;
    } else {
      assert (a + b)[0] == a[0];
      assert (a + b)[1..] == a[1..] + b;
      PresentAppend(a[1..], b);
    }
  }

  /** The body is exactly the object filtered to its present properties and
      then converted, so kept properties keep their relative order. */
  lemma {:induction false} PresentIsFilterThenConvert(o: OrderedObject)
    ensures Present(o) == EntriesOf(Filter(o, IsPresent))
    decreases |o|
  {
    if o != [] {
      PresentIsFilterThenConvert(o[1..]);
      if IsPresent(o[0]) {
        assert Filter(o, IsPresent) == [o[0]] + Filter(o[1..], IsPresent);
        assert EntriesOf([o[0]] + Filter(o[1..], IsPresent)) ==
               [EntryOf(o[0])] + EntriesOf(Filter(o[1..], IsPresent));
      }
    }
  }

  /** Exactly the present properties become parts: each part comes from a
      property whose value is neither undefined nor null, and each such
      property (including falsy ones such as false, 0 and "") gives a part. */
  lemma PresentExactly(o: OrderedObject)
    ensures forall k :: 0 <= k < |Present(o)| ==>
              exists i :: 0 <= i < |o| && IsPresent(o[i]) && Present(o)[k] == EntryOf(o[i])
    ensures forall i :: 0 <= i < |o| && IsPresent(o[i]) ==> EntryOf(o[i]) in Present(o)
  {
    PresentIsFilterThenConvert(o);
    var f := Filter(o, IsPresent);
    forall k | 0 <= k < |Present(o)|
      ensures exists i :: 0 <= i < |o| && IsPresent(o[i]) && Present(o)[k] == EntryOf(o[i])
    {
      assert f[k] in o;
      var i :| 0 <= i < |o| && o[i] == f[k];
      assert Present(o)[k] == EntryOf(o[i]);
    }
    forall i | 0 <= i < |o| && IsPresent(o[i]) ensures EntryOf(o[i]) in Present(o) {
      assert o[i] in f;
      var k :| 0 <= k < |f| && f[k] == o[i];
      assert Present(o)[k] == EntryOf(o[i]);
    }
  }

  /** Every part is named after a key of the object. */
  lemma {:induction false} PresentNamesAreKeys(o: OrderedObject)
    ensures forall k :: 0 <= k < |Present(o)| ==>
              exists i :: 0 <= i < |o| && o[i].key == Present(o)[k].name
    decreases |o|
  {
    if o != [] {
      PresentNamesAreKeys(o[1..]);
      var head := if IsPresent(o[0]) then [EntryOf(o[0])] else [];
      assert Present(o) == head + Present(o[1..]);
      forall k | 0 <= k < |Present(o)|
        ensures exists i :: 0 <= i < |o| && o[i].key == Present(o)[k].name
      {
        if k < |head| {
          assert o[0].key == Present(o)[k].name;
        } else {
          var t := k - |head|;
          assert Present(o)[k] == Present(o[1..])[t];
          var j :| 0 <= j < |o[1..]| && o[1..][j].key == Present(o[1..])[t].name;
          assert o[j + 1].key == Present(o)[k].name;
        }
      }
    } else {
      assert Present(o) == [];
    }
  }

  /** Since object keys are distinct, no field is appended twice. */
  lemma {:induction false} PresentNamesDistinct(o: OrderedObject)
    requires DistinctKeys(o)
    ensures forall a, b :: 0 <= a < b < |Present(o)| ==> Present(o)[a].name != Present(o)[b].name
    decreases |o|
  {
    if o != [] {
      PresentNamesDistinct(o[1..]);
      PresentNamesAreKeys(o[1..]);
      if IsPresent(o[0]) {
        forall b | 1 <= b < |Present(o)| ensures Present(o)[0].name != Present(o)[b].name {
          var j :| 0 <= j < |o[1..]| && o[1..][j].key == Present(o[1..])[b - 1].name;
          assert o[0].key != o[j + 1].key;
        }
      }
    }
  }

  /** `Object.keys(o).forEach(key => { if (present) formData.append(key, o[key]) })` */
  method AppendPresent(fd: FormData, o: OrderedObject)
    modifies fd
    ensures fd.entries == old(fd.entries) + Present(o)
  {
    var i := 0;
    while i < |o|
      invariant 0 <= i <= |o|
      invariant fd.entries == old(fd.entries) + Present(o[..i])
    {
      assert o[..i + 1] == o[..i] + [o[i]];
      PresentAppend(o[..i], [o[i]]);
      if !Nullish(o[i].value) {
        fd.Append(o[i].key, o[i].value);
      }
      i := i + 1;
    }
    assert o[..i] == o;
  }

  /** A fresh FormData filled with the present properties of o. */
  method MultipartOf(o: OrderedObject) returns (body: Body)
    ensures body == Multipart(Present(o))
  {
    var fd := new FormData();
    AppendPresent(fd, o);
    body := Multipart(fd.entries);
  }

  /** `${base}/${id}`: the template literal converts the id with `String`. */
  function ItemPath(base: string, id: Value): string {
    base + "/" + ToJsString(id)
  }

  /** The id a server reads back out of a path under base. */
  function IdOfPath(base: string, path: string): Option<string> {
    var prefix := base + "/";
    if |path| >= |prefix| && path[..|prefix|] == prefix then Some(path[|prefix|..]) else None
  }

  /** The path names the resource it was built for: reading it back under the
      same base gives `String(id)`, so distinct string ids give distinct
      paths. */
  lemma ItemPathRoundTrip(base: string, id: Value)
    ensures IdOfPath(base, ItemPath(base, id)) == Some(ToJsString(id))
  {
    var prefix := base + "/";
    assert ItemPath(base, id)[..|prefix|] == prefix;
    assert ItemPath(base, id)[|prefix|..] == ToJsString(id);
  }

  lemma ItemPathInjective(base: string, x: string, y: string)
    requires ItemPath(base, Str(x)) == ItemPath(base, Str(y))
    ensures x == y
  {
    ItemPathRoundTrip(base, Str(x));
    ItemPathRoundTrip(base, Str(y));
  }

  const SareesPath: string := "/admin/sarees"
  const CollectionsPath: string := "/admin/collections"

  /** `createSaree(data)`: POST the present fields to the saree list,
      opting in to the success toast. */
  method CreateSaree(data: OrderedObject) returns (req: Request)
    ensures req == Request("POST", SareesPath, Multipart(Present(data)), true)
  {
    var body := MultipartOf(data);
    req := Request("POST", SareesPath, body, true);
  }

  /** `updateSaree(id, data)`: PUT the present fields to that saree. */
  method UpdateSaree(id: Value, data: OrderedObject) returns (req: Request)
    ensures req.verb == "PUT" && req.body == Multipart(Present(data)) && req.showSuccess
    ensures IdOfPath(SareesPath, req.path) == Some(ToJsString(id))
  {
    var body := MultipartOf(data);
    req := Request("PUT", ItemPath(SareesPath, id), body, true);
    ItemPathRoundTrip(SareesPath, id);
  }

  /** `deleteSaree(id)`: DELETE that saree, with no body. */
  function DeleteSaree(id: Value): (req: Request)
    ensures req.verb == "DELETE" && req.body == NoBody && req.showSuccess
    ensures IdOfPath(SareesPath, req.path) == Some(ToJsString(id))
  {
    ItemPathRoundTrip(SareesPath, id);
    Request("DELETE", ItemPath(SareesPath, id), NoBody, true)
  }

  /** `createCollection(data)`: the same filter as for sarees. */
  method CreateCollection(data: OrderedObject) returns (req: Request)
    ensures req == Request("POST", CollectionsPath, Multipart(Present(data)), true)
  {
    var body := MultipartOf(data);
    req := Request("POST", CollectionsPath, body, true);
  }

  /** `updateCollection(id, data)` */
  method UpdateCollection(id: Value, data: OrderedObject) returns (req: Request)
    ensures req.verb == "PUT" && req.body == Multipart(Present(data)) && req.showSuccess
    ensures IdOfPath(CollectionsPath, req.path) == Some(ToJsString(id))
  {
    var body := MultipartOf(data);
    req := Request("PUT", ItemPath(CollectionsPath, id), body, true);
    ItemPathRoundTrip(CollectionsPath, id);
  }

  /** `deleteCollection(id)` */
  function DeleteCollection(id: Value): (req: Request)
    ensures req.verb == "DELETE" && req.body == NoBody && req.showSuccess
    ensures IdOfPath(CollectionsPath, req.path) == Some(ToJsString(id))
  {
    ItemPathRoundTrip(CollectionsPath, id);
    Request("DELETE", ItemPath(CollectionsPath, id), NoBody, true)
  }
}
