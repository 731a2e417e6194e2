/*
 * Local list reconciliation shared by the admin views. Every view keeps a
 * sequence of records keyed by an id field and, after a successful API call,
 * updates that sequence in place of a refetch: fetched records are
 * normalised to carry `id`, an update maps over the list and touches only
 * the entry with the edited id, a delete filters that id out.
 */
module Records {
  import opened Js
  import opened Http

  /** `r[key] === id` (strict equality; values are compared structurally). */
  predicate Matches(r: Record, key: string, id: Value) {
    Get(r, key) == id
  }

  /** The id the views derive from a server record: `r._id || r.id`. */
  function ServerId(r: Record): Value {
    Or(Get(r, "_id"), Get(r, "id"))
  }

  /** `{...r, id: r._id || r.id}` */
  function Normalize(r: Record): (n: Record)
    ensures Get(n, "id") == (if Truthy(Get(r, "_id")) then Get(r, "_id") else Get(r, "id"))
    ensures n.Keys == r.Keys + {"id"}
    ensures forall k :: k in r && k != "id" ==> n[k] == r[k]
  {
    r["id" := ServerId(r)]
  }

  /** Normalising twice is normalising once: the views may re-normalise a
      record they already hold without changing it. */
  lemma NormalizeIdempotent(r: Record)
    ensures Normalize(Normalize(r)) == Normalize(r)
  {
    var n := Normalize(r);
    assert Get(n, "_id") == Get(r, "_id");
  }

  /** The records a fetched list holds, when `list.map(...)` over it does not
      throw: the list must be an array none of whose elements is null or
      undefined (reading `_id` of one throws). Each element is read as the
      own properties its spread copies. */
  function RecordsOf(v: Value): (r: Option<seq<Record>>)
    ensures r.Some? <==> v.Arr? && forall i :: 0 <= i < |v.items| ==> !Nullish(v.items[i])
    ensures r.Some? ==> |r.value| == |v.items| &&
                        forall i :: 0 <= i < |v.items| ==> r.value[i] == Spread(v.items[i])
  {
    if v.Arr? && forall i :: 0 <= i < |v.items| ==> !Nullish(v.items[i])
    then Some(seq(|v.items|, i requires 0 <= i < |v.items| => Spread(v.items[i])))
    else None
  }

  /** `list.map(normalize)` */
  function NormalizeAll(l: seq<Record>): (r: seq<Record>)
    ensures |r| == |l|
    ensures forall i :: 0 <= i < |l| ==> r[i] == Normalize(l[i])
  {
    seq(|l|, i requires 0 <= i < |l| => Normalize(l[i]))
  }

  /** The list a fetch loads into a view: `response.data` mapped through
      `normalize`, and only when the call reported success. Each loaded
      record, in order, carries the id derived from its server record. */
  function LoadedList(outcome: Outcome): (r: Option<seq<Record>>)
    ensures r.Some? <==> Succeeded(outcome) && RecordsOf(Data(outcome)).Some?
    ensures r.Some? ==> var l := RecordsOf(Data(outcome)).value;
                        |r.value| == |l| &&
                        forall i :: 0 <= i < |l| ==> Get(r.value[i], "id") == ServerId(l[i])
  {
    if Succeeded(outcome) then
      match RecordsOf(Data(outcome))
      case Some(l) => Some(NormalizeAll(l))
      case None => None
    else None
  }

  /** `l.map(c => c[key] === id ? f(c) : c)` */
  function MapWhere(l: seq<Record>, key: string, id: Value, f: Record -> Record): (r: seq<Record>)
    ensures |r| == |l|
    ensures forall i :: 0 <= i < |l| && Matches(l[i], key, id) ==> r[i] == f(l[i])
    ensures forall i :: 0 <= i < |l| && !Matches(l[i], key, id) ==> r[i] == l[i]
    decreases |l|
  {
    if l == [] then []
    else [if Matches(l[0], key, id) then f(l[0]) else l[0]] + MapWhere(l[1..], key, id, f)
  }

  /** With no entry carrying the id, an update leaves the list as it was. */
  lemma MapWhereAbsent(l: seq<Record>, key: string, id: Value, f: Record -> Record)
    requires forall i :: 0 <= i < |l| ==> !Matches(l[i], key, id)
    ensures MapWhere(l, key, id, f) == l
  {
  }

  /** `{...c, ...patch}` on the entries carrying the id. */
  function Merge(l: seq<Record>, key: string, id: Value, patch: Record): seq<Record> {
    MapWhere(l, key, id, c => c + patch)
  }

  /** `{...c, [field]: v}` on the entries carrying the id. */
  function SetField(l: seq<Record>, key: string, id: Value, field: string, v: Value): seq<Record> {
    MapWhere(l, key, id, c => c[field := v])
  }

  /** `{...c, [flag]: !c[flag]}` */
  function Flipped(c: Record, flag: string): Record {
    c[flag := Bool(!Truthy(Get(c, flag)))]
  }

  /** `{...c, [flag]: !c[flag]}` on the entries carrying the id. */
  function FlipField(l: seq<Record>, key: string, id: Value, flag: string): seq<Record> {
    MapWhere(l, key, id, c => Flipped(c, flag))
  }

  /** A merge touches only the entries carrying the id; each of those keeps
      every field the patch does not name and takes the patch's value for
      every field it does. */
  lemma MergeEffect(l: seq<Record>, key: string, id: Value, patch: Record, i: nat)
    requires i < |l|
    ensures |Merge(l, key, id, patch)| == |l|
    ensures !Matches(l[i], key, id) ==> Merge(l, key, id, patch)[i] == l[i]
    ensures Matches(l[i], key, id) ==>
      (forall k :: k in patch ==> Get(Merge(l, key, id, patch)[i], k) == patch[k]) &&
      (forall k :: k !in patch ==> Get(Merge(l, key, id, patch)[i], k) == Get(l[i], k))
  {
  }

  /** Setting a field changes that one field on the matching entries and
      nothing else. */
  lemma SetFieldEffect(l: seq<Record>, key: string, id: Value, field: string, v: Value, i: nat)
    requires i < |l|
    ensures |SetField(l, key, id, field, v)| == |l|
    ensures !Matches(l[i], key, id) ==> SetField(l, key, id, field, v)[i] == l[i]
    ensures Matches(l[i], key, id) ==>
      Get(SetField(l, key, id, field, v)[i], field) == v &&
      forall k :: k != field ==> Get(SetField(l, key, id, field, v)[i], k) == Get(l[i], k)
  {
  }

  lemma FlippedTwice(c: Record, flag: string)
    requires Get(c, flag).Bool?
    ensures Flipped(Flipped(c, flag), flag) == c
  {
    assert flag in c;
  }

  /** Flipping a boolean flag twice restores the list, provided the id field
      is not the flag itself and the matching entries hold a real boolean
      there (a missing flag reads as false and comes back as `false`). */
  lemma {:induction false} FlipTwice(l: seq<Record>, key: string, id: Value, flag: string)
    requires flag != key
    requires forall i :: 0 <= i < |l| && Matches(l[i], key, id) ==> Get(l[i], flag).Bool?
    ensures FlipField(FlipField(l, key, id, flag), key, id, flag) == l
  {
    var once := FlipField(l, key, id, flag);
    var twice := FlipField(once, key, id, flag);
    forall i | 0 <= i < |l| ensures twice[i] == l[i] {
      if Matches(l[i], key, id) {
        assert once[i] == Flipped(l[i], flag);
        assert Get(once[i], key) == Get(l[i], key);
        FlippedTwice(l[i], flag);
      }
    }
  }

  /** `l.filter(c => c[key] !== id)` */
  function RemoveWhere(l: seq<Record>, key: string, id: Value): (r: seq<Record>)
    ensures forall i :: 0 <= i < |r| ==> !Matches(r[i], key, id) && r[i] in l
    ensures forall i :: 0 <= i < |l| && !Matches(l[i], key, id) ==> l[i] in r
    ensures IsSubsequence(r, l)
    ensures |r| == |l| - CountMatches(l, key, id)
    decreases |l|
  {
    if l == [] then []
    else if Matches(l[0], key, id) then RemoveWhere(l[1..], key, id)
    else [l[0]] + RemoveWhere(l[1..], key, id)
  }

  /** The number of entries carrying the id. */
  function CountMatches(l: seq<Record>, key: string, id: Value): nat
    decreases |l|
  {
    if l == [] then 0 else (if Matches(l[0], key, id) then 1 else 0) + CountMatches(l[1..], key, id)
  }

  /** Deleting an id no entry carries leaves the list as it was. */
  lemma {:induction false} RemoveWhereAbsent(l: seq<Record>, key: string, id: Value)
    requires forall i :: 0 <= i < |l| ==> !Matches(l[i], key, id)
    ensures RemoveWhere(l, key, id) == l
    decreases |l|
  {
    if l != [] {
      RemoveWhereAbsent(l[1..], key, id);
    }
  }
}
