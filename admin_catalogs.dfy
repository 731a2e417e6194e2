/*
 * The catalog view: catalogs, each holding up to six sarees, that the admin
 * creates, edits and deletes, adds sarees to or removes them from, and
 * expands or collapses in the list.
 */
module AdminCatalogs {
  import opened Js
  import opened Http
  import opened Records

  /** The saree shown inside a catalog, projected from the populated
      `sareeIds` entry: `{id: s._id || s.id, name, price, color, image}`. */
  function Variety(s: Value): (v: Value)
    ensures v.Obj? && v.fields.Keys == {"id", "name", "price", "color", "image"}
    ensures Field(v, "id") == Or(Field(s, "_id"), Field(s, "id"))
    ensures Field(v, "name") == Field(s, "name") && Field(v, "price") == Field(s, "price")
    ensures Field(v, "color") == Field(s, "color") && Field(v, "image") == Field(s, "image")
  {
    Obj(map["id" := Or(Field(s, "_id"), Field(s, "id")), "name" := Field(s, "name"),
            "price" := Field(s, "price"), "color" := Field(s, "color"), "image" := Field(s, "image")])
  }

  /** The `sarees` a catalog gets from its `sareeIds`: the projection of each
      entry when it is a non-empty array, the empty array when it is missing,
      empty or has no length; no value when the mapping throws (a null entry,
      or a non-empty string, which has a length but no `map`). */
  function Varieties(sareeIds: Value): (r: Option<Value>)
    ensures r.Some? ==> r.value.Arr?
    ensures sareeIds.Arr? && |sareeIds.items| > 0 && r.Some? ==>
              |r.value.items| == |sareeIds.items| &&
              forall i :: 0 <= i < |sareeIds.items| ==> r.value.items[i] == Variety(sareeIds.items[i])
    ensures !(sareeIds.Arr? && |sareeIds.items| > 0) && r.Some? ==> r.value == Arr([])
    ensures r.None? <==> (sareeIds.Arr? && exists i :: 0 <= i < |sareeIds.items| && Nullish(sareeIds.items[i])) ||
                         (sareeIds.Str? && |sareeIds.s| > 0)
  {
    if sareeIds.Arr? && |sareeIds.items| > 0 then
      if forall i :: 0 <= i < |sareeIds.items| ==> !Nullish(sareeIds.items[i])
      then Some(Arr(seq(|sareeIds.items|, i requires 0 <= i < |sareeIds.items| => Variety(sareeIds.items[i]))))
      else None
    else if sareeIds.Str? && |sareeIds.s| > 0 then None
    else Some(Arr([]))
  }

  /** The normalisation `fetchCatalogs` applies to one catalog. */
  function NormalizeCatalog(c: Record): (r: Option<Record>)
    ensures r.Some? <==> Varieties(Get(c, "sareeIds")).Some?
    ensures r.Some? ==> r.value == Normalize(c)["sarees" := Varieties(Get(c, "sareeIds")).value]
  {
    match Varieties(Get(c, "sareeIds"))
    case Some(v) => Some(Normalize(c)["sarees" := v])
    case None => None
  }

  /** A normalised catalog carries `_id || id` as its id and one saree per
      populated entry, each with that entry's `_id || id`; a catalog without
      entries gets no sarees. Every other field is the server's. */
  lemma NormalizedCatalogShape(c: Record)
    requires NormalizeCatalog(c).Some?
    ensures var n := NormalizeCatalog(c).value;
            Get(n, "id") == ServerId(c) &&
            Get(n, "sarees").Arr? &&
            LengthOf(Get(n, "sarees")) == LengthOf(Get(c, "sareeIds")) &&
            (forall i :: 0 <= i < LengthOf(Get(n, "sarees")) ==>
               Field(Get(n, "sarees").items[i], "id") ==
                 Or(Field(Get(c, "sareeIds").items[i], "_id"), Field(Get(c, "sareeIds").items[i], "id"))) &&
            (forall k :: k in c && k != "id" && k != "sarees" ==> n[k] == c[k])
  {
    var ids := Get(c, "sareeIds");
    var v := Varieties(ids);
    if !(ids.Arr? && |ids.items| > 0) {
      assert v.value == Arr([]);
      assert !ids.Str? || |ids.s| == 0;
    }
  }

  /** `Promise.all(data.map(normalize))`: every catalog normalised, or a
      rejection as soon as one of them throws. */
  function NormalizeCatalogs(l: seq<Record>): (r: Option<seq<Record>>)
    ensures r.Some? <==> forall i :: 0 <= i < |l| ==> NormalizeCatalog(l[i]).Some?
    ensures r.Some? ==> |r.value| == |l| &&
                        forall i :: 0 <= i < |l| ==> r.value[i] == NormalizeCatalog(l[i]).value
    decreases |l|
  {
    if l == [] then Some([])
    else
      match (NormalizeCatalog(l[0]), NormalizeCatalogs(l[1..]))
      case (Some(c), Some(rest)) =>
        assert forall i :: 1 <= i < |l| ==> l[i] == l[1..][i - 1];
        Some([c] + rest)
      case (None, _) => None
      case (_, None) => None
  }

  /** The catalogs a fetch loads: none when the call failed, did not report
      success, or its data could not be normalised; otherwise each catalog of
      the response normalised, in order. */
  function LoadedCatalogs(outcome: Outcome): (r: Option<seq<Record>>)
    ensures r.Some? <==> Succeeded(outcome) && RecordsOf(Data(outcome)).Some? &&
                         forall i :: 0 <= i < |RecordsOf(Data(outcome)).value| ==>
                           NormalizeCatalog(RecordsOf(Data(outcome)).value[i]).Some?
    ensures r.Some? ==> var l := RecordsOf(Data(outcome)).value;
                        |r.value| == |l| &&
                        forall i :: 0 <= i < |l| ==> r.value[i] == NormalizeCatalog(l[i]).value
  {
    if Succeeded(outcome) then
      match RecordsOf(Data(outcome))
      case Some(l) => NormalizeCatalogs(l)
      case None => None
    else None
  }

  /** What `fetchSarees` stores: `data.sarees || data` from a reply that
      reported success. Nothing is stored when the call failed, did not
      report success, or had no `data` (reading `sarees` of it throws). */
  function ChoosableSarees(outcome: Outcome): (r: Option<Value>)
    ensures r.Some? <==> Succeeded(outcome) && !Nullish(Data(outcome))
    ensures r.Some? && Truthy(Field(Data(outcome), "sarees")) ==> r.value == Field(Data(outcome), "sarees")
    ensures r.Some? && !Truthy(Field(Data(outcome), "sarees")) ==> r.value == Data(outcome)
  {
    if Succeeded(outcome) && !Nullish(Data(outcome))
    then Some(Or(Field(Data(outcome), "sarees"), Data(outcome)))
    else None
  }

  /** The entry a successful create appends: the server's record with
      `id: data._id || data.id`. */
  function CreatedCatalog(data: Value): (c: Record)
    ensures Get(c, "id") == ServerId(Spread(data))
    ensures forall k :: k != "id" ==> Get(c, k) == Get(Spread(data), k)
  {
    Normalize(Spread(data))
  }

  /** `toggleCatalog(id)`: remove the id if it is expanded, append it if not. */
  function ToggleMember(l: seq<string>, x: string): (r: seq<string>)
    ensures x in r <==> x !in l
    ensures forall y :: y != x ==> (y in r <==> y in l)
  {
    if x in l then Filter(l, y => y != x) else l + [x]
  }

  /** Toggling the same catalog twice restores which catalogs are expanded;
      a catalog that was collapsed comes back exactly as before. */
  lemma ToggleTwice(l: seq<string>, x: string)
    ensures forall y :: y in ToggleMember(ToggleMember(l, x), x) <==> y in l
    ensures x !in l ==> ToggleMember(ToggleMember(l, x), x) == l
  {
    if x !in l {
      FilterDropLast(l, x);
    }
  }

  /** Filtering x out of l + [x] gives l back when x is not in l. */
  lemma {:induction false} FilterDropLast(l: seq<string>, x: string)
    requires x !in l
    ensures Filter(l + [x], y => y != x) == l
    decreases |l|
  {
    if l == [] {
      assert l + [x] == [x];
    } else {
      assert (l + [x])[1..] == l[1..] + [x];
      assert (l + [x])[0] == l[0];
      FilterDropLast(l[1..], x);
    }
  }

  const MaxSarees: nat := 6

  /** `catalogs.find(c => c.id === id)`, and whether adding a saree to it is
      refused because it already holds the maximum. */
  function CatalogById(catalogs: seq<Record>, id: Value): Option<Record> {
    Find(catalogs, c => Matches(c, "id", id))
  }

  predicate AddRefused(catalogs: seq<Record>, id: Value) {
    var found := CatalogById(catalogs, id);
    found.Some? && LengthOf(Get(found.value, "sarees")) >= MaxSarees
  }

  /** Adding is refused exactly when the first catalog with the id already
      holds six or more sarees; an unknown id is never refused. */
  lemma AddRefusedExactly(catalogs: seq<Record>, id: Value, k: nat)
    requires k < |catalogs| && Matches(catalogs[k], "id", id)
    requires forall j :: 0 <= j < k ==> !Matches(catalogs[j], "id", id)
    ensures AddRefused(catalogs, id) <==> LengthOf(Get(catalogs[k], "sarees")) >= MaxSarees
  {
    FindFirstAt(catalogs, c => Matches(c, "id", id), k);
  }

  lemma AddUnknownAllowed(catalogs: seq<Record>, id: Value)
    requires forall j :: 0 <= j < |catalogs| ==> !Matches(catalogs[j], "id", id)
    ensures !AddRefused(catalogs, id)
  {
  }

  /** The catalog form. */
  datatype CatalogForm = CatalogForm(name: Value, description: Value, status: Value, image: Value)

  const EmptyCatalogForm: CatalogForm := CatalogForm(Str(""), Str(""), Str("draft"), Undefined)

  /** The saree form. */
  datatype SareeForm = SareeForm(name: string, price: string, color: string, image: Value)

  const EmptySareeForm: SareeForm := SareeForm("", "", "", Null)

  /** Which catalog the saree dialog adds to, and the saree being edited. */
  datatype SareeTarget = SareeTarget(catalogId: Value, saree: Value)

  const NoSareeTarget: SareeTarget := SareeTarget(Str(""), Null)

  class CatalogsView {
    var catalogs: seq<Record>
    var loading: bool
    var isOpen: bool
    var isSareeDialogOpen: bool
    var editingCatalog: Option<Record>
    var editingSaree: SareeTarget
    var formData: CatalogForm
    var sareeFormData: SareeForm
    var availableSarees: Value
    var selectedSareeId: string
    var expandedCatalogs: seq<string>
    /** How many add-saree requests the view has sent. */
    ghost var addRequests: nat

    constructor ()
      ensures catalogs == [] && loading && !isOpen && !isSareeDialogOpen
      ensures editingCatalog == None && editingSaree == NoSareeTarget
      ensures formData == CatalogForm(Str(""), Str(""), Str("draft"), Null)
      ensures sareeFormData == EmptySareeForm && availableSarees == Arr([])
      ensures selectedSareeId == "" && expandedCatalogs == [] && addRequests == 0
    {
      catalogs := [];
      loading := true;
      isOpen := false;
      isSareeDialogOpen := false;
      editingCatalog := None;
      editingSaree := NoSareeTarget;
      formData := CatalogForm(Str(""), Str(""), Str("draft"), Null);
      sareeFormData := EmptySareeForm;
      availableSarees := Arr([]);
      selectedSareeId := "";
      expandedCatalogs := [];
      addRequests := 0;
    }

    /** `fetchCatalogs`: the list is replaced only by a fully normalised
        successful response; loading ends in every case. */
    method FetchCatalogs(outcome: Outcome)
      modifies this`catalogs, this`loading
      ensures !loading
      ensures LoadedCatalogs(outcome).Some? ==> catalogs == LoadedCatalogs(outcome).value
      ensures LoadedCatalogs(outcome).None? ==> catalogs == old(catalogs)
      ensures isOpen == old(isOpen) && isSareeDialogOpen == old(isSareeDialogOpen)
      ensures editingCatalog == old(editingCatalog) && editingSaree == old(editingSaree)
      ensures formData == old(formData) && sareeFormData == old(sareeFormData)
      ensures availableSarees == old(availableSarees) && selectedSareeId == old(selectedSareeId)
      ensures expandedCatalogs == old(expandedCatalogs) && addRequests == old(addRequests)
    {
      loading := true;
      var loaded := LoadedCatalogs(outcome);
      if loaded.Some? {
        catalogs := loaded.value;
      }
      loading := false;
    }

    /** `fetchSarees`: the choosable sarees follow `ChoosableSarees`; a
        failure, or the throw on a reply without data, is caught and keeps
        them. */
    method FetchSarees(outcome: Outcome)
      modifies this`availableSarees
      ensures ChoosableSarees(outcome).Some? ==> availableSarees == ChoosableSarees(outcome).value
      ensures ChoosableSarees(outcome).None? ==> availableSarees == old(availableSarees)
    {
      var fetched := ChoosableSarees(outcome);
      if fetched.Some? {
        availableSarees := fetched.value;
      }
    }

    /** `handleSubmit`. Editing: a successful update merges the response into
        the catalog with the edited id only. Creating: a successful create
        appends one entry with `id = _id || id`. If the call does not throw,
        the dialog closes and the form resets; if it throws (rejected, a body
        without `success`, or a created entry with no data) nothing changes. */
    method HandleSubmit(outcome: Outcome)
      modifies this`catalogs, this`isOpen, this`editingCatalog, this`formData
      ensures var throws := Fails(outcome) ||
                            (old(editingCatalog).None? && Succeeded(outcome) && Nullish(Data(outcome)));
              (throws ==> catalogs == old(catalogs) && isOpen == old(isOpen) &&
                          editingCatalog == old(editingCatalog) && formData == old(formData)) &&
              (!throws ==> !isOpen && editingCatalog == None && formData == EmptyCatalogForm)
      ensures old(editingCatalog).Some? && Succeeded(outcome) ==>
                catalogs == Merge(old(catalogs), "id", Get(old(editingCatalog).value, "id"), Spread(Data(outcome)))
      ensures old(editingCatalog).None? && Succeeded(outcome) && !Nullish(Data(outcome)) ==>
                catalogs == old(catalogs) + [CreatedCatalog(Data(outcome))]
      ensures !Succeeded(outcome) ==> catalogs == old(catalogs)
      ensures isSareeDialogOpen == old(isSareeDialogOpen) && editingSaree == old(editingSaree)
      ensures expandedCatalogs == old(expandedCatalogs) && addRequests == old(addRequests)
    {
      if Fails(outcome) {
        return;
      }
      if editingCatalog.Some? {
        if Succeeded(outcome) {
          catalogs := Merge(catalogs, "id", Get(editingCatalog.value, "id"), Spread(Data(outcome)));
        }
      } else {
        if Succeeded(outcome) {
          if Nullish(Data(outcome)) {
            return;
          }
          catalogs := catalogs + [CreatedCatalog(Data(outcome))];
        }
      }
      isOpen := false;
      editingCatalog := None;
      formData := EmptyCatalogForm;
    }

    /** `handleSareeSubmit`. Editing a catalog saree, or submitting with no
        saree selected, returns without a request and without closing the
        dialog. Otherwise one add request is sent; on success both lists are
        refetched; unless the request throws, the dialog closes and its
        state resets. */
    method HandleSareeSubmit(outcome: Outcome, sareesRefetch: Outcome, catalogsRefetch: Outcome)
      modifies this`addRequests, this`availableSarees, this`catalogs, this`loading
      modifies this`isSareeDialogOpen, this`editingSaree, this`sareeFormData, this`selectedSareeId
      ensures var guarded := Truthy(old(editingSaree).saree) || old(selectedSareeId) == "";
              var refetched := !guarded && Succeeded(outcome);
              var closes := !guarded && !Fails(outcome);
              (addRequests == if guarded then old(addRequests) else old(addRequests) + 1) &&
              (refetched && LoadedCatalogs(catalogsRefetch).Some? ==>
                 catalogs == LoadedCatalogs(catalogsRefetch).value) &&
              (refetched && ChoosableSarees(sareesRefetch).Some? ==>
                 availableSarees == ChoosableSarees(sareesRefetch).value) &&
              (refetched ==> !loading) &&
              (!refetched || LoadedCatalogs(catalogsRefetch).None? ==> catalogs == old(catalogs)) &&
              (!refetched || ChoosableSarees(sareesRefetch).None? ==> availableSarees == old(availableSarees)) &&
              (!refetched ==> loading == old(loading)) &&
              (closes ==> !isSareeDialogOpen && editingSaree == NoSareeTarget &&
                          sareeFormData == EmptySareeForm && selectedSareeId == "") &&
              (!closes ==> isSareeDialogOpen == old(isSareeDialogOpen) && editingSaree == old(editingSaree) &&
                           sareeFormData == old(sareeFormData) && selectedSareeId == old(selectedSareeId))
    {
      if Truthy(editingSaree.saree) {
        return;
      }
      if selectedSareeId == "" {
        return;
      }
      addRequests := addRequests + 1;
      if Fails(outcome) {
        return;
      }
      if Succeeded(outcome) {
        FetchSarees(sareesRefetch);
        FetchCatalogs(catalogsRefetch);
      }
      isSareeDialogOpen := false;
      editingSaree := NoSareeTarget;
      sareeFormData := EmptySareeForm;
      selectedSareeId := "";
    }

    /** `handleEdit(catalog)`: open the form on that catalog's fields, with no
        image chosen. */
    method HandleEdit(catalog: Record)
      modifies this`editingCatalog, this`formData, this`isOpen
      ensures editingCatalog == Some(catalog) && isOpen
      ensures formData == CatalogForm(Get(catalog, "name"), Get(catalog, "description"),
                                      Get(catalog, "status"), Undefined)
      ensures catalogs == old(catalogs) && expandedCatalogs == old(expandedCatalogs)
    {
      editingCatalog := Some(catalog);
      formData := CatalogForm(Get(catalog, "name"), Get(catalog, "description"), Get(catalog, "status"), Undefined);
      isOpen := true;
    }

    /** `handleDelete(id)`: a successful delete removes every catalog with
        that id and keeps the rest in order. */
    method HandleDelete(id: Value, outcome: Outcome)
      modifies this`catalogs
      ensures Succeeded(outcome) ==> catalogs == RemoveWhere(old(catalogs), "id", id)
      ensures !Succeeded(outcome) ==> catalogs == old(catalogs)
      ensures isOpen == old(isOpen) && isSareeDialogOpen == old(isSareeDialogOpen)
      ensures expandedCatalogs == old(expandedCatalogs)
    {
      if Succeeded(outcome) {
        catalogs := RemoveWhere(catalogs, "id", id);
      }
    }

    /** `handleAddSaree(catalogId)`: refused, with the dialog left as it was,
        when that catalog already holds six sarees; otherwise the saree
        dialog opens on that catalog with an empty form. */
    method HandleAddSaree(catalogId: Value)
      modifies this`editingSaree, this`sareeFormData, this`isSareeDialogOpen
      ensures AddRefused(old(catalogs), catalogId) ==>
                isSareeDialogOpen == old(isSareeDialogOpen) && editingSaree == old(editingSaree) &&
                sareeFormData == old(sareeFormData)
      ensures !AddRefused(old(catalogs), catalogId) ==>
                isSareeDialogOpen && editingSaree == SareeTarget(catalogId, Null) &&
                sareeFormData == EmptySareeForm
      ensures catalogs == old(catalogs) && isOpen == old(isOpen) && addRequests == old(addRequests)
      ensures selectedSareeId == old(selectedSareeId) && expandedCatalogs == old(expandedCatalogs)
    {
      if AddRefused(catalogs, catalogId) {
        return;
      }
      editingSaree := SareeTarget(catalogId, Null);
      sareeFormData := EmptySareeForm;
      isSareeDialogOpen := true;
    }

    /** `handleDeleteSaree(catalogId, sareeId)`: on success both lists are
        refetched; the catalogs then follow the refetch. */
    method HandleDeleteSaree(outcome: Outcome, sareesRefetch: Outcome, catalogsRefetch: Outcome)
      modifies this`availableSarees, this`catalogs, this`loading
      ensures Succeeded(outcome) && LoadedCatalogs(catalogsRefetch).Some? ==>
                catalogs == LoadedCatalogs(catalogsRefetch).value
      ensures !Succeeded(outcome) || LoadedCatalogs(catalogsRefetch).None? ==> catalogs == old(catalogs)
      ensures Succeeded(outcome) && ChoosableSarees(sareesRefetch).Some? ==>
                availableSarees == ChoosableSarees(sareesRefetch).value
      ensures !Succeeded(outcome) || ChoosableSarees(sareesRefetch).None? ==>
                availableSarees == old(availableSarees)
      ensures Succeeded(outcome) ==> !loading
      ensures !Succeeded(outcome) ==> loading == old(loading)
    {
      if Succeeded(outcome) {
        FetchSarees(sareesRefetch);
        FetchCatalogs(catalogsRefetch);
      }
    }

    /** `toggleCatalog(id)` */
    method ToggleCatalog(catalogId: string)
      modifies this`expandedCatalogs
      ensures expandedCatalogs == ToggleMember(old(expandedCatalogs), catalogId)
      ensures catalogs == old(catalogs) && isOpen == old(isOpen) && isSareeDialogOpen == old(isSareeDialogOpen)
    {
      expandedCatalogs := ToggleMember(expandedCatalogs, catalogId);
    }
  }
}
