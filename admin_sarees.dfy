/*
 * The saree inventory view. A saree's `category` holds the id of a catalog,
 * while the form and the category filter work with catalog names; the view
 * converts id to name on edit and name back to id on submit. The list is
 * filtered locally by a case-insensitive name search and the category.
 */
module AdminSarees {
  import opened Js
  import opened Http
  import opened Records
  import AdminService

  /** `catalogs.find(c => c._id === category)?.name`, or "" when no catalog
      has that id. */
  function CatalogNameOf(catalogs: seq<Record>, category: Value): (name: Value)
    ensures forall k :: 0 <= k < |catalogs| && Get(catalogs[k], "_id") == category &&
                        (forall j :: 0 <= j < k ==> Get(catalogs[j], "_id") != category) ==>
                          name == Get(catalogs[k], "name")
    ensures (forall j :: 0 <= j < |catalogs| ==> Get(catalogs[j], "_id") != category) ==> name == Str("")
  {
    match Find(catalogs, c => Get(c, "_id") == category)
    case Some(c) => Get(c, "name")
    case None => Str("")
  }

  /** `catalogs.find(c => c.name === name)?._id`, or "" when no catalog has
      that name. */
  function CatalogIdOf(catalogs: seq<Record>, name: Value): (id: Value)
    ensures forall k :: 0 <= k < |catalogs| && Get(catalogs[k], "name") == name &&
                        (forall j :: 0 <= j < k ==> Get(catalogs[j], "name") != name) ==>
                          id == Get(catalogs[k], "_id")
    ensures (forall j :: 0 <= j < |catalogs| ==> Get(catalogs[j], "name") != name) ==> id == Str("")
  {
    match Find(catalogs, c => Get(c, "name") == name)
    case Some(c) => Get(c, "_id")
    case None => Str("")
  }

  predicate UniqueNames(catalogs: seq<Record>) {
    forall i, j :: 0 <= i < j < |catalogs| ==> Get(catalogs[i], "name") != Get(catalogs[j], "name")
  }

  /** Editing shows the first catalog with the saree's id by name; with no
      two catalogs sharing a name, submitting converts that name back to the
      very same id. */
  lemma {:induction false} CategoryRoundTrip(catalogs: seq<Record>, category: Value, k: nat)
    requires k < |catalogs| && Get(catalogs[k], "_id") == category
    requires UniqueNames(catalogs)
    ensures CatalogIdOf(catalogs, CatalogNameOf(catalogs, category)) == category
  {
    var byId := (c: Record) => Get(c, "_id") == category;
    var found := Find(catalogs, byId);
    assert found.Some? by {
      assert byId(catalogs[k]);
    }
    var i :| 0 <= i < |catalogs| && catalogs[i] == found.value && byId(catalogs[i]) &&
             forall j :: 0 <= j < i ==> !byId(catalogs[j]);
    var name := Get(catalogs[i], "name");
    assert CatalogNameOf(catalogs, category) == name;
    FindFirstAt(catalogs, c => Get(c, "name") == name, i);
  }

  /** An id no catalog carries shows as the name "": such a saree passes
      only the "all" category filter, unless that filter value is "" itself. */
  lemma UnknownCategoryName(catalogs: seq<Record>, category: Value, filter: string)
    requires forall j :: 0 <= j < |catalogs| ==> Get(catalogs[j], "_id") != category
    ensures CatalogNameOf(catalogs, category) == Str("")
    ensures CategoryMatches(catalogs, category, filter) <==> filter == "all" || filter == ""
  {
  }

  /** `categoryFilter === "all" || catalogName === categoryFilter` */
  predicate CategoryMatches(catalogs: seq<Record>, category: Value, filter: string) {
    filter == "all" || CatalogNameOf(catalogs, category) == Str(filter)
  }

  /** The filter predicate on one saree; a saree whose name is not a string
      never matches (the source's type demands one). */
  predicate SareeMatches(catalogs: seq<Record>, term: string, filter: string, saree: Record) {
    Get(saree, "name").Str? &&
    IncludesIgnoringCase(Get(saree, "name").s, term) &&
    CategoryMatches(catalogs, Get(saree, "category"), filter)
  }

  predicate NamesAreStrings(sarees: seq<Record>) {
    forall i :: 0 <= i < |sarees| ==> Get(sarees[i], "name").Str?
  }

  /** `filteredSarees` */
  function FilteredSarees(sarees: seq<Record>, term: string, filter: string, catalogs: seq<Record>): seq<Record>
    requires NamesAreStrings(sarees)
  {
    Filter(sarees, s => SareeMatches(catalogs, term, filter, s))
  }

  /** The filtered list keeps a saree exactly when its name contains the term
      ignoring case and its category passes, in the list's order. */
  lemma FilteredSareesExactly(sarees: seq<Record>, term: string, filter: string, catalogs: seq<Record>)
    requires NamesAreStrings(sarees)
    ensures forall i :: 0 <= i < |sarees| ==>
              (sarees[i] in FilteredSarees(sarees, term, filter, catalogs) <==>
               IncludesIgnoringCase(Get(sarees[i], "name").s, term) &&
               CategoryMatches(catalogs, Get(sarees[i], "category"), filter))
    ensures IsSubsequence(FilteredSarees(sarees, term, filter, catalogs), sarees)
  {
    var r := FilteredSarees(sarees, term, filter, catalogs);
    forall i | 0 <= i < |sarees| && sarees[i] in r
      ensures SareeMatches(catalogs, term, filter, sarees[i])
    {
      var k :| 0 <= k < |r| && r[k] == sarees[i];
    }
  }

  /** With an empty search and the "all" category, every saree is shown. */
  lemma FilterAllShowsEverything(sarees: seq<Record>, catalogs: seq<Record>)
    requires NamesAreStrings(sarees)
    ensures FilteredSarees(sarees, "", "all", catalogs) == sarees
  {
    forall i | 0 <= i < |sarees| ensures SareeMatches(catalogs, "", "all", sarees[i]) {
      EmptyTermMatchesAll(Get(sarees[i], "name").s);
    }
    FilterKeepsAll(sarees, s => SareeMatches(catalogs, "", "all", s));
  }

  /** The saree form. */
  datatype SareeForm = SareeForm(
    name: Value, description: Value, price: Value, category: Value,
    fabric: Value, color: Value, work: Value, image: Value)

  /** `defaultFormData`: empty texts, price 0, no category, no image key. */
  const DefaultForm: SareeForm :=
    SareeForm(Str(""), Str(""), Num(0), Str(""), Str(""), Str(""), Str(""), Undefined)

  /** The object `handleSubmit` passes to the service, in its key order, with
      the category name converted to the catalog id. */
  function Submitted(form: SareeForm, catalogs: seq<Record>): (o: AdminService.OrderedObject)
    ensures |o| == 8 && AdminService.DistinctKeys(o)
    ensures o[0] == AdminService.Property("name", form.name)
    ensures o[1] == AdminService.Property("description", form.description)
    ensures o[2] == AdminService.Property("price", form.price)
    ensures o[3] == AdminService.Property("category", CatalogIdOf(catalogs, form.category))
    ensures o[4] == AdminService.Property("fabric", form.fabric)
    ensures o[5] == AdminService.Property("color", form.color)
    ensures o[6] == AdminService.Property("work", form.work)
    ensures o[7] == AdminService.Property("image", form.image)
  {
    [AdminService.Property("name", form.name),
     AdminService.Property("description", form.description),
     AdminService.Property("price", form.price),
     AdminService.Property("category", CatalogIdOf(catalogs, form.category)),
     AdminService.Property("fabric", form.fabric),
     AdminService.Property("color", form.color),
     AdminService.Property("work", form.work),
     AdminService.Property("image", form.image)]
  }

  /** Which saree the delete dialog asks about. */
  datatype DeleteTarget = DeleteTarget(id: Value, name: Value)

  /** The list a fetch loads: `data.sarees || data`, normalised. Nothing is
      loaded when the call failed, did not report success, or that list
      cannot be mapped (a reply without data throws on reading `sarees`). */
  function LoadedSarees(outcome: Outcome): (r: Option<seq<Record>>)
    ensures r.Some? <==> Succeeded(outcome) &&
                         RecordsOf(Or(Field(Data(outcome), "sarees"), Data(outcome))).Some?
    ensures r.Some? ==> var l := RecordsOf(Or(Field(Data(outcome), "sarees"), Data(outcome))).value;
                        |r.value| == |l| &&
                        forall i :: 0 <= i < |l| ==> r.value[i] == Normalize(l[i]) && Get(r.value[i], "id") == ServerId(l[i])
    ensures Succeeded(outcome) && Nullish(Data(outcome)) ==> r.None?
  {
    if Succeeded(outcome) then
      match RecordsOf(Or(Field(Data(outcome), "sarees"), Data(outcome)))
      case Some(l) => Some(NormalizeAll(l))
      case None => None
    else None
  }

  class SareesView {
    var catalogs: seq<Record>
    var categories: seq<Value>
    var sareeList: seq<Record>
    var loading: bool
    var searchTerm: string
    var categoryFilter: string
    var isOpen: bool
    var isDeleteDialogOpen: bool
    var sareeToDelete: Option<DeleteTarget>
    var editingSaree: Option<Record>
    var formData: SareeForm

    constructor ()
      ensures catalogs == [] && categories == [] && sareeList == [] && loading
      ensures searchTerm == "" && categoryFilter == "all" && !isOpen && !isDeleteDialogOpen
      ensures sareeToDelete == None && editingSaree == None && formData == DefaultForm
    {
      catalogs := [];
      categories := [];
      sareeList := [];
      loading := true;
      searchTerm := "";
      categoryFilter := "all";
      isOpen := false;
      isDeleteDialogOpen := false;
      sareeToDelete := None;
      editingSaree := None;
      formData := DefaultForm;
    }

    /** `fetchSarees` */
    method FetchSarees(outcome: Outcome)
      modifies this`sareeList, this`loading
      ensures !loading
      ensures LoadedSarees(outcome).Some? ==> sareeList == LoadedSarees(outcome).value
      ensures LoadedSarees(outcome).None? ==> sareeList == old(sareeList)
      ensures catalogs == old(catalogs) && formData == old(formData) && editingSaree == old(editingSaree)
    {
      loading := true;
      var loaded := LoadedSarees(outcome);
      if loaded.Some? {
        sareeList := loaded.value;
      }
      loading := false;
    }

    /** `fetchCategories`: on success with data, the catalogs and their names
        for the dropdown. */
    method FetchCategories(outcome: Outcome)
      modifies this`catalogs, this`categories
      ensures var l := RecordsOf(Data(outcome));
              Succeeded(outcome) && l.Some? ==>
                catalogs == l.value && |categories| == |l.value| &&
                forall i :: 0 <= i < |l.value| ==> categories[i] == Get(l.value[i], "name")
      ensures !(Succeeded(outcome) && RecordsOf(Data(outcome)).Some?) ==>
                catalogs == old(catalogs) && categories == old(categories)
      ensures sareeList == old(sareeList) && formData == old(formData)
    {
      var l := RecordsOf(Data(outcome));
      if Succeeded(outcome) && l.Some? {
        catalogs := l.value;
        categories := seq(|l.value|, i requires 0 <= i < |l.value| => Get(l.value[i], "name"));
      }
    }

    /** `handleEdit(saree)`: the form shows the saree's fields, its category
        as the matching catalog's name, and no image. */
    method HandleEdit(saree: Record)
      modifies this`editingSaree, this`formData, this`isOpen
      ensures editingSaree == Some(saree) && isOpen
      ensures formData == SareeForm(Get(saree, "name"), Get(saree, "description"), Get(saree, "price"),
                                    CatalogNameOf(catalogs, Get(saree, "category")),
                                    Get(saree, "fabric"), Get(saree, "color"), Get(saree, "work"), Undefined)
      ensures sareeList == old(sareeList) && catalogs == old(catalogs)
    {
      editingSaree := Some(saree);
      formData := SareeForm(Get(saree, "name"), Get(saree, "description"), Get(saree, "price"),
                            CatalogNameOf(catalogs, Get(saree, "category")),
                            Get(saree, "fabric"), Get(saree, "color"), Get(saree, "work"), Undefined);
      isOpen := true;
    }

    /** `handleDelete(saree)`: remember its id and name, open the dialog. */
    method HandleDelete(saree: Record)
      modifies this`sareeToDelete, this`isDeleteDialogOpen
      ensures sareeToDelete == Some(DeleteTarget(Get(saree, "id"), Get(saree, "name"))) && isDeleteDialogOpen
      ensures sareeList == old(sareeList)
    {
      sareeToDelete := Some(DeleteTarget(Get(saree, "id"), Get(saree, "name")));
      isDeleteDialogOpen := true;
    }

    /** `confirmDelete(id)`: a successful call removes that id only; the
        dialog closes and forgets the saree in every outcome. */
    method ConfirmDelete(id: Value, outcome: Outcome)
      modifies this`sareeList, this`isDeleteDialogOpen, this`sareeToDelete
      ensures Succeeded(outcome) ==> sareeList == RemoveWhere(old(sareeList), "id", id)
      ensures !Succeeded(outcome) ==> sareeList == old(sareeList)
      ensures !isDeleteDialogOpen && sareeToDelete == None
      ensures catalogs == old(catalogs) && formData == old(formData) && editingSaree == old(editingSaree)
    {
      if Succeeded(outcome) {
        sareeList := RemoveWhere(sareeList, "id", id);
      }
      isDeleteDialogOpen := false;
      sareeToDelete := None;
    }

    /** `handleSubmit`: sends the form, with the category name converted to
        the catalog id, through `updateSaree` when editing and `createSaree`
        otherwise, and returns that request. A successful update merges the
        response into the edited id only; a successful create appends one
        normalised entry. Unless the call throws, the dialog closes and the
        form resets. */
    method HandleSubmit(outcome: Outcome) returns (req: Request)
      modifies this`sareeList, this`isOpen, this`editingSaree, this`formData
      ensures req.body == Multipart(AdminService.Present(Submitted(old(formData), old(catalogs))))
      ensures old(editingSaree).Some? ==>
                req.verb == "PUT" &&
                AdminService.IdOfPath(AdminService.SareesPath, req.path) ==
                  Some(ToJsString(Get(old(editingSaree).value, "id")))
      ensures old(editingSaree).None? ==> req.verb == "POST" && req.path == AdminService.SareesPath
      ensures old(editingSaree).Some? && Succeeded(outcome) ==>
                sareeList == Merge(old(sareeList), "id", Get(old(editingSaree).value, "id"), Spread(Data(outcome)))
      ensures old(editingSaree).None? && Succeeded(outcome) && !Nullish(Data(outcome)) ==>
                sareeList == old(sareeList) + [Normalize(Spread(Data(outcome)))]
      ensures !Succeeded(outcome) ==> sareeList == old(sareeList)
      ensures var throws := Fails(outcome) ||
                            (old(editingSaree).None? && Succeeded(outcome) && Nullish(Data(outcome)));
              (throws ==> isOpen == old(isOpen) && editingSaree == old(editingSaree) &&
                          formData == old(formData) && sareeList == old(sareeList)) &&
              (!throws ==> !isOpen && editingSaree == None && formData == DefaultForm)
      ensures catalogs == old(catalogs)
    {
      var payload := Submitted(formData, catalogs);
      if editingSaree.Some? {
        var id := Get(editingSaree.value, "id");
        req := AdminService.UpdateSaree(id, payload);
        if Fails(outcome) {
          return;
        }
        if Succeeded(outcome) {
          sareeList := Merge(sareeList, "id", id, Spread(Data(outcome)));
        }
      } else {
        req := AdminService.CreateSaree(payload);
        if Fails(outcome) {
          return;
        }
        if Succeeded(outcome) {
          if Nullish(Data(outcome)) {
            return;
          }
          sareeList := sareeList + [Normalize(Spread(Data(outcome)))];
        }
      }
      isOpen := false;
      editingSaree := None;
      formData := DefaultForm;
    }
  }
}
