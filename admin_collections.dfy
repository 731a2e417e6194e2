/*
 * The collection view: curated collections the admin creates, edits,
 * deletes and features. Create and update go through the admin service's
 * multipart calls; after a save or a feature toggle the list is refetched.
 */
module AdminCollections {
  import opened Js
  import opened Http
  import opened Records
  import AdminService

  /** The entry a successful create appends:
      `{...data, id: data._id || data.id, image: data.image || undefined,
      sareeCount: data.sareeCount || 0}`. */
  function CreatedCollection(data: Value): (c: Record)
    ensures Get(c, "id") == ServerId(Spread(data))
    ensures Truthy(Field(data, "image")) ==> Get(c, "image") == Field(data, "image")
    ensures !Truthy(Field(data, "image")) ==> Get(c, "image") == Undefined
    ensures Truthy(Field(data, "sareeCount")) ==> Get(c, "sareeCount") == Field(data, "sareeCount")
    ensures !Truthy(Field(data, "sareeCount")) ==> Get(c, "sareeCount") == Num(0)
    ensures forall k :: k != "id" && k != "image" && k != "sareeCount" ==> Get(c, k) == Field(data, k)
  {
    Normalize(Spread(data))["image" := Or(Field(data, "image"), Undefined)]
                           ["sareeCount" := Or(Field(data, "sareeCount"), Num(0))]
  }

  /** A created collection always shows a saree count: it is never null or
      undefined, whatever the server omitted. */
  lemma CreatedCollectionHasCount(data: Value)
    ensures !Nullish(Get(CreatedCollection(data), "sareeCount"))
  {
  }

  /** The patch a successful update merges into the edited entry:
      `{...data, id: data._id || data.id}`. */
  function UpdatePatch(data: Value): (patch: Record)
    ensures Get(patch, "id") == ServerId(Spread(data))
    ensures forall k :: k != "id" ==> Get(patch, k) == Field(data, k)
  {
    Normalize(Spread(data))
  }

  /** Reading `_id` of a missing response throws inside the update's map, but
      only when some entry carries the edited id. */
  predicate UpdateThrows(collections: seq<Record>, id: Value, data: Value) {
    Nullish(data) && exists i :: 0 <= i < |collections| && Matches(collections[i], "id", id)
  }

  /** The collection form. */
  datatype CollectionForm = CollectionForm(name: Value, description: Value, featured: Value, image: Value)

  const ResetForm: CollectionForm := CollectionForm(Str(""), Str(""), Bool(false), Undefined)

  /** The object the submit hands to the service, in its key order. */
  function FormPayload(f: CollectionForm): AdminService.OrderedObject {
    [AdminService.Property("name", f.name),
     AdminService.Property("description", f.description),
     AdminService.Property("featured", f.featured),
     AdminService.Property("image", f.image)]
  }

  /** The object `toggleFeatured` sends: the collection's name and
      description and its negated `featured` flag. */
  function TogglePayload(c: Record): AdminService.OrderedObject {
    [AdminService.Property("name", Get(c, "name")),
     AdminService.Property("description", Get(c, "description")),
     AdminService.Property("featured", Bool(!Truthy(Get(c, "featured"))))]
  }

  /** The toggle always sends a `featured` part, and it reads "true" exactly
      when the collection was not featured. */
  lemma ToggleSendsNegatedFlag(c: Record)
    ensures Entry("featured", Text(if Truthy(Get(c, "featured")) then "false" else "true"))
              in AdminService.Present(TogglePayload(c))
  {
    AdminService.PresentExactly(TogglePayload(c));
    assert AdminService.IsPresent(TogglePayload(c)[2]);
  }

  class CollectionsView {
    var collections: seq<Record>
    var loading: bool
    var isOpen: bool
    var editingCollection: Option<Record>
    var formData: CollectionForm

    constructor ()
      ensures collections == [] && loading && !isOpen && editingCollection == None
      ensures formData == CollectionForm(Str(""), Str(""), Bool(false), Null)
    {
      collections := [];
      loading := true;
      isOpen := false;
      editingCollection := None;
      formData := CollectionForm(Str(""), Str(""), Bool(false), Null);
    }

    /** `fetchCollections` */
    method FetchCollections(outcome: Outcome)
      modifies this`collections, this`loading
      ensures !loading
      ensures LoadedList(outcome).Some? ==> collections == LoadedList(outcome).value
      ensures LoadedList(outcome).None? ==> collections == old(collections)
      ensures isOpen == old(isOpen) && editingCollection == old(editingCollection) && formData == old(formData)
    {
      loading := true;
      var loaded := LoadedList(outcome);
      if loaded.Some? {
        collections := loaded.value;
      }
      loading := false;
    }

    /** `handleSubmit`: sends the form through `updateCollection` when
        editing and `createCollection` otherwise, and returns that request.
        A successful update merges the response, with its id re-derived, into
        the edited entry only; a successful create appends one entry with its
        defaults. Unless the call throws, the dialog closes, the form resets
        and the list is refetched; a throw leaves everything as it was. */
    method HandleSubmit(outcome: Outcome, refetch: Outcome) returns (req: Request)
      modifies this`collections, this`loading, this`isOpen, this`editingCollection, this`formData
      ensures req.body == Multipart(AdminService.Present(FormPayload(old(formData))))
      ensures old(editingCollection).Some? ==>
                req.verb == "PUT" &&
                AdminService.IdOfPath(AdminService.CollectionsPath, req.path) ==
                  Some(ToJsString(Get(old(editingCollection).value, "id")))
      ensures old(editingCollection).None? ==> req.verb == "POST" && req.path == AdminService.CollectionsPath
      ensures var throws :=
                Fails(outcome) ||
                (Succeeded(outcome) && old(editingCollection).None? && Nullish(Data(outcome))) ||
                (Succeeded(outcome) && old(editingCollection).Some? &&
                 UpdateThrows(old(collections), Get(old(editingCollection).value, "id"), Data(outcome)));
              var reconciled :=
                if !Succeeded(outcome) then old(collections)
                else if old(editingCollection).Some?
                then Merge(old(collections), "id", Get(old(editingCollection).value, "id"), UpdatePatch(Data(outcome)))
                else old(collections) + [CreatedCollection(Data(outcome))];
              (throws ==> collections == old(collections) && loading == old(loading) && isOpen == old(isOpen) &&
                          editingCollection == old(editingCollection) && formData == old(formData)) &&
              (!throws ==> !isOpen && editingCollection == None && formData == ResetForm && !loading &&
                           collections == (if LoadedList(refetch).Some?
                                           then LoadedList(refetch).value else reconciled))
    {
      var payload := FormPayload(formData);
      if editingCollection.Some? {
        var id := Get(editingCollection.value, "id");
        req := AdminService.UpdateCollection(id, payload);
        if Fails(outcome) {
          return;
        }
        if Succeeded(outcome) {
          if UpdateThrows(collections, id, Data(outcome)) {
            return;
          }
          collections := Merge(collections, "id", id, UpdatePatch(Data(outcome)));
        }
      } else {
        req := AdminService.CreateCollection(payload);
        if Fails(outcome) {
          return;
        }
        if Succeeded(outcome) {
          if Nullish(Data(outcome)) {
            return;
          }
          collections := collections + [CreatedCollection(Data(outcome))];
        }
      }
      isOpen := false;
      editingCollection := None;
      formData := ResetForm;
      FetchCollections(refetch);
    }

    /** `handleEdit(collection)` */
    method HandleEdit(collection: Record)
      modifies this`editingCollection, this`formData, this`isOpen
      ensures editingCollection == Some(collection) && isOpen
      ensures formData == CollectionForm(Get(collection, "name"), Get(collection, "description"),
                                         Get(collection, "featured"), Undefined)
      ensures collections == old(collections)
    {
      editingCollection := Some(collection);
      formData := CollectionForm(Get(collection, "name"), Get(collection, "description"),
                                 Get(collection, "featured"), Undefined);
      isOpen := true;
    }

    /** `handleDelete(id)`: a successful delete removes that id only. */
    method HandleDelete(id: Value, outcome: Outcome)
      modifies this`collections
      ensures Succeeded(outcome) ==> collections == RemoveWhere(old(collections), "id", id)
      ensures !Succeeded(outcome) ==> collections == old(collections)
      ensures isOpen == old(isOpen) && editingCollection == old(editingCollection) && formData == old(formData)
    {
      if Succeeded(outcome) {
        collections := RemoveWhere(collections, "id", id);
      }
    }

    /** `toggleFeatured(id)`: with no collection carrying the id nothing is
        sent and nothing changes. Otherwise the first such collection is sent
        back through `updateCollection` with its `featured` flag negated, and
        a success refetches the list. */
    method ToggleFeatured(id: Value, outcome: Outcome, refetch: Outcome) returns (req: Option<Request>)
      modifies this`collections, this`loading
      ensures var found := Find(old(collections), c => Matches(c, "id", id));
              (found.None? ==> req.None? && collections == old(collections)) &&
              (found.Some? ==>
                 req.Some? && req.value.verb == "PUT" &&
                 req.value.body == Multipart(AdminService.Present(TogglePayload(found.value))) &&
                 AdminService.IdOfPath(AdminService.CollectionsPath, req.value.path) == Some(ToJsString(id)))
      ensures Succeeded(outcome) && req.Some? && LoadedList(refetch).Some? ==>
                collections == LoadedList(refetch).value
      ensures !(Succeeded(outcome) && LoadedList(refetch).Some?) ==> collections == old(collections)
      ensures Succeeded(outcome) && req.Some? ==> !loading
      ensures !(Succeeded(outcome) && req.Some?) ==> loading == old(loading)
      ensures isOpen == old(isOpen) && editingCollection == old(editingCollection) && formData == old(formData)
    {
      var found := Find(collections, c => Matches(c, "id", id));
      if found.None? {
        req := None;
        return;
      }
      var r := AdminService.UpdateCollection(id, TogglePayload(found.value));
      req := Some(r);
      if Succeeded(outcome) {
        FetchCollections(refetch);
      }
    }
  }
}
