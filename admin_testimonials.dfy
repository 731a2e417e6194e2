/*
 * The testimonial view: customer quotes the admin creates, edits, deletes,
 * activates and features, with a local search and two filters.
 */
module AdminTestimonials {
  import opened Js
  import opened Http
  import opened Records

  /** `name` or `review` contains the term, ignoring case; a field that is
      not a string never matches (the source's type demands strings). */
  predicate SearchMatches(t: Record, term: string) {
    (Get(t, "name").Str? && IncludesIgnoringCase(Get(t, "name").s, term)) ||
    (Get(t, "review").Str? && IncludesIgnoringCase(Get(t, "review").s, term))
  }

  /** "all", or "active"/"inactive" on `isActive`; any other value matches
      nothing. */
  predicate StatusMatches(t: Record, status: string) {
    status == "all" ||
    (status == "active" && Truthy(Get(t, "isActive"))) ||
    (status == "inactive" && !Truthy(Get(t, "isActive")))
  }

  /** "all", or "featured"/"not-featured" on `isFeatured`. */
  predicate FeaturedMatches(t: Record, featured: string) {
    featured == "all" ||
    (featured == "featured" && Truthy(Get(t, "isFeatured"))) ||
    (featured == "not-featured" && !Truthy(Get(t, "isFeatured")))
  }

  predicate TestimonialMatches(term: string, status: string, featured: string, t: Record) {
    SearchMatches(t, term) && StatusMatches(t, status) && FeaturedMatches(t, featured)
  }

  predicate TextsAreStrings(l: seq<Record>) {
    forall i :: 0 <= i < |l| ==> Get(l[i], "name").Str? && Get(l[i], "review").Str?
  }

  /** `filteredTestimonials` */
  function FilteredTestimonials(l: seq<Record>, term: string, status: string, featured: string): seq<Record>
    requires TextsAreStrings(l)
  {
    Filter(l, t => TestimonialMatches(term, status, featured, t))
  }

  /** A testimonial is shown exactly when the search, the status filter and
      the featured filter all accept it; the order is kept. */
  lemma FilteredTestimonialsExactly(l: seq<Record>, term: string, status: string, featured: string)
    requires TextsAreStrings(l)
    ensures forall i :: 0 <= i < |l| ==>
              (l[i] in FilteredTestimonials(l, term, status, featured) <==>
               SearchMatches(l[i], term) && StatusMatches(l[i], status) && FeaturedMatches(l[i], featured))
    ensures IsSubsequence(FilteredTestimonials(l, term, status, featured), l)
  {
    var r := FilteredTestimonials(l, term, status, featured);
    forall i | 0 <= i < |l| && l[i] in r
      ensures TestimonialMatches(term, status, featured, l[i])
    {
      var k :| 0 <= k < |r| && r[k] == l[i];
    }
  }

  /** With an empty search and both filters on "all", everything is shown. */
  lemma NoFilterShowsAll(l: seq<Record>)
    requires TextsAreStrings(l)
    ensures FilteredTestimonials(l, "", "all", "all") == l
  {
    forall i | 0 <= i < |l| ensures TestimonialMatches("", "all", "all", l[i]) {
      EmptyTermMatchesAll(Get(l[i], "name").s);
    }
    FilterKeepsAll(l, t => TestimonialMatches("", "all", "all", t));
  }

  /** A status value other than "all", "active" and "inactive" hides every
      testimonial. */
  lemma UnknownStatusShowsNothing(l: seq<Record>, term: string, status: string, featured: string)
    requires TextsAreStrings(l)
    requires status != "all" && status != "active" && status != "inactive"
    ensures FilteredTestimonials(l, term, status, featured) == []
  {
  }

  /** `active` and `inactive` split the list: every testimonial passes
      exactly one of them. */
  lemma ActiveInactiveSplit(t: Record)
    ensures StatusMatches(t, "active") != StatusMatches(t, "inactive")
  {
  }

  /** The testimonial form. */
  datatype TestimonialForm = TestimonialForm(name: Value, review: Value, rating: Value,
                                             isFeatured: Value, isActive: Value)

  /** `defaultFormData`: rating 5, featured and active, no name or review. */
  const DefaultForm: TestimonialForm :=
    TestimonialForm(Str(""), Str(""), Num(5), Bool(true), Bool(true))

  datatype DeleteTarget = DeleteTarget(id: Value, name: Value)

  /** `response.success === true`, the stricter test the create branch uses. */
  predicate SucceededStrictly(o: Outcome) {
    o.Resolved? && Field(o.body, "success") == Bool(true)
  }

  class TestimonialsView {
    var testimonialList: seq<Record>
    var loading: bool
    var searchTerm: string
    var statusFilter: string
    var featuredFilter: string
    var isOpen: bool
    var isDeleteDialogOpen: bool
    var testimonialToDelete: Option<DeleteTarget>
    var editingTestimonial: Option<Record>
    var formData: TestimonialForm
    var isSubmitting: bool

    constructor ()
      ensures testimonialList == [] && loading && searchTerm == ""
      ensures statusFilter == "all" && featuredFilter == "all"
      ensures !isOpen && !isDeleteDialogOpen && testimonialToDelete == None
      ensures editingTestimonial == None && formData == DefaultForm && !isSubmitting
    {
      testimonialList := [];
      loading := true;
      searchTerm := "";
      statusFilter := "all";
      featuredFilter := "all";
      isOpen := false;
      isDeleteDialogOpen := false;
      testimonialToDelete := None;
      editingTestimonial := None;
      formData := DefaultForm;
      isSubmitting := false;
    }

    /** `fetchTestimonials` */
    method FetchTestimonials(outcome: Outcome)
      modifies this`testimonialList, this`loading
      ensures !loading
      ensures LoadedList(outcome).Some? ==> testimonialList == LoadedList(outcome).value
      ensures LoadedList(outcome).None? ==> testimonialList == old(testimonialList)
      ensures formData == old(formData) && editingTestimonial == old(editingTestimonial)
    {
      loading := true;
      var loaded := LoadedList(outcome);
      if loaded.Some? {
        testimonialList := loaded.value;
      }
      loading := false;
    }

    /** `handleEdit(t)`: the form takes the testimonial's values. */
    method HandleEdit(t: Record)
      modifies this`editingTestimonial, this`formData, this`isOpen
      ensures editingTestimonial == Some(t) && isOpen
      ensures formData == TestimonialForm(Get(t, "name"), Get(t, "review"), Get(t, "rating"),
                                          Get(t, "isFeatured"), Get(t, "isActive"))
      ensures testimonialList == old(testimonialList)
    {
      editingTestimonial := Some(t);
      formData := TestimonialForm(Get(t, "name"), Get(t, "review"), Get(t, "rating"),
                                  Get(t, "isFeatured"), Get(t, "isActive"));
      isOpen := true;
    }

    /** `handleDelete(t)`: remember its id and name, open the dialog. */
    method HandleDelete(t: Record)
      modifies this`testimonialToDelete, this`isDeleteDialogOpen
      ensures testimonialToDelete == Some(DeleteTarget(Get(t, "id"), Get(t, "name"))) && isDeleteDialogOpen
      ensures testimonialList == old(testimonialList)
    {
      testimonialToDelete := Some(DeleteTarget(Get(t, "id"), Get(t, "name")));
      isDeleteDialogOpen := true;
    }

    /** `confirmDelete(id)`: the id is removed only when the call reports
        success; the dialog closes and forgets the testimonial whatever
        happens. */
    method ConfirmDelete(id: Value, outcome: Outcome)
      modifies this`testimonialList, this`isDeleteDialogOpen, this`testimonialToDelete
      ensures Succeeded(outcome) ==> testimonialList == RemoveWhere(old(testimonialList), "id", id)
      ensures !Succeeded(outcome) ==> testimonialList == old(testimonialList)
      ensures !isDeleteDialogOpen && testimonialToDelete == None
      ensures formData == old(formData) && editingTestimonial == old(editingTestimonial)
    {
      if Succeeded(outcome) {
        testimonialList := RemoveWhere(testimonialList, "id", id);
      }
      isDeleteDialogOpen := false;
      testimonialToDelete := None;
    }

    /** `handleSubmit`. An update merges a successful response into the
        edited id only; a create appends one normalised entry only when
        `success` is exactly true. Unless the call throws, the dialog closes
        and the form resets. `isSubmitting` is cleared afterwards in every
        outcome. */
    method HandleSubmit(outcome: Outcome)
      modifies this`isSubmitting, this`testimonialList, this`isOpen, this`editingTestimonial, this`formData
      ensures !isSubmitting
      ensures old(editingTestimonial).Some? && Succeeded(outcome) ==>
                testimonialList == Merge(old(testimonialList), "id", Get(old(editingTestimonial).value, "id"),
                                         Spread(Data(outcome)))
      ensures old(editingTestimonial).Some? && !Succeeded(outcome) ==> testimonialList == old(testimonialList)
      ensures old(editingTestimonial).None? && SucceededStrictly(outcome) && !Nullish(Data(outcome)) ==>
                testimonialList == old(testimonialList) + [Normalize(Spread(Data(outcome)))]
      ensures old(editingTestimonial).None? && !SucceededStrictly(outcome) ==>
                testimonialList == old(testimonialList)
      ensures var throws := Fails(outcome) ||
                            (old(editingTestimonial).None? && SucceededStrictly(outcome) && Nullish(Data(outcome)));
              (throws ==> isOpen == old(isOpen) && editingTestimonial == old(editingTestimonial) &&
                          formData == old(formData) && testimonialList == old(testimonialList)) &&
              (!throws ==> !isOpen && editingTestimonial == None && formData == DefaultForm)
    {
      isSubmitting := true;
      var throws := false;
      if Fails(outcome) {
        throws := true;
      } else if editingTestimonial.Some? {
        if Succeeded(outcome) {
          var id := Get(editingTestimonial.value, "id");
          testimonialList := Merge(testimonialList, "id", id, Spread(Data(outcome)));
        }
      } else if SucceededStrictly(outcome) {
        if Nullish(Data(outcome)) {
          throws := true;
        } else {
          testimonialList := testimonialList + [Normalize(Spread(Data(outcome)))];
        }
      }
      if !throws {
        isOpen := false;
        editingTestimonial := None;
        formData := DefaultForm;
      }
      isSubmitting := false;
    }
  }
}
