/*
 * The contact inquiry view: a server-paged, server-filtered list of
 * inquiries. The admin edits one inquiry's status and note in a modal; the
 * replies are reconciled into the loaded page by `_id`.
 */
module AdminContacts {
  import opened Js
  import opened Http
  import opened Records
  import Pagination

  /** `statusFilter === "all" ? undefined : statusFilter` */
  function StatusParam(filter: string): (param: Option<string>)
    ensures param.None? <==> filter == "all"
    ensures param.Some? ==> param.value == filter
  {
    if filter == "all" then None else Some(filter)
  }

  /** The query the server receives names every filter but "all" as sent, so
      two different filters never produce the same query. */
  lemma StatusParamInjective(f: string, g: string)
    requires StatusParam(f) == StatusParam(g)
    ensures f == g
  {
  }

  const Green: string := "bg-green-100 text-green-800 border-green-200"
  const Yellow: string := "bg-yellow-100 text-yellow-800 border-yellow-200"
  const Red: string := "bg-red-100 text-red-800 border-red-200"
  const Grey: string := "bg-gray-100 text-gray-800 border-gray-200"

  /** `getStatusBadgeVariant(status)` */
  function BadgeStyle(status: string): (style: string)
    ensures status == "resolved" ==> style == Green
    ensures status == "in-progress" ==> style == Yellow
    ensures status == "pending" ==> style == Red
  {
    match status
    case "resolved" => Green
    case "in-progress" => Yellow
    case "pending" => Red
    case _ => Grey
  }

  /** The three known statuses get three different colours, and exactly the
      unknown statuses fall back to grey. */
  lemma BadgeStyleDistinguishes(status: string)
    ensures BadgeStyle(status) == Grey <==>
              status != "resolved" && status != "in-progress" && status != "pending"
    ensures BadgeStyle("resolved") != BadgeStyle("in-progress") &&
            BadgeStyle("in-progress") != BadgeStyle("pending") &&
            BadgeStyle("pending") != BadgeStyle("resolved")
  {
  }

  /** `Array.from({length: totalPages}, (_, i) => i + 1)` */
  function PageButtons(totalPages: int): (r: seq<int>)
    ensures |r| == if totalPages < 0 then 0 else totalPages
    ensures forall i :: 0 <= i < |r| ==> r[i] == i + 1
  {
    var n := if totalPages < 0 then 0 else totalPages;
    seq(n, i requires 0 <= i < n => i + 1)
  }

  /** The buttons are exactly the pages 1..totalPages. */
  lemma PageButtonsExactly(totalPages: int, p: int)
    ensures p in PageButtons(totalPages) <==> 1 <= p <= totalPages
  {
    if 1 <= p <= totalPages {
      assert PageButtons(totalPages)[p - 1] == p;
    }
  }

  predicate IsPending(c: Record) {
    Get(c, "status") == Str("pending")
  }

  predicate IsResolved(c: Record) {
    Get(c, "status") == Str("resolved")
  }

  /** The Pending card: `contacts.filter(c => c.status === "pending").length` */
  function PendingCount(contacts: seq<Record>): nat {
    |Filter(contacts, IsPending)|
  }

  /** The Resolved card. */
  function ResolvedCount(contacts: seq<Record>): nat {
    |Filter(contacts, IsResolved)|
  }

  /** The two cards count disjoint parts of the loaded page, so together they
      never exceed the number of loaded inquiries. */
  lemma SummaryCountsBounded(contacts: seq<Record>)
    ensures PendingCount(contacts) + ResolvedCount(contacts) <= |contacts|
  {
    FilterLength(contacts, IsPending);
    FilterLength(contacts, IsResolved);
    DisjointCounts(contacts, IsPending, IsResolved);
  }

  /** One of the two requests the Update button sends. */
  datatype Update = StatusUpdate(id: Value, status: Value) | NoteUpdate(id: Value, note: Value)

  /** The Update button: with a contact selected, its status is always sent
      and its note is sent as well only when non-empty. */
  function UpdateCalls(selected: Value): (calls: seq<Update>)
    ensures !Truthy(selected) ==> calls == []
    ensures Truthy(selected) ==>
              1 <= |calls| <= 2 &&
              calls[0] == StatusUpdate(Field(selected, "_id"), Field(selected, "status"))
    ensures |calls| == 2 <==> Truthy(selected) && Truthy(Field(selected, "note"))
    ensures |calls| == 2 ==> calls[1] == NoteUpdate(Field(selected, "_id"), Field(selected, "note"))
  {
    if !Truthy(selected) then []
    else
      [StatusUpdate(Field(selected, "_id"), Field(selected, "status"))] +
      (if Truthy(Field(selected, "note"))
       then [NoteUpdate(Field(selected, "_id"), Field(selected, "note"))]
       else [])
  }

  /** An empty note is never sent, not even as a clearing update. */
  lemma EmptyNoteNeverSent(selected: Value, i: nat)
    requires i < |UpdateCalls(selected)| && UpdateCalls(selected)[i].NoteUpdate?
    ensures Truthy(UpdateCalls(selected)[i].note)
  {
  }

  /** `response.data.pagination` as integers. */
  datatype Totals = Totals(total: int, pages: int)

  /** The settled `getContacts(...)` call. `ContactsResolved` carries
      `data.contacts` (none when missing or empty-valued) and the pagination
      block (none when missing); `ContactsNoData` is a body without `data`. */
  datatype ContactsOutcome =
    | ContactsResolved(contacts: Option<seq<Record>>, pagination: Option<Totals>)
    | ContactsNoData
    | ContactsThrew(error: Value)

  class ContactsView {
    var contacts: seq<Record>
    var loading: bool
    var searchTerm: string
    var statusFilter: string
    var currentPage: int
    var totalPages: int
    var totalContacts: int
    var limit: int
    var isViewModalOpen: bool
    var isEditModalOpen: bool
    var selectedContact: Value
    var updating: bool
    /** The status parameter of the last list request. */
    ghost var lastStatusParam: Option<string>

    constructor ()
      ensures contacts == [] && loading && searchTerm == "" && statusFilter == "all"
      ensures currentPage == 1 && totalPages == 1 && totalContacts == 0 && limit == 10
      ensures !isViewModalOpen && !isEditModalOpen && selectedContact == Null && !updating
    {
      contacts := [];
      loading := true;
      searchTerm := "";
      statusFilter := "all";
      currentPage := 1;
      totalPages := 1;
      totalContacts := 0;
      limit := 10;
      isViewModalOpen := false;
      isEditModalOpen := false;
      selectedContact := Null;
      updating := false;
      lastStatusParam := None;
    }

    /** `fetchContacts`: the request carries the status parameter. A reply
        with data sets the list (`data.contacts || []`), and then the totals
        if it has a pagination block; reading a missing block throws after
        the list was already set. Loading ends in every case. */
    method FetchContacts(outcome: ContactsOutcome)
      modifies this`loading, this`lastStatusParam, this`contacts, this`totalContacts, this`totalPages
      ensures lastStatusParam == StatusParam(statusFilter)
      ensures !loading
      ensures outcome.ContactsResolved? ==>
                contacts == (if outcome.contacts.Some? then outcome.contacts.value else [])
      ensures !outcome.ContactsResolved? ==> contacts == old(contacts)
      ensures outcome.ContactsResolved? && outcome.pagination.Some? ==>
                totalContacts == outcome.pagination.value.total &&
                totalPages == outcome.pagination.value.pages
      ensures !(outcome.ContactsResolved? && outcome.pagination.Some?) ==>
                totalContacts == old(totalContacts) && totalPages == old(totalPages)
      ensures currentPage == old(currentPage) && statusFilter == old(statusFilter)
      ensures searchTerm == old(searchTerm) && selectedContact == old(selectedContact)
    {
      loading := true;
      lastStatusParam := StatusParam(statusFilter);
      if outcome.ContactsResolved? {
        contacts := if outcome.contacts.Some? then outcome.contacts.value else [];
        if outcome.pagination.Some? {
          totalContacts := outcome.pagination.value.total;
          totalPages := outcome.pagination.value.pages;
        }
      }
      loading := false;
    }

    /** `handleStatusUpdate(id, status)`: once the call resolves, `status`
        takes the server's value on the contact with that `_id` only, and the
        edit modal closes; a rejected call changes nothing. `updating` is
        cleared in every case. */
    method HandleStatusUpdate(id: Value, outcome: Outcome)
      modifies this`updating, this`contacts, this`isEditModalOpen, this`selectedContact
      ensures outcome.Resolved? ==>
                contacts == SetField(old(contacts), "_id", id, "status", Field(Data(outcome), "status")) &&
                !isEditModalOpen && selectedContact == Null
      ensures outcome.Threw? ==>
                contacts == old(contacts) && isEditModalOpen == old(isEditModalOpen) &&
                selectedContact == old(selectedContact)
      ensures !updating
      ensures currentPage == old(currentPage) && totalPages == old(totalPages)
    {
      updating := true;
      if outcome.Resolved? {
        contacts := SetField(contacts, "_id", id, "status", Field(Data(outcome), "status"));
        isEditModalOpen := false;
        selectedContact := Null;
      }
      updating := false;
    }

    /** `handleNoteUpdate(id, note)`: the same for `note`. */
    method HandleNoteUpdate(id: Value, outcome: Outcome)
      modifies this`updating, this`contacts, this`isEditModalOpen, this`selectedContact
      ensures outcome.Resolved? ==>
                contacts == SetField(old(contacts), "_id", id, "note", Field(Data(outcome), "note")) &&
                !isEditModalOpen && selectedContact == Null
      ensures outcome.Threw? ==>
                contacts == old(contacts) && isEditModalOpen == old(isEditModalOpen) &&
                selectedContact == old(selectedContact)
      ensures !updating
      ensures currentPage == old(currentPage) && totalPages == old(totalPages)
    {
      updating := true;
      if outcome.Resolved? {
        contacts := SetField(contacts, "_id", id, "note", Field(Data(outcome), "note"));
        isEditModalOpen := false;
        selectedContact := Null;
      }
      updating := false;
    }

    /** `handleViewContact(id)`: show the fetched inquiry. */
    method HandleViewContact(outcome: Outcome)
      modifies this`selectedContact, this`isViewModalOpen
      ensures !Fails(outcome) ==> selectedContact == Data(outcome) && isViewModalOpen
      ensures Fails(outcome) ==> selectedContact == old(selectedContact) && isViewModalOpen == old(isViewModalOpen)
      ensures contacts == old(contacts) && currentPage == old(currentPage)
    {
      if !Fails(outcome) {
        selectedContact := Data(outcome);
        isViewModalOpen := true;
      }
    }

    /** The Edit button on a row. */
    method OpenEdit(contact: Record)
      modifies this`selectedContact, this`isEditModalOpen
      ensures selectedContact == Obj(contact) && isEditModalOpen
      ensures contacts == old(contacts) && currentPage == old(currentPage)
    {
      selectedContact := Obj(contact);
      isEditModalOpen := true;
    }

    /** The modal's status select and note box: `{...selected, [field]: value}`. */
    method EditSelected(field: string, value: Value)
      modifies this`selectedContact
      ensures selectedContact == Obj(Spread(old(selectedContact))[field := value])
      ensures contacts == old(contacts) && currentPage == old(currentPage)
    {
      selectedContact := Obj(Spread(selectedContact)[field := value]);
    }

    /** Typing in the search box: the term changes and the page resets to 1. */
    method SetSearchTerm(term: string)
      modifies this`searchTerm, this`currentPage
      ensures searchTerm == term && currentPage == 1
      ensures statusFilter == old(statusFilter) && contacts == old(contacts)
    {
      searchTerm := term;
      currentPage := 1;
    }

    /** Choosing a status filter: the filter changes and the page resets to 1. */
    method SetStatusFilter(value: string)
      modifies this`statusFilter, this`currentPage
      ensures statusFilter == value && currentPage == 1
      ensures searchTerm == old(searchTerm) && contacts == old(contacts)
    {
      statusFilter := value;
      currentPage := 1;
    }

    /** Previous: `setCurrentPage(p => Math.max(1, p - 1))` */
    method PreviousPage()
      modifies this`currentPage
      ensures currentPage == Pagination.Prev(old(currentPage))
      ensures totalPages == old(totalPages) && contacts == old(contacts)
    {
      currentPage := Pagination.Prev(currentPage);
    }

    /** Next: `setCurrentPage(p => Math.min(totalPages, p + 1))` */
    method NextPage()
      modifies this`currentPage
      ensures currentPage == Pagination.Next(old(currentPage), totalPages)
      ensures totalPages == old(totalPages) && contacts == old(contacts)
    {
      currentPage := Pagination.Next(currentPage, totalPages);
    }

    /** A page button. */
    method GoToPage(i: nat)
      requires i < |PageButtons(totalPages)|
      modifies this`currentPage
      ensures currentPage == i + 1 && 1 <= currentPage <= totalPages
      ensures totalPages == old(totalPages) && contacts == old(contacts)
    {
      currentPage := PageButtons(totalPages)[i];
    }
  }
}
