# Saree store admin: verified model of the admin front end's logic

This project is a Dafny model of the logic in the admin front end of a saree
retail store. The front end is a React single-page application. Admins use it
to manage sarees, catalogs, collections, reviews, testimonials and contact
inquiries.

The front end has no algorithmic engine. It does have a number of small
stateful procedures whose behaviour can be stated exactly, and the model
covers those:

- **The session store** (`AuthContext`).
  - Boot re-validates a stored token against the profile endpoint. Only an
    HTTP 401 discards the token.
  - Login succeeds only on `success && data && data.token`.
  - Logout is unconditional.
- **The global error channel** (`ErrorContext`, `ErrorHandler`).
  - A message is chosen by a fallback chain.
  - A process-wide slot stays null until a provider mounts.
- **The API client's interceptors** (`ApiClient`).
  - The bearer header is set per section 2.1 of RFC 6750.
  - A success toast appears only when the call opted in.
  - Every failure is routed to the error handler and then re-raised.
- **The multipart builders of the services** (`AdminService`, `AuthService`).
  - The admin service sends every property whose value is neither undefined
    nor null.
  - The profile update uses an allow-list plus a File/Blob check.
- **Local list reconciliation in each admin view** (`Records`, and one module
  per view). After a successful call, a view updates its list without a
  refetch:
  - fetched records are normalised to carry `id = _id || id`;
  - a create appends one entry;
  - an update merges into the entry with the edited id;
  - a delete filters that id out;
  - a toggle flips one flag.

  Two views add their own rules. A catalog holds at most six sarees. Sarees
  convert a catalog id to its name for editing, and back again for submitting.
- **Pagination arithmetic** (`Pagination`).
  - Prev/Next clamps.
  - The five-button sliding window.
  - The "Showing X to Y of Z" bounds.

## How the model is built

**JavaScript values and records.**
- JavaScript values are the datatype `Js.Value`. It spells out truthiness,
  `a || b`, property reads on possibly missing objects, object spread and
  `String(v)`.
- A record held in view state is a `map<string, Value>`, so `{...a, ...b}` is
  the map union `a + b`.
- An object whose key order matters (the objects the services turn into
  FormData) is a sequence of properties.

**Network results are inputs.**
- Every awaited API call is a parameter of type `Http.Outcome`. The call
  either resolves with a body or throws.
- A refetch that a handler awaits gets a parameter of its own.
- Where a view reads integer pagination fields, the outcome is a small typed
  datatype instead.

**Pure logic and state.**
- Pure transformations are functions, with lemmas about them. This covers
  normalisation, merges, filters, the page window and the FormData contents.
- Each component that updates state slots step by step is a class:
  - its fields are the `useState` slots;
  - its methods are the handlers;
  - each method's `modifies` clause names the slots it may write, so every
    other slot keeps its value;
  - its `ensures` states the new value of each slot it names, in terms of
    those functions.
- The two FormData loops are methods with loop invariants. They are proved
  against the functions that describe the body they build.

**Two behaviours of the code worth noting:**
- `isAuthenticated` is `!!user`, not `user != null`. A falsy user object
  therefore counts as signed out.
- `login` requires `success`, `data` and `data.token` to be truthy. It does
  not look at `data.user`, and stores whatever that field holds.

## Model

| member | source | states |
|---|---|---|
| Js.DecimalRoundTrip | src/services/authService.js:35 | the decimal numeral `String(n)` gives for a non-negative integer reads back as n |
| Records.Normalize | src/pages/admin/AdminCollections.tsx:77-80 | the normalised record's `id` is `_id` when truthy and the old `id` otherwise; it has the old keys plus `id`, and every other field is unchanged |
| Records.NormalizeIdempotent | src/pages/admin/AdminSarees.tsx:116-119 | normalising a normalised record changes nothing |
| Records.RecordsOf | src/pages/admin/AdminTestimonials.tsx:92-97 | `list.map(...)` over a fetched value succeeds exactly when it is an array with no null or undefined element; it then yields one record per element, in order |
| Records.NormalizeAll | src/pages/admin/AdminSarees.tsx:116-119 | same length as the list, and element i is the normalisation of element i |
| Records.MapWhere | src/pages/admin/AdminReviews.tsx:121-125 | same length; entries carrying the id are transformed, and every other entry stays as it was, in place |
| Records.MapWhereAbsent | src/pages/admin/AdminReviews.tsx:121-125 | an update of an id that no entry carries leaves the list unchanged |
| Records.MergeEffect | src/pages/admin/AdminCatalogs.tsx:178-182 | a merge changes only the entries with the id; each of them takes the patch's value for every field the patch names and keeps every other field |
| Records.SetFieldEffect | src/pages/admin/AdminContacts.tsx:118-124 | setting a field changes that field, and only that field, on the entries with the id; the other entries are unchanged |
| Records.FlippedTwice | src/pages/admin/AdminReviews.tsx:147 | negating a boolean flag twice gives back the record |
| Records.FlipTwice | src/pages/admin/AdminReviews.tsx:144-150 | toggling the featured flag of the same id twice restores the whole list, when the matching entries hold a real boolean there |
| Records.RemoveWhere | src/pages/admin/AdminCatalogs.tsx:285 | the result holds no entry with the id and every entry without it; it is an order-preserving subsequence whose length drops by the number of matches |
| Records.RemoveWhereAbsent | src/pages/admin/AdminCatalogs.tsx:285 | deleting an id that no entry carries leaves the list unchanged |
| Pagination.Prev | src/pages/admin/AdminReviews.tsx:451 | `max(1, page - 1)`: never below 1, and one page back whenever that is possible |
| Pagination.Next | src/pages/admin/AdminReviews.tsx:486 | `min(pages, page + 1)`: never above pages, and one page forward whenever that is possible |
| Pagination.ClampsStayInRange | src/pages/admin/AdminContacts.tsx:436-460 | from a page in [1, pages], Previous and Next stay in [1, pages] |
| Pagination.PageWindow | src/pages/admin/AdminReviews.tsx:458-468 | min(5, pages) buttons with consecutive numbers, all in [1, pages], including the current page whenever it is a valid page |
| Pagination.SmallWindowIsAllPages | src/pages/admin/AdminReviews.tsx:458-463 | with at most five pages, the buttons are exactly 1..pages |
| Pagination.ShowingBounds | src/pages/admin/AdminReviews.tsx:444 | on a page holding rows, "Showing X-Y of Z" has 1 <= X <= Y <= Z and spans at most `limit` rows |
| Http.FormData.constructor | src/services/adminService.js:21 | a new FormData holds no parts |
| Http.FormData.Append | src/services/adminService.js:26 | append adds one part at the end: a File/Blob as a file part, anything else as `String(v)` |
| ErrorContext.ErrorSlot.constructor | src/context/ErrorContext.jsx:5 | the global slot starts null |
| ErrorContext.ErrorProvider.constructor | src/context/ErrorContext.jsx:8 | the error state starts null, and no setter has been called yet |
| ErrorContext.ErrorProvider.SetError | src/context/ErrorContext.jsx:8 | the error becomes the given message, so the latest message wins; one setter call is counted |
| ErrorContext.ErrorProvider.ClearError | src/context/ErrorContext.jsx:10 | the error becomes null, whatever it was before |
| ErrorContext.ErrorProvider.Mount | src/context/ErrorContext.jsx:12-14 | after the mount effect, the slot reaches this provider's setters |
| ErrorHandler.Message | src/services/errorHandler.js:6-9 | the message is the server's `response.data.message` when truthy, else `error.message` when truthy, else the fixed fallback text; it is always truthy |
| ErrorHandler.MessageNeverEmpty | src/services/errorHandler.js:6-9 | the chosen message is never the empty string |
| ErrorHandler.HandleError | src/services/errorHandler.js:11-13 | with a provider mounted, its error becomes the chosen message after exactly one setter call; with the slot null, nothing changes |
| ApiClient.BaseUrl | src/config/api.js:21 | the configured base URL when it is set and non-empty, otherwise "/api" |
| ApiClient.BearerRoundTrip | src/config/api.js:30 | the header "Bearer " + token gives the token back unchanged when read with the Bearer scheme |
| ApiClient.BearerInjective | src/config/api.js:30 | distinct tokens give distinct Authorization headers |
| ApiClient.InterceptRequest | src/config/api.js:27-33 | with a stored token, Authorization becomes exactly "Bearer " + token and the other headers stay; with none, the config passes through untouched; the same config is returned |
| ApiClient.OnFulfilled | src/config/api.js:39-45 | a toast appears if and only if the call opted in with `showSuccess` and the payload's message is truthy, and it shows that message; the response is returned unchanged |
| ApiClient.OnRejected | src/config/api.js:46-49 | a failure reaches the mounted provider through exactly one setter call carrying the handler's message, and the same error is re-raised |
| AuthContext.Session.constructor | src/context/AuthContext.tsx:32-33 | the session starts with no user, loading, the token storage as an earlier session left it, and no profile request |
| AuthContext.Session.InitializeAuth | src/context/AuthContext.tsx:37-69 | with no stored token, no profile request is made and token and user stay; with one, exactly one request is made. A fetched profile becomes the user. A 401 removes the token. Any other failure keeps it. Loading is false in every branch |
| AuthContext.Session.Login | src/context/AuthContext.tsx:74-94 | returns true if and only if the call responded with `success && data && data.token`; it then stores `String(token)` and sets the user to `data.user`. Otherwise, including a throw, neither token nor user changes |
| AuthContext.Session.Logout | src/context/AuthContext.tsx:96-99 | the token is removed and the user becomes null, so `isAuthenticated` is false |
| AuthContext.BootWithoutToken | src/context/AuthContext.tsx:38-39 | a boot without a stored token ends signed out and not loading, with no token and no profile request |
| AuthContext.BootWithFailingProfile | src/context/AuthContext.tsx:44-66 | a boot whose profile request fails ends signed out and not loading; the token is removed after a 401 and kept after any other failure |
| AdminService.PresentAppend | src/services/adminService.js:24-28 | the parts built from two concatenated objects are the parts of each, in order |
| AdminService.PresentIsFilterThenConvert | src/services/adminService.js:24-28 | the body equals the object filtered to its present properties and then converted, so kept fields keep their key order |
| AdminService.PresentExactly | src/services/adminService.js:25-26 | every part comes from a property that is neither undefined nor null, and every such property gives a part, including false, 0 and "" |
| AdminService.PresentNamesAreKeys | src/services/adminService.js:24-26 | every part is named after a key of the object |
| AdminService.PresentNamesDistinct | src/services/adminService.js:24-28 | because object keys are distinct, no field is appended twice |
| AdminService.AppendPresent | src/services/adminService.js:24-28 | the `forEach` loop appends exactly the present properties, in key order, after what the FormData already held |
| AdminService.MultipartOf | src/services/adminService.js:21-28 | a fresh FormData filled by the loop holds exactly the present properties |
| AdminService.ItemPathRoundTrip | src/services/adminService.js:47 | the path `${base}/${id}` gives back `String(id)` when read under the same base |
| AdminService.ItemPathInjective | src/services/adminService.js:55 | distinct string ids give distinct paths |
| AdminService.CreateSaree | src/services/adminService.js:20-35 | POST to /admin/sarees with exactly the present fields, opting in to the success toast |
| AdminService.UpdateSaree | src/services/adminService.js:37-52 | PUT with the same field filter, to the path that names `String(id)`, opting in to the toast |
| AdminService.DeleteSaree | src/services/adminService.js:54-59 | DELETE without a body, to the path that names `String(id)`, opting in to the toast |
| AdminService.CreateCollection | src/services/adminService.js:80-95 | POST to /admin/collections with exactly the present fields, opting in to the toast |
| AdminService.UpdateCollection | src/services/adminService.js:97-112 | PUT with the same filter, to the path that names `String(id)` |
| AdminService.DeleteCollection | src/services/adminService.js:114-119 | DELETE without a body, to the path that names `String(id)` |
| AuthService.AllowedEntriesAppend | src/services/authService.js:33-37 | the parts for two concatenated key lists are the parts of each, in order |
| AuthService.AllowedEntriesSound | src/services/authService.js:33-37 | every part appended is named by a walked key whose value is present, and holds `String(value)` as text |
| AuthService.AllowedEntriesComplete | src/services/authService.js:33-37 | every walked key whose value is present is appended |
| AuthService.AllowedEntriesInOrder | src/services/authService.js:33-37 | the names appended form an order-preserving subsequence of the keys walked |
| AuthService.OnlyAllowedFields | src/services/authService.js:23-40 | only allow-listed fields and the image are ever sent; `email` and `role` never are, whatever the submitted object holds |
| AuthService.ImageLast | src/services/authService.js:38-40 | the image is sent, once and as a file part, exactly when it is a File or Blob, and it is then the last part |
| AuthService.AllowedFieldsExactly | src/services/authService.js:23-37 | every allow-listed field with a present value is sent as `String(value)`; every text part sent is such a field; the order is the allow-list's |
| AuthService.AppendAllowed | src/services/authService.js:33-37 | the `for` loop over the allow-list appends exactly the parts described above, after what the FormData already held |
| AuthService.UpdateUserProfile | src/services/authService.js:21-46 | PUT to /admin/profile carrying exactly the allow-listed fields followed by the optional image, opting in to the toast |
| AdminReviews.NormalizeReview | src/pages/admin/AdminReviews.tsx:89-93 | `id` = `_id`, or `id` when that is falsy; `productId` is kept when truthy and otherwise becomes an empty object; the other fields are unchanged |
| AdminReviews.NormalizeReviewStable | src/pages/admin/AdminReviews.tsx:89-93 | a normalised review always has a truthy product, and normalising it again changes nothing |
| AdminReviews.LoadedReviews | src/pages/admin/AdminReviews.tsx:84-95 | a list is loaded exactly when the call reported success and `data.reviews` (or `data` when that is falsy) is an array of non-null records; the loaded list then holds each of them normalised, in order |
| AdminReviews.LoadedReviewsNormalized | src/pages/admin/AdminReviews.tsx:85-93 | the loaded list has one review per element of `data.reviews`, or `data` when that is falsy, in order, each with the server-derived id and a truthy product |
| AdminReviews.TruncateReview | src/pages/admin/AdminReviews.tsx:305-307 | a review longer than 50 characters shows as its first 50 characters plus "..."; a shorter one shows unchanged |
| AdminReviews.TruncateReviewBounds | src/pages/admin/AdminReviews.tsx:305-307 | the shown text is at most 53 characters and begins with the review's own first characters |
| AdminReviews.ReviewsView.constructor | src/pages/admin/AdminReviews.tsx:68-77 | the initial state slots: page 1, limit 10, no totals, filter "all", no delete dialog |
| AdminReviews.ReviewsView.FetchReviews | src/pages/admin/AdminReviews.tsx:79-111 | on success, the list becomes the normalised reviews, and a pagination block sets the totals and the page (a page of 0 keeps the current one); otherwise the list and the paging stay. Loading ends in every case; no other slot changes |
| AdminReviews.ReviewsView.HandleStatusChange | src/pages/admin/AdminReviews.tsx:117-138 | on success, `isApproved` takes the chosen status on the review with that id only; otherwise the list is unchanged; no other slot changes |
| AdminReviews.ReviewsView.HandleToggleFeatured | src/pages/admin/AdminReviews.tsx:140-161 | on success, `isFeatured` is negated on the review with that id only; otherwise the list is unchanged; no other slot changes |
| AdminReviews.ReviewsView.RequestDelete | src/pages/admin/AdminReviews.tsx:399-402 | remembers the review and opens the dialog; no other slot changes |
| AdminReviews.ReviewsView.ConfirmDelete | src/pages/admin/AdminReviews.tsx:163-183 | with nothing selected, nothing changes; otherwise success removes exactly the selected id, and the dialog closes and forgets the review in every outcome; no other slot changes |
| AdminReviews.ReviewsView.PreviousPage | src/pages/admin/AdminReviews.tsx:451 | the page becomes `max(1, page - 1)`; no other slot changes |
| AdminReviews.ReviewsView.NextPage | src/pages/admin/AdminReviews.tsx:486 | the page becomes `min(pages, page + 1)`; no other slot changes |
| AdminReviews.ReviewsView.GoToPage | src/pages/admin/AdminReviews.tsx:458-475 | a window button sets the page to its number, which lies in [1, pages]; no other slot changes |
| AdminReviews.ReviewsView.SetStatusFilter | src/pages/admin/AdminReviews.tsx:224 | the status select sets the filter and leaves the list and the page alone; no other slot changes |
| AdminCatalogs.Variety | src/pages/admin/AdminCatalogs.tsx:121-127 | a catalog's saree is exactly the object with `id` (`_id`, or `id` when falsy), `name`, `price`, `color` and `image` of its populated entry |
| AdminCatalogs.Varieties | src/pages/admin/AdminCatalogs.tsx:119-139 | a non-empty `sareeIds` array maps element-wise to sarees; anything without a length, or an empty one, gives []; the mapping throws exactly on a null entry or a non-empty string |
| AdminCatalogs.NormalizeCatalog | src/pages/admin/AdminCatalogs.tsx:113-139 | a catalog normalises exactly when its sarees can be derived, and is then `{...catalog, id, sarees}` |
| AdminCatalogs.NormalizedCatalogShape | src/pages/admin/AdminCatalogs.tsx:113-139 | a normalised catalog carries the server-derived id, and one saree per `sareeIds` entry, each with that entry's `_id` (or `id` when falsy); every other field is the server's |
| AdminCatalogs.NormalizeCatalogs | src/pages/admin/AdminCatalogs.tsx:110-141 | `Promise.all` succeeds exactly when every catalog normalises, and keeps the order |
| AdminCatalogs.LoadedCatalogs | src/pages/admin/AdminCatalogs.tsx:107-143 | catalogs are loaded exactly when the call reported success, its data is an array of non-null records and every one of them normalises; the loaded list is then each catalog normalised, in order |
| AdminCatalogs.ChoosableSarees | src/pages/admin/AdminCatalogs.tsx:153-162 | sarees are stored exactly when the call reported success and has data; they are then `data.sarees`, or `data` when that is falsy |
| AdminCatalogs.CreatedCatalog | src/pages/admin/AdminCatalogs.tsx:197 | the appended catalog is the server record with `id` = `_id`, or `id` when that is falsy |
| AdminCatalogs.ToggleMember | src/pages/admin/AdminCatalogs.tsx:325-331 | toggling adds the id when it is absent and removes it when present; no other id changes membership |
| AdminCatalogs.ToggleTwice | src/pages/admin/AdminCatalogs.tsx:325-331 | toggling twice restores membership, and restores the exact list when the id was absent |
| AdminCatalogs.FilterDropLast | src/pages/admin/AdminCatalogs.tsx:328 | removing an id just appended to a list that lacked it gives back the list |
| AdminCatalogs.AddRefusedExactly | src/pages/admin/AdminCatalogs.tsx:295-298 | adding a saree is refused exactly when the first catalog with the id already holds six or more sarees |
| AdminCatalogs.AddUnknownAllowed | src/pages/admin/AdminCatalogs.tsx:295-296 | adding to an id that no catalog carries is never refused |
| AdminCatalogs.CatalogsView.constructor | src/pages/admin/AdminCatalogs.tsx:70-93 | the initial state slots, with the form's status "draft" and nothing expanded |
| AdminCatalogs.CatalogsView.FetchCatalogs | src/pages/admin/AdminCatalogs.tsx:104-151 | the list is replaced only by a fully normalised successful response; loading ends in every case; no other slot changes |
| AdminCatalogs.CatalogsView.FetchSarees | src/pages/admin/AdminCatalogs.tsx:153-162 | the choosable sarees become what `ChoosableSarees` yields; a failure, or the throw on a reply without data, keeps them; no other slot changes |
| AdminCatalogs.CatalogsView.HandleSubmit | src/pages/admin/AdminCatalogs.tsx:164-220 | success on update merges into the edited id only. Success on create appends one entry. A throw leaves list, dialog and form unchanged; otherwise the dialog closes and the form resets; no other slot changes |
| AdminCatalogs.CatalogsView.HandleSareeSubmit | src/pages/admin/AdminCatalogs.tsx:222-268 | editing a catalog saree, or having no saree selected, sends nothing and changes nothing; otherwise exactly one add request is sent; success refetches both lists, so the catalogs and choosable sarees follow their refetches and loading ends; unless the request throws, the dialog closes and resets; no other slot changes |
| AdminCatalogs.CatalogsView.HandleEdit | src/pages/admin/AdminCatalogs.tsx:270-279 | the form takes the catalog's name, description and status, with no image, and opens; no other slot changes |
| AdminCatalogs.CatalogsView.HandleDelete | src/pages/admin/AdminCatalogs.tsx:281-292 | success removes every catalog with the id and keeps the rest in order; otherwise the list is unchanged; no other slot changes |
| AdminCatalogs.CatalogsView.HandleAddSaree | src/pages/admin/AdminCatalogs.tsx:294-303 | refused, with the dialog left as it was, when the catalog is full; otherwise the saree dialog opens on that catalog with an empty form; no other slot changes |
| AdminCatalogs.CatalogsView.HandleDeleteSaree | src/pages/admin/AdminCatalogs.tsx:310-323 | on success both lists are refetched: the catalogs and the choosable sarees follow their refetches and loading ends; otherwise nothing changes; no other slot changes |
| AdminCatalogs.CatalogsView.ToggleCatalog | src/pages/admin/AdminCatalogs.tsx:325-331 | the expanded list becomes the toggled list; no other slot changes |
| AdminSarees.CatalogNameOf | src/pages/admin/AdminSarees.tsx:152-153 | the category id shows as the name of the first catalog with that `_id`, and as "" when there is none |
| AdminSarees.CatalogIdOf | src/pages/admin/AdminSarees.tsx:205-208 | the form's name converts to the `_id` of the first catalog with that name, or "" when there is none |
| AdminSarees.CategoryRoundTrip | src/pages/admin/AdminSarees.tsx:205-208 | when no two catalogs share a name, converting an existing catalog id to its name (as on edit) and back (as on submit) gives the original id |
| AdminSarees.UnknownCategoryName | src/pages/admin/AdminSarees.tsx:152-156 | a category that no catalog carries shows as "", and passes only the "all" filter (or a filter that is itself "") |
| AdminSarees.FilteredSareesExactly | src/pages/admin/AdminSarees.tsx:146-158 | a saree is kept if and only if its name contains the term ignoring case and its category passes; the result is an order-preserving subsequence |
| AdminSarees.FilterAllShowsEverything | src/pages/admin/AdminSarees.tsx:146-158 | an empty search with the "all" category shows every saree |
| AdminSarees.Submitted | src/pages/admin/AdminSarees.tsx:215-224 | the submitted object holds, in this key order and with distinct keys, name, description, price, the category converted to a catalog id, fabric, color, work and image, each taken from the form |
| AdminSarees.LoadedSarees | src/pages/admin/AdminSarees.tsx:111-119 | a list is loaded exactly when the call reported success and `data.sarees` (or `data` when that is falsy) is an array of non-null records, never from a reply without data; each loaded saree, in order, is its server record normalised to carry `_id` (or `id` when falsy) as its id |
| AdminSarees.SareesView.constructor | src/pages/admin/AdminSarees.tsx:92-105 | the initial state slots, with the default form |
| AdminSarees.SareesView.FetchSarees | src/pages/admin/AdminSarees.tsx:107-127 | on success, the list becomes the normalised `data.sarees`, or `data` when that is falsy; otherwise it stays. Loading ends in every case; no other slot changes |
| AdminSarees.SareesView.FetchCategories | src/pages/admin/AdminSarees.tsx:129-138 | on success with an array of non-null catalogs, the catalogs and, element-wise, their names for the dropdown; after a failed or rejected call both stay; no other slot changes |
| AdminSarees.SareesView.HandleEdit | src/pages/admin/AdminSarees.tsx:160-177 | the form takes the saree's fields, with its category shown as the matching catalog's name and no image; no other slot changes |
| AdminSarees.SareesView.HandleDelete | src/pages/admin/AdminSarees.tsx:179-182 | remembers the saree's id and name and opens the dialog; no other slot changes |
| AdminSarees.SareesView.ConfirmDelete | src/pages/admin/AdminSarees.tsx:184-198 | success removes that id only; the dialog closes and forgets the saree in every outcome; no other slot changes |
| AdminSarees.SareesView.HandleSubmit | src/pages/admin/AdminSarees.tsx:200-268 | sends the present form fields, with the category as a catalog id, by PUT to the edited saree's path or by POST. Success on update merges into the edited id only; success on create appends one normalised entry. A throw changes nothing; otherwise the dialog closes and the form resets; no other slot changes |
| AdminTestimonials.FilteredTestimonialsExactly | src/pages/admin/AdminTestimonials.tsx:112-128 | a testimonial is kept if and only if search, status and featured filters all accept it; the result is an order-preserving subsequence |
| AdminTestimonials.NoFilterShowsAll | src/pages/admin/AdminTestimonials.tsx:112-128 | an empty search with both filters "all" shows the whole list |
| AdminTestimonials.UnknownStatusShowsNothing | src/pages/admin/AdminTestimonials.tsx:117-120 | a status value other than "all", "active" and "inactive" hides every testimonial |
| AdminTestimonials.ActiveInactiveSplit | src/pages/admin/AdminTestimonials.tsx:119-120 | every testimonial passes exactly one of "active" and "inactive" |
| Records.LoadedList | src/pages/admin/AdminCollections.tsx:74-81 | a list is loaded exactly when the call reported success and its data is an array of non-null records; every loaded record, in order, carries the id `_id` (or `id` when falsy) of its server record; the testimonial view loads its list by the same rule |
| AdminTestimonials.TestimonialsView.constructor | src/pages/admin/AdminTestimonials.tsx:61-84 | the initial state slots; the form is the default: rating 5, featured, active, empty name and review |
| AdminTestimonials.TestimonialsView.FetchTestimonials | src/pages/admin/AdminTestimonials.tsx:86-105 | on success, the list becomes the normalised data; otherwise it stays. Loading ends in every case; no other slot changes |
| AdminTestimonials.TestimonialsView.HandleEdit | src/pages/admin/AdminTestimonials.tsx:130-140 | the form takes the testimonial's five fields and opens; no other slot changes |
| AdminTestimonials.TestimonialsView.HandleDelete | src/pages/admin/AdminTestimonials.tsx:142-145 | remembers its id and name and opens the dialog; no other slot changes |
| AdminTestimonials.TestimonialsView.ConfirmDelete | src/pages/admin/AdminTestimonials.tsx:147-167 | success removes that id only; otherwise the list is unchanged; the dialog closes and forgets the testimonial in every outcome; no other slot changes |
| AdminTestimonials.TestimonialsView.HandleSubmit | src/pages/admin/AdminTestimonials.tsx:169-224 | update merges into the edited id on success; create appends one normalised entry only when `success === true`; a throw changes nothing, and otherwise the dialog closes and the form resets; `isSubmitting` is false afterwards in every outcome; no other slot changes |
| AdminContacts.StatusParam | src/pages/admin/AdminContacts.tsx:92 | no status parameter for "all", and the filter value itself otherwise |
| AdminContacts.StatusParamInjective | src/pages/admin/AdminContacts.tsx:92 | different filters never send the same status parameter |
| AdminContacts.BadgeStyle | src/pages/admin/AdminContacts.tsx:173-184 | resolved is green, in-progress yellow and pending red |
| AdminContacts.BadgeStyleDistinguishes | src/pages/admin/AdminContacts.tsx:173-184 | exactly the unknown statuses fall back to grey, and the three known statuses get three different styles |
| AdminContacts.PageButtons | src/pages/admin/AdminContacts.tsx:209 | one button per page, button i showing i + 1 |
| AdminContacts.PageButtonsExactly | src/pages/admin/AdminContacts.tsx:209 | p is a page button if and only if 1 <= p <= totalPages |
| AdminContacts.SummaryCountsBounded | src/pages/admin/AdminContacts.tsx:278-292 | the Pending and Resolved counts together never exceed the number of loaded inquiries |
| AdminContacts.UpdateCalls | src/pages/admin/AdminContacts.tsx:624-636 | with a contact selected, its status update is always sent, first; the note update follows if and only if the note is truthy; with none selected, nothing is sent |
| AdminContacts.EmptyNoteNeverSent | src/pages/admin/AdminContacts.tsx:630-635 | every note update sent carries a non-empty note |
| AdminContacts.ContactsView.constructor | src/pages/admin/AdminContacts.tsx:70-81 | the initial state slots: page 1 of 1, limit 10, filter "all", no modal open |
| AdminContacts.ContactsView.FetchContacts | src/pages/admin/AdminContacts.tsx:88-110 | the request carries the status parameter; a reply with data sets the list to `contacts`, or [] when that is falsy, and the totals when a pagination block is present; otherwise list and totals stay. Loading ends in every case; no other slot changes |
| AdminContacts.ContactsView.HandleStatusUpdate | src/pages/admin/AdminContacts.tsx:112-135 | once the call resolves, `status` takes the server's value on the contact with that `_id` only and the modal closes; a throw changes nothing; `updating` ends false; no other slot changes |
| AdminContacts.ContactsView.HandleNoteUpdate | src/pages/admin/AdminContacts.tsx:137-160 | the same for `note`; no other slot changes |
| AdminContacts.ContactsView.HandleViewContact | src/pages/admin/AdminContacts.tsx:162-171 | the fetched inquiry is shown in the view modal; a failure changes nothing; no other slot changes |
| AdminContacts.ContactsView.OpenEdit | src/pages/admin/AdminContacts.tsx:399-402 | selects the contact and opens the edit modal; no other slot changes |
| AdminContacts.ContactsView.EditSelected | src/pages/admin/AdminContacts.tsx:588-616 | the modal's inputs set one field of the selected contact; no other slot changes |
| AdminContacts.ContactsView.SetSearchTerm | src/pages/admin/AdminContacts.tsx:229-232 | the term changes and the page resets to 1; no other slot changes |
| AdminContacts.ContactsView.SetStatusFilter | src/pages/admin/AdminContacts.tsx:239-242 | the filter changes and the page resets to 1; no other slot changes |
| AdminContacts.ContactsView.PreviousPage | src/pages/admin/AdminContacts.tsx:436 | the page becomes `max(1, p - 1)`; no other slot changes |
| AdminContacts.ContactsView.NextPage | src/pages/admin/AdminContacts.tsx:459-461 | the page becomes `min(totalPages, p + 1)`; no other slot changes |
| AdminContacts.ContactsView.GoToPage | src/pages/admin/AdminContacts.tsx:443-448 | a page button sets the page to its number, which lies in [1, totalPages]; no other slot changes |
| AdminCollections.CreatedCollection | src/pages/admin/AdminCollections.tsx:128-136 | the appended collection has `id` = `_id`, or `id` when that is falsy; a falsy image becomes undefined; a falsy `sareeCount` becomes 0; every other field is the server's |
| AdminCollections.CreatedCollectionHasCount | src/pages/admin/AdminCollections.tsx:134 | a created collection's saree count is never null or undefined |
| AdminCollections.UpdatePatch | src/pages/admin/AdminCollections.tsx:108-112 | the merged patch is the response with its id re-derived as `_id` (or `id` when falsy) |
| AdminCollections.ToggleSendsNegatedFlag | src/pages/admin/AdminCollections.tsx:195-199 | the toggle always sends a `featured` part, "true" exactly when the collection was not featured |
| AdminCollections.CollectionsView.constructor | src/pages/admin/AdminCollections.tsx:53-64 | the initial state slots, with an empty form |
| AdminCollections.CollectionsView.FetchCollections | src/pages/admin/AdminCollections.tsx:71-89 | on success, the list becomes the normalised data; otherwise it stays. Loading ends in every case; no other slot changes |
| AdminCollections.CollectionsView.HandleSubmit | src/pages/admin/AdminCollections.tsx:91-164 | sends the present form fields by PUT to the edited collection's path, or by POST. A throw (including a missing response on create, or on an update that matches an entry) changes nothing. Otherwise the dialog closes, the form resets, and the list is the refetch or, failing that, the merge into the edited id or the list with one appended entry; no other slot changes |
| AdminCollections.CollectionsView.HandleEdit | src/pages/admin/AdminCollections.tsx:166-175 | the form takes the collection's name, description and featured flag, with no image, and opens; no other slot changes |
| AdminCollections.CollectionsView.HandleDelete | src/pages/admin/AdminCollections.tsx:177-188 | success removes that id only; otherwise the list is unchanged; no other slot changes |
| AdminCollections.CollectionsView.ToggleFeatured | src/pages/admin/AdminCollections.tsx:190-210 | with no collection carrying the id, nothing is sent and nothing changes; otherwise the first one is sent back by PUT to its path with name, description and the negated flag, and success refetches the list and ends loading; no other slot changes |

## Left out

- Rendering (JSX, class names, icons, dialogs as UI) and toasts are not modelled: they are presentational. The one toast with a decision behind it is modelled (`ApiClient.OnFulfilled`).
- The network and the server are not modelled: each awaited call is an input parameter, and a refetch the handler awaits is a second one.
- Concurrency is not modelled: overlapping handlers, state updates after unmount, and the two updates the contact modal fires without awaiting either (src/pages/admin/AdminContacts.tsx:626-634) run here one after the other.
- React's batching of state updates is not modelled: a handler's writes are applied in program order.
- AdminContacts.ContactsView.HandleStatusUpdate: a reply without `data` makes the deferred `setContacts` updater throw during the next render; the model treats every resolved reply as applied.
- AdminContacts.ContactsView.HandleNoteUpdate: the same deferred throw is not modelled.
- AdminContacts.ContactsView.FetchContacts: the reply is a typed outcome (contacts as records, integer totals), so a non-array `contacts` value is not modelled.
- AdminReviews.ReviewsView.FetchReviews: pagination fields are integers; NaN, fractions and missing numeric fields are not modelled.
- AdminReviews.ReviewsView.SetStatusFilter: the refetch the select triggers through the effect is `FetchReviews`, called separately; the search box of this view feeds nothing and is not modelled.
- AdminSarees.FilteredSarees and AdminTestimonials.FilteredTestimonials require the filtered names (and reviews) to be strings: the source calls `toLowerCase` on them and would throw during rendering otherwise.
- AdminSarees.SareesView.FetchCategories: a successful reply whose truthy `data` is not an array of non-null catalogs is stored into `catalogs` by the source before the name mapping throws (src/pages/admin/AdminSarees.tsx:131-136); the model keeps `catalogs` a list of records and leaves both slots as they were for such a reply, so it does not capture that partial write, nor the throws the view's later catalog lookups would then raise.
- AdminTestimonials.TestimonialsView.HandleSubmit: `isSubmitting` is true while the request is in flight; with the awaited call as a parameter that intermediate state is not observable, so only its final false is stated.
- Case folding is ASCII only (`Js.Lower`); Unicode `toLowerCase` and UTF-16 string lengths are not modelled.
- Numbers are unbounded integers; floating point is not modelled.
- A `length` property read off a plain object (`catalog.sarees?.length`) is modelled as 0: only arrays and strings have a length here.
- Spread of arrays and strings (which copies index keys) is modelled as copying nothing: only objects are spread in the modelled code paths.
- The catalog, review, testimonial and contact services are not part of this model; their results are outcome parameters.
- handleEditSaree in src/pages/admin/AdminCatalogs.tsx:305-308 only shows a toast and is not modelled.
- `URL.createObjectURL`, `toLocaleDateString` and `localStorage` are not modelled as such: the stored token is a field of the session.
- The request interceptor's error path (src/config/api.js:34) re-raises unchanged and is not modelled separately.
