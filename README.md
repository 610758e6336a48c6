# Property management server and client, modelled in Dafny

This project models the core of a property-management application. The core has two halves.

**The Express/PostgreSQL backend.** The model covers:

- the bearer-token middleware and the ownership gate;
- login and forgot-password;
- the dashboard figures;
- listing, fetching, creating, updating and soft-deleting properties;
- the image and document routes below a property;
- the zod schemas that validate every request body and query.

**The React client.** The model covers:

- the global store: the session, notifications, the loading flag, the socket and persistence;
- the property edit view: prefilling the form, the tag text field and the request payloads;
- the forgot-password view.

The database is a value `Db(users, properties, images, documents)`. Each table is a sequence of rows in storage order. Each route is a function or a method from the database and the request to a new database and an answer.

The SQL the routes issue is written out:

- WHERE is `Seqs.Filter`;
- ORDER BY is a stable insertion sort, `Seqs.SortBy`, so rows that compare equal keep their storage order;
- LIMIT/OFFSET is `Seqs.Page`;
- `UPDATE ... SET col = $n` is assignment to typed columns, `Tables.WriteProperty` and its siblings. It fails when a column does not exist or does not accept the value.

The parts of the system that cannot be seen are parameters:

- token signing and verification;
- bcrypt's password comparison;
- random UUIDs and reset tokens;
- the clock, in milliseconds;
- whether the mail service accepted a message;
- ILIKE matching;
- zod's URL, e-mail and date checks.

The loops of the server stay loops:

- `Listing.BuildListQuery` builds the WHERE clause of the listing;
- `Mutations.BuildSetClauses`, `Mutations.BuildPropertyUpdate` and `Mutations.BuildMediaUpdate` are the `for ... in` loops that build SET clauses. The media PUT routes exist twice: as written (`Mutations.UpdateImageAsWritten`, `Mutations.UpdateDocumentAsWritten`) and corrected (`Mutations.UpdateImage`, `Mutations.UpdateDocument`), see "## Findings";
- `Listing.GroupBy` is the `forEach` that groups the batched media.

Each of these methods is proved against a declarative meaning. For the listing, that meaning is the rows that match the search. For the update routes, it is the columns that are written, and the proof shows every other column is left alone.

The client's stateful parts are classes whose methods state their whole new state:

- the store, `Store.AppStore`;
- the edit form, `PropertyEdit.EditForm`;
- the forgot-password form, `ForgotPasswordView.ForgotPasswordForm`.

Two rules of the listing come from the schema and the handler together:

- The handler falls back to created_at for a sort_by outside price, created_at and title. The search schema has already rejected with 400 any sort_by outside created_at, price, bedrooms and bathrooms. So only bedrooms and bathrooms reach the fallback, and title can never be chosen (`Listing.ValidatedSortColumn`).
- The handler writes `sort_order || 'asc'`, but the search schema always supplies `'desc'` when the query names no sort_order. So with no sort_order in the query the listing descends (`Listing.ValidatedDefaultOrder`).

## Model

| member | source | states |
|---|---|---|
| Auth.Authenticate | backend/server.ts:76-86 | A missing or empty Authorization header is "No token provided". The reply is "Token missing" exactly when a non-empty header has no second space-separated word or an empty one. It is "Invalid token" exactly when that second word is present and the verifier rejects it. The caller is admitted exactly when the verifier decodes the second word, and gets the claims it decodes. |
| Auth.SplitSchemeToken | backend/server.ts:79 | "scheme token" splits on blanks into exactly the scheme and the token. |
| Auth.BearerAccepted | backend/server.ts:79-84 | A verified token sent after any blank-free scheme word authenticates with its claims. |
| Auth.BareTokenMissing | backend/server.ts:79-80 | A token sent without a scheme word in front is always "Token missing". |
| Auth.UserByEmail | backend/server.ts:135-136 | The first user row whose email equals the given value. None exactly when no row matches. |
| Auth.Public | backend/server.ts:145 | The answered user keeps the id, name, email and role. The password hash is removed. |
| Auth.Login | backend/server.ts:128-154 | A falsy email or password gives 400 "Email and password are required". The answer is success exactly when a user has that email, the password is a non-empty string and it matches the stored hash; the token then signs that user's id, email and role. |
| Auth.LoginDoesNotRevealAccounts | backend/server.ts:137-143 | An unknown email and a wrong password get the same answer, "Invalid credentials". |
| Auth.LoginTokenAuthenticates | backend/server.ts:76-86 | A login token, once verified, authenticates as the logged-in user's id, email and role. |
| Auth.WithReset | backend/server.ts:175-181 | The reset writes the new token, an expiry one hour (3600000 ms) from now and updated_at. It keeps the id, email and hash. |
| Auth.StoreReset | backend/server.ts:178-181 | Exactly the users with the id are rewritten. No other table changes. |
| Tables.UpdateWhereTotal | backend/server.ts:178-181 | An UPDATE whose row rewrite cannot fail always succeeds. |
| Tables.SetPropertyTotal | backend/server.ts:435 | A SET whose every item fits any property always succeeds. |
| Tables.SetImageTotal | backend/server.ts:532 | A SET whose every item fits any image always succeeds. |
| Tables.SetDocumentTotal | backend/server.ts:626 | A SET whose every item fits any document always succeeds. |
| Auth.ForgotPasswordAsWritten | backend/server.ts:161-200 | The route as written. A falsy email is 400. An unknown email gets the "If a user ... exists" text and changes nothing. A known email stores the reset and gets "Password reset instructions sent", or 500 when the mail is not sent. |
| Auth.ForgotPasswordRevealsAccounts | backend/server.ts:170-172 | As written, a registered and an unregistered email get different answers. |
| Auth.ForgotPassword | backend/server.ts:161-200 | The same route, answering a known email with the same text as an unknown one. |
| Auth.ForgotPasswordUniform | backend/server.ts:171 | Once the mail is sent, every non-empty email gets the same answer. |
| Auth.ForgotPasswordResets | backend/server.ts:175-181 | For a registered email, exactly that user gets the new token with a one-hour expiry. Every other user and every other table is kept. |
| Dashboard.NewerFirstTotal | backend/server.ts:216 | "created_at DESC" is a total preorder. |
| Dashboard.RecentRows | backend/server.ts:216 | At most five rows. |
| Dashboard.Titles | backend/server.ts:223 | The titles of the rows, one per row, in order. |
| Dashboard.DashboardOf | backend/server.ts:209-225 | The recent activity lists min(5, total) titles. |
| Dashboard.DashboardIgnoresDeleted | backend/server.ts:212-216 | Removing the soft-deleted rows leaves every figure unchanged. |
| Dashboard.StatusCountsAddUp | backend/server.ts:212-215 | When every live row has a listed status, the three status counts add up to the total. |
| Dashboard.RecentAreLive | backend/server.ts:216 | The recent rows are live rows of the table. |
| Dashboard.RecentSorted | backend/server.ts:216 | The recent rows come newest first. |
| Dashboard.RecentAreNewest | backend/server.ts:216 | No live row left out of the recent rows is newer than a listed one. |
| Dashboard.SoftDeleteCount | backend/server.ts:459 | A soft delete lowers each count by the counted rows that have the id. |
| Dashboard.OneWithId | backend/server.ts:459 | With unique ids, at most the one row with the id is counted. |
| Dashboard.DeleteLowersCounts | backend/server.ts:455-469 | A successful DELETE lowers the total by one, and the figure for the property's status by one. The other figures are unchanged. |
| ForgotPasswordView.ValidateEmailIsPattern | vitereact/src/components/views/UV_ForgotPassword.tsx:41-44 | validateEmail holds exactly when the unanchored pattern \S+@\S+\.\S+ matches somewhere in the text. |
| ForgotPasswordView.Examples | vitereact/src/components/views/UV_ForgotPassword.tsx:41-44 | "a@b.c" and text that contains it pass. "a@b" and "a@.c" fail. |
| ForgotPasswordView.UnanchoredPasses | vitereact/src/components/views/UV_ForgotPassword.tsx:42 | Any text around a valid address still passes. |
| ForgotPasswordView.NeedsAt | vitereact/src/components/views/UV_ForgotPassword.tsx:42 | Text without '@' never passes. |
| ForgotPasswordView.ForgotPasswordForm.constructor | vitereact/src/components/views/UV_ForgotPassword.tsx:15-17 | Empty email, no error, no success message, no request sent. |
| ForgotPasswordView.ForgotPasswordForm.Type | vitereact/src/components/views/UV_ForgotPassword.tsx:15 | Sets the email. Nothing else changes. |
| ForgotPasswordView.ForgotPasswordForm.HandleSubmit | vitereact/src/components/views/UV_ForgotPassword.tsx:46-57 | Callable only while the form is shown, that is while the success message is null or empty. An empty email is "Email is required." and a malformed one "Please enter a valid email address."; neither sends a request. A valid one is sent and leaves the error as it was. |
| ForgotPasswordView.ForgotPasswordForm.OnSuccess | vitereact/src/components/views/UV_ForgotPassword.tsx:29-32 | Shows the server's message and clears the error. |
| ForgotPasswordView.ForgotPasswordForm.OnError | vitereact/src/components/views/UV_ForgotPassword.tsx:33-36 | Shows the error and clears the success message. |
| ForgotPasswordView.Scenario | vitereact/src/components/views/UV_ForgotPassword.tsx:46-81 | An empty, then a malformed, then a valid submission. Only the valid address is sent, and its answer replaces the error. |
| Listing.FindLive | backend/server.ts:392-396 | A live row with the id. None exactly when there is none. |
| Listing.MediaOrdersTotal | backend/server.ts:111-115 | Both media orders are total preorders. |
| Listing.SortedMembers | backend/server.ts:111-115 | ORDER BY keeps exactly the rows it sorts. |
| Listing.PropertyMediaMembers | backend/server.ts:109-119 | The media of a property are exactly its own images and documents. |
| Listing.OwnImages | backend/server.ts:110-113 | An image is in a property's media exactly when it belongs to that property. |
| Listing.OwnDocuments | backend/server.ts:114-117 | A document is in a property's media exactly when it belongs to that property. |
| Listing.PropertyMediaSorted | backend/server.ts:109-119 | Images come by display_order and documents by created_at, both ascending. |
| Listing.PropertyDetail | backend/server.ts:389-403 | 404 exactly when there is no live row with the id. Otherwise the answer is that row with its own media. |
| Listing.StrLeTotal | backend/server.ts:277 | Text order is total. |
| Listing.StrLeTrans | backend/server.ts:277 | Text order is transitive. |
| Listing.PropertyLeTotal | backend/server.ts:277 | Every ORDER BY column and direction is a total preorder. |
| Listing.SortChoice | backend/server.ts:249-255 | The sort column is price or title only when that name is asked for, and created_at for anything outside the allow-list. The order descends exactly when it lower-cases to "desc". |
| Listing.EvalExtend | backend/server.ts:279 | Values appended after the filters' values do not change the WHERE clause. |
| Listing.StageStart | backend/server.ts:256-258 | `is_deleted = false` alone selects the live rows. |
| Listing.StageSkip | backend/server.ts:261-275 | A filter that is not given adds nothing. |
| Listing.StageAdd | backend/server.ts:261-275 | A given filter adds its condition on the next placeholder and binds its value there. |
| Listing.StageFull | backend/server.ts:279-287 | The finished WHERE clause keeps its meaning with the LIMIT and OFFSET values behind it. |
| Listing.BuildListQuery | backend/server.ts:246-287 | One condition per given filter, with placeholders $1, $2, ... in order. LIMIT and OFFSET go on the next two placeholders and are bound to `limit \|\| 10` and `offset \|\| 0`. The count query gets every value but those two. Both queries select exactly the live rows that match every given filter. |
| Listing.GroupBy | backend/server.ts:300-311 | Every key collects exactly its rows, in arrival order. |
| Listing.BatchedMedia | backend/server.ts:296-311 | For every listed property, the batched query grouped by property equals getPropertyMedia. |
| Listing.Ids | backend/server.ts:292 | The ids of the rows, in order. |
| Listing.Attach | backend/server.ts:314-318 | Each property with its group, or [] when it has none. |
| Listing.WhereMeansSearch | backend/server.ts:256-283 | The built WHERE clause selects the rows the search promises. |
| Listing.SelectIsPage | backend/server.ts:282-283 | The SELECT returns the requested page of the ranked matches. |
| Listing.AttachMedia | backend/server.ts:292-318 | Each listed property gets exactly its own images and documents. |
| Listing.ListFromParse | backend/server.ts:246-322 | The handler after validation gives the declarative page, total count and media. |
| Listing.ListProperties | backend/server.ts:239-327 | GET /properties is 400 on a failed validation and the declarative listing otherwise. |
| Listing.ListShowsMatches | backend/server.ts:256-289 | Every listed property is a live row that satisfies every given filter. The total is the number of all matches. |
| Listing.ListIgnoresDeleted | backend/server.ts:256 | Removing the soft-deleted rows changes neither the page nor the total. |
| Listing.ListSorted | backend/server.ts:277 | The page is in the requested order. |
| Listing.RankedDistinct | backend/server.ts:282 | With unique ids, no property is ranked twice. |
| Listing.ConsecutivePagesDisjoint | backend/server.ts:278 | The pages at offset 0 and offset limit share no property. |
| Listing.ValidatedPaging | backend/server.ts:242-248 | After validation, LIMIT and OFFSET always bind, so the listing never fails. Absent values mean 10 and 0. |
| Listing.ValidatedSortColumn | backend/server.ts:242-253 | After validation the listing never sorts by title. It sorts by price exactly when price is asked for. bedrooms and bathrooms fall back to created_at. |
| Listing.ValidatedDefaultOrder | backend/server.ts:250 | With no sort_order in the query, the listing descends. |
| Mutations.OwnershipGate | backend/server.ts:89-106 | 404 exactly when no live property has the id. 403 only for a caller who is not an admin. A pass gives the live row with the id, which the caller owns or may change as an admin. |
| Mutations.SameIdSameRow | backend/server.ts:96 | With unique ids, two live rows with the same id are the same row. |
| Mutations.GateDecides | backend/server.ts:96-100 | The gate decides on the one live row with the id. |
| Mutations.GateIgnoresDeleted | backend/server.ts:92 | Soft-deleted rows are invisible to the gate. |
| Mutations.TruthyText | backend/server.ts:370 | `value \|\| null`: a value exactly when the text is given and not empty. |
| Mutations.TruthyNumber | backend/server.ts:362-363 | `value \|\| null`: a value exactly when the number is given and not 0. |
| Mutations.NewProperty | backend/server.ts:352-375 | The inserted row has the generated id and the caller as owner. It is live, with created_at = updated_at = now. |
| Mutations.CreateProperty | backend/server.ts:334-382 | 400 exactly when the body fails the create schema. 500 exactly when the generated id is taken. Otherwise the new row is appended and nothing else changes. |
| Mutations.CreateKeepsValid | backend/server.ts:342-376 | A create keeps ids unique. |
| Mutations.CreatedIsOwned | backend/server.ts:354 | The caller passes the gate for the property it has just created, and can fetch it. |
| Mutations.CreateShapeDistinct | backend/schema.ts:89-108 | The create schema declares each key once. |
| Mutations.CreatedText | backend/server.ts:355-358 | The stored title and description are the body's, and neither is empty. |
| Mutations.CreatedAddress | backend/server.ts:357-361 | The stored street, city, state, zip code and country are the body's, and none is empty. |
| Mutations.CreatedTextAt | backend/schema.ts:91-97 | Each required non-empty text field of the create body is in the parse with the body's value. |
| Mutations.CreatedKinds | backend/server.ts:365-366 | The stored status and property type are among the listed values. |
| Mutations.CreatedOptional | backend/server.ts:362-371 | Notes, tags and coordinates missing from the body are stored as null. |
| Mutations.CreatedTags | backend/server.ts:371 | Tags given in the body are stored item for item. Tags given as null are stored as null. |
| Mutations.CreatedAbsent | backend/schema.ts:98-107 | An optional field missing from the body is missing from the parse. |
| Mutations.CreatedPresent | backend/schema.ts:100-105 | A required field holds the body's value in the parse. |
| Mutations.Keys | backend/server.ts:425 | The parsed keys, in order. |
| Mutations.SetItemsSnoc | backend/server.ts:425-431 | One more turn of the loop appends the item of the next key, or nothing when that key is skipped. |
| Mutations.SetItemsFromKeys | backend/server.ts:425-431 | Every SET item names a parsed key that is not skipped and carries that entry's bound value. |
| Mutations.SetItemsCover | backend/server.ts:425-431 | Every parsed key that is not skipped has its item, with its own value. |
| Mutations.SetItemsDistinct | backend/server.ts:425-431 | Distinct keys give distinct SET columns. |
| Mutations.BuildSetClauses | backend/server.ts:425-431 | One clause and one value per key outside skip, in key order, on placeholders $1, $2, .... |
| Mutations.UpdateShapeDistinct | backend/schema.ts:111-132 | The update schema declares each key once. |
| Mutations.UpdateShapeKeys | backend/schema.ts:111-132 | The update schema has no updated_at key. |
| Mutations.UpdateParsedKeys | backend/server.ts:414-418 | A parsed update body has distinct keys and never updated_at. |
| Mutations.UpdateSetsDistinct | backend/server.ts:425-434 | The SET clause of PUT names no column twice, and never id. |
| Mutations.UpdateFrame | backend/server.ts:425-437 | PUT writes each parsed key other than id with its value. It sets updated_at, keeps the id, and leaves every other column as it was. |
| Mutations.UpdateFrameWritten | backend/server.ts:425-434 | Each parsed key other than id is written with its value, and updated_at is now. |
| Mutations.UpdateFrameKept | backend/server.ts:425-434 | Columns outside the parsed keys, other than updated_at, keep their values. The id never changes. |
| Mutations.UpdateColsFrom | backend/server.ts:425-434 | The SET clause names only updated_at and parsed keys other than id. |
| Mutations.Bind | backend/server.ts:435-437 | Each clause takes the value bound to its placeholder. |
| Mutations.BindLayout | backend/server.ts:424-436 | Clauses on consecutive placeholders bind to exactly their items. |
| Mutations.BuildPropertyUpdate | backend/server.ts:422-436 | The loop's items come on $1, $2, ..., then updated_at. The property id is bound to the placeholder after them. |
| Mutations.ApplyPropertyUpdate | backend/server.ts:419-443 | 404 "Property not found" exactly when no row has the id. 500 exactly when a matching row refuses a SET item. On success, exactly the rows with the id are rewritten, and the answer is the updated row with its media. Nothing changes on failure. |
| Mutations.UpdatedKeepsId | backend/server.ts:426 | The PUT never changes a row's id. |
| Mutations.SetKeepsUnnamed | backend/server.ts:435 | A column that no SET item names keeps its value. |
| Mutations.UpdateProperty | backend/server.ts:410-448 | The ownership gate comes first (404, 403), then validation (400), then the update. The answer is 200 exactly when the gate passes and the body conforms. A success rewrites only the rows with the id. Nothing changes otherwise. |
| Mutations.UpdateParamFits | backend/server.ts:421-427 | Any value the update schema admits for a key other than id fits that column of every property, so no SET item of the PUT is refused. |
| Mutations.UpdateSetsFit | backend/server.ts:421-433 | For a conforming body, the whole SET clause of the PUT, updated_at included, rewrites every property. |
| Mutations.FirstUpdated | backend/server.ts:441 | RETURNING gives the new value of the first matching row. |
| Mutations.FirstUpdatedSome | backend/server.ts:437-441 | After a successful UPDATE, the first match's rewrite succeeded. |
| Mutations.UpdateRowFrame | backend/server.ts:410-443 | After a PUT, the row at each position with the id has the parsed values, a new updated_at and its other columns as before. |
| Mutations.SoftDeleteRows | backend/server.ts:459 | Rows with the id are marked deleted with the new updated_at. Every other row is kept as it was. |
| Mutations.DeleteProperty | backend/server.ts:455-469 | The gate decides 404 and 403. A pass soft-deletes and answers "Property deleted successfully". Nothing changes otherwise. |
| Mutations.DeleteHides | backend/server.ts:455-469 | After the delete, the property is gone for the gate, the detail fetch and the listing. |
| Mutations.DeleteKeepsValid | backend/server.ts:459 | The soft delete keeps ids unique. |
| Mutations.RunUpdate | backend/server.ts:532-538 | 404 exactly when no row matches, as `rowCount === 0` decides. 500 exactly when the rewrite of a matching row is refused. Otherwise every matching row is rewritten and the answer is the first one's new value. Nothing changes unless the answer is 200. |
| Mutations.RunDelete | backend/server.ts:553-558 | 404 exactly when no row matches. Exactly the rows that do not match remain. |
| Mutations.MediaPutAsWrittenMoves | backend/server.ts:527-531 | As written, a media PUT body `{id, property_id: q}` moves the image to property q, and `{id: x}` renames it. |
| Mutations.ImageSetKeepsPair | backend/server.ts:532 | The corrected media SET items keep the image's id and property. |
| Mutations.DocumentSetKeepsPair | backend/server.ts:626 | The corrected media SET items keep the document's id and property. |
| Mutations.SetImageKeepsUnnamed | backend/server.ts:532 | An image column that no item names keeps its value. |
| Mutations.SetDocumentKeepsUnnamed | backend/server.ts:626 | A document column that no item names keeps its value. |
| Mutations.BuildMediaUpdate | backend/server.ts:524-533 | One item per parsed key outside a skip list, on $1, $2, .... Then the media id and the property id are bound to the two placeholders after them. As written nothing is skipped. |
| Mutations.ImageSetWritesItems | backend/server.ts:527-532 | As written, the updated image takes the parsed id, and the parsed property_id when there is one. It keeps its property only when the body names none. |
| Mutations.DocumentSetWritesItems | backend/server.ts:621-626 | The same for documents. |
| Mutations.MediaItemsWritten | backend/server.ts:527-531 | As written, the SET items name distinct columns. They include `id` and `property_id` with the parsed values whenever the parse has them. |
| Mutations.MediaParsed | backend/schema.ts:177-183 | A valid media update body parses to distinct keys. The parse holds the body's id, and the body's property_id exactly when the body has one. |
| Mutations.UpdateImageAsWritten | backend/server.ts:515-543 | The route as written. The gate comes first, then validation, then the update. With a passing gate and a conforming body, no SET item is refused. The answer is then "Image not found" exactly when no image has both ids, and 500 exactly when one has and the rewritten rows share an id. A success rewrites exactly the rows with both ids and answers with the body's id, and with the body's property_id when it has one. |
| Mutations.PutImageAsWritten | backend/server.ts:532-538 | The UPDATE of the as-written image PUT: 404 exactly when no image has both ids. 500 exactly when a SET item is refused, or when the rewritten rows share an id. A success answers with the body's id, and with its property_id when it has one. |
| Mutations.UpdateDocumentAsWritten | backend/server.ts:608-636 | The same for documents, with "Document not found". |
| Mutations.PutDocumentAsWritten | backend/server.ts:626-632 | The same for documents. |
| Mutations.ImageUpdateAsWrittenScoped | backend/server.ts:532 | As written, only rows with both ids change. Each of them takes the parsed id, and the parsed property_id when there is one. |
| Mutations.DocumentUpdateAsWrittenScoped | backend/server.ts:626 | The same for documents. |
| Mutations.ImagePutAsWrittenLeaves | backend/server.ts:527-532 | As written, the body `{id: mid, property_id: q}` moves image mid of property pid to property q. |
| Mutations.MediaPairBodyValid | backend/schema.ts:177-183 | Any body `{id, property_id}` of two strings passes both media update schemas. |
| Mutations.UpdateImage | backend/server.ts:515-543 | The corrected route, whose SET clause leaves out the columns the URL fixes (Findings row 2). The gate comes first, then validation, then the update, which never answers 500. With a passing gate and a conforming body, the answer is "Image not found" exactly when no image has both ids, and 200 otherwise. A success rewrites exactly the rows with both ids and answers with the URL's image id and property. |
| Mutations.UpdateDocument | backend/server.ts:608-636 | The corrected route for documents, with "Document not found": never 500, and 200 exactly when the gate passes, the body conforms and a document has both ids. |
| Mutations.ImageParamFits | backend/server.ts:527-531 | Any value the image update schema admits for a key fits that column of every image. |
| Mutations.DocumentParamFits | backend/server.ts:621-625 | Any value the document update schema admits for a key fits that column of every document. |
| Mutations.ImageItemsFit | backend/server.ts:527-532 | For a conforming body, the media SET items rewrite every image, whichever keys are skipped. |
| Mutations.DocumentItemsFit | backend/server.ts:621-626 | The same for documents. |
| Mutations.ImageUpdateScoped | backend/server.ts:532 | In the corrected route, only rows with both ids change, and every row keeps its id and property. |
| Mutations.DocumentUpdateScoped | backend/server.ts:626 | In the corrected route for documents, only rows with both ids change, and every row keeps its id and property. |
| Mutations.DeleteImage | backend/server.ts:550-563 | The gate comes first. With a passing gate, the answer is 200 "Image deleted successfully" exactly when an image has both ids, and 404 "Image not found" otherwise. A success removes exactly the images with both ids. Nothing changes otherwise. |
| Mutations.DeleteDocument | backend/server.ts:643-657 | The same for documents, with "Document deleted successfully" and "Document not found". |
| Mutations.DeleteImageMissing | backend/server.ts:555-557 | No image with both ids gives 404 and removes nothing. |
| Mutations.DeleteDocumentMissing | backend/server.ts:649-651 | No document with both ids gives 404 and removes nothing. |
| Mutations.DeleteImageFound | backend/server.ts:553-558 | An image with both ids gives 200 "Image deleted successfully". That image is gone and the other tables are unchanged. |
| Mutations.DeleteDocumentFound | backend/server.ts:647-652 | A document with both ids gives 200 "Document deleted successfully". That document is gone and the other tables are unchanged. |
| Mutations.NewImage | backend/server.ts:494-501 | The stored image has the generated id, the URL's property and now. |
| Mutations.AddImage | backend/server.ts:478-508 | The gate comes first, then validation, then the insert. The reply is 500 exactly when the gate passes, the body conforms and the id is taken. Otherwise the image is appended and the rest is kept. |
| Mutations.AddedImageShown | backend/server.ts:478-508 | The new image is among the property's media from then on. |
| Mutations.NewImageDefaults | backend/server.ts:497-499 | The URL is the body's. A missing alt text is null and a missing display order is 0. |
| Mutations.NewDocument | backend/server.ts:588-595 | The stored document has the generated id, the URL's property and now. |
| Mutations.AddDocument | backend/server.ts:572-602 | The same as AddImage, for documents. |
| Mutations.NewDocumentText | backend/server.ts:591-593 | The stored name and type are the body's, and neither is empty. |
| PropertyEdit.TrimAll | vitereact/src/components/views/UV_PropertyEdit.tsx:91 | Every piece is trimmed, and the order is kept. |
| PropertyEdit.ParseTags | vitereact/src/components/views/UV_PropertyEdit.tsx:91 | An empty field gives no tags. Otherwise there is one tag per comma plus one, each trimmed and without commas. |
| PropertyEdit.TrimmedPiece | vitereact/src/components/views/UV_PropertyEdit.tsx:91 | A trimmed piece has no white space at its ends, and gains no character. |
| PropertyEdit.TagsRoundTrip | vitereact/src/components/views/UV_PropertyEdit.tsx:67-91 | Showing tags as text and reading them back gives the same tags, for non-empty tags without commas or surrounding blanks. |
| PropertyEdit.FormatPieces | vitereact/src/components/views/UV_PropertyEdit.tsx:67-91 | The joined text splits into the first tag and the later tags with a blank in front. |
| PropertyEdit.TrimPieces | vitereact/src/components/views/UV_PropertyEdit.tsx:91 | Trimming those pieces gives the tags. |
| PropertyEdit.TrimPadded | vitereact/src/components/views/UV_PropertyEdit.tsx:91 | A trimmed tag with or without a leading blank is the tag. |
| PropertyEdit.TrimAllEq | vitereact/src/components/views/UV_PropertyEdit.tsx:91 | Pieces that each trim to a tag trim to the tag list. |
| PropertyEdit.TrimPlain | vitereact/src/components/views/UV_PropertyEdit.tsx:91 | A plain tag survives trimming, also with a blank in front. |
| PropertyEdit.NoTagsRoundTrip | vitereact/src/components/views/UV_PropertyEdit.tsx:67-91 | Null tags and no tags both come back as []. |
| PropertyEdit.PaddedTagTrimmed | vitereact/src/components/views/UV_PropertyEdit.tsx:67-91 | A tag with a trailing blank comes back trimmed, so the round trip is not exact for it. |
| PropertyEdit.FieldsOf | vitereact/src/components/views/UV_PropertyEdit.tsx:49-69 | Every input takes the property's value of its column. Missing coordinates show 0, missing notes "", and the tags their text. |
| PropertyEdit.Payload | vitereact/src/components/views/UV_PropertyEdit.tsx:72-92 | The update body carries the property's id and every input under its own key, with the tags read back from the field. |
| PropertyEdit.SubmitUnchanged | vitereact/src/components/views/UV_PropertyEdit.tsx:49-92 | An untouched form sends the property's id and all seventeen of its own values. Null coordinates are sent as 0, null notes as "" and null tags as []. |
| PropertyEdit.EditForm.constructor | vitereact/src/components/views/UV_PropertyEdit.tsx:26-46 | The initial inputs: empty text, zero numbers, for_sale and residential. |
| PropertyEdit.EditForm.Prefill | vitereact/src/components/views/UV_PropertyEdit.tsx:49-69 | Fills the property inputs and keeps the image inputs. |
| PropertyEdit.EditForm.ImageRequest | vitereact/src/components/views/UV_PropertyEdit.tsx:113-119 | No request exactly when the URL input is empty, as the button's `if (newImageUrl)` guard at line 394 decides. Otherwise the request carries that URL with display_order 0, and its alt text is null exactly when the alt input is empty. |
| PropertyEdit.EditForm.ImageAdded | vitereact/src/components/views/UV_PropertyEdit.tsx:127-130 | Clears both image inputs and keeps the property inputs. |
| PropertyEdit.LoadAndSubmit | vitereact/src/components/views/UV_PropertyEdit.tsx:49-92 | Loading a property into a fresh form and submitting sends its id and all of its own values, tags included. |
| Schema.ParseShape | backend/server.ts:337-341 | safeParse succeeds exactly when every declared field is acceptable. |
| Schema.ParseShapeStep | backend/schema.ts:89-108 | The parse is the first field's expected value followed by the parse of the rest. |
| Schema.ParseShapeKeys | backend/schema.ts:89-108 | The parse holds only declared keys; unknown keys are stripped. |
| Schema.ParseShapeAllowed | backend/schema.ts:89-108 | Every entry of a parse is allowed by a declared field with its key: its value has that field's kind, or it is the field's default. |
| Schema.GetCons | backend/server.ts:341 | Looking up a key in a parse result takes the first entry with that key. |
| Schema.DistinctUnique | backend/schema.ts:89-108 | In a schema with distinct keys, each key is declared once. |
| Schema.TailKeys | backend/schema.ts:89-108 | The key of the first field appears nowhere in the parse of the other fields. |
| Schema.ParseShapeGet | backend/schema.ts:89-108 | A key declared once holds its expected value in the parse: the body's value, or its default. |
| Schema.ParseShapeDistinct | backend/schema.ts:89-108 | With distinct declared keys, the parse has distinct keys. |
| Schema.GetAbsent | backend/server.ts:341 | A key that is in no entry looks up as missing. |
| Schema.ParsedText | backend/schema.ts:91-97 | A required non-empty text field holds the body's string, and it is not empty. |
| Schema.CreatePropertyRules | backend/schema.ts:89-108 | A created property has a listed status and type, and non-empty text in every address and description field. The price is numeric and the room counts are integers. |
| Schema.CreateRejectsEmptyText | backend/schema.ts:91-97 | An empty text field fails the create schema. |
| Schema.UpdatePropertyRules | backend/schema.ts:111-132 | Update demands a string id. A present text, status or type field must be valid. |
| Schema.UpdateNeedsOnlyId | backend/schema.ts:111-132 | A body with only a string id passes the update schema. |
| Schema.SearchFilterRules | backend/schema.ts:138-139 | A present status or type filter names a listed value. |
| Schema.SearchShapeDistinct | backend/schema.ts:135-145 | The search schema declares each key once. |
| Schema.SearchPagingDefaults | backend/schema.ts:140-141 | The limit is a positive integer, 10 when absent. The offset is a non-negative integer, 0 when absent. |
| Schema.SearchSortDefaults | backend/schema.ts:143-144 | sort_by is one of the four listed fields, created_at when absent. sort_order is asc or desc, desc when absent. |
| Schema.QueryStringPagingRejected | backend/schema.ts:140-141 | A query string that names limit or offset, which arrives as text, never passes the search schema. |
| Schema.ImageShapeDistinct | backend/schema.ts:169-174 | The image create schema declares each key once. |
| Schema.CreateImageRules | backend/schema.ts:169-174 | The image URL is required and must be a URL. display_order is an integer, 0 when absent. |
| Schema.CreateDocumentRules | backend/schema.ts:216-221 | The document URL is required, and the name and type are non-empty. |
| Schema.UpdateMediaRules | backend/schema.ts:177-183 | The media update schemas demand the media id as a string. A present document name is non-empty. |
| Schema.UpdateMediaShapesDistinct | backend/schema.ts:177-183 | The media update schemas declare each key once. |
| Schema.UpdateMediaPair | backend/schema.ts:177-183 | A parsed media update holds the body's string id, and the body's string property_id exactly when the body has one. |
| Schema.GetMembers | backend/server.ts:527 | A parsed key found by name is an entry of the parse; a key not found is the key of no entry. |
| Schema.CreateUserRules | backend/schema.ts:21-29 | A new user has a name of 1 to 255 UTF-16 units, a password of at least 6 units, an e-mail address and one of the three roles. |
| Schema.StringsOf | backend/schema.ts:107 | One string per JSON array item, and each string item is carried over as it is. |
| Seqs.Filter | backend/server.ts:256 | At most as many rows as the table. |
| Seqs.FilterMembers | backend/server.ts:256 | WHERE keeps exactly the rows that satisfy the condition. |
| Seqs.FilterSortBy | backend/server.ts:282 | Filtering and the stable ORDER BY commute. |
| Seqs.SortBy | backend/server.ts:282 | ORDER BY returns a permutation of its rows. |
| Seqs.SortBySorted | backend/server.ts:282 | ORDER BY over a total preorder gives sorted rows. |
| Seqs.Page | backend/server.ts:278 | LIMIT/OFFSET gives the rows from offset on, at most limit of them. |
| Seqs.ConsecutivePages | backend/server.ts:278 | Two consecutive pages are the first 2·limit rows, and share no key. |
| Seqs.Take | backend/server.ts:216 | LIMIT 5 gives the first min(5, n) rows. |
| Store.WithoutMembers | vitereact/src/store/main.tsx:76-79 | Exactly the notifications with another id remain. |
| Store.WithoutAbsent | vitereact/src/store/main.tsx:76-79 | An id that is not present changes nothing. |
| Store.WithoutIdempotent | vitereact/src/store/main.tsx:76-79 | Removing twice is removing once. |
| Store.WithoutCommutes | vitereact/src/store/main.tsx:76-79 | Removing two ids in either order gives the same list. |
| Store.AddThenRemove | vitereact/src/store/main.tsx:71-79 | Adding a notification and then removing its id leaves what removing alone leaves. |
| Store.WithoutKeepsOrder | vitereact/src/store/main.tsx:78 | What remains keeps its relative order. |
| Store.AppStore.constructor | vitereact/src/store/main.tsx:52-56 | No session, no notifications, not loading, no socket. |
| Store.AppStore.Partialize | vitereact/src/store/main.tsx:113-117 | Persists exactly the token, the user and the notifications. |
| Store.AppStore.SetAuthDetails | vitereact/src/store/main.tsx:58-59 | Stores the token and the user. Nothing else changes. |
| Store.AppStore.ClearAuth | vitereact/src/store/main.tsx:61-67 | Disconnects the socket, if there is one, and forgets the session and the socket. |
| Store.AppStore.SetLoading | vitereact/src/store/main.tsx:69 | Sets the loading flag only. |
| Store.AppStore.AddNotification | vitereact/src/store/main.tsx:71-74 | Appends the notification. |
| Store.AppStore.RemoveNotification | vitereact/src/store/main.tsx:76-79 | Drops every notification with the id. |
| Store.AppStore.ClearNotifications | vitereact/src/store/main.tsx:81 | Empties the list. |
| Store.AppStore.InitSocket | vitereact/src/store/main.tsx:83-98 | Connects only when there is no socket yet. |
| Store.AppStore.DisconnectSocket | vitereact/src/store/main.tsx:100-106 | Disconnects and forgets the socket, if there is one. |
| Store.AppStore.SetSocket | vitereact/src/store/main.tsx:108 | Replaces the socket. |
| Store.SessionScenario | vitereact/src/store/main.tsx:58-117 | Log in, connect twice, notify, dismiss twice, log out. The socket is disconnected once and nothing of the session is persisted. |
| Tables.PropertyColumnNamed | backend/server.ts:427 | The column a SET name refers to has that name. |
| Tables.WriteIdentity | backend/server.ts:427 | Writing an identity or address column changes that column only. |
| Tables.WriteDetail | backend/server.ts:427 | Writing a detail column changes that column only. |
| Tables.WriteProperty | backend/server.ts:427 | `name = value` on a property succeeds only for an existing column. It gives that column the value and changes no other column. |
| Tables.PropertyColumnsDetermine | backend/server.ts:427 | A property row is determined by its columns. |
| Tables.IdentityColumnsDetermine | backend/server.ts:427 | Equal identity columns mean equal identity fields. |
| Tables.DetailColumnsDetermine | backend/server.ts:427 | Equal detail columns mean equal detail fields. |
| Tables.ImageColumnNamed | backend/server.ts:528 | The column a name refers to has that name. |
| Tables.WriteImage | backend/server.ts:528 | `name = value` on an image changes that column only. |
| Tables.ImageColumnsDetermine | backend/server.ts:528 | An image row is determined by its columns. |
| Tables.DocumentColumnNamed | backend/server.ts:622 | The column a name refers to has that name. |
| Tables.WriteDocument | backend/server.ts:622 | `name = value` on a document changes that column only. |
| Tables.DocumentColumnsDetermine | backend/server.ts:622 | A document row is determined by its columns. |
| Tables.Cols | backend/server.ts:435 | The columns of the SET items, in order. |
| Tables.FirstColNotLater | backend/server.ts:435 | With distinct columns, the first column does not come again. |
| Tables.SetPropertyColumns | backend/server.ts:435 | With distinct columns, SET gives each named column its value and keeps every other column. |
| Tables.SetImageColumns | backend/server.ts:532 | The same for images. |
| Tables.SetDocumentColumns | backend/server.ts:626 | The same for documents. |
| Tables.UpdateWhere | backend/server.ts:435-437 | Matching rows are rewritten and the others are kept, with the length unchanged. |
| Tables.UpdateWhereNone | backend/server.ts:437-439 | With no match, the UPDATE succeeds and changes nothing. |
| Text.TrimStart | vitereact/src/components/views/UV_PropertyEdit.tsx:91 | Drops exactly the leading white space. |
| Text.TrimEnd | vitereact/src/components/views/UV_PropertyEdit.tsx:91 | Drops exactly the trailing white space. |
| Text.TrimSpec | vitereact/src/components/views/UV_PropertyEdit.tsx:91 | trim leaves no white space at either end. It cuts off only a white-space prefix and a white-space suffix. |
| Text.TrimEnds | vitereact/src/components/views/UV_PropertyEdit.tsx:91 | A trimmed text has no surrounding white space. |
| Text.TrimCuts | vitereact/src/components/views/UV_PropertyEdit.tsx:91 | What trim removes is white space. |
| Text.TrimSlice | vitereact/src/components/views/UV_PropertyEdit.tsx:91 | The trimmed text is a slice of the original. |
| Text.TrimOfTrimmed | vitereact/src/components/views/UV_PropertyEdit.tsx:91 | Trimming text without surrounding white space changes nothing. |
| Text.TrimAfterSpace | vitereact/src/components/views/UV_PropertyEdit.tsx:91 | A leading white-space character never survives trimming. |
| Text.Split | vitereact/src/components/views/UV_PropertyEdit.tsx:91 | One piece more than there are separators, none holding the separator. Joining the pieces gives the text back. |
| Text.SplitWithoutSeparator | vitereact/src/components/views/UV_PropertyEdit.tsx:91 | Text without the separator splits into itself. |
| Text.CountAbsent | vitereact/src/components/views/UV_PropertyEdit.tsx:91 | Text without the separator counts none. |
| Text.SplitAfterPiece | backend/server.ts:79 | Splitting "a,rest" gives a, then the pieces of rest. |
| Text.SplitJoin | vitereact/src/components/views/UV_PropertyEdit.tsx:67-91 | Joining separator-free pieces and splitting again gives the pieces. |
| Text.SpaceBefore | vitereact/src/components/views/UV_PropertyEdit.tsx:67 | Every piece with a blank in front. |
| Text.JoinPrefixFirst | vitereact/src/components/views/UV_PropertyEdit.tsx:67 | A prefix of the joined text joins to the first piece. |
| Text.JoinCommaSpace | vitereact/src/components/views/UV_PropertyEdit.tsx:67 | Joining with ", " is joining with "," after putting a blank before every later piece. |
| Text.Utf16Length | backend/schema.ts:22-24 | The UTF-16 length lies between the number of code points and twice that. |
| Text.LowerAscii | backend/server.ts:255 | Lower-cases each character, and keeps the length. |

## Left out

- Token signing and verification, bcrypt, UUID generation, the mail service and the clock are parameters. The model does not cover their algorithms, the token's one-hour expiry, or randomness.
- ILIKE pattern matching is a parameter. Building the `%query%` pattern is modelled; matching it is not.
- zod's URL and e-mail checks and its date coercion are given predicates (`Schema.Checks`), not modelled.
- The PostgreSQL pool, Express routing, the catch-all SPA route, concurrency and transactions are not modelled. Each route runs alone on a database value; a thrown database error is an explicit failure answer.
- Timestamps are integers (milliseconds), not ISO strings. Comparing them agrees with comparing the ISO texts.
- JSON numbers are reals. Floating-point rounding is not modelled.
- `parseInt` of the COUNT results is the count itself.
- Text ordering in ORDER BY is code-point order, not the database collation. Rows that compare equal keep their storage order, which PostgreSQL does not promise.
- Text.LowerAscii: `toLowerCase` is modelled for ASCII letters only.
- Auth.UserByEmail: a non-string email is compared as JSON and matches no user. PostgreSQL would cast it to text.
- Auth.Login: the 500 for a non-string password models bcrypt throwing. The token's expiry is not modelled.
- The tag list is stored as its JSON text. The model stores the list itself and does not model JSON.stringify.
- PUT /properties may change user_id and is_deleted when the body names them, since the update schema allows both. The model does this, as the code does.
- The media POST routes validate the body's property_id and then use the URL's. The model does the same.
- The create schema demands a body user_id, which the route ignores in favour of the caller's id. The model does the same.
- Paging from the query string: Express hands query parameters over as text, so a query that sets limit or offset always fails the search schema with 400 (Schema.QueryStringPagingRejected). Paging works only with the defaults.
- The store's socket is a handle. The `base_url` choice, the connect and disconnect listeners and socket.io itself are not modelled; `Store.AppStore.InitSocket` receives the connection the runtime would open.
- Notification ids made from `Date.now()` are parameters.
- React rendering, react-query caching and refetching, navigation are not modelled. Neither are the edit view's update and delete error notifications or its image-delete mutation.
- The persistence to localStorage is `Store.AppStore.Partialize` only; rehydration is not modelled.

## Findings

| source | as written | input that shows it | evidently intended | confidence | as-written member | corrected member |
|---|---|---|---|---|---|---|
| backend/server.ts:170-195 | An unknown email is answered "If a user with that email exists, reset instructions have been sent."; a registered one "Password reset instructions sent". | A database with user u; the body `{email: u.email}` versus `{email: other}`. | The comment on line 171 says not to reveal whether an email exists: both should get the same answer. | not executed | Auth.ForgotPasswordRevealsAccounts | Auth.ForgotPasswordUniform |
| backend/server.ts:527-531 | The media PUT loops over every parsed key, id and property_id included, and writes them into the row. | `{id: m.id, property_id: q}` moves image m to property q, which the caller need not own (`Mutations.ImagePutAsWrittenLeaves`). `{id: x}` renames the image to x. | The URL fixes which image of which property is changed; the row keeps its id and property. | not executed | Mutations.UpdateImageAsWritten | Mutations.UpdateImage |
