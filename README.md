# Intallia 24 dashboard: permission grids, list pages and forms in Dafny

This project models the logic of the Intallia 24 admin dashboard's pages and
proves properties of that model. The pages are a React/TypeScript front end
for a company and user-group backend. The model covers:

- **The permission grid, edit variant** (`UserGroupDetails`). The screen
  catalogue (parent screens, each with child screens and their
  Read/Write/Delete flags) is merged with a user group's saved permission
  records by `ScreenId`. The merge is flattened into an edit map keyed by
  `ScreenId`, and the user flips one flag at a time. A separate expand map
  opens each newly seen parent group. The save request has one header
  record and one detail record per edit-map entry.
- **The permission grid, create variant** (`AddRole`). The catalogue seeds
  a `permissions` form field. The seed is re-applied only when the
  catalogue's length changes. Checkboxes write `permissions.<id>.<flag>`.
  The schema refuses empty texts and non-boolean flags. The accepted form
  becomes a CreateUserGroup request.
- **The two list pages** (`CompanyManagement`, `RolesAndAccess`). A
  case-insensitive substring search runs over optional fields. Results are
  shown 8 rows per page, with `ceil(n / 8)` pages. The exports map a
  missing field to `""`.
- **The company table's cells** (`CTable`): the capitalised status and its
  badge, the row-action guard, the delete request and the edit route.
- **The company form** (`CompanyForm`):
  - the lookup request and its empty-id guard;
  - the mapping of a fetched company onto the 13 form fields;
  - the load effect that writes them one by one;
  - the add/update header with its `"500"` defaults, `"Admin"` audit
    fields and null spare columns.
- **The role form** (`RoleForm`):
  - its defaults;
  - the reset that keeps fetched access switches and defaults absent ones
    with `??`;
  - `setAccessControl`;
  - the create-vs-update choice.

JavaScript's semantics are spelled out where the pages rely on them:

- truthiness, `||` and `!` are written out (`Js`);
- object spread applies a key only when the source has it;
- `Array.isArray` guards are modelled;
- `slice` clamps its arguments;
- a plain object used as a dictionary keeps its keys in insertion order (`Dict`).

Mutable page state follows the code's own form. The edit map, expand map,
form values and form fields are class fields, updated by methods whose
contracts tie the new state to functions of the old one. The loops that
build the edit map (nested `forEach`), fill the new-parent map and write the
loaded company field by field are `while` loops with invariants.

What is a parameter instead of something computed:

- Fetch results are passed in.
- The clock is a parameter. The edit page reads it once, as `now`.
  `AddRole` and `CompanyForm` call `new Date().toISOString()` several times
  per request; for them `clock(n)` is the n-th reading.
- zod's `.url()` and `.email()` checks are the parameters `isUrl` and
  `isEmail`.
- The stored `userGroupId` from `localStorage` is a constructor argument.
- Requests are records. Their `JSON.stringify` envelope is not modelled.

Case mapping is ASCII.

The merge of saved records into the catalogue:

- An unsaved child keeps its catalogue flags; it is not reset to `false`.
  The merge at `src/pages/RolesAndAccess/UserGroupDetails.tsx:76` spreads
  the record (or `{}`) over the catalogue child, so a record's absent keys
  also keep the child's values (`UserGroupDetails.MergeKeepsUnsavedFlags`,
  `UserGroupDetails.MergeSpec`).

Behaviour of the code kept as written:

- **UserGroupDetails:**
  - `formValues` is never updated, so every header fallback is `""`.
    `ModifyBy` is therefore the fetched header's own `ModifyBy` (`UserGroupDetails.SaveRequestSpec`).
  - The header key is spelled `UsewrGroupType`, in both editors.
  - A refetch that returns equal JSON gets the previous `data` object back
    from react-query's structural sharing, so the `[data]` effect does not
    run and unsaved toggles survive. The model compares the delivered data
    by value (`UserGroupDetails.Editor.Deliver`).
- **AddRole:**
  - A catalogue that arrives with the same length as the last one does
    not reseed the permissions (`AddRole.RoleCreator.Deliver`).
  - A first click on a box of a screen that has no entry creates a partial
    entry. The schema then refuses the whole form (`AddRole.PartialEntryRefused`).
- **CompanyManagement:** with an empty search, a company missing all four
  searched fields is not listed (`CompanyManagement.EmptyQueryKeepsPresent`).
- **CompanyForm:** the company header spreads the form's camelCase keys
  next to the PascalCase counts and audit fields.
- **RoleForm:** the role query is created disabled and nothing fetches it,
  so the reset effect never runs in the page. `RoleForm.RoleFormState.Reset`
  models its body.

## Model

| member | source | states |
|---|---|---|
| Js.Or | src/pages/RolesAndAccess/UserGroupDetails.tsx:158-164 | JavaScript's logical or is its left operand when that is truthy and its right one otherwise; the result is truthy iff either operand is |
| Js.Not | src/pages/RolesAndAccess/AddRole.tsx:394 | `!v` is a boolean, true exactly when `v` is falsy |
| Js.OrEmpty | src/pages/Company/CompanyManagement.tsx:69-74 | `x ?? ""` is the field when present and `""` when missing or null |
| Js.OrText | src/pages/Company/CompanyForm.tsx:57-69 | a string field read with a logical-or default is the field when it is a non-empty string, and the default when it is missing or `""` |
| Js.Spread | src/pages/RolesAndAccess/UserGroupDetails.tsx:76 | in `{...a, ...b}` a key takes b's value when b has the key, else a's |
| Text.Lower | src/pages/Company/CompanyManagement.tsx:42 | `toLowerCase` keeps the length and lower-cases each character |
| Text.Upper | src/pages/Company/CTable.tsx:43 | `toUpperCase` keeps the length and upper-cases each character |
| Text.Includes | src/pages/Company/CompanyManagement.tsx:44-47 | `s.includes(q)` is true iff `q` occurs in `s` at some position |
| Text.IncludesEmpty | src/pages/Company/CompanyManagement.tsx:44-47 | every string includes the empty query |
| Text.LowerIdempotent | src/pages/Company/CompanyManagement.tsx:42 | lower-casing a lower-cased string changes nothing |
| Text.LowerOfUpper | src/pages/RolesAndAccess/RolesAndAccess.tsx:47-48 | lower-casing an upper-cased string is lower-casing the original |
| Text.UpperCharIdempotent | src/pages/Company/CTable.tsx:43 | upper-casing a character twice is upper-casing it once |
| Text.UpperCharIs | src/pages/Company/CTable.tsx:43 | a character upper-cases to capital `w` iff it lower-cases to `w`'s small form |
| Dict.Get | src/pages/RolesAndAccess/UserGroupDetails.tsx:86-87 | `obj[k]` is present iff `k` is a key, and then it is the value stored with `k` |
| Dict.Values | src/pages/RolesAndAccess/UserGroupDetails.tsx:179 | `Object.values` lists the values in entry order |
| Dict.PutKeys | src/pages/RolesAndAccess/UserGroupDetails.tsx:89 | after `obj[k] = v` the keys are the old ones and `k`, nothing else |
| Dict.PutSpec | src/pages/RolesAndAccess/UserGroupDetails.tsx:89 | `obj[k] = v` keeps an existing key's position, appends a new key, stores `v` under `k`, leaves other entries alone, and keeps keys unique |
| Dict.PutOther | src/pages/RolesAndAccess/UserGroupDetails.tsx:89 | `obj[k] = v` leaves every other key's value as it was |
| Listing.Filter | src/pages/Company/CompanyManagement.tsx:41-49 | `filter` never grows the list, keeps only elements that pass, and keeps every element that passes |
| Listing.FilterCounts | src/pages/Company/CompanyManagement.tsx:41-49 | each value that passes occurs in the result exactly as often as in the input, and a value that fails not at all |
| Listing.FilterIsSubsequence | src/pages/Company/CompanyManagement.tsx:41-49 | the filtered list is an order-preserving subsequence of the input |
| Listing.Slice | src/pages/Company/CompanyManagement.tsx:56 | `slice(start, end)` with `0 <= start <= end` is the sub-range between the clamped bounds |
| Listing.TotalPages | src/pages/Company/CompanyManagement.tsx:52 | `Math.ceil(n / 8)` is the fewest pages of 8 that hold `n` rows, and is 0 iff `n` is 0 |
| Listing.PageRows | src/pages/Company/CompanyManagement.tsx:53-56 | page `p >= 1` is rows `(p-1)*8` up to `p*8` (clamped), at most 8 rows, empty past the last page |
| Listing.PageZeroIsEmpty | src/pages/Company/CompanyManagement.tsx:53-56 | page 0 slices to an empty list |
| Listing.RowOnPage | src/pages/Company/CompanyManagement.tsx:51-56 | row `i` is shown on page `i/8 + 1`, which exists, at position `i % 8` |
| Listing.PagesPrefix | src/pages/Company/CompanyManagement.tsx:53-56 | pages 1..k together are exactly the first `8k` rows |
| Listing.PagesPartition | src/pages/Company/CompanyManagement.tsx:51-56 | pages 1..totalPages in turn reproduce the whole list |
| Envelope.EmptyResponse | src/pages/RolesAndAccess/UserGroupDetails.tsx:207-212 | the response slot is one record with empty `ResponseText` and `ErrorCode` |
| Envelope.NullSlots | src/pages/RolesAndAccess/UserGroupDetails.tsx:157-171 | `Intallia1`..`Intallia15` are fifteen nulls |
| Screens.IndexKeys | src/pages/RolesAndAccess/UserGroupDetails.tsx:86-91 | the dictionary built by assigning each child under its ScreenId has unique keys, exactly the children's ids |
| Screens.IndexLastWins | src/pages/RolesAndAccess/UserGroupDetails.tsx:87-88 | for a repeated ScreenId the entry holds the last child with it |
| Screens.IndexEntry | src/pages/RolesAndAccess/UserGroupDetails.tsx:85-92 | every child id has an entry, which is the value of the last child with that id |
| Screens.IndexInOrder | src/pages/RolesAndAccess/AddRole.tsx:77-85 | with unique ids there is one entry per child, in catalogue order |
| Screens.BuildIndex | src/pages/RolesAndAccess/UserGroupDetails.tsx:85-92 | the nested `forEach` over parents and children builds exactly the index of all children |
| Screens.PutChildren | src/pages/RolesAndAccess/UserGroupDetails.tsx:87-89 | the inner `forEach` extends the index by one parent's children |
| Screens.WithFlag | src/pages/RolesAndAccess/UserGroupDetails.tsx:118-123 | `{...child, [perm]: v}` sets that flag to `v` and keeps the other flags and fields |
| Screens.ToggleExpanded | src/pages/RolesAndAccess/AddRole.tsx:340-345 | a header click flips that group's open state, adds its key, and keeps every other entry |
| Screens.ToggleTwice | src/pages/RolesAndAccess/AddRole.tsx:340-345 | two clicks on the same header restore every group's open state |
| UserGroupDetails.LoadResult | src/pages/RolesAndAccess/UserGroupDetails.tsx:59-63 | a present fetched value, list or not, is passed on and a missing one becomes `[]`; the header is `Header[0]` exactly when `Header` is a non-empty list, and `{}` otherwise |
| UserGroupDetails.PermMap | src/pages/RolesAndAccess/UserGroupDetails.tsx:71 | the `Map`'s keys are exactly the records' ScreenIds |
| UserGroupDetails.PermMapLastWins | src/pages/RolesAndAccess/UserGroupDetails.tsx:71 | for each ScreenId the `Map` holds the last record with it |
| UserGroupDetails.PermMapInsert | src/pages/RolesAndAccess/UserGroupDetails.tsx:71 | a record inserted anywhere does not change the `Map` at any other key |
| UserGroupDetails.MergeParent | src/pages/RolesAndAccess/UserGroupDetails.tsx:72-78 | a merged parent keeps its id and names and merges each child in place |
| UserGroupDetails.Merge | src/pages/RolesAndAccess/UserGroupDetails.tsx:69-79 | the merge is `[]` unless both inputs are lists; otherwise it has one merged parent per catalogue parent, in order |
| UserGroupDetails.MergeSpec | src/pages/RolesAndAccess/UserGroupDetails.tsx:71-78 | the merge keeps parents, children, ids and names in place; a child with no record is unchanged; one with records is overlaid with the last of them |
| UserGroupDetails.MergeKeepsUnsavedFlags | src/pages/RolesAndAccess/UserGroupDetails.tsx:76 | a child with no saved record keeps its catalogue flags |
| UserGroupDetails.OrphanRecordIgnored | src/pages/RolesAndAccess/UserGroupDetails.tsx:71-77 | a record whose ScreenId is no catalogue child's leaves the merge unchanged |
| UserGroupDetails.MergeWithoutRecords | src/pages/RolesAndAccess/UserGroupDetails.tsx:69-79 | with no records the merge is the catalogue itself |
| UserGroupDetails.MergeIdempotent | src/pages/RolesAndAccess/UserGroupDetails.tsx:69-79 | merging the merged catalogue with the same records again changes nothing |
| UserGroupDetails.FlattenSpec | src/pages/RolesAndAccess/UserGroupDetails.tsx:83-93 | the edit map's keys are exactly the merged children's ids, each holding the last merged child with that id |
| UserGroupDetails.FlattenKeysAreIds | src/pages/RolesAndAccess/UserGroupDetails.tsx:85-92 | every entry of the edit map carries its own key as ScreenId |
| UserGroupDetails.FlattenValid | src/pages/RolesAndAccess/UserGroupDetails.tsx:83-93 | the seeded edit map is well formed, keyed by the children's ids, and each entry carries its key |
| UserGroupDetails.NewParentsSnoc | src/pages/RolesAndAccess/UserGroupDetails.tsx:104-108 | visiting one more parent adds it to `newEnabled` iff it is not yet in `prev` |
| UserGroupDetails.ExpandDefaults | src/pages/RolesAndAccess/UserGroupDetails.tsx:100-112 | the expand map gains the parents not yet in it, opened; existing entries, collapsed ones too, are kept; with no new parent it is unchanged |
| UserGroupDetails.ToggleEntrySpec | src/pages/RolesAndAccess/UserGroupDetails.tsx:118-124 | a flag change keeps the keys, their order and the key-is-id property; the changed entry holds the negated flag and every other key reads as before |
| UserGroupDetails.NewParentsNone | src/pages/RolesAndAccess/UserGroupDetails.tsx:103-110 | nothing is added iff every parent id is already in the expand map, and then the map is returned as it was |
| UserGroupDetails.ReplaceKeepsIds | src/pages/RolesAndAccess/UserGroupDetails.tsx:118-124 | replacing an entry by one with the same ScreenId keeps the keys, their order and the key-is-id property |
| UserGroupDetails.SaveRequest | src/pages/RolesAndAccess/UserGroupDetails.tsx:144-223 | the save has one header, one detail per entry and the empty response slot |
| UserGroupDetails.SaveRequestSpec | src/pages/RolesAndAccess/UserGroupDetails.tsx:147-205 | every record carries the fetched `CreateDate`, the one `ModifyDate` and the previous `ModifyBy`; the header's ids, description, type and `CreateBy` are the fetched ones when truthy, else `""`; detail `i` has entry `i`'s ScreenId, `!!` flags, and its own `CreateBy` or else the group id; the spare columns are null |
| UserGroupDetails.Editor.constructor | src/pages/RolesAndAccess/UserGroupDetails.tsx:37-43 | the page opens with no data, an empty edit map and an empty expand map |
| UserGroupDetails.Editor.Seed | src/pages/RolesAndAccess/UserGroupDetails.tsx:83-93 | the seeding effect sets the edit map to the flattened merge |
| UserGroupDetails.Editor.AddNewParents | src/pages/RolesAndAccess/UserGroupDetails.tsx:102-111 | the effect's loop merges in exactly `ExpandDefaults`, and reports a change iff some parent was new |
| UserGroupDetails.Editor.ExpandEffect | src/pages/RolesAndAccess/UserGroupDetails.tsx:100-112 | the expand-default effect runs only when the merged catalogue's length changed and it is non-empty |
| UserGroupDetails.Editor.Deliver | src/pages/RolesAndAccess/UserGroupDetails.tsx:83-112 | data that differs from the held data reseeds the edit map with the flattened merge, while equal data keeps the unsaved edits; the expand map follows the length-keyed effect, whose recorded length becomes the merged catalogue's |
| UserGroupDetails.Editor.TogglePermission | src/pages/RolesAndAccess/UserGroupDetails.tsx:114-125 | the edit map becomes `ToggleEntry` of the old one and stays one entry per child of the merged catalogue, under its own ScreenId |
| UserGroupDetails.Editor.ToggleGroup | src/pages/RolesAndAccess/UserGroupDetails.tsx:264-268 | the group header click is `ToggleExpanded` on the expand map |
| UserGroupDetails.Editor.Submit | src/pages/RolesAndAccess/UserGroupDetails.tsx:144-223 | the sent request is the save of the current header and edit map: one detail per entry, in order, with `!!` flags and the clock's date |
| AddRole.EntryWithFlag | src/pages/RolesAndAccess/AddRole.tsx:387-394 | writing `permissions.<id>.<perm>` sets that flag and keeps the entry's others |
| AddRole.DefaultEntry | src/pages/RolesAndAccess/AddRole.tsx:79-83 | a seeded entry copies the child's three flags |
| AddRole.DefaultPermissionsSpec | src/pages/RolesAndAccess/AddRole.tsx:69-85 | the seed has one key per child ScreenId, holding the flags of the last child with it; with unique ids, one entry per child |
| AddRole.ScreenList | src/pages/RolesAndAccess/AddRole.tsx:57-66 | the catalogue is the fetched list, or `[]` before it arrives |
| AddRole.Validate | src/pages/RolesAndAccess/AddRole.tsx:28-40 | the form is accepted iff the four texts are non-empty and every entry's flags are booleans; a refusal names exactly the failing fields; acceptance keeps texts and entries in order |
| AddRole.CreateRequestSpec | src/pages/RolesAndAccess/AddRole.tsx:128-185 | one header, carrying the form's id, company, description and type, and one detail per entry with its key and flags; creator and modifier are the group's id; dates are successive clock readings; spare columns are null |
| AddRole.SteadyClockOneDate | src/pages/RolesAndAccess/AddRole.tsx:136-168 | under a clock that does not move every record carries the same date |
| AddRole.ToggleFlagSpec | src/pages/RolesAndAccess/AddRole.tsx:393-394 | a checkbox click stores the negation of the clicked value (a missing value reads as unchecked, so the box flips); the entry's other two values and every other entry are stored as they were; the keys keep their order and a missing entry is appended last |
| AddRole.PartialEntryRefused | src/pages/RolesAndAccess/AddRole.tsx:33-39 | clicking a box of a screen without an entry makes the whole form invalid |
| AddRole.DefaultsNeedDescription | src/pages/RolesAndAccess/AddRole.tsx:95-101 | the seeded, untouched form is refused for its empty description |
| AddRole.RoleCreator.constructor | src/pages/RolesAndAccess/AddRole.tsx:95-101 | the form opens with the stored id, type "Admin", company "Intallia24", an empty description and every group closed |
| AddRole.RoleCreator.Deliver | src/pages/RolesAndAccess/AddRole.tsx:105-108 | a catalogue of a new length replaces the permissions with its seed; one of the same length leaves them untouched |
| AddRole.RoleCreator.EditText | src/pages/RolesAndAccess/AddRole.tsx:318-320 | typing into one field changes only that field |
| AddRole.RoleCreator.ToggleCheckbox | src/pages/RolesAndAccess/AddRole.tsx:393-394 | a checkbox click is `ToggleFlag` on the permissions field |
| AddRole.RoleCreator.ToggleGroup | src/pages/RolesAndAccess/AddRole.tsx:340-345 | the group header click is `ToggleExpanded` on the expand map |
| AddRole.RoleCreator.Submit | src/pages/RolesAndAccess/AddRole.tsx:128-203 | a refused form sends nothing and reports its fields; an accepted one sends the create request, one detail per entry, keyed in order |
| CompanyManagement.MatchesSpec | src/pages/Company/CompanyManagement.tsx:41-48 | a company is kept iff one of its four searched fields is present and, lower-cased, contains the lower-cased query |
| CompanyManagement.SearchIgnoresCase | src/pages/Company/CompanyManagement.tsx:42 | upper- or lower-casing the query does not change the result |
| CompanyManagement.EmptyQueryKeepsPresent | src/pages/Company/CompanyManagement.tsx:41-48 | with an empty query a company is kept iff one searched field is present |
| CompanyManagement.FilteredSpec | src/pages/Company/CompanyManagement.tsx:41-49 | no lookup data gives `[]`; otherwise the result is an ordered subsequence holding only matches, each matching company as often as in the list |
| CompanyManagement.PagingSpec | src/pages/Company/CompanyManagement.tsx:51-56 | `ceil(n/8)` pages, 0 iff empty; page p is the `(p-1)*8` slice of at most 8, empty past the end; the pages reproduce the list |
| CompanyManagement.ExportSpec | src/pages/Company/CompanyManagement.tsx:59-101 | one row per filtered company, in order; its six cells are CompanyId, CompanyName, Email, PhoneNumber, Status and Website in that order, each field's value or `""` when it is missing; the Excel rows hold the same cells under the six column titles |
| RolesAndAccess.Select | src/pages/RolesAndAccess/RolesAndAccess.tsx:37 | the rows are `LookupData`, or `[]` when it or the response is missing |
| RolesAndAccess.FilteredSpec | src/pages/RolesAndAccess/RolesAndAccess.tsx:44-50 | kept rows are non-null with a present UserGroupId or Description containing the query, case-insensitively; order kept, nothing added, every matching row kept as often as it occurs |
| RolesAndAccess.SearchIgnoresCase | src/pages/RolesAndAccess/RolesAndAccess.tsx:47-48 | upper-casing the query does not change the result |
| RolesAndAccess.PagingSpec | src/pages/RolesAndAccess/RolesAndAccess.tsx:52-56 | `ceil(n/8)` pages; each page at most 8 rows starting at `(p-1)*8`; empty past the end; the pages reproduce the list |
| RolesAndAccess.PdfSpec | src/pages/RolesAndAccess/RolesAndAccess.tsx:60-66 | every filtered row is non-null and gives one PDF row of four cells in column order, a missing field as `""` |
| CTable.NormaliseStatus | src/pages/Company/CTable.tsx:42-44 | an empty or missing status shows as `""`; otherwise the first character is upper-cased and the rest lower-cased |
| CTable.NormaliseIdempotent | src/pages/Company/CTable.tsx:42-44 | normalising a normalised status changes nothing |
| CTable.NormaliseIsWord | src/pages/Company/CTable.tsx:42-44 | a status shows as a capitalised word iff it equals that word ignoring case |
| CTable.Badge | src/pages/Company/CTable.tsx:48-54 | active style iff "Active", inactive style iff "Inactive", none otherwise |
| CTable.BadgeOfStatus | src/pages/Company/CTable.tsx:42-54 | a row's badge is active iff its status is "active" in any casing, inactive iff "inactive" in any casing |
| CTable.EditTarget | src/pages/Company/CTable.tsx:111 | the edit route is the fixed prefix followed by exactly the company id |
| CTable.EditTargetInjective | src/pages/Company/CTable.tsx:111 | two companies never share an edit route |
| CTable.DeleteRequest | src/pages/Company/CTable.tsx:88-96 | the delete request's header is exactly `[{CompanyId: id}]` with the empty response slot |
| CTable.Actions | src/pages/Company/CTable.tsx:108-117 | a row has an action menu iff it exists with a non-empty CompanyId; the menu edits and deletes that id |
| CTable.DeleteMatchesLookup | src/pages/Company/CTable.tsx:89-94 | a row's delete request is the payload `buildCompanyPayload` builds for the same id, which the guard keeps from throwing |
| CompanyForm.FieldOrderComplete | src/pages/Company/CompanyForm.tsx:28-42 | the thirteen fields each occur once in `defaultValues`' order |
| CompanyForm.BuildCompanyPayload | src/pages/Company/CompanyForm.tsx:44-54 | throws iff the id is falsy; otherwise the header is exactly `[{CompanyId: id}]` with the empty response slot |
| CompanyForm.MapCompanyDataToForm | src/pages/Company/CompanyForm.tsx:56-70 | no record gives the empty form |
| CompanyForm.MapCompanyDataToFormSpec | src/pages/Company/CompanyForm.tsx:56-70 | each field is the backend's when it is a non-empty string, and `""` when missing, null or empty |
| CompanyForm.MapRoundTrip | src/pages/Company/CompanyForm.tsx:56-70 | mapping a record made from form values gives those values back |
| CompanyForm.FetchRequest | src/pages/Company/CompanyForm.tsx:176-178 | a request is made iff the id is truthy, and it is `buildCompanyPayload`'s, which then does not throw |
| CompanyForm.FirstHeader | src/pages/Company/CompanyForm.tsx:179-180 | the fetched company is `Header[0]` iff `Header` is a non-empty list, otherwise none |
| CompanyForm.Errors | src/pages/Company/CompanyForm.tsx:10-24 | the schema refuses exactly the empty required texts, an invalid website or email, and never the counts |
| CompanyForm.HeaderSpec | src/pages/Company/CompanyForm.tsx:100-153 | add and update headers are the same record: the form, an empty count as "500", "Admin" as creator and modifier, two clock readings, null spares |
| CompanyForm.OnSubmit | src/pages/Company/CompanyForm.tsx:165-171 | submit updates iff `companyId` is truthy, otherwise adds; the header is the same either way |
| CompanyForm.CompanyFormState.constructor | src/pages/Company/CompanyForm.tsx:85-93 | the form opens at `defaultValues` |
| CompanyForm.CompanyFormState.SetValue | src/pages/Company/CompanyForm.tsx:193 | `setValue` changes that field only |
| CompanyForm.CompanyFormState.Load | src/pages/Company/CompanyForm.tsx:189-196 | with a fetched company the form becomes its mapping, field by field; without one nothing changes |
| CompanyForm.CompanyFormState.Submit | src/pages/Company/CompanyForm.tsx:95-97 | a refused form reports its failing fields and sends nothing; otherwise it sends the add or update request |
| RoleForm.DefaultAccessSpec | src/pages/RolesAndAccess/RoleForm.tsx:36-41 | every switch defaults on except Payment |
| RoleForm.ResetValues | src/pages/RolesAndAccess/RoleForm.tsx:78-79 | the reset copies the fetched role's text fields |
| RoleForm.ResetAccessSpec | src/pages/RolesAndAccess/RoleForm.tsx:80-85 | a switch the role has keeps its value, even false; a missing one takes its default |
| RoleForm.Errors | src/pages/RolesAndAccess/RoleForm.tsx:12-25 | the schema refuses exactly an empty or missing name, company, phone or role, and an invalid email |
| RoleForm.HandleAddNewRole | src/pages/RolesAndAccess/RoleForm.tsx:106-112 | updates the route's role iff the id is truthy, otherwise creates, with the form's data |
| RoleForm.RoleFormState.constructor | src/pages/RolesAndAccess/RoleForm.tsx:64-74 | the form opens at `defaultValues` |
| RoleForm.RoleFormState.Reset | src/pages/RolesAndAccess/RoleForm.tsx:76-88 | with fetched data the form becomes its reset values; without, nothing changes |
| RoleForm.RoleFormState.SetAccessControl | src/pages/RolesAndAccess/RoleForm.tsx:115-120 | sets exactly one switch and leaves every other value unchanged |
| RoleForm.RoleFormState.Submit | src/pages/RolesAndAccess/RoleForm.tsx:154 | a refused form runs no mutation and reports its fields; otherwise it runs `handleAddNewRole` |

## Left out

- Network and transport are left out because they are I/O: the axios client and its 401 redirect, the fetch functions and the mutations' network calls. Fetch results are parameters and requests are returned records.
- The `JSON.stringify` envelope around every request is a library encoding, so requests are modelled as structured records. Keys whose value is `undefined` are therefore not dropped the way JSON drops them.
- react-query behaviour is concurrency and caching that the pages do not decide: caching, `staleTime`, retries, pending flags and the joint `Promise.all` of the two fetches. The effects are modelled as explicit transitions after a result arrives. `AddRole`'s first render with a cached catalogue is also left out; its form then starts with an empty seed.
- Excel and PDF file writing (XLSX, jsPDF) is library output; only the row mapping is modelled. The user-group Excel export at `src/pages/RolesAndAccess/RolesAndAccess.tsx:77-83` hands the raw rows to the library and has no mapping of its own.
- Unicode case mapping is replaced by ASCII `toLowerCase`/`toUpperCase`; other characters are left as they are.
- The company list is taken to hold no `null` rows. The filter at `src/pages/Company/CompanyManagement.tsx:44` reads `company.CompanyId` without a guard, so a `null` row throws during render; `CompanyManagement.Company` has no null case.
- Numbers are modelled as integers; NaN and fractions never occur in these pages' data.
- JavaScript's ordering of integer-like object keys ahead of the others is not modelled; dictionaries keep insertion order. react-hook-form's treatment of a dotted ScreenId in a field path is not modelled either.
- Record keys that the pages do not read are not carried: a permission record's other keys and the fetched role's extra keys. A backend field whose value is not a string is not modelled.
- Rendering, styling, loading and error states, toasts, alerts, navigation, the success modal and the sidebar are UI with no logic to verify. So is the URL encoding of the edit route.
- Files with no logic of their own are not part of this model: the route table, the action menu's mouse handling, the add-company page wiring, the roles table, the broken `authStore` and the duplicate `useDeleteCompany` hook.
- `localStorage.getItem("userGroupId")` is read from the browser on every render. It is the constructor argument of `AddRole.RoleCreator`, so the stored value is taken not to change while the page is open.
- zod's `.url()` and `.email()` are library predicates, so they are the parameters `isUrl` and `isEmail`.
