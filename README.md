# Store admin dashboard: a Dafny model

This project models the client-side core of a React admin dashboard for a multi-store shop. It covers:

- **Store selection.** Three persisted cells hold the selected store's id, name and logo. An id of 0 means "no store".
- **Store switcher.** It decides which store is shown as active and turns a logo reference into an image URL. Its switch action writes the three cells.
- **HTTP client.** It has a fixed base URL. Its request interceptor reads the selected store id as each request passes. When the id is positive, it writes the id into the `X-Store-Id` header in place.
- **Service facades.** `categoryService` and `storeService` map each operation to one verb, one path and one body. The reply is passed back unchanged, and a delete returns nothing.
- **Admin components.** Each is modelled as a state machine over its React state:
  - category list (`categoryManagement`)
  - local category editor (`categoryManager`)
  - category attributes
  - variant attributes
  - add-ons
  - new-store form
  - product form with its tag editor
  - products table with its column toggles
  - sidebar navigation
  - theme toggle

Modelling conventions:

- **React state.** Each component's state is a Dafny `class`, and each handler is a `method` with a `modifies` frame. Pure computations are functions: building the payload, reading a form back, the guards and the header scoping. Lemmas relate those functions to one another.
- **The server.** It is not modelled. A handler takes the outcome of its service call as a `succeeded: bool` input. It takes the outcome of the list reload after that call as `reloaded: Option<...>`, where `None` means the reload failed and its own `catch` swallowed the error.
  - `confirm()` becomes a `confirmed: bool` input.
  - `Date.now()` becomes a `freshId` input.
  - `isLoading` is true while a call is out. A handler shows this with the out-parameter `loadingDuringCall`, which holds the flag's value at the moment the call is issued.
- **Paths.** A request path is a sequence of segments: a literal, or a number interpolated with `${...}`. `Http.Render` turns a path into text. Facts about which ids a path carries are stated on the segments.
- **JSON.** `JSON.stringify` values are kept as a small JSON datatype rather than as text.

## Model

| member | source | states |
|---|---|---|
| Seqs.RemoveAll | src/components/features/ProductsDashboard.tsx:58 | `filter(x => x !== c)`: the multiset of the result is that of the input with every `c` removed; `c` is absent; every other element keeps its membership |
| Seqs.RemoveAt | src/components/features/categoryAttributes.tsx:259-261 | filtering by index `i` drops exactly position `i`: elements before it stay in place, the ones after shift down by one |
| Seqs.IndexOf | src/components/mode-toggle.tsx:19 | `indexOf`: -1 exactly when absent, otherwise the first position holding the element |
| Seqs.Trim | src/components/features/ProductForm.tsx:83-85 | `trim()`: the result is the input's contiguous middle, with only white space cut before and after it; it has no white space at either end, and it is empty exactly when the input is all white space |
| Seqs.TrimEndOfSuffix | src/components/features/ProductForm.tsx:83-85 | cutting trailing white space from a suffix of a string leaves a slice of that string followed only by white space |
| Http.Ids | src/api/categoryService.ts:60-76 | the numbers a path interpolates are exactly its numeric segments |
| Http.NatToString | src/api/categoryService.ts:18 | a non-negative id is written as decimal digits with no leading zero, and those digits denote the id |
| Http.IntToString | src/api/categoryService.ts:18 | an interpolated id is written in decimal, with a leading '-' exactly when negative, and the text denotes the id |
| Http.IntToStringInjective | src/api/categoryService.ts:18 | two different ids never produce the same text |
| Http.Render | src/api/categoryService.ts:8 | a non-empty path renders as text starting with '/'; only the empty path renders empty |
| Http.RenderSingle | src/api/categoryService.ts:8 | a one-segment path renders as '/' followed by that segment's text |
| Http.RenderConcat | src/api/categoryService.ts:8-128 | the text of two joined paths is the text of the first followed by the text of the second, so every segment's text follows its own '/', in order |
| Http.RenderedIdInjective | src/api/categoryService.ts:18 | two paths that differ only in their last id never render as the same text |
| CategoryService.Route | src/api/categoryService.ts:7-128 | each of the sixteen operations issues GET exactly for the four list operations, POST exactly for the four creates, PUT exactly for the four updates and DELETE exactly for the four deletes; a body is sent exactly when the operation is neither a list nor a delete |
| CategoryService.Call | src/api/categoryService.ts:7-128 | a failure propagates unchanged; a resolved list, create or update returns the response body; a resolved delete returns nothing |
| CategoryService.ListAndCreateShareCollection | src/api/categoryService.ts:7-109 | for categories, attributes, add-ons and variant attributes, the list and create operations address the same collection, with GET and POST |
| CategoryService.UpdateAndDeleteShareItem | src/api/categoryService.ts:17-128 | for categories, attributes, add-ons and variant attributes, the update and delete of an item address the same item path, with PUT and DELETE |
| CategoryService.CategoryBodyIsName | src/api/categoryService.ts:12-22 | category create and update both send exactly `{ name }` |
| CategoryService.PayloadPassedThrough | src/api/categoryService.ts:36-124 | attribute, add-on and variant-attribute create and update send the caller's payload as given |
| CategoryService.AddonPathIds | src/api/categoryService.ts:60-77 | the add-on list and create paths carry the store id and then the category id, and no other number |
| CategoryService.ItemPathsCarryOnlyItemId | src/api/categoryService.ts:47-128 | item-level attribute, add-on and variant-attribute paths have two segments and carry only the item's own id |
| StoreService.Route | src/api/storeService.ts:6-23 | GET only for the list and DELETE only for the delete; create and update send the caller's multipart form unchanged; list and delete send no body |
| StoreService.Call | src/api/storeService.ts:6-23 | a failure propagates unchanged; the delete returns nothing; the other operations return the response body |
| StoreService.StoreRoutes | src/api/storeService.ts:6-23 | the four requests are written out: list and create use `/stores`, update and delete use `/stores/{id}` |
| StoreAtoms.StoreSelection.Current | src/Atoms/store-atoms.ts:3-8 | the selection read together is exactly the three cells |
| StoreAtoms.StoreSelection.constructor | src/Atoms/store-atoms.ts:3-8 | the cells start at id 0, empty name and no logo |
| StoreAtoms.StoreSelection.SetId | src/Atoms/store-atoms.ts:3 | writing the id cell leaves name and logo untouched |
| StoreAtoms.StoreSelection.SetName | src/Atoms/store-atoms.ts:4 | writing the name cell leaves id and logo untouched |
| StoreAtoms.StoreSelection.SetLogo | src/Atoms/store-atoms.ts:5-8 | writing the logo cell leaves id and name untouched |
| StoreAtoms.KeysDistinct | src/Atoms/store-atoms.ts:3-8 | the three cells persist under three distinct storage keys |
| AxiosConfig.ScopeHeaders | src/axios_config/axios-config.ts:17-20 | for a positive id the `X-Store-Id` header is set to that id, overwriting any earlier value; for 0 or a negative id the headers are unchanged; no other header is touched |
| AxiosConfig.DropTrailingSlashes | src/axios_config/axios-config.ts:6-8 | the base loses one or two trailing slashes and nothing else: the result is a prefix of the base, at most two characters shorter, everything cut is '/', and when fewer than two were cut no '/' is left at the end |
| AxiosConfig.DropLeadingSlashes | src/axios_config/axios-config.ts:6-8 | the path loses all its leading slashes and nothing else: the result is a suffix of the path, everything cut is '/', and it does not start with '/' |
| AxiosConfig.CombineUrl | src/axios_config/axios-config.ts:6-8 | joining an empty path gives the base; any other gives the base with one or two trailing slashes cut, one '/', then the path without its leading slashes |
| AxiosConfig.BuildFullPath | src/axios_config/axios-config.ts:6-8 | an absolute request URL (a scheme and `//`, or `//` alone) is used as it is; any other is joined to the base |
| AxiosConfig.UrlUnderBase | src/axios_config/axios-config.ts:6-8 | a rendered path is absolute exactly when it starts with `//`; otherwise its URL starts with `http://localhost:8001/api/` and, for a non-empty path, is that base followed by the path without its leading slash; an absolute one is the URL by itself |
| AxiosConfig.NamedPathUnderBase | src/axios_config/axios-config.ts:6-8 | a path whose first segment is a non-empty name, as every service path is, resolves under the base URL |
| AxiosConfig.Intercept | src/axios_config/axios-config.ts:11-23 | the interceptor returns the very config it received, and it rewrites that config's headers in place as `ScopeHeaders` of the id read at that moment |
| AxiosConfig.ApiClient.Dispatch | src/axios_config/axios-config.ts:6-23 | the request leaves with the base URL, the verb and the body unchanged, and with headers scoped by the selection's id at dispatch time; it is appended to the client's log |
| RequestTrace.ReplayExtends | src/axios_config/axios-config.ts:11-13 | later switches and sends never change requests that were already sent |
| RequestTrace.ReadAtDispatch | src/axios_config/axios-config.ts:13-20 | a request carries the id selected when it passes the interceptor, whatever switches follow it |
| RequestTrace.SwitchBetweenRequests | src/axios_config/axios-config.ts:13-20 | a request issued before a switch from store A to store B carries A's id, and one issued after carries B's; a non-positive id adds no header |
| RequestTrace.UnselectedRequest | src/axios_config/axios-config.ts:17-22 | before any store is chosen, requests leave with exactly the caller's headers |
| StoreSwitcher.GetLogoUrl | src/components/store-switcher.tsx:43-49 | no URL for a null or empty logo; an http(s) URL is returned as is; any other logo is served under `http://localhost:8001/public`; the result is always absolute and ends with the logo |
| StoreSwitcher.GetLogoUrlIdempotent | src/components/store-switcher.tsx:43-49 | normalising a normalised logo URL changes nothing |
| StoreSwitcher.FindIndex | src/components/store-switcher.tsx:36 | `find` by id, as a position: the first store with the id, or -1 exactly when none has it |
| StoreSwitcher.ActiveStore | src/components/store-switcher.tsx:35-36 | the active store is the first store with the selected id, failing that the first store, failing that none (exactly when the list is empty) |
| StoreSwitcher.HandleStoreChanges | src/components/store-switcher.tsx:51-55 | after a switch the three cells hold the chosen store's id, name and logo; no logo clears the logo cell |
| StoreSwitcher.SwitchMakesActive | src/components/store-switcher.tsx:35-55 | after switching to a listed store whose id no earlier store shares, that store is the active one |
| ProductsDashboard.ToggleColumn | src/components/features/ProductsDashboard.tsx:55-61 | toggling a column flips its visibility; no other column appears or disappears; a hidden column is appended at the end |
| ProductsDashboard.ToggleKeepsOrder | src/components/features/ProductsDashboard.tsx:58 | hiding a column keeps the remaining columns in their relative order and removes only that column |
| ProductsDashboard.ToggleTwiceRestores | src/components/features/ProductsDashboard.tsx:55-61 | showing a hidden column and then hiding it again gives back exactly the original list |
| ProductsDashboard.ToggleNoDuplicates | src/components/features/ProductsDashboard.tsx:55-61 | toggling never introduces a duplicate column |
| ProductsDashboard.AllColumnsDistinct | src/components/features/ProductsDashboard.tsx:33-41 | the initial column list has seven distinct columns |
| ProductsDashboard.Headers | src/components/features/ProductsDashboard.tsx:140-167 | the header row always ends with the actions header |
| ProductsDashboard.VisibleLabelsMembers | src/components/features/ProductsDashboard.tsx:142-162 | a label shows exactly when some visible column carries it |
| ProductsDashboard.LabelsDistinct | src/components/features/ProductsDashboard.tsx:142-163 | the seven column labels differ from each other and from the actions header |
| ProductsDashboard.HeaderShowsExactlyVisible | src/components/features/ProductsDashboard.tsx:140-167 | a column's header shows exactly when the column is visible |
| ProductsDashboard.VisibleLabelsBySet | src/components/features/ProductsDashboard.tsx:142-162 | which headers render depends only on which columns are visible |
| ProductsDashboard.HeadersIgnoreToggleOrder | src/components/features/ProductsDashboard.tsx:140-167 | two visible lists with the same columns render the same header row, so headers stay in table order whatever the toggle order was |
| ProductsDashboard.AllVisibleLabels | src/components/features/ProductsDashboard.tsx:142-162 | when every column is visible, each column's label shows, in table order |
| ProductsDashboard.InitialHeaders | src/components/features/ProductsDashboard.tsx:53 | initially all seven labels render in table order, followed by the actions header |
| ProductsDashboard.Dashboard.constructor | src/components/features/ProductsDashboard.tsx:53 | all columns start visible |
| ProductsDashboard.Dashboard.ToggleColumnState | src/components/features/ProductsDashboard.tsx:55-61 | the visible list becomes `ToggleColumn` of the previous one |
| ModeToggle.NextTheme | src/components/mode-toggle.tsx:17-22 | the themes form the cycle system, light, dark, system; an unset theme counts as system; an unknown theme goes to system |
| ModeToggle.ThreeClicksReturn | src/components/mode-toggle.tsx:16-22 | three clicks return to the starting theme |
| AppSidebar.IsActiveMeaning | src/components/app-sidebar.tsx:104-107 | "/" is active only on "/"; any other URL is active exactly on the pathnames it is a character prefix of |
| AppSidebar.PrefixIgnoresSegments | src/components/app-sidebar.tsx:104-107 | the prefix test ignores segment boundaries (`/products` is active on `/productsx`), and "/" is not active elsewhere |
| AppSidebar.ToggleSubmenu | src/components/app-sidebar.tsx:110-115 | one title's flag is negated, a missing flag counting as false; every other entry stays |
| AppSidebar.ToggleSubmenuTwice | src/components/app-sidebar.tsx:110-115 | toggling a recorded title twice restores the map |
| AppSidebar.IsSubmenuActive | src/components/app-sidebar.tsx:118-120 | a submenu is highlighted exactly when some sub-item's URL is active |
| AppSidebar.CategoryPageHighlightsSettings | src/components/app-sidebar.tsx:40-70 | on the category page the Admin Settings submenu is highlighted and Overview is not |
| AppSidebar.Sidebar.constructor | src/components/app-sidebar.tsx:87-89 | Admin Settings starts expanded |
| AppSidebar.Sidebar.Toggle | src/components/app-sidebar.tsx:110-115 | the expanded map becomes `ToggleSubmenu` of the previous one |
| ProductForm.Utf16Length | src/components/features/ProductForm.tsx:26-28 | a string's JavaScript length lies between its character count and twice that, is 0 only for the empty string, and equals the character count when no character lies outside the Basic Multilingual Plane |
| ProductForm.EmojiDescriptionLength | src/components/features/ProductForm.tsx:28 | five emoji are five characters but ten code units, enough for the description rule |
| ProductForm.StringIssues | src/components/features/ProductForm.tsx:26-28 | a required string field reports "Required" exactly when undefined, its own message exactly when shorter than the minimum in code units, and nothing otherwise |
| ProductForm.Issues | src/components/features/ProductForm.tsx:25-30 | no issue exactly when all five rules hold; "At least one tag is required" exactly when there is no tag; "Input not instance of File" exactly when the picture was never set |
| ProductForm.ReferenceIssues | src/components/features/ProductForm.tsx:26 | the reference reports "Required" exactly when undefined and "Reference is required" exactly when empty |
| ProductForm.NameIssues | src/components/features/ProductForm.tsx:27 | the name reports "Required" exactly when undefined and "Name is required" exactly when empty |
| ProductForm.DescriptionIssues | src/components/features/ProductForm.tsx:28 | the description reports "Required" exactly when undefined and its length message exactly when under 10 code units |
| ProductForm.IssuesOnePerField | src/components/features/ProductForm.tsx:25-30 | at most one issue per field, so no issue repeats |
| ProductForm.Validate | src/components/features/ProductForm.tsx:25-30 | the values reach `onSubmit` exactly when every rule holds, with the text fields as typed, a null picture as none and a chosen file as that file |
| ProductForm.PictureAfterChange | src/components/features/ProductForm.tsx:231-235 | choosing a file makes it the picture; an empty selection leaves the picture as it was |
| ProductForm.PictureNeverNull | src/components/features/ProductForm.tsx:231-235 | the file input never makes the picture null; it stays unset exactly when no file was ever chosen |
| ProductForm.AcceptedFormCarriesPicture | src/components/features/ProductForm.tsx:30-105 | from the default values through the file input, every accepted submission carries a picture |
| ProductForm.VariantsJson | src/components/features/ProductForm.tsx:108 | each entered variant is encoded in order |
| ProductForm.SubmittedVariants | src/components/features/ProductForm.tsx:107-123 | with variants, the list is sent as entered; without variants, exactly one variant is sent, built from the product-level fields |
| ProductForm.TagsJson | src/components/features/ProductForm.tsx:104 | the tags are encoded as a JSON array of the same strings, in order |
| ProductForm.BuildProductForm | src/components/features/ProductForm.tsx:97-124 | the entries are reference, name, description and tags; then the picture, only when it is not null; then the variants, last |
| ProductForm.VariantRoundTrip | src/components/features/ProductForm.tsx:108 | an entered variant can be read back from what is sent |
| ProductForm.SingleVariantFromMeasures | src/components/features/ProductForm.tsx:109-123 | without variants, the single variant sent reads back as the variant the ten product-level fields describe |
| ProductForm.Submission | src/components/features/ProductForm.tsx:97-129 | nothing is sent when a rule fails; otherwise exactly one POST to `/products` with the multipart form of the validated values and the `multipart/form-data` content type |
| ProductForm.DefaultFormRefused | src/components/features/ProductForm.tsx:66-73 | the untouched form is refused with "Required" for reference, name and description, the tag message and the picture message |
| ProductForm.TagEditor.constructor | src/components/features/ProductForm.tsx:63-70 | no tags, and empty input |
| ProductForm.TagEditor.TypeTag | src/components/features/ProductForm.tsx:196 | typing sets the current tag text |
| ProductForm.TagEditor.HandleAddTag | src/components/features/ProductForm.tsx:82-89 | Enter with non-blank text appends the trimmed text to the tag list and to the form value, and clears the input; any other key, or blank text, changes nothing |
| ProductForm.TagEditor.HandleRemoveTag | src/components/features/ProductForm.tsx:91-95 | every tag equal to the removed one is dropped and the rest keep their order, in both the tag list and the form value |
| CategoryAttributes.FormatValues | src/components/features/categoryAttributes.tsx:82-84 | each string becomes a `{ value }` record, preserving order and length |
| CategoryAttributes.ValueStrings | src/components/features/categoryAttributes.tsx:154 | records map back to their strings, preserving order and length |
| CategoryAttributes.FormatRoundTrip | src/components/features/categoryAttributes.tsx:80-96 | formatting and then reading back gives the entered strings |
| CategoryAttributes.RecordsRoundTrip | src/components/features/categoryAttributes.tsx:154 | reading stored records and then formatting them gives the same records |
| CategoryAttributes.Formatted | src/components/features/categoryAttributes.tsx:80-96 | the submitted body copies every form field and wraps the values as records that read back as the form's strings |
| CategoryAttributes.SubmitOp | src/components/features/categoryAttributes.tsx:79-97 | while an attribute is being edited, submit PUTs to that attribute's id; otherwise it POSTs under the category; the body is the formatted form |
| CategoryAttributes.EditForm | src/components/features/categoryAttributes.tsx:146-156 | the edit form copies the attribute; a missing unit becomes ""; missing values become none, and present ones become their strings in order, which format back to the stored records; the category is the editor's own |
| CategoryAttributes.EditThenSubmitKeepsValues | src/components/features/categoryAttributes.tsx:146-156 | editing and submitting unchanged sends back the stored value records |
| CategoryAttributes.AttributesEditor.constructor | src/components/features/categoryAttributes.tsx:38-53 | starts with no attributes, the dialog closed, nothing being edited, not loading, and the default form |
| CategoryAttributes.AttributesEditor.LoadAttributes | src/components/features/categoryAttributes.tsx:59-72 | a successful load replaces the list, and a failed one leaves it |
| CategoryAttributes.AttributesEditor.ResetForm | src/components/features/categoryAttributes.tsx:160-171 | the form returns to name "", text type, unit "", not required, order 0 and no values; nothing is being edited |
| CategoryAttributes.AttributesEditor.HandleSubmit | src/components/features/categoryAttributes.tsx:74-123 | issues `SubmitOp`; loading is on during the call and off afterwards; success closes the dialog and resets the form; failure leaves dialog, form and editing state unchanged |
| CategoryAttributes.AttributesEditor.HandleDelete | src/components/features/categoryAttributes.tsx:125-144 | a declined confirmation issues no delete and changes nothing; otherwise it deletes by id |
| CategoryAttributes.AttributesEditor.HandleEdit | src/components/features/categoryAttributes.tsx:146-158 | edits the attribute, fills the form with `EditForm` and opens the dialog |
| CategoryAttributes.AttributesEditor.EditValue | src/components/features/categoryAttributes.tsx:245-252 | typing at index i changes only position i |
| CategoryAttributes.AttributesEditor.RemoveValue | src/components/features/categoryAttributes.tsx:258-266 | removing index i drops exactly that value |
| CategoryAttributes.AttributesEditor.AddValue | src/components/features/categoryAttributes.tsx:275-283 | adding appends an empty value |
| CategoryVariants.InitialForm | src/components/features/categoryVariants.tsx:214-222 | the form copies the initial attribute with defaults "", text, "", 0 and no values; the id is kept only when it is truthy; the category id is not copied |
| CategoryVariants.AddValue | src/components/features/categoryVariants.tsx:307-316 | appends `{ value: "", display_order: current length }`, keeps the earlier entries and changes no other field |
| CategoryVariants.AddValueKeepsOrders | src/components/features/categoryVariants.tsx:308-314 | if every entry's order equals its index, that still holds after adding |
| CategoryVariants.SetValueText | src/components/features/categoryVariants.tsx:270-277 | editing an entry's value keeps its order and every other entry |
| CategoryVariants.SetValueOrder | src/components/features/categoryVariants.tsx:283-289 | editing an entry's order keeps its value and every other entry |
| CategoryVariants.RemoveValue | src/components/features/categoryVariants.tsx:294-298 | removing index i drops exactly that entry |
| CategoryVariants.UpdateOp | src/components/features/categoryVariants.tsx:86-89 | no call without a truthy id; otherwise a PUT to that id with the whole form |
| CategoryVariants.DeleteOp | src/components/features/categoryVariants.tsx:180 | a delete is issued only for an attribute with a truthy id, and no confirmation is asked |
| CategoryVariants.VariantAttributesPanel.constructor | src/components/features/categoryVariants.tsx:38-42 | no attributes, both dialogs closed, nothing selected |
| CategoryVariants.VariantAttributesPanel.FetchAttributes | src/components/features/categoryVariants.tsx:49-63 | a successful fetch replaces the list, and a failed one leaves it |
| CategoryVariants.VariantAttributesPanel.HandleCreate | src/components/features/categoryVariants.tsx:65-84 | creates under the panel's category; success closes the add dialog and refetches |
| CategoryVariants.VariantAttributesPanel.HandleUpdate | src/components/features/categoryVariants.tsx:86-106 | without a truthy id, makes no call and changes nothing; otherwise it updates, and success closes the edit dialog |
| CategoryVariants.VariantAttributesPanel.DeleteClicked | src/components/features/categoryVariants.tsx:108-126 | deletes only an attribute with a truthy id; success refetches |
| CategoryVariants.VariantAttributesPanel.EditClicked | src/components/features/categoryVariants.tsx:170-173 | selects the attribute and opens the edit dialog |
| CategoryManager.WithAttribute | src/components/features/categoryManager.tsx:49-58 | the category gains exactly one attribute, at the end, built from the draft and the fresh id; existing attributes, name and id are kept |
| CategoryManager.ReplaceById | src/components/features/categoryManager.tsx:60-64 | entries with the updated category's id are replaced; list length, order and every other entry are unchanged |
| CategoryManager.ReplacedIsListed | src/components/features/categoryManager.tsx:60-64 | a listed category appears in its updated form after the replacement |
| CategoryManager.ReplaceUnlistedIsIdentity | src/components/features/categoryManager.tsx:60-64 | replacing a category whose id is not listed changes nothing |
| CategoryManager.Manager.constructor | src/components/features/categoryManager.tsx:37-44 | no categories, no selection, and the draft is text type, not required |
| CategoryManager.Manager.Select | src/components/features/categoryManager.tsx:102 | clicking a category selects it |
| CategoryManager.Manager.SetDraftName | src/components/features/categoryManager.tsx:165-169 | the name input sets the draft's name and keeps its other fields |
| CategoryManager.Manager.SetDraftType | src/components/features/categoryManager.tsx:174-179 | the type select sets the draft's type and keeps its other fields |
| CategoryManager.Manager.SetDraftRequired | src/components/features/categoryManager.tsx:193-198 | the switch sets the draft's required flag and keeps its other fields |
| CategoryManager.Manager.HandleAddAttribute | src/components/features/categoryManager.tsx:46-67 | with no selected category, or an empty or missing name, nothing changes; otherwise the list entry is replaced by the updated category, which becomes the selection, and the draft resets |
| CategoryManagement.SubmitOp | src/components/features/categoryManagement.tsx:67-71 | while editing, update with the edited id and the current name; otherwise create with the name |
| CategoryManagement.SelectionAfterDelete | src/components/features/categoryManagement.tsx:109-111 | the selection is cleared exactly when it is the deleted category |
| CategoryManagement.Management.constructor | src/components/features/categoryManagement.tsx:33-40 | starts empty: no dialog, no editing, empty name, not loading, no selection |
| CategoryManagement.Management.LoadCategories | src/components/features/categoryManagement.tsx:47-60 | a successful load replaces the list, and a failed one leaves it |
| CategoryManagement.Management.HandleSubmit | src/components/features/categoryManagement.tsx:62-97 | issues `SubmitOp`; loading is on during the call and off afterwards; success clears the name and the editing category and closes the dialog; failure leaves them unchanged |
| CategoryManagement.Management.HandleDelete | src/components/features/categoryManagement.tsx:99-120 | a declined confirmation issues nothing and changes nothing; a successful delete clears the selection exactly when it was the deleted category; a failed delete leaves the selection |
| CategoryManagement.Management.HandleEdit | src/components/features/categoryManagement.tsx:122-126 | edits the category, copies its name and opens the dialog |
| CategoryManagement.Management.HandleCategorySelect | src/components/features/categoryManagement.tsx:128-131 | records the id and forwards id and name to the parent |
| CategoryAddons.SubmitOp | src/components/features/categoryAddons.tsx:66-70 | while editing, PUT to the add-on's id; otherwise POST under the store and the category; the body is the form |
| CategoryAddons.EditForm | src/components/features/categoryAddons.tsx:118-121 | the form takes the add-on's name and price |
| CategoryAddons.EditThenSubmit | src/components/features/categoryAddons.tsx:66-70 | submitting right after an edit click sends the add-on's own name and price to its own id |
| CategoryAddons.AddonsPanel.constructor | src/components/features/categoryAddons.tsx:31-41 | no add-ons, dialog closed, nothing edited, not loading, form {name "", price 0} |
| CategoryAddons.AddonsPanel.LoadAddons | src/components/features/categoryAddons.tsx:47-59 | a successful load replaces the list, and a failed one leaves it |
| CategoryAddons.AddonsPanel.ResetForm | src/components/features/categoryAddons.tsx:125-131 | the form becomes {name "", price 0} and nothing is being edited |
| CategoryAddons.AddonsPanel.HandleSubmit | src/components/features/categoryAddons.tsx:61-93 | issues `SubmitOp`; loading is on during the call and off afterwards; success closes the dialog and resets the form; failure leaves dialog and form unchanged |
| CategoryAddons.AddonsPanel.HandleDelete | src/components/features/categoryAddons.tsx:95-114 | a declined confirmation issues nothing and changes nothing; otherwise it deletes by id |
| CategoryAddons.AddonsPanel.HandleEdit | src/components/features/categoryAddons.tsx:116-123 | edits the add-on, copies its name and price and opens the dialog |
| AddStoreForm.MessagesDistinct | src/components/add-store-form.tsx:17-27 | the three schema messages are distinct |
| AddStoreForm.StoreErrors | src/components/add-store-form.tsx:16-29 | no message exactly when the name is non-empty and any chosen file is at most 1 MB and of an accepted image type; each message appears exactly when its own check fails; both file checks can fail together; no file means no file error |
| AddStoreForm.StoreForm | src/components/add-store-form.tsx:54-58 | the multipart form always has the name; it has the picture only when a file was chosen |
| AddStoreForm.StoreFormState.constructor | src/components/add-store-form.tsx:34-35 | not loading, and no file chosen |
| AddStoreForm.StoreFormState.HandleFileChange | src/components/add-store-form.tsx:87-90 | the first chosen file, or none |
| AddStoreForm.StoreFormState.OnSubmit | src/components/add-store-form.tsx:39-85 | an invalid form sends nothing and reports the schema's messages; a valid one creates the store with `StoreForm`; the parent is told only on success; loading is off on every path |

## Left out

- Transport is not modelled: axios itself, the network, the server and response parsing. A service reply is an input (`Http.Reply`), and a handler sees only whether its call and its reload succeeded.
- Overlapping async work is not modelled. Each handler runs to completion before the next event, so two handlers interleaving at an `await` are left out. The variants panel does not await its refetch (`categoryVariants.tsx:69,91,111`), and the model applies that refetch immediately.
- Persistence is not modelled: jotai's `atomWithStorage`, localStorage and a reload restoring the cells. The model keeps only the cells' in-memory values and their keys.
- The request path is kept as segments and rendered to text. Axios's own URL resolution is modelled as `AxiosConfig.BuildFullPath` and `AxiosConfig.CombineUrl`. Its other request options (`params`, `allowAbsoluteUrls`) are not modelled.
- The store id header is a number. Its conversion to header text on the wire is left out.
- `src/components/actions/store-actions.tsx` is not part of this model. It uses its own client with a different base URL (`:8`, `:18`).
- `src/components/actions/product-actions.tsx`, `src/App.tsx`, `src/main.tsx`, `src/components/column-selector.tsx` and the pages under `src/components/pages/` are rendering or routing with no modelled logic. This includes `pages/category.tsx`, with its fixed store id and timed loader.
- zod and react-hook-form are not modelled; only the rules the schemas state are. The product form's numeric bounds are not modelled (width at least 0.1 and the rest, `ProductForm.tsx:35-57`). Nor is the variants field array's add and remove (`useFieldArray`).
- ProductForm.Submission: checks the five non-numeric rules only, so it is weaker than the schema, which also rejects out-of-range numbers.
- `parseInt`, `parseFloat` and NaN are not modelled. Numeric inputs arrive as numbers. Prices and measures are `real`, and no arithmetic is done on them.
- ProductForm.SubmittedVariants: assumes `variants` is a list when `hasVariants` is on. The `undefined` case is not modelled.
- `JSON.stringify` text is not modelled: payload values are the `Types.Json` datatype.
- `Intl.NumberFormat` price display, the JSX, dialogs' open-change callbacks, toasts and console logging are not modelled.
- `Date.now()` is not modelled; the fresh attribute id is a parameter of `HandleAddAttribute`.
- The theme library's own `setTheme` and resolved theme are not modelled; only the theme chosen by a click is.
- `src/types/index.ts` is used only for record shapes. `CategoryAttribute` is declared twice, identically, and is modelled once. The Order, Packaging, Shipping and SEO types are unused by the modelled code and are left out.
- `Seqs.IsWhitespace` lists the characters `String.prototype.trim` removes, as Unicode scalar values. Nothing beyond that set is treated as white space.
- The add-store form reads the name field as a string. A missing field (`null`) is not modelled.
