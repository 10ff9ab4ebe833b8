# omancables kiosk CMS — a Dafny model

This project models the logic of a Next.js kiosk and its content-management
back office. The kiosk plays a background video, shows a menu of buttons that
open media (PDFs, websites, QR codes, images, videos) and shows a strip of
speakers with their time slots. The back office manages:

- speakers, each with a `HH:MM` time slot;
- a forest of "bubbles", each optionally linked to a media record;
- media records: uploaded files or website links;
- the single home-video document.

The model covers, one module per source file:

- **`SpeakerRoute`, `SpeakerForm`, `Showcase`**: speaker scheduling.
  - The `POST` overlap query and its guarded insert.
  - `GET` ordering.
  - The editor's `HH:MM` formatting and `parseInt` handling.
  - The kiosk's featured/slider arrangement.
- **`BubbleForest`, `BubbleRoute`, `UpdateBubbleForm`, `CreateBubbleForm`, `BubbleList`**: the bubble forest.
  - Parent lookup and upward walks.
  - Acyclicity and reference integrity.
  - The collection endpoint.
  - The descendant test and the parent choices of the edit form.
  - The request shaping of both forms.
  - The recursive tree view.
- **`MediaRoute`, `WebsitesRoute`**: media validation and normalisation.
  - The per-kind MIME allow-list and the 25 MiB cap.
  - The fixed validation order.
  - The `PUT` id checks and field fallbacks, `GET` and `DELETE`.
  - Website URL normalisation and lookup.
- **`CmsPage`, `VideoOverlay`, `HomeRoute`**: small state machines.
  - The CMS upload dispatch.
  - The kiosk menu toggles and the modal a media record opens.
  - The singleton home-video document.

Stateful code becomes a class whose methods update its fields: the stores behind each endpoint and the form and page components. Each such method is tied by its postcondition to a pure function of the old state, and the properties are proved about those functions.

Some things are parameters, because the model cannot run them:

- the database, by the store fields;
- the upload host, by an `Upload` value (`Hosted(secureUrl)` or `HostFailed`);
- the URL parser, by an `isValidUrl` predicate;
- `fetch` replies, by `Reply` values;
- the ids the database hands out, by a `freshId`.

Shared datatypes live in `Common` and `Models`; JavaScript string behaviour (`trim`, `startsWith`, `toUpperCase`, string comparison) lives in `Text`.

## Model

| member | source | states |
|---|---|---|
| SpeakerRoute.ConflictsIffOverlap | app/api/speakers/route.js:43-61 | On well-formed slots (start before end) the three-case string query (starts inside, ends inside, encloses) matches exactly the stored slots that share a minute with the new one: `s < e2 && s2 < e`. |
| SpeakerRoute.AdjacentSlotsDoNotConflict | app/api/speakers/route.js:46-59 | A slot that ends when a stored one starts, or starts when it ends, does not conflict with it. |
| SpeakerRoute.OverlapSymmetric | app/api/speakers/route.js:43-61 | Overlap does not depend on which slot is the new one. |
| SpeakerRoute.AtMostOneLive | app/api/speakers/route.js:67 | In a schedule of non-overlapping valid slots, two speakers live at the same minute are the same entry ("only one speaker can be live at a time"). |
| SpeakerRoute.FirstConflict | app/api/speakers/route.js:43-61 | `findOne`: the first stored speaker the query matches; every earlier one does not match; `None` only when none matches. |
| SpeakerRoute.AppendKeepsSchedule | app/api/speakers/route.js:43-87 | Appending a valid slot the query finds no conflict for keeps the store pairwise non-overlapping. |
| SpeakerRoute.InsertByOrder | app/api/speakers/route.js:12 | Insertion into an `order`-sorted list keeps it sorted and adds exactly the one element (multiset). |
| SpeakerRoute.SortByOrder | app/api/speakers/route.js:12 | `.sort({ order: 1 })`: the result is sorted by `order` and a permutation of the input. |
| SpeakerRoute.Conflicts | app/api/speakers/route.js:43-61 | A new slot whose start sorts before its end always matches a stored slot with the same start and end. |
| SpeakerRoute.PostOutcome | app/api/speakers/route.js:22-100 | 400 exactly without a file. A 409 or a 201 only after the data URL split and a hosted upload. A 201 only when the query matched nothing and the schema's required fields are present. |
| SpeakerRoute.CreatedKeepsSchedule | app/api/speakers/route.js:43-87 | A created speaker has the fresh id, the hosted image URL and the requested slot. Appending it keeps the schedule invariant when the store was a schedule and the new slot is valid; the handler checks neither (see Findings). |
| SpeakerRoute.RefusedIffOverlap | app/api/speakers/route.js:43-70 | With a file whose data URL splits and a hosted image, the request is refused exactly when the string query matches some stored slot. For a valid slot against a schedule, that is exactly when some stored slot shares a minute with it. A refusal is a 409 naming a stored speaker and its window. |
| SpeakerRoute.OverlapIsConflict | app/api/speakers/route.js:43-61 | Against a schedule, a valid new slot matches the query on some stored entry exactly when it shares a minute with some stored slot. |
| SpeakerRoute.UnpaddedSlotMissesQuery | app/api/speakers/route.js:43-61 | `9:30`–`9:45` matches none of the three query cases against a stored `09:00`–`10:00`, since `"9:30"` sorts after `"10:00"`. |
| SpeakerRoute.UnpaddedSlotCreatedBesideOverlap | app/api/speakers/route.js:43-87 | As written: beside a stored 09:00–10:00, an unpadded 9:30–9:45 is created. Both speakers are then live at 9:35 and the store is no schedule any more. The corrected handler answers 400. |
| SpeakerRoute.InvertedSlotMissesQuery | app/api/speakers/route.js:43-61 | `13:00`–`08:00` matches none of the three query cases against a stored `09:00`–`12:00`, and it is not a valid slot. |
| SpeakerRoute.InvertedSlotCreated | app/api/speakers/route.js:43-87 | As written: an inverted 13:00–08:00 beside a stored 09:00–12:00 is created, leaving an entry that ends before it starts. The corrected handler answers 400. |
| SpeakerRoute.CheckedPostOutcome | app/api/speakers/route.js:22-100 | The corrected handler answers 409 or 201 only for a valid slot and a hosted image. A 201 only when no stored slot matches and the name, designation and image URL are present. |
| SpeakerRoute.CheckedCreatedKeepsSchedule | app/api/speakers/route.js:43-87 | Against a schedule, whatever the corrected handler creates has the fresh id, the hosted image and the requested slot, and keeps the schedule, with no condition on the request. |
| SpeakerRoute.CheckedRefusedIffOverlap | app/api/speakers/route.js:22-70 | The corrected handler answers 400 exactly for a file with an invalid slot. Once the image is hosted, it answers 409 exactly when the slot is valid and shares a minute with a stored slot. |
| SpeakerRoute.CheckedAgreesOnValidBodies | app/api/speakers/route.js:22-100 | On a valid slot with a popup image URL, the corrected handler answers as the handler as written. |
| SpeakerRoute.EditorCreateStored | app/api/speakers/route.js:84-92 | With the popup image optional, the editor's create is stored (201) with the typed fields and the hosted image. This needs a picked image, a name, a designation and a free valid slot. |
| SpeakerRoute.EditorCreateNeverStored | app/api/speakers/route.js:84-98 | The editor's payload lacks the schema-required `popupImageUrl` (models/Speaker.js), so no create it submits is stored; with a file, a hosted image and a free slot it is a 500. |
| SpeakerRoute.CompleteBodyCreated | app/api/speakers/route.js:84-92 | A body with every required field, a free valid slot and a hosted image is stored (201) with its fields, the hosted URL and `order` defaulting to 0. |
| SpeakerRoute.SpeakerStore.Get | app/api/speakers/route.js:8-19 | Returns every stored speaker, sorted by `order` (a permutation of the store). |
| SpeakerRoute.SpeakerStore.Post | app/api/speakers/route.js:22-100 | The response is `PostOutcome` of the old store. The store grows by the new speaker only on 201. Every request that reaches the host records an upload, including ones then refused with 409. The second `existingSpeaker` guard is unreachable (`assert false` there). |
| SpeakerForm.ParseTime | components/speakers/SpeakerForm.js:169-171 | The inverse of the pickers' `HH:MM` formatting: a value exactly for a well-formed `HH:MM`, with hours below 24, minutes below 60, and their minutes since midnight. |
| SpeakerForm.ShownTime | components/speakers/SpeakerForm.js:166 | ``new Date(`2000-01-01T${t}`)`` as the picker reads it back: nothing for an empty field, otherwise a time of day below 24:00 or an Invalid Date. |
| SpeakerForm.ShownWellFormed | components/speakers/SpeakerForm.js:166 | Every well-formed `HH:MM` is shown as the time it spells, in any time zone, and agrees with `ParseTime`. |
| SpeakerForm.ShownTimeBeyondHHMM | components/speakers/SpeakerForm.js:166 | The `Date` shows `24:00` as midnight and `09:30:15` as 09:30, neither of them `HH:MM`. `9:30`, `24:30` and `NaN:NaN` are Invalid Dates. |
| SpeakerForm.ParseInt | components/speakers/SpeakerForm.js:55 | `parseInt` finds no integer in a blank value; a negative result needs a leading `-`. |
| SpeakerForm.Payload | components/speakers/SpeakerForm.js:73-107 | The request body has the typed name, designation, order and slot, and never a popup image URL. It has the file exactly when an image was picked, with the data URL and MIME type. |
| SpeakerForm.TwoDigits | components/speakers/SpeakerForm.js:169-170 | `String(n).padStart(2, '0')` for n < 100 is two digits whose value is n. |
| SpeakerForm.FormatTime | components/speakers/SpeakerForm.js:169-171 | `${hours}:${minutes}` is a well-formed `HH:MM` with the given hours and minutes. |
| SpeakerForm.FormatThenParse | components/speakers/SpeakerForm.js:166-171 | Reading a formatted time back through the picker value yields the same hours and minutes. |
| SpeakerForm.ParseThenFormat | components/speakers/SpeakerForm.js:166-171 | Every well-formed time is read back and re-formatted to itself. |
| SpeakerForm.LexOrderIsTimeOrder | components/speakers/SpeakerForm.js:169-171 | On well-formed times, lexicographic `<` and `<=` equal order by minutes since midnight. |
| SpeakerForm.OrderFromInput | components/speakers/SpeakerForm.js:55 | `parseInt(value) \|\| 0`: the parsed integer, or 0 when there is no leading integer. |
| SpeakerForm.NoLeadingIntegerGivesZero | components/speakers/SpeakerForm.js:55 | A value whose first non-blank character is not a sign or a digit becomes 0. |
| SpeakerForm.DecimalInputIsItsValue | components/speakers/SpeakerForm.js:55 | A plain decimal numeral is read as its value. |
| SpeakerForm.ChangeTouchesOnlyItsField | components/speakers/SpeakerForm.js:51-57 | `handleInputChange` sets only the named field: to the parsed number for `order`, verbatim otherwise. |
| SpeakerForm.InitialOrder | components/speakers/SpeakerForm.js:42-47 | In create mode `order` starts at the number of listed speakers, or 0 for a missing list. |
| SpeakerForm.PickedTimeIsShownBack | components/speakers/SpeakerForm.js:164-173 | After picking a time, the field holds its `HH:MM` text and the picker shows the same time in any time zone. After an Invalid Date, the picker shows an Invalid Date. |
| SpeakerForm.SpeakerFormState.LoadForCreate | components/speakers/SpeakerForm.js:42-48 | Only `order` changes, to the initial order. |
| SpeakerForm.SpeakerFormState.LoadForEdit | components/speakers/SpeakerForm.js:31-41 | The form shows the speaker's stored fields and image. |
| SpeakerForm.SpeakerFormState.InputChange | components/speakers/SpeakerForm.js:51-57 | The new form data is `Changed` of the old; nothing else changes. |
| SpeakerForm.SpeakerFormState.PickTime | components/speakers/SpeakerForm.js:167-195 | A cleared picker changes nothing and a picked time stores its formatted text. An Invalid Date (a partly typed time) is truthy and stores `NaN:NaN`. |
| SpeakerForm.SpeakerFormState.Submit | components/speakers/SpeakerForm.js:73-107 | The payload carries the fields and the file exactly when an image was picked; `uploading` is false afterwards. |
| SpeakerForm.SpeakerFormState.ImageChange | components/speakers/SpeakerForm.js:59-71 | A file whose MIME type does not start with `image/` alerts and leaves the file unchanged; an image file is stored with its preview. |
| Showcase.ArrangementShape | components/SpeakersShowcase.js:13-16 | Nothing renders exactly for a missing or empty list; otherwise the first speaker is featured and the slider holds the others in order, twice. |
| Showcase.Arrange | components/SpeakersShowcase.js:13-16 | Nothing for a missing or empty list. Otherwise the first speaker is featured and the slider is twice as long as the rest. |
| Showcase.CardKey | components/SpeakersShowcase.js:172 | The key is the id followed by `-` and more. |
| Showcase.CardKeysDistinct | components/SpeakersShowcase.js:172 | Keys `${id}-${idx}` of different positions differ, whatever the ids. |
| Showcase.SliderKeysDistinct | components/SpeakersShowcase.js:16-172 | Every slider position has a key no other position shares. |
| BubbleForest.Lookup | components/bubbles/UpdateBubbleForm.js:199 | `list.find` by key: the first bubble with that key, none when no bubble has it. |
| BubbleForest.WithParent | components/bubbles/bubbleList.js:93-94 | The filter by parent keeps exactly the bubbles with that parent, and is never longer than the list. |
| BubbleForest.WithParentAppend | components/bubbles/bubbleList.js:93-94 | The filter distributes over concatenation, so it keeps the list's order. |
| BubbleForest.WithParentSingle | components/bubbles/bubbleList.js:93-94 | A single bubble is kept exactly when it has that parent. |
| BubbleForest.WithParentCounts | components/bubbles/bubbleList.js:93-94 | A bubble with that parent occurs as often as in the list; any other bubble does not occur. |
| BubbleForest.NoSelfAncestor | components/bubbles/UpdateBubbleForm.js:197-203 | In an acyclic list no bubble is its own ancestor. |
| BubbleForest.AppendKeepsForest | app/api/bubble/route.js:42-62 | Appending a bubble with a new key whose parent is none or an existing bubble keeps reference integrity and acyclicity. |
| BubbleForest.ReparentKeepsForest | components/bubbles/UpdateBubbleForm.js:205-208 | Moving a bubble under none, or under an existing bubble that is neither itself nor below it, keeps the list acyclic and referentially intact. |
| BubbleRoute.Query | app/api/bubble/route.js:16-20 | The answer holds only stored bubbles and is never longer than the collection. |
| BubbleRoute.PostOutcome | app/api/bubble/route.js:29-69 | A created bubble's parent is an existing key, and its media id names an existing document. A title that is not a string, missing or `null` is a 500 (see `ValidationOrder`). |
| BubbleRoute.QueryContents | app/api/bubble/route.js:16-20 | No parameter lists every bubble; `"null"` lists the top-level ones; any other value lists the direct children of that id. |
| BubbleRoute.FindMedia | app/api/bubble/route.js:20 | The media document with an id: the first with that id, none when no document has it. |
| BubbleRoute.Populate | app/api/bubble/route.js:20 | `.populate('media')` replaces a media id by its document, or by nothing when it is missing. |
| BubbleRoute.Get | app/api/bubble/route.js:8-26 | The answer is the query's bubbles, each populated. |
| BubbleRoute.StoredParent | app/api/bubble/route.js:60 | The stored parent is none for an absent, empty or `"null"` id, else the id. |
| BubbleRoute.ValidationOrder | app/api/bubble/route.js:33-67 | A title with no `trim` method (a number, boolean, object or array) gives 500 before any lookup. A missing, `null` or blank title gives 400. Then a named parent that does not exist gives 404, then a media id that does not exist gives 404. Each happens exactly when the earlier checks passed. |
| BubbleRoute.CreatedFields | app/api/bubble/route.js:58-62 | A created bubble came from a string title. It has the fresh id, the trimmed non-blank title, the stored parent and no media for an absent media id. |
| BubbleRoute.CreateKeepsForest | app/api/bubble/route.js:42-62 | A create keeps reference integrity and acyclicity. |
| BubbleRoute.BubbleStore.Post | app/api/bubble/route.js:29-69 | The response is `PostOutcome` of the old store, a 500 included. Only a 201 appends the new bubble, and the forest invariant is kept. |
| UpdateBubbleForm.IsDescendant | components/bubbles/UpdateBubbleForm.js:197-203 | Only a present list and a present ancestor can make a bubble a descendant. |
| UpdateBubbleForm.IsDescendantMeaning | components/bubbles/UpdateBubbleForm.js:197-203 | `isDescendant(a, k)` holds exactly when the bubble found for `k` has a parent and `a` is that parent or above it; an unknown or top-level bubble is nobody's descendant. |
| UpdateBubbleForm.DescendantIffAncestor | components/bubbles/UpdateBubbleForm.js:197-203 | For keyed bubbles the descendant test is the ancestor relation. |
| UpdateBubbleForm.Offer | components/bubbles/UpdateBubbleForm.js:205-208 | A bubble is offered exactly when it is in the list, is not the edited one and is not below it. |
| UpdateBubbleForm.AvailableParents | components/bubbles/UpdateBubbleForm.js:205-208 | A bubble list that is not an array offers nothing. |
| UpdateBubbleForm.AvailableParentsExactly | components/bubbles/UpdateBubbleForm.js:205-208 | A keyed bubble is offered exactly when it is neither the edited bubble nor below it. |
| UpdateBubbleForm.AvailableNeverSelfOrBelow | components/bubbles/UpdateBubbleForm.js:206-207 | The edited bubble and its descendants are never offered. |
| UpdateBubbleForm.ReparentToOfferedKeepsForest | components/bubbles/UpdateBubbleForm.js:205-208 | Reparenting to any offered bubble, or to the top level, keeps an acyclic, referentially intact list so. |
| UpdateBubbleForm.ChangeTouchesOnlyItsField | components/bubbles/UpdateBubbleForm.js:53-57 | `handleChange` writes its own field; every other field, the file and the loaded media id stay. |
| UpdateBubbleForm.Loaded | components/bubbles/UpdateBubbleForm.js:30-51 | The loaded form has the bubble's title and no file; its parent is `''` exactly for a top-level bubble, and its media id is `''` exactly when the bubble has no media. |
| UpdateBubbleForm.MediaCallOf | components/bubbles/UpdateBubbleForm.js:85-178 | A request is made exactly with a media title, a type, and a website, a file or existing media. It is a `PUT` exactly for existing media, and then to that id. |
| UpdateBubbleForm.ResolvedMediaId | components/bubbles/UpdateBubbleForm.js:85-178 | No media exactly when the type is cleared on a bubble with media. Otherwise the existing id, unless a request succeeded. |
| UpdateBubbleForm.SubmitOutcome | components/bubbles/UpdateBubbleForm.js:182-186 | The sent title is trimmed; nothing is sent only when a media request was made. |
| UpdateBubbleForm.SubmitShape | components/bubbles/UpdateBubbleForm.js:182-186 | The sent title is trimmed and non-blank, the parent is null exactly when none was chosen, and the media id is never empty. |
| UpdateBubbleForm.ParentRoundTrip | components/bubbles/UpdateBubbleForm.js:43-184 | A top-level bubble loads with `''` and goes back as null; a parent goes back unchanged. |
| UpdateBubbleForm.KeepOrClearMedia | components/bubbles/UpdateBubbleForm.js:85-178 | Without a media title the existing media is kept; clearing the type on a bubble with media sends null; a failed request keeps the existing id. |
| UpdateBubbleForm.NewFileIsPosted | components/bubbles/UpdateBubbleForm.js:159-173 | A new record with a file posts the trimmed title, the type and the file. |
| UpdateBubbleForm.FieldsOnlyEditIsLost | components/bubbles/UpdateBubbleForm.js:125-140 | As written: a title/type edit without a new file sends JSON to the media `PUT`, which answers 500 without touching the record; the old id is kept and the edit is lost. |
| UpdateBubbleForm.FieldsOnlyEditApplied | components/bubbles/UpdateBubbleForm.js:92-140 | The corrected branch sends the multipart fields body it builds to the media `PUT`. The edit is then stored: the trimmed title and type, the same id and URL, nothing uploaded. |
| UpdateBubbleForm.CorrectedFieldsCall | components/bubbles/UpdateBubbleForm.js:92-140 | Without a new file, the corrected branch sends the fields body to the existing id. |
| UpdateBubbleForm.FieldsOnlyEditTitle | components/bubbles/UpdateBubbleForm.js:125-140 | The stored title is the typed one trimmed, or the current one for a blank title. |
| UpdateBubbleForm.UpdateForm.Load | components/bubbles/UpdateBubbleForm.js:30-51 | With a bubble the form becomes `Loaded`; without one nothing changes. |
| UpdateBubbleForm.UpdateForm.HandleChange | components/bubbles/UpdateBubbleForm.js:53-64 | Writes the field and clears its error only. |
| UpdateBubbleForm.UpdateForm.PickFile | components/bubbles/UpdateBubbleForm.js:297 | Sets the chosen file only. |
| UpdateBubbleForm.UpdateForm.Validate | components/bubbles/UpdateBubbleForm.js:66-75 | The title error is set exactly for a blank title; the result is true exactly without it. |
| UpdateBubbleForm.UpdateForm.Submit | components/bubbles/UpdateBubbleForm.js:77-194 | An invalid form sends nothing. A valid one makes `MediaCallOf` and sends `SubmitOutcome`. `isSubmitting` ends false. |
| CreateBubbleForm.WithField | components/bubbles/CreateBubbleForm.js:30-34 | Only the named field changes; the file stays. |
| CreateBubbleForm.ErrorsOf | components/bubbles/CreateBubbleForm.js:44-53 | The error map has a title entry exactly for a blank title and no other entry. |
| CreateBubbleForm.ClearErrorOnlyItsOwn | components/bubbles/CreateBubbleForm.js:36-41 | A change empties its own field's message and keeps every other entry. |
| CreateBubbleForm.MediaCallOf | components/bubbles/CreateBubbleForm.js:66-110 | A request is made only with a media title and a type; a website posts the trimmed title and the URL as typed. |
| CreateBubbleForm.SubmitDataOf | components/bubbles/CreateBubbleForm.js:113-117 | A media id only after a successful request; a parent id is never empty. |
| CreateBubbleForm.AvailableParents | components/bubbles/CreateBubbleForm.js:135-137 | Nothing for a missing list, and never more than the list. |
| CreateBubbleForm.MediaCallCases | components/bubbles/CreateBubbleForm.js:66-110 | A request is made exactly with a media title and type and, for non-websites, a file. Websites go to the websites endpoint. Files go as a multipart upload of the trimmed title, the type and the file. |
| CreateBubbleForm.SubmitShape | components/bubbles/CreateBubbleForm.js:113-117 | The title is trimmed. The parent key is present exactly when one was chosen. The media key is present exactly when a request succeeded with an id. |
| CreateBubbleForm.NoFileNoMedia | components/bubbles/CreateBubbleForm.js:89-109 | A non-website kind without a file makes no request and sends no media id. |
| CreateBubbleForm.AvailableParentsAreKeyed | components/bubbles/CreateBubbleForm.js:135-137 | Because `formData.id` is never set, every keyed bubble is offered (and only keyless ones are dropped). |
| CreateBubbleForm.CreateForm.HandleChange | components/bubbles/CreateBubbleForm.js:30-42 | Writes the field and clears only its own message. |
| CreateBubbleForm.CreateForm.PickFile | components/bubbles/CreateBubbleForm.js:252 | Sets the chosen file only. |
| CreateBubbleForm.CreateForm.Validate | components/bubbles/CreateBubbleForm.js:44-53 | Replaces the error map by `ErrorsOf`; true exactly when it is empty. |
| CreateBubbleForm.CreateForm.Submit | components/bubbles/CreateBubbleForm.js:55-133 | A blank title sends nothing. Otherwise the media call and submit data are as specified. The form resets exactly when `onSubmit` returns normally. |
| BubbleList.IsLeaf | components/bubbles/bubbleList.js:86-90 | In a list where no bubble has a parent, every id is a leaf. |
| BubbleList.Render | components/bubbles/bubbleList.js:92-284 | One card per bubble with parent `p`, each card showing a stored bubble with that parent. |
| BubbleList.IsLeafMeaning | components/bubbles/bubbleList.js:86-90 | A bubble is a leaf exactly when no bubble names it as parent; a falsy id or a missing list counts as a leaf. |
| BubbleList.HasChildrenIsNotLeaf | components/bubbles/bubbleList.js:104-105 | `hasChildren` is `!isLeafBubble` for a valid id, and holds exactly when its child list is non-empty. |
| BubbleList.GetBubbleMedia | components/bubbles/bubbleList.js:68-84 | Null for non-arrays, a falsy id or no media; a titled populated document as is; otherwise the media entry with the referenced id. |
| BubbleList.GetBubbleMediaCases | components/bubbles/bubbleList.js:73-83 | The three outcomes for a found bubble, and that a bare id finds its entry whenever one exists. |
| BubbleList.GetBubbleTitle | components/bubbles/bubbleList.js:324-328 | `''` when nothing is selected; the title; `this bubble` for a missing or untitled bubble. |
| BubbleList.RenderCovers | components/bubbles/bubbleList.js:92-284 | `renderBubbles(p)` shows exactly the stored keyed bubbles below `p`; from the top level, those whose parent chain reaches a top-level bubble. |
| BubbleList.RenderShowsAll | components/bubbles/bubbleList.js:346 | With reference integrity the tree from the roots shows every keyed bubble. |
| BubbleList.RenderNoDup | components/bubbles/bubbleList.js:92-284 | In an acyclic list with distinct keys no bubble is shown twice. |
| BubbleList.Tree | components/bubbles/bubbleList.js:346 | The view is empty for a missing or empty list, else the render from the roots. |
| MediaRoute.FormGet | app/api/media/route.js:52-55 | `formData.get(name)`: the first field with that name, none when there is none. |
| MediaRoute.TypeEntry | app/api/media/route.js:6-11 | Each kind's own list is non-empty and holds only image, video and PDF types. |
| MediaRoute.TypeEntryKinds | app/api/media/route.js:6-11 | Exactly `image`, `video`, `pdf`, `qr` have a list; exactly the inherited object member names reach a non-list. |
| MediaRoute.AllowListExamples | app/api/media/route.js:6-92 | `image/gif` is allowed for `image` but not `qr`; PDF for `qr` but not `image`; exactly three video types. |
| MediaRoute.AllowedMimeFamilies | app/api/media/route.js:6-11 | Every accepted type is an image, a video or a PDF. |
| MediaRoute.TextOf | app/api/media/route.js:68-73 | `!x?.trim()` on a field: missing or blank is blank, text is trimmed, a file throws. |
| MediaRoute.UploadBodyFields | app/api/media/route.js:52-55 | A well-formed upload reads back its title, type and file. |
| MediaRoute.PostOutcome | app/api/media/route.js:44-142 | A body that is not form data fails. A saved record was hosted, has the fresh id and no website link. |
| MediaRoute.PostRejectionOrder | app/api/media/route.js:63-124 | For an upload carrying a file, each outcome happens exactly when the checks before it passed: blank title, blank type, unknown type, MIME not allowed, size, then the host. An inherited object member as the type throws (500). |
| MediaRoute.NoFileFirst | app/api/media/route.js:63-66 | Without a file the answer is 400 whatever else the form holds. |
| MediaRoute.SizeBoundary | app/api/media/route.js:104 | Exactly 25·1024·1024 bytes is accepted; one more is rejected. |
| MediaRoute.SavedFields | app/api/media/route.js:120-124 | A saved record holds the trimmed title, the trimmed type and the hosted URL. |
| MediaRoute.IndexOfId | app/api/media/route.js:170-221 | `findById`: the position with that id, none when absent. |
| MediaRoute.FindByTitle | app/api/media/route.js:29-31 | The first record whose title equals the query ignoring case, or none when no record does. |
| MediaRoute.GetOutcome | app/api/media/route.js:14-42 | 400 exactly without a title. Otherwise it is a record matching the trimmed title ignoring case, or 404 when none does. |
| MediaRoute.FindByTitleIgnoresCase | app/api/media/route.js:29-31 | Two titles equal ignoring case find the same record in any store. |
| MediaRoute.GetIgnoresCaseAndSpace | app/api/media/route.js:14-31 | In any store, two parameters give the same answer when their trimmed texts are equal ignoring case and both or neither are empty. |
| MediaRoute.RemoveAtDropsOnlyThat | app/api/media/route.js:221-229 | Deleting keeps every other record and the ids distinct. |
| MediaRoute.AppendFreshKeepsIds | app/api/media/route.js:120-124 | Appending a record with a new id keeps ids distinct. |
| MediaRoute.PutIdChecks | app/api/media/route.js:153-162 | An empty, placeholder or non-24-hex id is a 400 before the body is read, with nothing uploaded. |
| MediaRoute.PutJsonBodyFails | app/api/media/route.js:164 | A JSON body with a well-formed id is a 500. |
| MediaRoute.TextFieldsRead | app/api/media/route.js:165-168 | A form of text fields reads back its title and type and no file. |
| MediaRoute.PutOutcome | app/api/media/route.js:145-207 | An upload happens only for a multipart body and a hosted file. An update needs a truthy 24-hex id and a multipart body, and keeps that id. |
| MediaRoute.Revise | app/api/media/route.js:176-200 | An upload only for a new file, and then the URL is the hosted one. Without a file the URL stays. The id and link are kept. |
| MediaRoute.Finish | app/api/media/route.js:195-200 | An update exactly when neither field throws. It keeps the id and link and stores the given URL. A blank title or type keeps the current one. |
| MediaRoute.PutFallbacks | app/api/media/route.js:176-198 | Without a file the URL stays; a blank or missing title or type keeps the current one; otherwise it is stored trimmed. |
| MediaRoute.PutUnknownKindWithFileFails | app/api/media/route.js:178-206 | With a file, a type without its own list throws on `.includes`: 500, nothing uploaded. |
| MediaRoute.UpdateKeepsIds | app/api/media/route.js:196-200 | An update keeps the record's id and the store's ids distinct. |
| MediaRoute.MediaStore.Post | app/api/media/route.js:44-142 | The response is `PostOutcome`; only a save appends, and only a passed chain uploads. |
| MediaRoute.MediaStore.Get | app/api/media/route.js:14-42 | The response is `GetOutcome` of the store. |
| MediaRoute.MediaStore.Put | app/api/media/route.js:145-207 | The response is `PutOutcome`; only an update replaces the record at its position. |
| MediaRoute.MediaStore.Delete | app/api/media/route.js:210-236 | 400 exactly without an id, 404 exactly for an unknown id, otherwise that record is removed. |
| WebsitesRoute.NormalizeUrl | app/api/websites/route.js:59-65 | The result always starts with `http://` or `https://`. |
| WebsitesRoute.NormalizeUrlProperties | app/api/websites/route.js:59-65 | The result is the trimmed input, prefixed with `https://` exactly when it has neither scheme; it always starts with a scheme, and normalising again changes nothing. |
| WebsitesRoute.TextOf | app/api/websites/route.js:47-51 | `!x?.trim()` on a JSON member: missing/null/blank is blank, a string is trimmed, a non-string throws. |
| WebsitesRoute.Decide | app/api/websites/route.js:47-83 | A created record has the trimmed title, the type and the normalised URL. |
| WebsitesRoute.PostOutcome | app/api/websites/route.js:37-99 | A created record has the fresh id. |
| WebsitesRoute.PostRejectionOrder | app/api/websites/route.js:44-74 | Blank title, then blank link, then a link the parser rejects after normalisation: each 400 exactly when the earlier checks passed; created otherwise when the type is usable. |
| WebsitesRoute.PostFailures | app/api/websites/route.js:43-98 | A body that is not JSON, or a non-string title or link, is a 500. |
| WebsitesRoute.CreatedFields | app/api/websites/route.js:44-93 | A created record holds the trimmed title, the type (`website` by default), no file, and the accepted normalised link, which starts with a scheme. |
| WebsitesRoute.FindWebsite | app/api/websites/route.js:21-24 | The first record with a link whose title matches ignoring case. |
| WebsitesRoute.GetOutcome | app/api/websites/route.js:6-35 | 400 exactly without a title. Otherwise it is a record with a link whose title equals the trimmed parameter ignoring case, or 404 when no such record exists. |
| WebsitesRoute.CreatedThenFound | app/api/websites/route.js:21-83 | A created website is found by any query whose trimmed text equals its trimmed title ignoring case. The exception is an earlier record with a link and the same title ignoring case. |
| WebsitesRoute.UploadsAreNotWebsites | app/api/websites/route.js:23 | A record without a link is never returned. |
| WebsitesRoute.Post | app/api/websites/route.js:37-99 | Only a 201 appends the record to the media collection; nothing else changes. |
| WebsitesRoute.Get | app/api/websites/route.js:6-35 | 400 exactly without a title. Otherwise it is a record with a link whose title matches the trimmed parameter ignoring case, or 404 when none does. |
| CmsPage.WithField | app/cms/page.js:73-79 | `handleInputChange` changes the named field only. |
| CmsPage.SubmitOutcome | app/cms/page.js:81-179 | A website request only for the website kind with a non-blank link. A media upload only for a file kind with a file. A reset only after a success message. |
| CmsPage.SubmitGuards | app/cms/page.js:83-171 | Empty title or type, a website without a link, a file kind without a file, and any other kind each set their message and send nothing. The form resets exactly when a request was sent and answered ok. |
| CmsPage.RequestShape | app/cms/page.js:111-153 | A file kind sends a multipart body with the title, the type and the file; a website sends the title and link as typed. |
| CmsPage.UploadMeetsServerChecks | app/cms/page.js:132-153 | Against the media endpoint, a page upload never fails the file or type checks. Only a title of blanks (which the page lets through) is refused as missing. It is saved exactly when the MIME type, size and host allow. |
| CmsPage.WebsiteMeetsServerChecks | app/cms/page.js:98-118 | A website sent without a type is stored as `website`; it is created exactly when the title is not blanks and the normalised link parses. |
| CmsPage.Page.InputChange | app/cms/page.js:73-79 | Only the form data changes, by `WithField`. |
| CmsPage.Page.FileSelect | app/cms/page.js:195-200 | A chosen file replaces the selection; a cancelled choice keeps the previous one. |
| CmsPage.Page.Reset | app/cms/page.js:181-193 | Every field is emptied, the file dropped and the dialog closed. |
| CmsPage.Page.Submit | app/cms/page.js:81-179 | Request and message are `SubmitOutcome`; the form is reset exactly on a reset outcome, else untouched; `submitting` is false on every path. |
| VideoOverlay.Find | components/VideoOverlay.js:14-47 | The button under a key exists exactly when some entry has that key. |
| VideoOverlay.MainButtons | components/VideoOverlay.js:14-233 | The main buttons are exactly the three hierarchy keys. |
| VideoOverlay.OnlyOciInformationExpands | components/VideoOverlay.js:17-482 | Only "OCI Information" under "Discover OCI" has its own sub buttons. |
| VideoOverlay.VideoSourcesAreButtons | components/VideoOverlay.js:50-59 | Every label with a background video is a main or sub button. |
| VideoOverlay.FetchMeaning | components/VideoOverlay.js:78-92 | The fetch returns a record exactly when one's title equals the label ignoring case, and then such a record. |
| VideoOverlay.AtMostOneModal | components/VideoOverlay.js:549-577 | No two modals are shown at once. |
| VideoOverlay.ModalForMeaning | components/VideoOverlay.js:102-173 | A record opens a modal exactly for the five kinds (a website only with a link); then exactly its own kind's modal shows, with its title, id and content (PDF url, website link, QR none, one-element array for image/video). |
| VideoOverlay.ModalFor | components/VideoOverlay.js:102-173 | An opened modal is open, with the record's kind and id. |
| VideoOverlay.MainAfter | components/VideoOverlay.js:182-190 | A click on the active button clears it; any other click makes the clicked button active. |
| VideoOverlay.SubAfter | components/VideoOverlay.js:419-426 | `activeSub` changes only for a sub button with its own row, and only to that button. |
| VideoOverlay.ClosedShowsNothing | components/VideoOverlay.js:194-204 | After closing no modal is shown. |
| VideoOverlay.MainToggle | components/VideoOverlay.js:182-190 | A main click activates the button exactly when it was not active, and a second click undoes it. |
| VideoOverlay.SubToggle | components/VideoOverlay.js:419-426 | A sub click only ever activates a sub button with its own row, and two clicks restore `activeSub`. |
| VideoOverlay.VideoFor | components/VideoOverlay.js:176-179 | `onVideoChange` is called exactly when the handler exists and the label has a video, with that video. |
| VideoOverlay.Overlay.ButtonClick | components/VideoOverlay.js:95-191 | A fetched record only sets its modal (or nothing) and leaves the hierarchy. Without a record, the video changes and a main click toggles `activeMain` and clears `activeSub`. An active sub always sits under the active main and has its own row. |
| VideoOverlay.Overlay.SubButtonClick | components/VideoOverlay.js:419-426 | `activeSub` toggles only for a sub button with its own row; the modal and video are as for `ButtonClick`. |
| VideoOverlay.Overlay.CloseModal | components/VideoOverlay.js:194-204 | The modal state is all closed/null; the hierarchy stays. |
| HomeRoute.GetOutcome | app/api/home/route.js:11-18 | The answer is the first document of a non-empty collection. |
| HomeRoute.Store | app/api/home/route.js:80-92 | A stopped request answers as given and changes nothing. An update is stored as the first document; a refusal changes nothing. |
| HomeRoute.PutOutcome | app/api/home/route.js:34-100 | A refusal leaves the collection as it was; an update is its first document. |
| HomeRoute.GetMeaning | app/api/home/route.js:11-18 | A read answers the first document unchanged, or creates and answers the default one; afterwards there is exactly one document when there was at most one. |
| HomeRoute.GetIdempotent | app/api/home/route.js:11-18 | A second read changes nothing and answers the same. |
| HomeRoute.SourceOf | app/api/home/route.js:42-77 | A multipart request yields the hosted URL; a JSON one the trimmed non-blank `videoUrl`; anything else stops with a non-success answer. |
| HomeRoute.PutMeaning | app/api/home/route.js:34-100 | Every refusal is a 400 and changes nothing. A success stores a trimmed non-empty URL in the first document or a new one, and touches no other. |
| HomeRoute.PutKeepsSingleton | app/api/home/route.js:80-87 | `PUT` never makes more than one document. |
| HomeRoute.JsonPut | app/api/home/route.js:64-77 | A JSON update is refused exactly for a blank `videoUrl` and otherwise stores it trimmed. |
| HomeRoute.MissingVideoPart | app/api/home/route.js:42-50 | A multipart update without a `video` part is a 400 and stores nothing. |
| HomeRoute.PutThenGet | app/api/home/route.js:11-92 | A read after a successful update answers the stored document. |
| HomeRoute.HomeStore.Get | app/api/home/route.js:6-31 | The answer and new collection are `GetOutcome`; at most one document. |
| HomeRoute.HomeStore.Put | app/api/home/route.js:34-100 | The answer and new collection are `PutOutcome`; at most one document. |

## Left out

- I/O and the framework:
  - database connections and their failures (the 500 branches of every `catch` other than the ones modelled);
  - `console` logging, React rendering and styling;
  - asynchronous interleaving of handlers: each handler runs to completion with the awaited replies given as parameters.
- SpeakerForm.ShownTime: the browser's offset from UTC on 2000-01-01 is a parameter, so daylight-saving rules are not modelled. A string outside the ECMAScript date-time format (`HH:mm`, then optionally `:ss` and `.sss`, then optionally `Z` or `±HH:mm`) is taken as an Invalid Date. An engine may instead parse it by its own fallback rules.
- SpeakerForm.OrderFromInput: `parseInt` returns a double, but the model keeps the exact integer. So `SpeakerForm.DecimalInputIsItsValue` holds in JavaScript only below 2^53. Above that the value is rounded to the nearest double, and above about 1.8·10^308 it becomes `Infinity`. Neither is modelled.
- BubbleRoute.PostOutcome: a body that is not JSON (a 500 from `req.json()`) is not modelled. A non-string `parentBubbleId` or `mediaId` is not modelled either; both are taken as strings.
- Speaker `POST`: the base64 decoding is reduced to "the data URL has a comma". The data URL produced by `FileReader` is a parameter.
- SpeakerRoute.CreatedKeepsSchedule: the schedule is promised only when the new slot is valid, because the handler never checks the slot (see Findings).
- SpeakerRoute.RefusedIffOverlap: the minute-overlap reading of a 409 is promised only for a valid slot against a schedule, for the same reason.
- SpeakerRoute.AppendKeepsSchedule: requires a valid slot, for the same reason; `CheckedCreatedKeepsSchedule` needs no such condition.
- Bubble ids: Mongoose `CastError` on a malformed ObjectId in a bubble or media lookup is not modelled; ids are opaque strings.
- `MediaRoute.FindByTitle`, `WebsitesRoute.FindWebsite`: the `$regex` title match is modelled as ASCII case-insensitive equality. Regular-expression metacharacters in a title are not interpreted. So the model finds the record titled "Safety First (Zero & Beyond)", a button label in components/VideoOverlay.js:40 and app/cms/page.js:39. The real pattern `^Safety First (Zero & Beyond)$` treats the parentheses as a group and never matches that title.
- `MediaRoute.MediaStore.Delete`: `media.remove()` is modelled as removing the record. Newer Mongoose versions no longer have that document method, so there it throws (500); the version in use is not part of this model.
- Website `type`: only a missing member, a string, `null` and "some other value" are distinguished. A number that Mongoose would cast to a string counts as a failure.
- `HomeRoute.SourceOf`: a falsy non-string `videoUrl` (`0`, `false`) is treated like a non-string, which throws. Both answers are 400.
- The website `PUT` that `UpdateBubbleForm.js` sends to the websites endpoint has no handler there (405); its reply is a parameter.
- `UpdateBubbleForm.IsDescendant` and `BubbleList.Render` require an acyclic list (and `Render` distinct keys). On a cyclic list the JavaScript recursion does not terminate, and that case is not modelled.
- The `fileInputRef` DOM reset in `handleReset`, object URLs for previews, and `HomeVideoManagement` upload progress are not modelled.
- `VideoOverlay.Overlay.ButtonClick`: the main button list is taken as the hierarchy keys. A click with a label outside it is excluded, because the page renders no such button.

## Findings

| source | as written | input that shows it | evidently intended | confidence | as-written member | corrected member |
|---|---|---|---|---|---|---|
| components/bubbles/UpdateBubbleForm.js:125-140 | A media title/type edit without a new file sends a JSON body to `PUT /api/media`. That handler calls `req.formData()` (app/api/media/route.js:164), which throws on JSON, so the answer is 500, the record is unchanged and the form silently keeps the old id. | A bubble with media, the media title changed, no file chosen. | Send the multipart `mediaFormData` the branch already builds, so the title and type are updated and the URL kept. | not executed | UpdateBubbleForm.FieldsOnlyEditIsLost | UpdateBubbleForm.FieldsOnlyEditApplied |
| app/api/speakers/route.js:43-87 | The create handler never checks the slot. The overlap query compares `HH:MM` strings as strings, so an unpadded time sorts after every time from `10:00`. | A stored 09:00–10:00 and a new `9:30`–`9:45`: created, and both speakers are live at 9:35. | Refuse (400) a slot that is not two `HH:MM` times with start before end, so that every created slot fits the schedule. | not executed | SpeakerRoute.UnpaddedSlotCreatedBesideOverlap | SpeakerRoute.CheckedCreatedKeepsSchedule |
| app/api/speakers/route.js:43-87 | The same missing check lets a slot that ends before it starts through the query. | A stored 09:00–12:00 and a new 13:00–08:00: created. | The same 400 for an inverted slot. | not executed | SpeakerRoute.InvertedSlotCreated | SpeakerRoute.CheckedRefusedIffOverlap |
| models/Speaker.js:16-19 | The schema requires `popupImageUrl`, but the speaker editor never sends one (components/speakers/SpeakerForm.js:73-107). | Any create from the editor with an image, a name, a designation and a free slot: 500 after the upload. | The popup image URL is optional, since nothing in the kiosk sends or reads it. | not executed | SpeakerRoute.EditorCreateNeverStored | SpeakerRoute.EditorCreateStored |
