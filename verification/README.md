# Portfolio site: store, CMS, gallery, carousel, navigation, admin gate and chunk classifier

A Dafny model of the logic inside a React marketing site for a Shopify studio.
The components are mostly presentational. The part modelled here is the list,
string and state-transition logic they contain:

- **Project store and sync utility** (`PortfolioSync`). It covers:
  - load, save and clear of one local-storage key;
  - the published view, and the conversion of a CMS record to the gallery's record shape (with JavaScript's `parseInt` on the id);
  - the cross-tab storage-event filter;
  - export and import.

  Storage is a `map<string, string>`. JSON is an abstract `Codec`: encode, pretty-encode and decode functions. The round-trip law is a predicate, `Lawful`, which the lemmas require; it is not an axiom. Whether a `setItem` write succeeds (it throws when the quota is exceeded or storage is disabled) is a parameter, `written`, of every operation that writes: the store, the CMS editor and the admin login.
- **CMS editor** (`ProjectList`, `Cms`). The editor is a state machine over the in-memory list, the edit form, the filters, the before/after modal and storage. It covers:
  - upsert by id, delete by id, and appending a before/after comparison;
  - the filters, the header counts and the mount effect;
  - proofs that ids stay distinct, and that the stored array is the list in memory after every change whose write succeeds;
  - what a failed write does: the CMS's `setItem` is uncaught, so the list in memory is already replaced while storage keeps the old value, and the rest of the handler (closing the form or the modal) does not run.
- **Public Work page** (`Gallery`). It covers:
  - the constant eighteen-card gallery and its search-and-category filter;
  - the hand-written category badge counts, checked against the cards.

  Each card is split in two parts:
  - `Shapes` holds what decides where a card appears: id, category, flags and video id.
  - `CardTexts` holds what the card prints.

  The lemmas about ids, videos and category sizes hold for every choice of card texts.
- **Testimonial carousel** (`Testimonials`). It covers:
  - next, previous, go-to and the autoplay tick over five testimonials, with JavaScript's truncating `%`;
  - the avatar initials.
- **Navigation bar** (`Navigation`, `SwipeMenu`, `PlainMenu`). Both copies of the component share:
  - the click decision (navigate, scroll, or go home and then scroll);
  - the active-item highlight;
  - first-match section detection over on-screen rectangles.

  Each copy has its own mobile-menu state machine.
- **Admin gate** (`AdminGate`). A plaintext password check remembered under its own storage key, and the constant quick-stats panel.
- **Build chunk classifier** (`Chunks`). `manualChunks` as a first-match substring classifier, and the constant `chunkFileNames`.

`Wrappers`, `Seqs` and `Strings` are helpers:

- `Option`;
- order-preserving filter and count;
- `includes`, ASCII `toLowerCase`, `split`/`join` on one character, and `parseInt` (with the full ECMAScript white-space set it skips).

## Model

| member | source | states |
|---|---|---|
| PortfolioSync.Load | Documents/ganpatibapa/Documents/SDS/06best/src/lib/portfolio-sync.ts:39-52 | the loaded value is `[]` when the key is absent, when the stored string is empty, or when it does not parse; otherwise it is the decoded value |
| PortfolioSync.Save | Documents/ganpatibapa/Documents/SDS/06best/src/lib/portfolio-sync.ts:55-63 | a successful write adds or overwrites only the projects key with the encoded value; a failed write (caught and logged) leaves the store unchanged; every other key keeps its value either way |
| PortfolioSync.LoadAfterSave | Documents/ganpatibapa/Documents/SDS/06best/src/lib/portfolio-sync.ts:39-63 | under a lawful codec, loading after a successful save gives the saved value back, order included; after a failed save it gives what it gave before |
| PortfolioSync.SaveIdempotent | Documents/ganpatibapa/Documents/SDS/06best/src/lib/portfolio-sync.ts:55-63 | saving the same value twice leaves the store as saving it once, with the write counted as done if either attempt succeeded |
| PortfolioSync.Clear | Documents/ganpatibapa/Documents/SDS/06best/src/lib/portfolio-sync.ts:122-125 | clearing removes the projects key and keeps every other key and value |
| PortfolioSync.LoadAfterClear | Documents/ganpatibapa/Documents/SDS/06best/src/lib/portfolio-sync.ts:122-125 | loading after a clear gives `[]` |
| PortfolioSync.GetPublished | Documents/ganpatibapa/Documents/SDS/06best/src/lib/portfolio-sync.ts:66-70 | the result is defined exactly when the stored JSON is a project array; it is then the published records of the loaded list, in their original relative order |
| PortfolioSync.PublishedAfterSave | Documents/ganpatibapa/Documents/SDS/06best/src/lib/portfolio-sync.ts:55-70 | after a successful save of a list, the published view is exactly that list's published records, in order; after a failed one the view is unchanged |
| PortfolioSync.ToWorkItem | Documents/ganpatibapa/Documents/SDS/06best/src/lib/portfolio-sync.ts:73-89 | the twelve display fields are copied unchanged and the id is `parseInt` of the CMS id |
| PortfolioSync.ToWorkItemIgnoresCmsFields | Documents/ganpatibapa/Documents/SDS/06best/src/lib/portfolio-sync.ts:73-89 | the converted record does not depend on the before/after images, the status or the two timestamps |
| PortfolioSync.ToWorkItemNumericId | Documents/ganpatibapa/Documents/SDS/06best/src/lib/portfolio-sync.ts:75 | an id that is the decimal text of a number converts back to that number |
| PortfolioSync.ToWorkItemNonNumericId | Documents/ganpatibapa/Documents/SDS/06best/src/lib/portfolio-sync.ts:75 | an id whose first character is not ECMAScript white space (any Zs space, tab, vertical tab, form feed, BOM, or a line terminator), a sign or a digit converts to NaN |
| PortfolioSync.ConvertAll | Documents/ganpatibapa/Documents/SDS/06best/src/lib/portfolio-sync.ts:94 | mapping the conversion keeps the length and converts each position |
| PortfolioSync.SyncToWorkPage | Documents/ganpatibapa/Documents/SDS/06best/src/lib/portfolio-sync.ts:92-95 | the synced list has one converted record per published project, in the same order, and fails exactly when the published view fails |
| PortfolioSync.SyncLengthIsPublishedCount | Documents/ganpatibapa/Documents/SDS/06best/src/lib/portfolio-sync.ts:92-95 | for a stored project array, the synced list is as long as the number of published projects |
| PortfolioSync.OnStorageEvent | Documents/ganpatibapa/Documents/SDS/06best/src/lib/portfolio-sync.ts:103-111 | the callback receives a value exactly when the event is for the projects key, its new value is non-empty, and that value parses; the value is the parsed one |
| PortfolioSync.StorageEventAfterSave | Documents/ganpatibapa/Documents/SDS/06best/src/lib/portfolio-sync.ts:55-63 | another tab observing a (successful) save receives the saved list |
| PortfolioSync.StorageEventAfterClear | Documents/ganpatibapa/Documents/SDS/06best/src/lib/portfolio-sync.ts:104 | another tab observing a clear (new value null) gets no callback |
| PortfolioSync.Export | Documents/ganpatibapa/Documents/SDS/06best/src/lib/portfolio-sync.ts:128-131 | under a lawful codec the exported text parses back to the loaded value |
| PortfolioSync.Import | Documents/ganpatibapa/Documents/SDS/06best/src/lib/portfolio-sync.ts:134-143 | import reports success exactly when the text parses, with no schema check; on success with a successful write the parsed value is stored re-encoded; a failed write is swallowed, so success is still reported while the store is unchanged; on a parse failure the store is unchanged |
| PortfolioSync.LoadAfterImport | Documents/ganpatibapa/Documents/SDS/06best/src/lib/portfolio-sync.ts:134-143 | after a reported success, loading gives the imported value when the write went through, and the previous value when it failed |
| PortfolioSync.ImportExportRoundTrip | Documents/ganpatibapa/Documents/SDS/06best/src/lib/portfolio-sync.ts:128-143 | importing the exported text succeeds and leaves the loaded value unchanged, whether or not the write goes through |
| Strings.ToLower | Documents/SDS/06best/src/pages/Work.tsx:403-408 | lower-casing keeps the length, turns each upper-case ASCII letter into the letter 32 code points later (its lower-case partner), keeps every other character, and leaves no upper-case ASCII letter |
| Strings.ToLowerIdempotent | Documents/SDS/06best/src/pages/Work.tsx:403-408 | lower-casing an already lower-cased string changes nothing |
| Strings.ParseIntToDecimal | Documents/ganpatibapa/Documents/SDS/06best/src/lib/portfolio-sync.ts:75 | `parseInt` of the decimal text of a non-negative integer is that integer |
| Strings.ParseIntDigits | Documents/ganpatibapa/Documents/SDS/06best/src/lib/portfolio-sync.ts:75 | a non-empty all-digit id parses to its decimal value |
| Strings.ParseIntNoLeadingDigit | Documents/ganpatibapa/Documents/SDS/06best/src/lib/portfolio-sync.ts:75 | a string starting with anything but ECMAScript white space (any Zs space, tab, vertical tab, form feed, BOM, or a line terminator), a sign or a digit parses to NaN |
| Strings.ParseIntSkipsLeadingSpace | Documents/ganpatibapa/Documents/SDS/06best/src/lib/portfolio-sync.ts:75 | a leading ECMAScript white-space character does not change what `parseInt` returns |
| Strings.ParseIntSkipsEnQuad | Documents/ganpatibapa/Documents/SDS/06best/src/lib/portfolio-sync.ts:75 | leading non-ASCII white space is skipped: an en quad (U+2000) followed by "5" parses to 5 |
| Strings.ParseIntEmpty | Documents/ganpatibapa/Documents/SDS/06best/src/lib/portfolio-sync.ts:75 | the empty id parses to NaN |
| ProjectList.IndexOfId | Documents/ganpatibapa/Documents/SDS/06best/src/components/sections/PortfolioCMS.tsx:559 | `findIndex` returns the first position holding the id, or -1 exactly when no record has it |
| ProjectList.UpsertExisting | Documents/ganpatibapa/Documents/SDS/06best/src/components/sections/PortfolioCMS.tsx:559-566 | when the id first occurs at k, saving keeps the length, puts the record at k, and leaves every other position unchanged |
| ProjectList.UpsertAbsent | Documents/ganpatibapa/Documents/SDS/06best/src/components/sections/PortfolioCMS.tsx:559-571 | when no record has the id, saving appends the record; the length grows by one and the old list is the prefix |
| ProjectList.UpsertKeepsUniqueIds | Documents/ganpatibapa/Documents/SDS/06best/src/components/sections/PortfolioCMS.tsx:559-571 | pairwise distinct ids stay distinct after a save |
| ProjectList.RemoveId | Documents/ganpatibapa/Documents/SDS/06best/src/components/sections/PortfolioCMS.tsx:589 | deleting never lengthens the list |
| ProjectList.RemoveIdExact | Documents/ganpatibapa/Documents/SDS/06best/src/components/sections/PortfolioCMS.tsx:589 | deleting keeps exactly the records without the id, in their original order, every duplicate copy included (the length is the number of records without the id) |
| ProjectList.RemoveAbsentId | Documents/ganpatibapa/Documents/SDS/06best/src/components/sections/PortfolioCMS.tsx:589 | deleting an id that no record carries leaves the list unchanged |
| ProjectList.RemoveUniqueId | Documents/ganpatibapa/Documents/SDS/06best/src/components/sections/PortfolioCMS.tsx:589 | with distinct ids, deleting the id at position k removes that position and nothing else |
| ProjectList.RemoveKeepsUniqueIds | Documents/ganpatibapa/Documents/SDS/06best/src/components/sections/PortfolioCMS.tsx:588-589 | pairwise distinct ids stay distinct after a delete |
| ProjectList.AddComparison | Documents/ganpatibapa/Documents/SDS/06best/src/components/sections/PortfolioCMS.tsx:602-611 | appending a comparison keeps the number of projects |
| ProjectList.AddComparisonEffect | Documents/ganpatibapa/Documents/SDS/06best/src/components/sections/PortfolioCMS.tsx:602-611 | records without the id are unchanged; records with it get the comparison at the end of their list and the new timestamp, and nothing else changes |
| ProjectList.AddComparisonKeepsUniqueIds | Documents/ganpatibapa/Documents/SDS/06best/src/components/sections/PortfolioCMS.tsx:602-611 | pairwise distinct ids stay distinct after appending a comparison |
| Cms.ProjectsChanged | Documents/ganpatibapa/Documents/SDS/06best/src/components/sections/PortfolioCMS.tsx:500-514 | the list is replaced; a successful write stores its encoding under the projects key, a failed one leaves storage as it was; the rest of the editor state is untouched |
| Cms.ProjectsChangedPersists | Documents/ganpatibapa/Documents/SDS/06best/src/components/sections/PortfolioCMS.tsx:500-514 | after a list change the stored array is the new in-memory list exactly when the write succeeded or storage already held that list |
| Cms.FailedWriteDesyncs | Documents/ganpatibapa/Documents/SDS/06best/src/components/sections/PortfolioCMS.tsx:507-509 | from a state where storage holds the list in memory, a change to a different list whose write fails leaves the editor showing a list that is not the stored one |
| Cms.Mount | Documents/ganpatibapa/Documents/SDS/06best/src/components/sections/PortfolioCMS.tsx:85-97 | on mount, a non-empty stored value that parses replaces the initial list; an absent, empty or unparseable value keeps it; the result fails exactly when the stored JSON is not a project array |
| Cms.MountAfterProjectsChanged | Documents/ganpatibapa/Documents/SDS/06best/src/components/sections/PortfolioCMS.tsx:85-97 | reopening the editor on a store it wrote shows the list it wrote |
| Cms.NewProject | Documents/ganpatibapa/Documents/SDS/06best/src/components/sections/PortfolioCMS.tsx:516-534 | a new project is a draft titled "New Project" in Fashion, with empty tags, tech and comparisons, metrics "0%"/"0s", and both timestamps equal to the creation time |
| Cms.CreateNewProject | Documents/ganpatibapa/Documents/SDS/06best/src/components/sections/PortfolioCMS.tsx:516-537 | creating opens the form on the new draft; every other field, the list and storage among them, is unchanged until save |
| Cms.EditProject | Documents/ganpatibapa/Documents/SDS/06best/src/components/sections/PortfolioCMS.tsx:539-542 | editing opens the form on a copy of the record; every other field, the list and storage among them, is unchanged |
| Cms.CancelEdit | Documents/ganpatibapa/Documents/SDS/06best/src/components/sections/PortfolioCMS.tsx:941 | the X button (and the Cancel button at line 1228) hide the form and change nothing else: the record stays in the editing slot and nothing is stored |
| Cms.EditThenCancel | Documents/ganpatibapa/Documents/SDS/06best/src/components/sections/PortfolioCMS.tsx:923-941 | opening a record in the form and cancelling leaves the state as it was except that the form is hidden and the record sits, unrendered, in the editing slot |
| Cms.SaveProject | Documents/ganpatibapa/Documents/SDS/06best/src/components/sections/PortfolioCMS.tsx:544-586 | with no record in the form nothing changes; otherwise the record, stamped with the save time, is upserted by id and the new list is written; the form closes only when the write succeeded, and stays as it was when the write throws; no other field changes |
| Cms.EditThenSave | Documents/ganpatibapa/Documents/SDS/06best/src/components/sections/PortfolioCMS.tsx:539-586 | with distinct ids, editing the record at position k (id kept) and saving with a successful write puts the edited record, stamped, at position k, keeps every other record and the count, and closes the form |
| Cms.DeleteProject | Documents/ganpatibapa/Documents/SDS/06best/src/components/sections/PortfolioCMS.tsx:588-591 | deleting keeps exactly the records without the id, in order, every duplicate copy included, and writes the new list |
| Cms.OpenComparison | Documents/ganpatibapa/Documents/SDS/06best/src/components/sections/PortfolioCMS.tsx:593-596 | opening the comparison modal records the target project; every other field is unchanged |
| Cms.SaveBeforeAfterImage | Documents/ganpatibapa/Documents/SDS/06best/src/components/sections/PortfolioCMS.tsx:598-618 | only the records with the id change: the comparison is appended and the timestamp refreshed; the count is unchanged and the new list is written |
| Cms.ComparisonSubmitted | Documents/ganpatibapa/Documents/SDS/06best/src/components/sections/PortfolioCMS.tsx:1254-1260 | with a non-empty target the comparison is saved, and the modal closes when the write succeeded but stays open on its target when it throws; with no target or an empty one (falsy) nothing happens; no field besides the list, storage, the modal flag and the target changes |
| Cms.OpenThenSubmitComparison | Documents/ganpatibapa/Documents/SDS/06best/src/components/sections/PortfolioCMS.tsx:593-618 | opening the modal for a non-empty id and submitting with a successful write appends the comparison to the records with that id, stores exactly the new list, and closes the modal with its target cleared; nothing else changes |
| Cms.ComparisonClosed | Documents/ganpatibapa/Documents/SDS/06best/src/components/sections/PortfolioCMS.tsx:1250-1253 | closing the modal clears the target; every other field is unchanged |
| Cms.OpenThenCloseComparison | Documents/ganpatibapa/Documents/SDS/06best/src/components/sections/PortfolioCMS.tsx:593-596 | opening the modal and closing it leaves the state as it was with the modal shut and no target |
| Cms.ModalSave | Documents/ganpatibapa/Documents/SDS/06best/src/components/sections/PortfolioCMS.tsx:1288-1302 | the emitted comparison is the form under the fresh id; the form is reset to blank when the parent's save returned, and keeps its fields when it threw |
| Cms.Filtered | Documents/ganpatibapa/Documents/SDS/06best/src/components/sections/PortfolioCMS.tsx:620-625 | the shown records are an order-preserving subset; a record is shown exactly when its status matches (or the filter is "all") and its category matches (or the filter is "all"); every duplicate copy is shown (the length is the number of matching records) |
| Cms.FilteredAllShowsEverything | Documents/ganpatibapa/Documents/SDS/06best/src/components/sections/PortfolioCMS.tsx:620-625 | with both filters on "all", every record is shown in order |
| Cms.CountStats | Documents/ganpatibapa/Documents/SDS/06best/src/components/sections/PortfolioCMS.tsx:713-721 | the total is the list length; published and drafts are the lengths of the published and draft parts of the list; published plus drafts never exceeds the total |
| Cms.HeaderCountsMatchFilters | Documents/ganpatibapa/Documents/SDS/06best/src/components/sections/PortfolioCMS.tsx:620-625 | with category "all", each header figure equals the number of cards shown when the status drop-down is set to "all", "published" or "draft" respectively |
| Cms.SaveProjectPersists | Documents/ganpatibapa/Documents/SDS/06best/src/components/sections/PortfolioCMS.tsx:544-586 | after a save the stored array is the in-memory list exactly when the write succeeded, the form was empty, or storage already held the new list |
| Cms.DeleteProjectPersists | Documents/ganpatibapa/Documents/SDS/06best/src/components/sections/PortfolioCMS.tsx:588-591 | after a delete the stored array is the in-memory list exactly when the write succeeded or storage already held the new list |
| Cms.SaveBeforeAfterImagePersists | Documents/ganpatibapa/Documents/SDS/06best/src/components/sections/PortfolioCMS.tsx:598-618 | after appending a comparison the stored array is the in-memory list exactly when the write succeeded or storage already held the new list |
| Cms.SaveProjectKeepsUniqueIds | Documents/ganpatibapa/Documents/SDS/06best/src/components/sections/PortfolioCMS.tsx:544-571 | a save keeps ids pairwise distinct |
| Cms.DeleteProjectKeepsUniqueIds | Documents/ganpatibapa/Documents/SDS/06best/src/components/sections/PortfolioCMS.tsx:588-591 | a delete keeps ids pairwise distinct |
| Cms.SaveBeforeAfterImageKeepsUniqueIds | Documents/ganpatibapa/Documents/SDS/06best/src/components/sections/PortfolioCMS.tsx:598-611 | appending a comparison keeps ids pairwise distinct |
| Cms.CreateThenSaveScenario | Documents/ganpatibapa/Documents/SDS/06best/src/components/sections/PortfolioCMS.tsx:516-586 | creating a project on an empty list and saving it with a successful write stores exactly one draft titled "New Project" |
| Cms.DeleteSecondOfThreeScenario | Documents/ganpatibapa/Documents/SDS/06best/src/components/sections/PortfolioCMS.tsx:588-591 | deleting the middle one of three distinct ids keeps the first and third, and stores them when the write succeeds |
| Gallery.NameInjective | Documents/SDS/06best/src/pages/Work.tsx:390-398 | two categories have the same button label exactly when they are the same category |
| Gallery.Card | Documents/SDS/06best/src/pages/Work.tsx:30-388 | a card carries its numeric id, its category's label and its flags; it has a Vimeo URL exactly when it has a video id; its texts are copied unchanged |
| Gallery.CatalogWith | Documents/SDS/06best/src/pages/Work.tsx:30-388 | the gallery has one card per row of the table, in page order |
| Gallery.CategoriesInOrder | Documents/SDS/06best/src/pages/Work.tsx:30-388 | the cards' categories in page order |
| Gallery.FilterProjects | Documents/SDS/06best/src/pages/Work.tsx:401-414 | the shown records are an order-preserving subset of the gallery; a record is shown exactly when it matches the search and the selected category; every duplicate copy is shown (the length is the number of matching records) |
| Gallery.EmptySearchMatches | Documents/SDS/06best/src/pages/Work.tsx:403-408 | the empty search term matches every record |
| Gallery.InitialViewShowsCatalog | Documents/SDS/06best/src/pages/Work.tsx:25-26 | the initial view (empty search, "All Projects") shows every record in order |
| Gallery.ResultsInSelectedCategory | Documents/SDS/06best/src/pages/Work.tsx:409-411 | every shown record is in the selected category unless "All Projects" is selected |
| Gallery.SearchIgnoresBrandAndTech | Documents/SDS/06best/src/pages/Work.tsx:403-408 | changing a record's brand or tech never changes whether it matches the search |
| Gallery.SearchIgnoresTermCase | Documents/SDS/06best/src/pages/Work.tsx:401-414 | a search term and its lower-cased form show the same cards in the same order |
| Gallery.CatalogIdsDistinct | Documents/SDS/06best/src/pages/Work.tsx:30-388 | the card ids are 1 to 18 in page order and pairwise distinct |
| Gallery.VideoCardsHaveUrl | Documents/SDS/06best/src/pages/Work.tsx:523-526 | a card has a URL for its iframe exactly when it is marked as a video card |
| Gallery.CategoryViewSize | Documents/SDS/06best/src/pages/Work.tsx:401-414 | with an empty search, a category button shows as many records as the category holds |
| Gallery.CategorySizeIsMultiplicity | Documents/SDS/06best/src/pages/Work.tsx:409-411 | counting records by label equals counting their categories |
| Gallery.CatalogCategorySize | Documents/SDS/06best/src/pages/Work.tsx:30-388 | a category's size in the gallery is its multiplicity in the category column |
| Gallery.FashionSize | Documents/SDS/06best/src/pages/Work.tsx:30-388 | the gallery holds 5 Fashion cards |
| Gallery.BeautySize | Documents/SDS/06best/src/pages/Work.tsx:30-388 | the gallery holds 5 Beauty cards |
| Gallery.HomeAndGardenSize | Documents/SDS/06best/src/pages/Work.tsx:30-388 | the gallery holds 2 Home & Garden cards |
| Gallery.TechnologySize | Documents/SDS/06best/src/pages/Work.tsx:30-388 | the gallery holds 3 Technology cards |
| Gallery.FoodAndBeverageSize | Documents/SDS/06best/src/pages/Work.tsx:30-388 | the gallery holds 2 Food & Beverage cards |
| Gallery.JewelrySize | Documents/SDS/06best/src/pages/Work.tsx:30-388 | the gallery holds 1 Jewelry card |
| Gallery.ViewSizeIsShownCount | Documents/SDS/06best/src/pages/Work.tsx:401-414 | a badge's intended count is the number of records its button shows with an empty search |
| Gallery.CountedBadges | Documents/SDS/06best/src/pages/Work.tsx:390-398 | the corrected badges keep the declared names and order |
| Gallery.CountedBadgesMatchView | Documents/SDS/06best/src/pages/Work.tsx:390-398 | every corrected badge prints the number of records its button shows |
| Gallery.FashionBadgeOverstated | Documents/SDS/06best/src/pages/Work.tsx:392 | the Fashion badge declares 8 while its button shows 5 |
| Gallery.BeautyBadgeOverstated | Documents/SDS/06best/src/pages/Work.tsx:393 | the Beauty badge declares 6 while its button shows 5 |
| Gallery.DeclaredBadgeCounts | Documents/SDS/06best/src/pages/Work.tsx:390-398 | a declared count is right exactly for the badges other than Fashion and Beauty |
| Testimonials.JsRem | Documents/SDS/06best/src/components/sections/AnimatedTestimonials.tsx:86-88 | JavaScript's `%` agrees with the mathematical remainder for a non-negative dividend and takes the dividend's sign otherwise; in both cases it differs from the dividend by a multiple of the divisor, which fixes it (truncated division) |
| Testimonials.Next | Documents/SDS/06best/src/components/sections/AnimatedTestimonials.tsx:80-83 | next advances by one and wraps from the last testimonial to the first; autoplay stops |
| Testimonials.Prev | Documents/SDS/06best/src/components/sections/AnimatedTestimonials.tsx:85-90 | previous steps back by one and wraps from the first testimonial to the last; autoplay stops |
| Testimonials.GoTo | Documents/SDS/06best/src/components/sections/AnimatedTestimonials.tsx:92-95 | go-to shows exactly the chosen testimonial; autoplay stops |
| Testimonials.Tick | Documents/SDS/06best/src/components/sections/AnimatedTestimonials.tsx:70-78 | a timer firing advances like next only while autoplay is on, and never changes the autoplay flag |
| Testimonials.NextPrevInverse | Documents/SDS/06best/src/components/sections/AnimatedTestimonials.tsx:80-90 | next then previous, and previous then next, show the starting testimonial again |
| Testimonials.NextTimesIndex | Documents/SDS/06best/src/components/sections/AnimatedTestimonials.tsx:80-83 | n presses of next show testimonial index + n modulo five, with autoplay off |
| Testimonials.TickTimesIndex | Documents/SDS/06best/src/components/sections/AnimatedTestimonials.tsx:70-78 | while autoplay is on, n firings show testimonial index + n modulo five |
| Testimonials.NextLapsReturn | Documents/SDS/06best/src/components/sections/AnimatedTestimonials.tsx:80-83 | five presses of next, or any whole number of laps, return to the starting testimonial |
| Testimonials.TickLapsReturn | Documents/SDS/06best/src/components/sections/AnimatedTestimonials.tsx:70-78 | five timer firings, or any whole number of laps, return to the starting carousel |
| Testimonials.RunStaysInRange | Documents/SDS/06best/src/components/sections/AnimatedTestimonials.tsx:344-347 | any sequence of arrow clicks, rendered-dot clicks and timer firings keeps the index within the five testimonials |
| Testimonials.AutoplayNeverResumes | Documents/SDS/06best/src/components/sections/AnimatedTestimonials.tsx:67-95 | autoplay is still on exactly when it started on and only the timer has fired: one click stops it and nothing restarts it |
| Testimonials.InitialsOfName | Documents/SDS/06best/src/components/sections/AnimatedTestimonials.tsx:291-294 | for non-empty words joined by single spaces, the initials are the words' first letters in order |
| Testimonials.FirstAuthorInitials | Documents/SDS/06best/src/components/sections/AnimatedTestimonials.tsx:291-294 | the first testimonial's author, Sarah Chen, shows "SC" |
| Navigation.PagePath | Documents/ganpatibapa/Documents/SDS/06best/src/components/sections/ElegantNavigation.tsx:50-57 | exactly the labels Services, Process, About and Work have a page of their own |
| Navigation.Decide | Documents/ganpatibapa/Documents/SDS/06best/src/components/sections/ElegantNavigation.tsx:48-73 | first match: "hero" goes home; the four page labels go to their pages; otherwise the click scrolls on "/" and goes home then scrolls anywhere else |
| Navigation.NavigationStaysOnRoutes | Documents/SDS/06best/src/App.tsx:60-131 | every path a click navigates to is a declared route, never the catch-all NotFound |
| Navigation.DecisionIgnoresPageForRoutes | Documents/SDS/06best/src/components/sections/ElegantNavigation.tsx:40-75 | for "hero" and the four page labels the action does not depend on the current page |
| Navigation.ActiveItemByPage | Documents/ganpatibapa/Documents/SDS/06best/src/components/sections/ElegantNavigation.tsx:144-161 | on "/" an item is active exactly when its id is the active section; on the four pages exactly when its label is that page's; elsewhere never |
| Navigation.NavItemsDistinct | Documents/ganpatibapa/Documents/SDS/06best/src/components/sections/ElegantNavigation.tsx:136-142 | the five items have distinct ids and distinct labels |
| Navigation.AtMostOneActive | Documents/SDS/06best/src/components/sections/ElegantNavigation.tsx:95-120 | at most one item of the bar is highlighted at any time |
| Navigation.FirstStraddling | Documents/ganpatibapa/Documents/SDS/06best/src/components/sections/ElegantNavigation.tsx:22-30 | a section is found exactly when some tracked section's element straddles the line 100px below the top, and it is the first such in list order |
| Navigation.OnScroll | Documents/ganpatibapa/Documents/SDS/06best/src/components/sections/ElegantNavigation.tsx:16-40 | the bar is shadowed exactly when scrolled past 50px (fractional positions included); off the home page, or when nothing straddles, the active section is unchanged; otherwise it becomes a tracked section |
| Navigation.OnScrollKeepsReachable | Documents/SDS/06best/src/components/sections/ElegantNavigation.tsx:14-38 | the active section is always "" or a tracked section |
| Navigation.ProcessNeverActiveAtHome | Documents/SDS/06best/src/components/sections/ElegantNavigation.tsx:103-106 | the Process item is never highlighted on the home page, since "process" is not tracked |
| SwipeMenu.HandleNavigation | Documents/ganpatibapa/Documents/SDS/06best/src/components/sections/ElegantNavigation.tsx:42-75 | a click closes the menu and the dropdown, then takes the shared decision |
| SwipeMenu.TouchStart | Documents/ganpatibapa/Documents/SDS/06best/src/components/sections/ElegantNavigation.tsx:78-80 | a touch start records its height and leaves both panels as they were |
| SwipeMenu.TouchMove | Documents/ganpatibapa/Documents/SDS/06best/src/components/sections/ElegantNavigation.tsx:82-96 | the menu stays open exactly when it was open and the finger moved up by at most 100px |
| SwipeMenu.SwipeCloses | Documents/ganpatibapa/Documents/SDS/06best/src/components/sections/ElegantNavigation.tsx:78-96 | a swipe closes the menu exactly when it was open and moved up more than 100px; the dropdown is untouched |
| SwipeMenu.RouteChanged | Documents/ganpatibapa/Documents/SDS/06best/src/components/sections/ElegantNavigation.tsx:98-102 | a route change closes the menu and the dropdown |
| SwipeMenu.ToggleMenu | Documents/ganpatibapa/Documents/SDS/06best/src/components/sections/ElegantNavigation.tsx:243 | the hamburger flips the menu and leaves the dropdown |
| SwipeMenu.CloseMenu | Documents/ganpatibapa/Documents/SDS/06best/src/components/sections/ElegantNavigation.tsx:274 | the backdrop closes the menu and leaves the dropdown |
| SwipeMenu.ToggleDropdown | Documents/ganpatibapa/Documents/SDS/06best/src/components/sections/ElegantNavigation.tsx:328 | the "Quick Navigation" button flips the dropdown and leaves the menu |
| SwipeMenu.NavigationAfterOpenCloses | Documents/ganpatibapa/Documents/SDS/06best/src/components/sections/ElegantNavigation.tsx:42-47 | opening both panels and then clicking an item leaves both closed |
| PlainMenu.HandleNavigation | Documents/SDS/06best/src/components/sections/ElegantNavigation.tsx:40-75 | a click closes the menu, then takes the shared decision |
| PlainMenu.RouteChanged | Documents/SDS/06best/src/components/sections/ElegantNavigation.tsx:78-80 | a route change closes the menu, as the backdrop and the close button do |
| PlainMenu.ToggleMenu | Documents/SDS/06best/src/components/sections/ElegantNavigation.tsx:202 | the hamburger flips the menu |
| PlainMenu.ToggleTwice | Documents/SDS/06best/src/components/sections/ElegantNavigation.tsx:202 | two hamburger presses restore the menu |
| AdminGate.TypePassword | Documents/ganpatibapa/Documents/SDS/06best/src/pages/PortfolioAdmin.tsx:66 | typing sets the password field and changes neither the gate nor storage |
| AdminGate.Login | Documents/ganpatibapa/Documents/SDS/06best/src/pages/PortfolioAdmin.tsx:17-24 | the exact password opens the gate; "true" is stored under the auth key only when the uncaught write succeeds, and storage is unchanged when it throws; every other key is kept; any other password changes nothing |
| AdminGate.WrongPasswordKeepsClosed | Documents/ganpatibapa/Documents/SDS/06best/src/pages/PortfolioAdmin.tsx:21-23 | a wrong password neither opens a closed gate nor touches storage |
| AdminGate.Mount | Documents/ganpatibapa/Documents/SDS/06best/src/pages/PortfolioAdmin.tsx:26-31 | after mount the gate is open exactly when it was open or the stored flag is exactly "true"; mount never closes it |
| AdminGate.Logout | Documents/ganpatibapa/Documents/SDS/06best/src/pages/PortfolioAdmin.tsx:33-37 | logout closes the gate, removes the flag, clears the field and keeps every other key |
| AdminGate.LoginRemembered | Documents/ganpatibapa/Documents/SDS/06best/src/pages/PortfolioAdmin.tsx:17-31 | after a correct login, a later visit is let in on mount exactly when the write succeeded or "true" was already stored |
| AdminGate.FailedLoginForgotten | Documents/ganpatibapa/Documents/SDS/06best/src/pages/PortfolioAdmin.tsx:17-31 | a correct login whose write fails opens the gate now, but with nothing stored before, the next visit stays locked |
| AdminGate.LogoutForgotten | Documents/ganpatibapa/Documents/SDS/06best/src/pages/PortfolioAdmin.tsx:26-37 | after a logout, a later visit stays closed on mount |
| AdminGate.GateLeavesProjectsAlone | Documents/ganpatibapa/Documents/SDS/06best/src/pages/PortfolioAdmin.tsx:17-37 | login and logout leave the CMS's loaded project list unchanged |
| AdminGate.ToggleStats | Documents/ganpatibapa/Documents/SDS/06best/src/pages/PortfolioAdmin.tsx:124 | the stats button flips the panel and changes nothing else |
| AdminGate.ToggleStatsTwice | Documents/ganpatibapa/Documents/SDS/06best/src/pages/PortfolioAdmin.tsx:124 | two presses of the stats button restore the page |
| AdminGate.QuickStatsIgnoreStore | Documents/ganpatibapa/Documents/SDS/06best/src/pages/PortfolioAdmin.tsx:157-199 | the panel's figures are written into the page; with nothing stored the CMS counts no project while the panel still shows twelve total, eight published and three drafts |
| Chunks.NodeModulesGetVendorChunk | Documents/ganpatibapa/Documents/SDS/06best/vite.config.ts:38-64 | every node_modules module gets a vendor chunk, never an application chunk and never none |
| Chunks.ReactGoesToReactVendor | Documents/ganpatibapa/Documents/SDS/06best/vite.config.ts:39-41 | every node_modules module whose path mentions "react" goes to "react-vendor" |
| Chunks.MentionsOfImpliesReact | Documents/ganpatibapa/Documents/SDS/06best/vite.config.ts:48-62 | any path naming lucide-react, @tabler/icons-react, react-router, @react-three or @tanstack/react-query also mentions "react" |
| Chunks.DeadGroupsOf | Documents/ganpatibapa/Documents/SDS/06best/vite.config.ts:39-63 | under the source order, test outcomes that respect those containments never pick lucide, tabler, router or query |
| Chunks.DeadVendorChunks | Documents/ganpatibapa/Documents/SDS/06best/vite.config.ts:39-62 | as written, no module is ever put in the "lucide", "tabler", "router" or "query" chunk |
| Chunks.WorkPageChunk | Documents/ganpatibapa/Documents/SDS/06best/vite.config.ts:65-70 | the Work page gets "work-page" although its path also matches the general pages test |
| Chunks.UnmatchedLeftToBundler | Documents/ganpatibapa/Documents/SDS/06best/vite.config.ts:65-77 | an application module is left to the bundler exactly when its path names none of the four source folders |
| Chunks.ReorderedKeepsAppChunks | Documents/ganpatibapa/Documents/SDS/06best/vite.config.ts:37-77 | the reordered classifier agrees with the original outside node_modules and still gives every node_modules module a vendor chunk |
| Chunks.ReorderedReactVendorIsLast | Documents/ganpatibapa/Documents/SDS/06best/vite.config.ts:39-62 | in the reordered classifier "react-vendor" is given only to modules that mention react and name no package with its own chunk |
| Chunks.ReorderedRouterReachable | Documents/ganpatibapa/Documents/SDS/06best/vite.config.ts:54-56 | in the reordered classifier the react-router package gets the "router" chunk |
| Chunks.ChunkFileNameConstant | Documents/ganpatibapa/Documents/SDS/06best/vite.config.ts:78-83 | every chunk file is named "assets/[name]-[hash].js", whatever its module |

## Left out

- React rendering and effect scheduling. The CMS sample-data effect (`PortfolioCMS.tsx` lines 100-488) is not modelled. It sets the list to eighteen sample projects (ids "1" to "18"). The admin page renders the editor with no props, so the effect's dependency `initialProjects` is the `[]` default, a new array on every render. React compares dependencies by identity, so the effect re-runs after every render and overwrites the loaded list and every later edit in memory.
- The `onProjectsChange` callback of the CMS is left out. It calls code outside the component.
- Console logging is left out.
- Success alerts and `setTimeout` are left out.
- The CMS view-mode toggle is left out. It is presentational.
- The CMS form's per-field edit handlers are left out. They are plain field assignments on the record being edited.
- Timers and time:
  - The `setInterval` autoplay is modelled as one `Tick` per firing.
  - `requestAnimationFrame` and `setTimeout` before scrolling are left out.
  - `Date.now()` ids and `toISOString()` timestamps are parameters. Nothing is assumed about their uniqueness.
- DOM and animation:
  - `scrollIntoView` is the action value `ScrollTo`/`NavigateThenScroll`. The element lookup it performs is left out.
  - `getBoundingClientRect` is a map from section id to a rectangle with `real` top and bottom. `window.scrollY` and the touch `clientY` are `real` too.
  - The body scroll lock of the swipe-menu navigation (lines 105-134) is left out.
  - framer-motion variants and styling are left out.
- JSON is abstract. A parsed value is either an array of project records or `OtherJson`. `OtherJson` covers every other JSON value, including arrays of records that are not well-formed projects, because the source never checks a schema.
- PortfolioSync.GetPublished: on `OtherJson` it fails, while the source's `.filter` only throws on a non-array or an array holding `null`/`undefined`; on any other array (say `[1, 2]` or `[{"id": "1"}]`) the source returns the elements whose `status` is "published", usually `[]`. The model does not distinguish such arrays from other JSON, so for them the published view and `PortfolioSync.SyncToWorkPage` fail where the source returns a list.
- `toLowerCase` is modelled for ASCII letters only. Other characters are kept unchanged.
- `parseInt` is modelled on unbounded integers. Precision loss above 2^53 is not modelled.
- The `typeof window === "undefined"` guards of the sync utility are left out. The model assumes a browser.
- Delivery of the cross-tab storage event is left out. Only the handler's filter is modelled.
- The testimonials' quote, role, company, avatar and metric fields are left out. They are displayed and never computed with. Only the authors are kept, for their initials.
- The carousel's `isInView` flag is left out. It is computed but does not affect the index or the autoplay.
- The admin gate's "Incorrect password" alert is left out. The Enter-key shortcut is left out too; it calls the same login.
- The admin gate's navigation buttons are left out. The gate is a state machine, not a security mechanism.
- The Work page and the CMS store are separate data sources. The Work page renders its own constant and never calls `syncToWorkPage`. Nothing in the model assumes they agree.

## Findings

| source | as written | input that shows it | evidently intended | confidence | as-written member | corrected member |
|---|---|---|---|---|---|---|
| Documents/SDS/06best/src/pages/Work.tsx:392-393 | the Fashion badge reads 8 and the Beauty badge reads 6 | press "Fashion" (or "Beauty") with an empty search: 5 cards are shown | each badge shows the number of cards its button shows (Fashion 5, Beauty 5) | high; not executed | Gallery.DeclaredBadgeCounts | Gallery.CountedBadgesMatchView |
| Documents/ganpatibapa/Documents/SDS/06best/vite.config.ts:39-62 | the generic "react" test comes first | the module "node_modules/react-router/" goes to "react-vendor"; no module can reach "router", "lucide", "tabler" or "query" | the specific package tests run before the generic react test, so each package gets the chunk its test names | medium; not executed | Chunks.DeadVendorChunks | Chunks.ReorderedRouterReachable |
