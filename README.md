# Nos relay query descriptor, note warnings and paged note list, in Dafny

This project models four pieces of the Nos client for Nostr, an event-relay
protocol:

- **The relay query descriptor** (`Filter`). It is an immutable value. At
  construction it sorts its author keys and kinds into descending order. It
  serialises to the filter object of NIP-01, with only the populated keys
  among `authors`, `ids`, `kinds`, `#e`, `#p`, `limit` and `since`. It
  compares equal through the six fields it hashes. It can tell when one
  event alone answers a single-result query (`limit == 1`, one kind, at least
  one author).
- **The note warning controller.** It decides whether a note card is covered
  by a warning. The inputs are the user's dismissal, reports from followed
  authors about the note and about its author, whether the author is outside
  the user's network, and two stored preferences.
- **The paged note data source.** It asks the relay pager for another page
  as rows come on screen. It queues the index changes reported by the local
  store so they can be applied as one batch.
- **The emptiness helpers** on `String` and `String?`.

Module layout:

- `Wrappers` (`wrappers.dfy`): Swift's `Optional` as `Option`.
- `Ordering` (`ordering.dfy`):
  - strict total orders;
  - the descending insertion sort;
  - `SortedUnique`: two descending sequences with the same elements are
    equal, so which sort algorithm is used makes no difference;
  - Swift's `String` comparison, as a lexicographic order.
- `NostrTypes` (`nostr_types.dfy`): event kinds, authors, events and the
  social graph. The social graph is an abstract pair of predicates, because
  it is computed elsewhere.
- `NostrFilter` (`filter.dfy`): `Filter.swift`.
- `StringEmpty` (`string_empty.dfy`): `String+Empty.swift`.
- `NoteWarning` (`note_warning.dfy`): `NoteWarningController.swift`, as a
  class whose methods update its fields.
- `PagedNotes` (`paged_notes.dfy`): `PagedNoteDataSource.swift`, as a class
  with the three change queues as sequence fields. A ghost counter records
  every `loadMore` call that reaches a pager.

Notes on the model:

- External inputs become parameters:
  - the social graph;
  - the stored preferences (`UserDefaults`);
  - the fetched store objects;
  - the report batches delivered by the store observers.
- `since` is held as whole seconds since the Unix epoch.
- A `Filter`'s hash is abstracted as the tuple of the fields it combines, so
  `==` is equality of that tuple.
- `computeShowWarning` is written with its literal condition
  `!(noteReports.isEmpty || !authorReports.isEmpty)`. That means "note
  reports present and author reports absent". `AuthorReportsSuppressNoteReportWarning`
  states what follows: followed reports against the author *remove* the
  report warning that the note's own reports would raise.
- `showWarning` is recomputed only by the observers on `userHidWarning`,
  `noteReports` and `authorReports`. Those setters re-establish
  `ShowsDecision()`. Two updates leave `showWarning` as it was, as in the
  source:
  - the `outOfNetwork` assignment (`UpdateOutOfNetwork`);
  - the preference reload (`ReloadPreferences`).
- Two points of the code worth stating:
  - Only authors and kinds are sorted; event ids, `#e` and `#p` keep their
    order. So filters that differ only in the order of their event ids are
    not equal (`EventIDOrderIsKept`).
  - `PagedNoteDataSource.swift:70-71` assigns `limit` on a copy of the
    filter, but `Filter.swift:18` declares `limit` with `let`. The model
    reads this as "copy with `limit` replaced" (`LimitedFilter`).

## Model

| member | source | states |
|---|---|---|
| `Ordering.SortDesc` | Nos/Service/Filter.swift:34-36 | the sorted sequence is a permutation of the input (same multiset, same length) |
| `Ordering.SortDescSorted` | Nos/Service/Filter.swift:34-36 | under a strict total order the sort's result is in descending order |
| `Ordering.SortedUnique` | Nos/Service/Filter.swift:34-36 | two descending sequences with the same elements are identical, so the canonical form does not depend on the sort algorithm |
| `Ordering.SortDescOfPermutation` | Nos/Service/Filter.swift:34-36 | sorting permutations of one another gives identical sequences |
| `Ordering.StringGreater` | Nos/Service/Filter.swift:34 | `String`'s `>`, lexicographic by scalar; a string is greater than each of its proper prefixes |
| `Ordering.StringGreaterIsStrictTotalOrder` | Nos/Service/Filter.swift:34 | `String`'s `>` is irreflexive, transitive and total, so sorted author keys are canonical |
| `NostrTypes.KindGreater` | Nos/Service/Filter.swift:36 | the comparator `{ $0.rawValue > $1.rawValue }`: one kind precedes another iff its raw value is larger |
| `NostrTypes.KindGreaterIsStrictTotalOrder` | Nos/Service/Filter.swift:36 | comparing kinds by raw value is a strict total order |
| `NostrFilter.NewFilter` | Nos/Service/Filter.swift:25-41 | stored authors and kinds are descending permutations of the arguments; event ids, `#e` tags, `#p` tags, limit and since are kept unchanged |
| `NostrFilter.NewFilterIgnoresAuthorAndKindOrder` | Nos/Service/Filter.swift:34-36 | filters built from permuted authors and permuted kinds are the same filter |
| `NostrFilter.NewFilterIdempotent` | Nos/Service/Filter.swift:34-36 | rebuilding a canonical filter from its own fields returns it unchanged |
| `NostrFilter.EventIDOrderIsKept` | Nos/Service/Filter.swift:34-40 | for any two different orderings of the same list: as event ids or as `#e` tags they give unequal filters; as `#p` tags they give equal ones, because `==` ignores `#p` |
| `NostrFilter.RawValues` | Nos/Service/Filter.swift:59 | `kinds.map({ $0.rawValue })`: same length, and each entry is the raw value of the kind at that position |
| `NostrFilter.Dictionary` | Nos/Service/Filter.swift:43-75 | each of the seven NIP-01 keys is present iff its field is non-empty or non-nil, and no other key appears; the values are the stored lists verbatim, the kinds' raw values in stored order, and the limit and since as integers |
| `NostrFilter.DictionaryRoundTrip` | Nos/Service/Filter.swift:43-75 | reading the filter object back returns the filter, so serialisation loses nothing |
| `NostrFilter.DictionaryInjective` | Nos/Service/Filter.swift:43-75 | distinct filters produce distinct filter objects |
| `NostrFilter.HashedFields` | Nos/Service/Filter.swift:81-88 | the abstraction of `hash(into:)`: the tuple of authors, ids, kinds, limit, `#e` tags and since, in the order they are combined; `pTags` is not part of it |
| `NostrFilter.Equal` | Nos/Service/Filter.swift:77-79 | `==`: two filters are equal exactly when they differ at most in `pTags` |
| `NostrFilter.EqualIffHashedFieldsAgree` | Nos/Service/Filter.swift:77-88 | `==` holds iff authors, ids, kinds, limit, `#e` tags and since agree |
| `NostrFilter.EqualIgnoresPTags` | Nos/Service/Filter.swift:81-88 | filters that differ only in `pTags` compare equal |
| `NostrFilter.EqualIsEquivalence` | Nos/Service/Filter.swift:77-79 | `==` is reflexive, symmetric and transitive |
| `NostrFilter.ReportFiltersCollide` | Nos/Service/Filter.swift:77-88 | two report filters for different profiles compare equal, yet their filter objects differ |
| `NostrFilter.EqualWithPTagsIffSameWireQuery` | Nos/Service/Filter.swift:43-88 | with `pTags` also compared, two filters are equal exactly when they send the same filter object |
| `NostrFilter.FirstRawValue` | Nos/Service/Filter.swift:96 | `kinds.first?.rawValue`: present iff there is a kind, and then the first of the raw values |
| `NostrFilter.IsFulfilled` | Nos/Service/Filter.swift:90-103 | false whenever `limit != 1`; true only for single-result queries; for those, true iff the event's kind is the one kind and the event has an author key that is among the authors |
| `NostrFilter.FulfillingEventMatches` | Nos/Service/Filter.swift:95-99 | a fulfilling event's kind is among the filter's kinds and its author key is among the filter's authors |
| `NostrFilter.EqualFiltersFulfilledAlike` | Nos/Service/Filter.swift:77-103 | equal filters are fulfilled by the same events |
| `NostrTypes.AuthorKey` | Nos/Service/Filter.swift:98 | `event.author?.hexadecimalPublicKey`: nil iff the author or its key is missing; a present key is the author's |
| `StringEmpty.IsNotEmpty` | Nos/Extensions/String+Empty.swift:11-13 | true iff the string has positive length |
| `StringEmpty.OptionalIsEmpty` | Nos/Extensions/String+Empty.swift:18-22 | `self?.isEmpty`: nil iff the value is nil, and for a present string true iff it has length 0 |
| `StringEmpty.IsEmptyOrNil` | Nos/Extensions/String+Empty.swift:17-19 | true iff the value is nil or the empty string |
| `StringEmpty.IsNotEmptyAndNil` | Nos/Extensions/String+Empty.swift:21-23 | true iff the value is present and non-empty |
| `StringEmpty.EmptinessComplement` | Nos/Extensions/String+Empty.swift:17-23 | exactly one of `isEmptyOrNil` and `isNotEmptyAndNil` holds for every optional string |
| `StringEmpty.PresentStringAgrees` | Nos/Extensions/String+Empty.swift:11-23 | on a present string the optional helpers agree with `isNotEmpty` |
| `NoteWarning.WarningDecision` | Nos/Controller/NoteWarningController.swift:173-183 | a dismissed warning is never shown; otherwise note reports without author reports, with report warnings enabled, show it; otherwise it is shown iff out-of-network hiding, the out-of-network preference and the out-of-network flag all hold |
| `NoteWarning.AuthorReportsSuppressNoteReportWarning` | Nos/Controller/NoteWarningController.swift:176 | with author reports present, the decision reduces to the out-of-network rule whatever the note reports are |
| `NoteWarning.FromFollowedAuthors` | Nos/Controller/NoteWarningController.swift:100-105 | the reports whose author the user follows, in order; never longer than the input |
| `NoteWarning.FromFollowedAuthorsMembers` | Nos/Controller/NoteWarningController.swift:100-105 | an event is kept iff it is in the input and the user follows its author |
| `NoteWarning.FromFollowedAuthorsIsSubsequence` | Nos/Controller/NoteWarningController.swift:100-105 | the kept events are in their original order |
| `NoteWarning.FollowedReports` | Nos/Controller/NoteWarningController.swift:100-105 | the loop returns exactly the followed authors' events from `events ?? []`, in order |
| `NoteWarning.Preference` | Nos/Controller/NoteWarningController.swift:157-158 | a missing stored preference reads as enabled; a stored one reads as itself |
| `NoteWarning.NoteAuthorKey` | Nos/Controller/NoteWarningController.swift:147 | `note?.author?.hexadecimalPublicKey`: nil without a note, otherwise the note's author key |
| `NoteWarning.NoteWarningController.Decision` | Nos/Controller/NoteWarningController.swift:173-183 | the decision rule `WarningDecision` applied to the controller's current flags, reports and preferences |
| `NoteWarning.NoteWarningController.constructor` | Nos/Controller/NoteWarningController.swift:30-60 | initial flags and empty reports; preferences read from the stored values; the warning starts up to date with the decision |
| `NoteWarning.NoteWarningController.ComputeShowWarning` | Nos/Controller/NoteWarningController.swift:173-183 | writes only `showWarning`, which becomes the decision for the current fields |
| `NoteWarning.NoteWarningController.SetUserHidWarning` | Nos/Controller/NoteWarningController.swift:31-35 | sets the flag and re-establishes the decision; dismissing hides the warning |
| `NoteWarning.NoteWarningController.SetNoteReports` | Nos/Controller/NoteWarningController.swift:51-55 | sets the note reports and re-establishes the decision |
| `NoteWarning.NoteWarningController.SetAuthorReports` | Nos/Controller/NoteWarningController.swift:56-60 | sets the author reports and re-establishes the decision |
| `NoteWarning.NoteWarningController.ReceiveNoteReports` | Nos/Controller/NoteWarningController.swift:98-111 | the note reports become the followed authors' reports from the fetched batch, and the decision is re-established |
| `NoteWarning.NoteWarningController.ReceiveAuthorReports` | Nos/Controller/NoteWarningController.swift:125-138 | the author reports become the followed authors' reports from the fetched batch, and the decision is re-established |
| `NoteWarning.NoteWarningController.SetNote` | Nos/Controller/NoteWarningController.swift:38-42 | sets the note and nothing else |
| `NoteWarning.NoteWarningController.SetShouldHideOutOfNetwork` | Nos/Controller/NoteWarningController.swift:43 | sets the flag and nothing else; there is no observer |
| `NoteWarning.NoteWarningController.UpdateOutOfNetwork` | Nos/Controller/NoteWarningController.swift:144-153 | with a note author key, out-of-network means not in the social graph; without a note or key it is false; nothing else changes |
| `NoteWarning.NoteWarningController.ReloadPreferences` | Nos/Controller/NoteWarningController.swift:159-170 | rereads both preferences, missing meaning enabled, and changes nothing else |
| `PagedNotes.LimitedFilter` | Nos/Controller/PagedNoteDataSource.swift:70-71 | the pager's filter is the relay filter with only `limit` replaced by the page size; it stays canonical |
| `PagedNotes.LimitedFilterWireQuery` | Nos/Controller/PagedNoteDataSource.swift:70-72 | the pager's filter object is the relay filter's with only `"limit"` overwritten |
| `PagedNotes.LimitedFilterEqual` | Nos/Controller/PagedNoteDataSource.swift:70-71 | the limited filter equals the relay filter iff the relay filter's limit already was the page size |
| `PagedNotes.PagedNoteDataSource.ItemCount` | Nos/Controller/PagedNoteDataSource.swift:175 | the count of fetched objects, or 0 when there are none |
| `PagedNotes.PagedNoteDataSource.constructor` | Nos/Controller/PagedNoteDataSource.swift:26-74 | empty queues, no pager yet, no page requests |
| `PagedNotes.PagedNoteDataSource.AttachPager` | Nos/Controller/PagedNoteDataSource.swift:69-73 | the pager is opened with the limited relay filter |
| `PagedNotes.PagedNoteDataSource.NumberOfItemsInSection` | Nos/Controller/PagedNoteDataSource.swift:89-93 | the fetched-object count, or 0 when there are none |
| `PagedNotes.PagedNoteDataSource.LoadMore` | Nos/Controller/PagedNoteDataSource.swift:178-180 | one page request when a pager is there, none otherwise |
| `PagedNotes.PagedNoteDataSource.LoadMoreIfNeeded` | Nos/Controller/PagedNoteDataSource.swift:174-182 | no effect without a pager; one request when the row is past `count - pageSize`; otherwise one request iff the row is a multiple of 10 |
| `PagedNotes.PagedNoteDataSource.ControllerWillChangeContent` | Nos/Controller/PagedNoteDataSource.swift:190-199 | empties the three change queues |
| `PagedNotes.PagedNoteDataSource.DidChange` | Nos/Controller/PagedNoteDataSource.swift:201-235 | an insert appends a present new index path; a delete appends a present old index path; a move appends the pair when both are present; an update changes nothing; the other queues stay as they were |

## Left out

- The relay service, the subscription reference counting, the relay pool,
  the dispatcher and `PagedRelaySubscription` are only called from the
  modelled files. Their source is not part of this model.
  `PagedRelaySubscription` is reduced to the filter it is opened with, and
  `loadMore` to a counted call.
- The `REQ`/`CLOSE` framing and JSON encoding are not modelled.
  `Dictionary` is the filter object as a map, before JSON encoding.
- `Filter.id` (`String(hashValue)`) and Swift's seeded `Hasher` are not
  modelled. Hashing is the tuple of hashed fields.
- `since` as a `Date` and its `Int(timeIntervalSince1970)` conversion
  (floating point) are not modelled. `since` is integer seconds. In the
  source, `hash(into:)` combines the full `Date` while the filter object
  carries only whole seconds, so two filters whose `since` falls within the
  same second are unequal yet send the same filter object.
  `NostrFilter.DictionaryRoundTrip`, `NostrFilter.DictionaryInjective` and
  `NostrFilter.EqualWithPTagsIffSameWireQuery` hold for whole-second
  `since` values only.
- `Ordering.StringGreater`: compares Unicode scalars lexicographically,
  without the canonical-equivalence normalisation Swift applies. The same
  holds for string equality throughout the model: `authorKeys.contains`
  in `NostrFilter.IsFulfilled`, the hashed fields in `NostrFilter.Equal`,
  and `Dictionary`'s values compare scalar sequences, where Swift compares
  canonically equivalent strings as equal. For the lower-case hex keys and
  ids the filter holds, the two agree.
- Integer widths (`Int`, `Int64` raw values) are unbounded here. The only
  arithmetic in the core is `count - pageSize` and `pageSize / 2`, and
  neither can overflow: the count is at least 0 and `pageSize` is 20.
- `Ordering.SortDesc`: an insertion sort, not Swift's own sort algorithm.
  `SortedUnique` shows that any sort into descending order gives the same
  result.
- Combine publishers, `asyncMap`, `MainActor`/`Task` hops and their
  ordering are not modelled. Each delivery is one method call. The watchers
  being cleared when the note becomes nil have no modelled state.
- CoreData fetch requests, `NSFetchedResultsController` setup,
  `performFetch` and `updateFetchRequest` are external. The fetched objects
  are a constructor parameter.
- The `UICollectionView` work is user-interface side effects and is not
  modelled:
  - batch updates;
  - `controllerDidChangeContent`'s deletes, inserts and moves;
  - cell and supplementary-view configuration;
  - prefetching.
- The `@unknown default` branch of the change-type switch is not modelled.
  Swift's four change types are all modelled, and the `fatalError` covers
  only future cases.
- Logging and crash reporting are side effects and are not modelled:
  `Log.debug` and `Log.error` in the data source, and the crash report sent
  when the initial `performFetch` fails.
- The SwiftUI views, the keychain, signing and publishing are presentation
  code or foreign calls.

## Findings

| source | as written | input that shows it | evidently intended | confidence | as-written member | corrected member |
|---|---|---|---|---|---|---|
| Nos/Service/Filter.swift:77-88 | `==` compares hash values and `hash(into:)` leaves out `pTags`, so filters that ask relays for different `#p` tags compare equal and share one `id` | `Filter(kinds: [.report], pTags: ["a"])` and `Filter(kinds: [.report], pTags: ["b"])`, the report filters built for two profiles at Nos/Views/ProfileView.swift:85 | filters that send different filter objects are different filters | medium; not executed | `NostrFilter.ReportFiltersCollide` | `NostrFilter.EqualWithPTagsIffSameWireQuery` |
