/**
 * `PagedNoteDataSource`: feeds a list of notes from the local store and asks
 * the relay pager for more pages as the user scrolls; it also queues the
 * index changes the store reports so they can be applied as one batch.
 */
module PagedNotes {
  import opened Wrappers
  import opened NostrTypes
  import opened NostrFilter

  /** A row position in the list. */
  datatype IndexPath = IndexPath(section: int, row: int)

  /** The change kinds a fetched-results controller reports. */
  datatype ChangeType = Insert | Delete | Update | Move

  /** The paged relay subscription, known here only by the filter it was
      opened with; its paging logic lies outside this model. */
  datatype PagedRelaySubscription = PagedRelaySubscription(filter: Filter)

  /** The relay filter with its limit set to the page size. */
  function LimitedFilter(relayFilter: Filter, pageSize: int): (f: Filter)
    ensures f.limit == Some(pageSize)
    ensures f.authorKeys == relayFilter.authorKeys && f.eventIDs == relayFilter.eventIDs
    ensures f.kinds == relayFilter.kinds && f.eTags == relayFilter.eTags
    ensures f.pTags == relayFilter.pTags && f.since == relayFilter.since
    ensures Canonical(relayFilter) ==> Canonical(f)
  {
    relayFilter.(limit := Some(pageSize))
  }

  /** The pager's filter object is the relay filter's with only "limit"
      overwritten. */
  lemma LimitedFilterWireQuery(relayFilter: Filter, pageSize: int)
    ensures Dictionary(LimitedFilter(relayFilter, pageSize))
         == Dictionary(relayFilter)["limit" := Number(pageSize)]
  {
    var d := Dictionary(LimitedFilter(relayFilter, pageSize));
    var e := Dictionary(relayFilter)["limit" := Number(pageSize)];
    assert d.Keys == e.Keys;
    forall k | k in d ensures d[k] == e[k] {
    }
  }

  /** The limited filter equals the relay filter exactly when that already
      had the page size as its limit. */
  lemma LimitedFilterEqual(relayFilter: Filter, pageSize: int)
    ensures Equal(LimitedFilter(relayFilter, pageSize), relayFilter)
        <==> relayFilter.limit == Some(pageSize)
  {
  }

  class PagedNoteDataSource {
    const relayFilter: Filter
    /** Number of events asked for per page. */
    const pageSize: int := 20
    /** `fetchedResultsController.fetchedObjects`. */
    var fetchedObjects: Option<seq<Event>>
    var pager: Option<PagedRelaySubscription>
    var insertedIndexes: seq<IndexPath>
    var deletedIndexes: seq<IndexPath>
    var movedIndexes: seq<(IndexPath, IndexPath)>
    /** How many times `pager?.loadMore()` reached a pager. */
    ghost var loadMoreCalls: nat

    /** A pager, once present, was opened with the limited relay filter. */
    ghost predicate Valid()
      reads this
    {
      pager.Some? ==> pager.value.filter == LimitedFilter(relayFilter, pageSize)
    }

    /** `fetchedObjects?.count ?? 0`. */
    function ItemCount(): (n: nat)
      reads this
      ensures fetchedObjects.Some? ==> n == |fetchedObjects.value|
      ensures fetchedObjects.None? ==> n == 0
    {
      match fetchedObjects
      case Some(objects) => |objects|
      case None => 0
    }

    /** `init`; the initial fetch's result is given, and the pager is not
        there until the relay service answers. */
    constructor (relayFilter: Filter, fetched: Option<seq<Event>>)
      ensures this.relayFilter == relayFilter
      ensures fetchedObjects == fetched && pager == None
      ensures insertedIndexes == [] && deletedIndexes == [] && movedIndexes == []
      ensures loadMoreCalls == 0
      ensures Valid()
    {
      this.relayFilter := relayFilter;
      fetchedObjects := fetched;
      pager := None;
      insertedIndexes := [];
      deletedIndexes := [];
      movedIndexes := [];
      loadMoreCalls := 0;
    }

    /** The task in `init` that subscribes to paged events with the limited
        filter and stores the pager. */
    method AttachPager()
      modifies this`pager
      ensures pager == Some(PagedRelaySubscription(LimitedFilter(relayFilter, pageSize)))
      ensures Valid()
    {
      var limitedFilter := LimitedFilter(relayFilter, pageSize);
      pager := Some(PagedRelaySubscription(limitedFilter));
    }

    /** `collectionView(_:numberOfItemsInSection:)`. */
    method NumberOfItemsInSection(section: int) returns (n: int)
      ensures fetchedObjects.Some? ==> n == |fetchedObjects.value|
      ensures fetchedObjects.None? ==> n == 0
    {
      n := ItemCount();
    }

    /** `pager?.loadMore()`: counted when a pager is there, nothing otherwise;
        a pager that is there pages the limited relay filter. */
    method LoadMore()
      requires Valid()
      modifies this`loadMoreCalls
      ensures Valid()
      ensures loadMoreCalls == old(loadMoreCalls) + (if pager.Some? then 1 else 0)
    {
      if pager.Some? {
        loadMoreCalls := loadMoreCalls + 1;
      }
    }

    /** `loadMoreIfNeeded(for:)`: one page near the end of the list, one at
        every multiple of half a page, none otherwise. */
    method LoadMoreIfNeeded(indexPath: IndexPath)
      requires Valid()
      modifies this`loadMoreCalls
      ensures Valid()
      ensures pager.None? ==> loadMoreCalls == old(loadMoreCalls)
      ensures pager.Some? && indexPath.row > ItemCount() - pageSize ==>
        loadMoreCalls == old(loadMoreCalls) + 1
      ensures pager.Some? && indexPath.row <= ItemCount() - pageSize ==>
        loadMoreCalls == old(loadMoreCalls) + (if indexPath.row % 10 == 0 then 1 else 0)
    {
      var lastPageStartIndex := ItemCount() - pageSize;
      if indexPath.row > lastPageStartIndex {
        LoadMore();
      } else if indexPath.row % (pageSize / 2) == 0 {
        LoadMore();
      }
    }

    /** `controllerWillChangeContent`: empties the three queues. */
    method ControllerWillChangeContent()
      requires Valid()
      modifies this`insertedIndexes, this`deletedIndexes, this`movedIndexes
      ensures Valid()
      ensures insertedIndexes == [] && deletedIndexes == [] && movedIndexes == []
    {
      insertedIndexes := [];
      deletedIndexes := [];
      movedIndexes := [];
    }

    /** `controller(_:didChange:at:for:newIndexPath:)`: queues one change by
        its type; updates are not queued. */
    method DidChange(indexPath: Option<IndexPath>, changeType: ChangeType, newIndexPath: Option<IndexPath>)
      requires Valid()
      modifies this`insertedIndexes, this`deletedIndexes, this`movedIndexes
      ensures Valid()
      ensures insertedIndexes == old(insertedIndexes) +
        (if changeType == Insert && newIndexPath.Some? then [newIndexPath.value] else [])
      ensures deletedIndexes == old(deletedIndexes) +
        (if changeType == Delete && indexPath.Some? then [indexPath.value] else [])
      ensures movedIndexes == old(movedIndexes) +
        (if changeType == Move && indexPath.Some? && newIndexPath.Some?
         then [(indexPath.value, newIndexPath.value)] else [])
      ensures changeType == Update ==>
        insertedIndexes == old(insertedIndexes) && deletedIndexes == old(deletedIndexes) &&
        movedIndexes == old(movedIndexes)
    {
      match changeType
      case Insert =>
        if newIndexPath.Some? {
          insertedIndexes := insertedIndexes + [newIndexPath.value];
        }
      case Delete =>
        if indexPath.Some? {
          deletedIndexes := deletedIndexes + [indexPath.value];
        }
      case Update =>
        return;
      case Move =>
        if indexPath.Some? && newIndexPath.Some? {
          movedIndexes := movedIndexes + [(indexPath.value, newIndexPath.value)];
        }
    }
  }
}
