/**
 * What the two paginated list screens share: the displayed state of one
 * page, and the pagination controls they render.
 */
module Pagination {
  import opened Common
  import opened Http

  /** The displayed part of a list screen: its rows, page bookkeeping and error banner. */
  datatype Listing<T> = Listing(rows: seq<T>, currentPage: int, totalPages: int, error: string)

  /** The rows a successful fetch shows: the page's data, or none when the body has no data. */
  function RowsOf<T>(o: PageOutcome<T>): (rows: seq<T>)
    requires o.Ok?
    ensures Classify(o).NoData? ==> rows == []
    ensures Classify(o).Loaded? || Classify(o).LoadedWithoutMeta? ==> rows == Classify(o).items
  {
    match Classify(o)
    case Loaded(items, _) => items
    case LoadedWithoutMeta(items) => items
    case _ => []
  }

  /** `Array.from({ length: totalPages }, (_, i) => i + 1)`: one button per page, 1 to `total`. */
  function PageNumbers(total: int): (pages: seq<int>)
    ensures |pages| == if total > 0 then total else 0
    ensures forall i :: 0 <= i < |pages| ==> pages[i] == i + 1
  {
    seq(if total > 0 then total else 0, i => i + 1)
  }

  /** "Previous" is disabled on the first page. */
  predicate PreviousDisabled(current: int)
  {
    current == 1
  }

  /** "Next" is disabled on the last page. */
  predicate NextDisabled(current: int, total: int)
  {
    current == total
  }

  /** The pages the enabled controls lead to: "Previous", every page button, "Next". */
  function EnabledTargets(current: int, total: int): (targets: seq<int>)
    ensures 1 <= current <= total ==> forall p :: p in targets ==> 1 <= p <= total
    ensures forall p :: 1 <= p <= total ==> p in targets
    ensures current == 1 ==> forall p :: p in targets ==> p >= 1
    ensures current == total ==> forall p :: p in targets ==> p <= total
  {
    var buttons := PageNumbers(total);
    assert forall p :: 1 <= p <= total ==> p in buttons by {
      forall p | 1 <= p <= total ensures p in buttons {
        assert buttons[p - 1] == p;
      }
    }
    (if PreviousDisabled(current) then [] else [current - 1])
    + buttons
    + (if NextDisabled(current, total) then [] else [current + 1])
  }
}
