/** A row of the evaluation status dashboard that loads its detail rows the first
    time it is opened, and keeps them for later openings. */
module ExpandableRows {

  import opened Remote

  class ExpandableRow<Detail> {
    var isExpanded: bool
    var expandedData: seq<Detail>
    var loading: bool

    constructor ()
      ensures !isExpanded && expandedData == [] && !loading
    {
      isExpanded := false;
      expandedData := [];
      loading := false;
    }

    /** Whether opening the row now asks for its details: only a closed row that has
        no details yet does. */
    predicate NeedsFetch()
      reads this
    {
      !isExpanded && |expandedData| == 0
    }

    /** The detail table is drawn: the row is open, not loading, and has details. */
    predicate ContentShown()
      reads this
    {
      isExpanded && !loading && |expandedData| > 0
    }

    /** `handleExpand`: when the row needs its details, `reply` is the outcome of
        `onExpand`; a result replaces the details and a failure keeps the old ones.
        Loading ends once the request settles, and the row flips open or closed. */
    method HandleExpand(reply: Response<seq<Detail>>) returns (fetched: bool)
      modifies this
      ensures fetched == old(NeedsFetch())
      ensures expandedData == if fetched && reply.Ok? then reply.value else old(expandedData)
      ensures loading == if fetched then false else old(loading)
      ensures isExpanded == !old(isExpanded)
    {
      var wasExpanded := isExpanded;
      fetched := NeedsFetch();
      if fetched {
        loading := true;
        if reply.Ok? {
          expandedData := reply.value;
        }
        loading := false;
      }
      isExpanded := !wasExpanded;
    }
  }

  /** Opening a row shows what it loaded; closing and reopening it asks for nothing
      and shows the same details. */
  method ReopenWalkThrough(details: seq<int>, later: seq<int>)
    returns (firstFetch: bool, shownFirst: bool, closeFetch: bool, reopenFetch: bool, shownAgain: seq<int>)
    requires |details| > 0
    ensures firstFetch && shownFirst && !closeFetch && !reopenFetch && shownAgain == details
  {
    var row := new ExpandableRow<int>();
    firstFetch := row.HandleExpand(Ok(details));
    shownFirst := row.ContentShown();
    closeFetch := row.HandleExpand(Ok(later));
    reopenFetch := row.HandleExpand(Ok(later));
    shownAgain := row.expandedData;
  }

  /** A row whose details came back empty, or whose request failed, asks again on
      every opening and never shows the detail table until a result has rows. */
  method EmptyResultWalkThrough(message: string, details: seq<int>)
    returns (firstFetch: bool, shownEmpty: bool, secondFetch: bool, shownAfterFailure: bool, thirdFetch: bool, shownFinally: bool)
    requires |details| > 0
    ensures firstFetch && !shownEmpty && secondFetch && !shownAfterFailure && thirdFetch && shownFinally
  {
    var row := new ExpandableRow<int>();
    firstFetch := row.HandleExpand(Ok([]));
    shownEmpty := row.ContentShown();
    var closing := row.HandleExpand(Ok(details));
    secondFetch := row.HandleExpand(Failed(message));
    shownAfterFailure := row.ContentShown();
    closing := row.HandleExpand(Ok(details));
    thirdFetch := row.HandleExpand(Ok(details));
    shownFinally := row.ContentShown();
  }
}
