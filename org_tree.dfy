/** The organization tree as the chart component sees it: a cache from a parent key
    to the ordered list of child organizations the listing endpoint returned for it,
    the recursive collection of descendant ids over such a cache, and the tree view
    drawn from it. */
module OrgTree {

  import Remote

  /** One organizational unit as listed by `GET /api/organizations?upCode=…`. */
  datatype Organization = Organization(
    organizationId: int,
    orgName: string,
    fullName: string,
    ocCode: string,
    upCode: string)

  /** The cache is keyed by strings: the sentinel `"1"` for the top level and
      `organizationId.toString()` for every other node. The decimal rendering of an
      integer is injective, so a key is modelled by the integer it renders, and the
      sentinel by 1 (which is also the key of an organization whose id is 1, as in
      the source). */
  const RootKey: int := 1

  type Cache = map<int, seq<Organization>>

  /** The source has no cycle check: the collector and the renderer terminate only
      because the organization data is a tree. A rank that strictly decreases from a
      parent key to each of its cached children states that assumption. */
  ghost predicate Ranked(cache: Cache, rank: int -> nat)
  {
    forall k, i :: k in cache && 0 <= i < |cache[k]| ==> rank(cache[k][i].organizationId) < rank(k)
  }

  /** `child` is listed among the cached children of `parent`. */
  ghost predicate ChildOf(cache: Cache, parent: int, child: int)
  {
    parent in cache && exists i :: 0 <= i < |cache[parent]| && cache[parent][i].organizationId == child
  }

  ghost predicate IsPath(cache: Cache, path: seq<int>)
  {
    forall j :: 0 <= j < |path| - 1 ==> ChildOf(cache, path[j], path[j + 1])
  }

  /** `target` is reached from `start` in one or more steps through cached child lists. */
  ghost predicate Reachable(cache: Cache, start: int, target: int)
  {
    exists path :: IsPath(cache, path) && |path| >= 2 && path[0] == start && path[|path| - 1] == target
  }

  /** The ids `getAllSubOrganizationIds(key)` collects when every read goes to
      `cache`: each cached child, followed by that child's own descendants. */
  ghost function Descendants(cache: Cache, rank: int -> nat, key: int): (ids: set<int>)
    requires Ranked(cache, rank)
    decreases rank(key), 1, 0
  {
    if key in cache then ChildrenDescendants(cache, rank, key, 0) else {}
  }

  /** What the loop over `cache[key]` adds from position `i` to the end. */
  ghost function ChildrenDescendants(cache: Cache, rank: int -> nat, key: int, i: nat): set<int>
    requires Ranked(cache, rank) && key in cache && i <= |cache[key]|
    decreases rank(key), 0, |cache[key]| - i
  {
    if i == |cache[key]| then {}
    else
      var child := cache[key][i].organizationId;
      {child} + Descendants(cache, rank, child) + ChildrenDescendants(cache, rank, key, i + 1)
  }

  /** A node with no cache entry, or with an empty child list, has no descendants. */
  lemma NoChildrenNoDescendants(cache: Cache, rank: int -> nat, key: int)
    requires Ranked(cache, rank)
    requires key !in cache || cache[key] == []
    ensures Descendants(cache, rank, key) == {}
  {
  }

  /** Every collected id is reachable from the start key through cached child lists. */
  lemma {:induction false} DescendantsSound(cache: Cache, rank: int -> nat, key: int, x: int)
    requires Ranked(cache, rank)
    requires x in Descendants(cache, rank, key)
    ensures Reachable(cache, key, x)
    decreases rank(key), 1, 0
  {
    ChildrenDescendantsSound(cache, rank, key, 0, x);
  }

  lemma {:induction false} ChildrenDescendantsSound(cache: Cache, rank: int -> nat, key: int, i: nat, x: int)
    requires Ranked(cache, rank) && key in cache && i <= |cache[key]|
    requires x in ChildrenDescendants(cache, rank, key, i)
    ensures Reachable(cache, key, x)
    decreases rank(key), 0, |cache[key]| - i
  {
    var child := cache[key][i].organizationId;
    assert ChildOf(cache, key, child);
    if x == child {
      var path := [key, child];
      assert IsPath(cache, path);
    } else if x in Descendants(cache, rank, child) {
      DescendantsSound(cache, rank, child, x);
      var tail :| IsPath(cache, tail) && |tail| >= 2 && tail[0] == child && tail[|tail| - 1] == x;
      var path := [key] + tail;
      forall j | 0 <= j < |path| - 1
        ensures ChildOf(cache, path[j], path[j + 1])
      {
        if j > 0 { assert path[j] == tail[j - 1] && path[j + 1] == tail[j]; }
      }
      assert IsPath(cache, path) && path[|path| - 1] == x;
    } else {
      ChildrenDescendantsSound(cache, rank, key, i + 1, x);
    }
  }

  /** The contribution of the child at position `i` reaches every later loop state. */
  lemma {:induction false} ChildIncluded(cache: Cache, rank: int -> nat, key: int, i: nat, j: nat)
    requires Ranked(cache, rank) && key in cache && j <= i < |cache[key]|
    ensures var child := cache[key][i].organizationId;
      {child} + Descendants(cache, rank, child) <= ChildrenDescendants(cache, rank, key, j)
    decreases i - j
  {
    if j < i {
      ChildIncluded(cache, rank, key, i, j + 1);
    }
  }

  /** Every id at the end of a path of cached child links is collected from the path's start. */
  lemma {:induction false} PathEndCollected(cache: Cache, rank: int -> nat, path: seq<int>)
    requires Ranked(cache, rank) && IsPath(cache, path) && |path| >= 2
    ensures path[|path| - 1] in Descendants(cache, rank, path[0])
    decreases |path|
  {
    assert ChildOf(cache, path[0], path[1]);
    var i :| 0 <= i < |cache[path[0]]| && cache[path[0]][i].organizationId == path[1];
    ChildIncluded(cache, rank, path[0], i, 0);
    if |path| > 2 {
      var tail := path[1..];
      assert IsPath(cache, tail) by {
        forall j | 0 <= j < |tail| - 1 ensures ChildOf(cache, tail[j], tail[j + 1]) {
          assert tail[j] == path[j + 1] && tail[j + 1] == path[j + 2];
        }
      }
      PathEndCollected(cache, rank, tail);
    }
  }

  /** The collector returns exactly the ids reachable in one or more steps through
      the cached child lists. */
  lemma DescendantsAreReachable(cache: Cache, rank: int -> nat, key: int, x: int)
    requires Ranked(cache, rank)
    ensures x in Descendants(cache, rank, key) <==> Reachable(cache, key, x)
  {
    if x in Descendants(cache, rank, key) {
      DescendantsSound(cache, rank, key, x);
    }
    if Reachable(cache, key, x) {
      var path :| IsPath(cache, path) && |path| >= 2 && path[0] == key && path[|path| - 1] == x;
      PathEndCollected(cache, rank, path);
    }
  }

  /** Ranks fall strictly along every path, so the start node is never among its own
      descendants. */
  lemma {:induction false} DescendantsRankBelow(cache: Cache, rank: int -> nat, key: int, x: int)
    requires Ranked(cache, rank)
    requires x in Descendants(cache, rank, key)
    ensures rank(x) < rank(key)
    decreases rank(key), 1, 0
  {
    ChildrenRankBelow(cache, rank, key, 0, x);
  }

  lemma {:induction false} ChildrenRankBelow(cache: Cache, rank: int -> nat, key: int, i: nat, x: int)
    requires Ranked(cache, rank) && key in cache && i <= |cache[key]|
    requires x in ChildrenDescendants(cache, rank, key, i)
    ensures rank(x) < rank(key)
    decreases rank(key), 0, |cache[key]| - i
  {
    var child := cache[key][i].organizationId;
    if x in Descendants(cache, rank, child) {
      DescendantsRankBelow(cache, rank, child, x);
    } else if x != child {
      ChildrenRankBelow(cache, rank, key, i + 1, x);
    }
  }

  lemma StartNotDescendant(cache: Cache, rank: int -> nat, key: int)
    requires Ranked(cache, rank)
    ensures key !in Descendants(cache, rank, key)
  {
    if key in Descendants(cache, rank, key) {
      DescendantsRankBelow(cache, rank, key, key);
    }
  }

  /** `bigger` keeps every entry of `smaller` and may add entries under new keys:
      the only way fetches change the cache during a session. */
  ghost predicate Extends(smaller: Cache, bigger: Cache)
  {
    forall k :: k in smaller ==> k in bigger && bigger[k] == smaller[k]
  }

  /** Adding cache entries never loses a collected id. */
  lemma DescendantsMonotone(smaller: Cache, bigger: Cache, rank: int -> nat, key: int)
    requires Ranked(smaller, rank) && Ranked(bigger, rank) && Extends(smaller, bigger)
    ensures Descendants(smaller, rank, key) <= Descendants(bigger, rank, key)
  {
    forall x | x in Descendants(smaller, rank, key)
      ensures x in Descendants(bigger, rank, key)
    {
      DescendantsAreReachable(smaller, rank, key, x);
      var path :| IsPath(smaller, path) && |path| >= 2 && path[0] == key && path[|path| - 1] == x;
      assert IsPath(bigger, path) by {
        forall j | 0 <= j < |path| - 1 ensures ChildOf(bigger, path[j], path[j + 1]) {
          assert ChildOf(smaller, path[j], path[j + 1]);
        }
      }
      DescendantsAreReachable(bigger, rank, key, x);
    }
  }

  /** The list `fetchSubOrganizations` stores: the response on success, `[]` on failure. */
  function StoredChildren(response: Remote.Response<seq<Organization>>): seq<Organization>
  {
    match response
    case Ok(children) => children
    case Failed(_) => []
  }

  /** The cache entries written by fetching every key of `keys` from `server`. */
  function Fetched(keys: set<int>, server: int -> Remote.Response<seq<Organization>>): Cache
  {
    map k | k in keys :: StoredChildren(server(k))
  }

  /** The server's own answers respect the rank. */
  ghost predicate ServerRanked(server: int -> Remote.Response<seq<Organization>>, rank: int -> nat)
  {
    forall k, i :: 0 <= i < |StoredChildren(server(k))| ==>
      rank(StoredChildren(server(k))[i].organizationId) < rank(k)
  }

  /** Storing fetched entries keeps a ranked cache ranked, and extends every snapshot
      whose keys were not fetched. */
  lemma FetchKeepsRanked(cache: Cache, keys: set<int>, server: int -> Remote.Response<seq<Organization>>, rank: int -> nat)
    requires Ranked(cache, rank) && ServerRanked(server, rank)
    ensures Ranked(cache + Fetched(keys, server), rank)
    ensures Extends(cache - keys, cache + Fetched(keys, server))
  {
    var updated: Cache := cache + Fetched(keys, server);
    forall k, i | k in updated && 0 <= i < |updated[k]|
      ensures rank(updated[k][i].organizationId) < rank(k)
    {
      if k in keys {
        assert updated[k] == StoredChildren(server(k));
      }
    }
  }

  /** Storing a child list whose ranks lie below the key's keeps the cache ranked. */
  lemma RankedStore(cache: Cache, rank: int -> nat, key: int, children: seq<Organization>)
    requires Ranked(cache, rank)
    requires forall i :: 0 <= i < |children| ==> rank(children[i].organizationId) < rank(key)
    ensures Ranked(cache[key := children], rank)
  {
  }

  /** Fetching a single key is a single cache update. */
  lemma FetchedOne(cache: Cache, key: int, server: int -> Remote.Response<seq<Organization>>)
    ensures cache + Fetched({key}, server) == cache[key := StoredChildren(server(key))]
  {
  }

  /** A node whose one cached child is a leaf has exactly that child below it. */
  lemma OnlyChild(cache: Cache, rank: int -> nat, key: int, child: Organization)
    requires Ranked(cache, rank) && key in cache && cache[key] == [child]
    requires child.organizationId !in cache || cache[child.organizationId] == []
    ensures Descendants(cache, rank, key) == {child.organizationId}
  {
    NoChildrenNoDescendants(cache, rank, child.organizationId);
    assert ChildrenDescendants(cache, rank, key, 1) == {};
  }

  /** One checkbox row of the tree view (`renderTree`). */
  datatype TreeItem = TreeItem(itemId: int, name: string, checked: bool, children: seq<TreeItem>)

  /** The items drawn for the cached children of `key`; a node's own children are
      drawn only when its key is cached with a non-empty list. */
  function RenderTree(cache: Cache, ghost rank: int -> nat, saved: set<int>, key: int): (items: seq<TreeItem>)
    requires Ranked(cache, rank)
    ensures key in cache ==> |items| == |cache[key]|
    ensures key !in cache ==> items == []
    ensures forall i :: 0 <= i < |items| ==>
      && items[i].itemId == cache[key][i].organizationId
      && items[i].name == cache[key][i].orgName
      && (items[i].checked <==> items[i].itemId in saved)
    decreases rank(key), 1, 0
  {
    if key in cache then RenderNodes(cache, rank, saved, key, 0) else []
  }

  function RenderNodes(cache: Cache, ghost rank: int -> nat, saved: set<int>, key: int, i: nat): (items: seq<TreeItem>)
    requires Ranked(cache, rank) && key in cache && i <= |cache[key]|
    ensures |items| == |cache[key]| - i
    ensures forall j :: 0 <= j < |items| ==>
      && items[j].itemId == cache[key][i + j].organizationId
      && items[j].name == cache[key][i + j].orgName
      && (items[j].checked <==> items[j].itemId in saved)
    decreases rank(key), 0, |cache[key]| - i
  {
    if i == |cache[key]| then []
    else
      var node := cache[key][i];
      var id := node.organizationId;
      var below := if id in cache && |cache[id]| > 0 then RenderTree(cache, rank, saved, id) else [];
      [TreeItem(id, node.orgName, id in saved, below)] + RenderNodes(cache, rank, saved, key, i + 1)
  }

  /** Every id drawn anywhere in a forest of tree items. */
  function ItemIds(items: seq<TreeItem>): set<int>
    decreases items
  {
    if items == [] then {}
    else
      {items[0].itemId} + ItemIds(items[0].children) + ItemIds(items[1..])
  }

  /** Every id drawn with a ticked checkbox anywhere in a forest of tree items. */
  function CheckedIds(items: seq<TreeItem>): set<int>
    decreases items
  {
    if items == [] then {}
    else
      (if items[0].checked then {items[0].itemId} else {})
      + CheckedIds(items[0].children) + CheckedIds(items[1..])
  }

  /** At every depth of the tree view under `key`, a box is ticked exactly when its
      id is in the save set: the ticked ids are the collected ids that are saved. */
  lemma {:induction false} RenderedCheckedAreSaved(cache: Cache, rank: int -> nat, saved: set<int>, key: int)
    requires Ranked(cache, rank)
    ensures CheckedIds(RenderTree(cache, rank, saved, key)) == Descendants(cache, rank, key) * saved
    decreases rank(key), 1, 0
  {
    if key in cache {
      RenderedNodesChecked(cache, rank, saved, key, 0);
    }
  }

  lemma {:induction false} RenderedNodesChecked(cache: Cache, rank: int -> nat, saved: set<int>, key: int, i: nat)
    requires Ranked(cache, rank) && key in cache && i <= |cache[key]|
    ensures CheckedIds(RenderNodes(cache, rank, saved, key, i)) == ChildrenDescendants(cache, rank, key, i) * saved
    decreases rank(key), 0, |cache[key]| - i
  {
    if i < |cache[key]| {
      var id := cache[key][i].organizationId;
      var items := RenderNodes(cache, rank, saved, key, i);
      var below := Descendants(cache, rank, id);
      assert items[1..] == RenderNodes(cache, rank, saved, key, i + 1);
      if id in cache && |cache[id]| > 0 {
        RenderedCheckedAreSaved(cache, rank, saved, id);
      } else {
        NoChildrenNoDescendants(cache, rank, id);
      }
      assert CheckedIds(items[0].children) == below * saved;
      RenderedNodesChecked(cache, rank, saved, key, i + 1);
      IntersectDistributes({id}, below, ChildrenDescendants(cache, rank, key, i + 1), saved);
    }
  }

  lemma IntersectDistributes(first: set<int>, second: set<int>, third: set<int>, saved: set<int>)
    ensures (first + second + third) * saved == first * saved + second * saved + third * saved
  {
  }

  /** The tree view under `key` draws exactly the ids the collector gathers from the
      same cache. */
  lemma {:induction false} RenderedIdsAreDescendants(cache: Cache, rank: int -> nat, saved: set<int>, key: int)
    requires Ranked(cache, rank)
    ensures ItemIds(RenderTree(cache, rank, saved, key)) == Descendants(cache, rank, key)
    decreases rank(key), 1, 0
  {
    if key in cache {
      RenderedNodeIds(cache, rank, saved, key, 0);
    }
  }

  lemma {:induction false} RenderedNodeIds(cache: Cache, rank: int -> nat, saved: set<int>, key: int, i: nat)
    requires Ranked(cache, rank) && key in cache && i <= |cache[key]|
    ensures ItemIds(RenderNodes(cache, rank, saved, key, i)) == ChildrenDescendants(cache, rank, key, i)
    decreases rank(key), 0, |cache[key]| - i
  {
    if i < |cache[key]| {
      var id := cache[key][i].organizationId;
      var items := RenderNodes(cache, rank, saved, key, i);
      assert items[1..] == RenderNodes(cache, rank, saved, key, i + 1);
      RenderedIdsAreDescendants(cache, rank, saved, id);
      RenderedNodeIds(cache, rank, saved, key, i + 1);
    }
  }
}
