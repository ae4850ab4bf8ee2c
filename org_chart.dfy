/** The state of the organization-chart component: the child-list cache, the two
    selection views and the save flag, with its handlers as sequential steps. */
module OrgChart {

  import opened Remote
  import opened OrgTree
  import Collections

  /** The body posted to `/api/organizations/evaluate`. */
  datatype Assignment = Assignment(organizationIds: seq<int>, periodId: string)

  class OrganizationChart {
    /** `organizations`: parent key to fetched child list. */
    var cache: Cache
    /** `selectedDisplay`: the organizations the user checked directly, by id. */
    var display: map<int, Organization>
    /** `selectedForSave`: the checked ids together with their collected descendants. */
    var save: set<int>
    var loading: bool
    const periodId: string

    constructor (periodId: string)
      ensures cache == map[] && display == map[] && save == {} && !loading
      ensures this.periodId == periodId
    {
      cache := map[];
      display := map[];
      save := {};
      loading := false;
      this.periodId := periodId;
    }

    /** `fetchSubOrganizations(key)`: store the returned list under `key`, or `[]`
        when the request fails; no other entry changes. */
    method FetchSubOrganizations(key: int, response: Response<seq<Organization>>)
      modifies this`cache
      ensures cache == old(cache)[key := StoredChildren(response)]
      ensures key in cache && (response.Failed? ==> cache[key] == [])
      ensures forall k :: k != key ==> (k in cache <==> k in old(cache))
      ensures forall k :: k != key && k in old(cache) ==> cache[k] == old(cache)[k]
    {
      cache := cache[key := StoredChildren(response)];
    }

    /** `getAllSubOrganizationIds(key)`. Every read goes to `snapshot`, the cache as it
        was when the handler's render happened; an uncached key is fetched into the
        live cache, but what that fetch stores is never read by this invocation. */
    method CollectDescendants(snapshot: Cache, key: int, server: int -> Response<seq<Organization>>, ghost rank: int -> nat)
      returns (ids: set<int>)
      requires Ranked(snapshot, rank)
      modifies this`cache
      ensures ids == Descendants(snapshot, rank, key)
      ensures cache == old(cache) + Fetched(({key} + ids) - snapshot.Keys, server)
      decreases rank(key)
    {
      ids := {};
      if key !in snapshot {
        FetchSubOrganizations(key, server(key));
      }
      var children := if key in snapshot then snapshot[key] else [];
      var i := 0;
      while i < |children|
        invariant 0 <= i <= |children|
        invariant key in snapshot ==>
          ids + ChildrenDescendants(snapshot, rank, key, i) == Descendants(snapshot, rank, key)
        invariant key !in snapshot ==> ids == {}
        invariant cache == old(cache) + Fetched(({key} + ids) - snapshot.Keys, server)
      {
        var child := children[i].organizationId;
        assert rank(child) < rank(key);
        ghost var before := ids;
        ids := ids + {child};
        var below := CollectDescendants(snapshot, child, server, rank);
        ids := ids + below;
        FetchedUnion(old(cache), ({key} + before) - snapshot.Keys, ({child} + below) - snapshot.Keys, server);
        assert ({key} + ids) - snapshot.Keys == (({key} + before) - snapshot.Keys) + (({child} + below) - snapshot.Keys);
        i := i + 1;
      }
      assert key in snapshot ==> ChildrenDescendants(snapshot, rank, key, i) == {};
    }

    /** `handleSelect(org, checked)`. Checking records `org` for display and adds its
        id and its collected descendants to the save set; unchecking drops it from
        display and removes the same ids from the save set, whatever else is still
        displayed. The collector runs over the cache as it was when the handler began. */
    method Select(org: Organization, checked: bool, server: int -> Response<seq<Organization>>, ghost rank: int -> nat)
      requires Ranked(cache, rank)
      modifies this`cache, this`display, this`save
      ensures var affected := {org.organizationId} + Descendants(old(cache), rank, org.organizationId);
        && (checked ==> display == old(display)[org.organizationId := org] && save == old(save) + affected)
        && (!checked ==> display == old(display) - {org.organizationId} && save == old(save) - affected)
      ensures cache == old(cache) + Fetched(({org.organizationId} + Descendants(old(cache), rank, org.organizationId)) - old(cache).Keys, server)
    {
      var snapshot := cache;
      if checked {
        display := display[org.organizationId := org];
        var below := CollectDescendants(snapshot, org.organizationId, server, rank);
        save := save + below + {org.organizationId};
      } else {
        display := display - {org.organizationId};
        var below := CollectDescendants(snapshot, org.organizationId, server, rank);
        save := save - below - {org.organizationId};
      }
    }

    /** The save button's `disabled` condition, negated. */
    predicate SaveEnabled()
      reads this
    {
      !loading && |save| > 0
    }

    /** `handleSave`, reached only through the save button: no request while the
        button is disabled; otherwise one request listing each saved id once. The
        selection is left as it was whether the request succeeds or fails. */
    method Save() returns (request: Option<Assignment>)
      modifies this`loading
      ensures request.Some? <==> old(SaveEnabled())
      ensures request.Some? ==>
        && request.value.periodId == periodId
        && |request.value.organizationIds| == |save|
        && (forall id :: id in request.value.organizationIds <==> id in save)
      ensures !loading || request.None?
      ensures request.None? ==> loading == old(loading)
    {
      if !SaveEnabled() {
        return None;
      }
      loading := true;
      var ids := Collections.SetToSeq(save);
      request := Some(Assignment(ids, periodId));
      loading := false;
    }
  }

  /** Fetching two key sets one after the other stores what fetching their union stores. */
  lemma FetchedUnion(cache: Cache, first: set<int>, second: set<int>, server: int -> Response<seq<Organization>>)
    ensures cache + Fetched(first, server) + Fetched(second, server) == cache + Fetched(first + second, server)
  {
  }

  /** Checking and then unchecking the same organization. Unchecking collects over
      the cache the check left behind, which may hold child lists the check itself
      fetched; so the pair removes the organization, everything the check added, and
      possibly more. When the organization and every id the check collected already
      had a cache entry, so that the check fetched nothing, the pair gives back exactly
      the old save set minus those ids. */
  method CheckThenUncheck(chart: OrganizationChart, org: Organization,
                          server: int -> Response<seq<Organization>>, ghost rank: int -> nat)
    requires Ranked(chart.cache, rank) && ServerRanked(server, rank)
    modifies chart
    ensures var before := {org.organizationId} + Descendants(old(chart.cache), rank, org.organizationId);
      && chart.display == old(chart.display) - {org.organizationId}
      && chart.save <= old(chart.save) - before
      && (before <= old(chart.cache).Keys ==> chart.save == old(chart.save) - before)
  {
    var id := org.organizationId;
    ghost var cache0 := chart.cache;
    ghost var before := {id} + Descendants(cache0, rank, id);
    chart.Select(org, true, server, rank);
    FetchKeepsRanked(cache0, before - cache0.Keys, server, rank);
    assert cache0 - (before - cache0.Keys) == cache0;
    DescendantsMonotone(cache0, chart.cache, rank, id);
    chart.Select(org, false, server, rank);
    if before <= cache0.Keys {
      assert before - cache0.Keys == {};
      assert Fetched({}, server) == map[];
      assert cache0 + map[] == cache0;
    }
  }

  /** The server of the two-branch walk-through: the root lists A and B, A lists C,
      every other key lists nothing. */
  function TwoBranchServer(a: Organization, b: Organization, c: Organization): int -> Response<seq<Organization>>
  {
    (k: int) => if k == RootKey then Ok([a, b]) else if k == a.organizationId then Ok([c]) else Ok([])
  }

  ghost function TwoBranchRank(a: Organization, b: Organization): int -> nat
  {
    (k: int) => if k == RootKey then 2 else if k == a.organizationId || k == b.organizationId then 1 else 0
  }

  /** A fresh chart after the root list and A's list are loaded. */
  method TwoBranchSetup(a: Organization, b: Organization, c: Organization) returns (chart: OrganizationChart)
    requires a.organizationId != b.organizationId && a.organizationId != c.organizationId
    requires b.organizationId != c.organizationId
    requires RootKey !in {a.organizationId, b.organizationId, c.organizationId}
    ensures fresh(chart) && chart.display == map[] && chart.save == {}
    ensures chart.cache == map[RootKey := [a, b], a.organizationId := [c]]
    ensures Ranked(chart.cache, TwoBranchRank(a, b))
    ensures Descendants(chart.cache, TwoBranchRank(a, b), a.organizationId) == {c.organizationId}
  {
    var server := TwoBranchServer(a, b, c);
    ghost var rank := TwoBranchRank(a, b);
    chart := new OrganizationChart("1");
    ghost var empty := chart.cache;
    chart.FetchSubOrganizations(RootKey, server(RootKey));
    RankedStore(empty, rank, RootKey, StoredChildren(server(RootKey)));
    ghost var top := chart.cache;
    chart.FetchSubOrganizations(a.organizationId, server(a.organizationId));
    RankedStore(top, rank, a.organizationId, StoredChildren(server(a.organizationId)));
    OnlyChild(chart.cache, rank, a.organizationId, c);
  }

  /** Checking A and then B on the freshly loaded chart: A's check saves A and C and
      fetches C's empty list; B's check adds B and fetches B's empty list. */
  method TwoBranchChecks(chart: OrganizationChart, a: Organization, b: Organization, c: Organization)
    returns (afterA: set<int>, afterB: set<int>)
    requires a.organizationId != b.organizationId && a.organizationId != c.organizationId
    requires b.organizationId != c.organizationId
    requires RootKey !in {a.organizationId, b.organizationId, c.organizationId}
    requires chart.display == map[] && chart.save == {}
    requires chart.cache == map[RootKey := [a, b], a.organizationId := [c]]
    requires Ranked(chart.cache, TwoBranchRank(a, b))
    requires Descendants(chart.cache, TwoBranchRank(a, b), a.organizationId) == {c.organizationId}
    modifies chart
    ensures afterA == {a.organizationId, c.organizationId}
    ensures afterB == {a.organizationId, c.organizationId, b.organizationId} && chart.save == afterB
    ensures chart.display == map[][a.organizationId := a][b.organizationId := b]
    ensures Ranked(chart.cache, TwoBranchRank(a, b))
    ensures Descendants(chart.cache, TwoBranchRank(a, b), a.organizationId) == {c.organizationId}
  {
    var idA, idB, idC := a.organizationId, b.organizationId, c.organizationId;
    var server := TwoBranchServer(a, b, c);
    ghost var rank := TwoBranchRank(a, b);
    ghost var c0 := chart.cache;
    chart.Select(a, true, server, rank);
    afterA := chart.save;
    assert ({idA} + {idC}) - c0.Keys == {idC};
    FetchedOne(c0, idC, server);
    RankedStore(c0, rank, idC, StoredChildren(server(idC)));
    ghost var c1 := chart.cache;
    NoChildrenNoDescendants(c1, rank, idB);
    chart.Select(b, true, server, rank);
    afterB := chart.save;
    assert ({idB} + {}) - c1.Keys == {idB};
    FetchedOne(c1, idB, server);
    RankedStore(c1, rank, idB, StoredChildren(server(idB)));
    OnlyChild(chart.cache, rank, idA, c);
  }

  /** The two-branch walk-through: root children A and B, A's child C already
      listed. Checking A saves A and C, checking B adds B, unchecking A leaves only B
      saved and only B displayed. */
  method TwoBranchWalkThrough(a: Organization, b: Organization, c: Organization)
    returns (afterA: set<int>, afterB: set<int>, afterUncheck: set<int>, shown: set<int>)
    requires a.organizationId != b.organizationId && a.organizationId != c.organizationId
    requires b.organizationId != c.organizationId
    requires RootKey !in {a.organizationId, b.organizationId, c.organizationId}
    ensures afterA == {a.organizationId, c.organizationId}
    ensures afterB == {a.organizationId, c.organizationId, b.organizationId}
    ensures afterUncheck == {b.organizationId} && shown == {b.organizationId}
  {
    var chart := TwoBranchSetup(a, b, c);
    afterA, afterB := TwoBranchChecks(chart, a, b, c);
    chart.Select(a, false, TwoBranchServer(a, b, c), TwoBranchRank(a, b));
    afterUncheck := chart.save;
    shown := chart.display.Keys;
    OtherKeyRemains(a, b);
  }

  /** Checking two organizations and unchecking the first leaves the second displayed. */
  lemma OtherKeyRemains(first: Organization, second: Organization)
    requires first.organizationId != second.organizationId
    ensures (map[][first.organizationId := first][second.organizationId := second] - {first.organizationId}).Keys
      == {second.organizationId}
  {
  }

  /** Unchecking never consults the display map: with a parent P (10) and its child
      C (11) both checked, unchecking P drops C from the save set while C is still
      displayed as selected. */
  method OverlapWalkThrough() returns (childShown: bool, childSaved: bool, saved: set<int>)
    ensures childShown && !childSaved && saved == {}
  {
    var p := Organization(10, "P", "P", "10", "1");
    var c := Organization(11, "C", "C", "11", "10");
    var server := (k: int) => if k == RootKey then Ok([p]) else if k == 10 then Ok([c]) else Ok([]);
    ghost var rank := (k: int) => if k == RootKey then 2 else if k == 10 then 1 else 0;
    var chart := new OrganizationChart("1");
    chart.FetchSubOrganizations(RootKey, server(RootKey));
    chart.FetchSubOrganizations(10, server(10));
    ghost var c0 := map[RootKey := [p], 10 := [c]];
    assert chart.cache == c0;
    OverlapFacts(p, c, server, rank);
    chart.Select(p, true, server, rank);
    assert chart.cache == c0[11 := []];
    chart.Select(c, true, server, rank);
    assert ({11} + Descendants(c0[11 := []], rank, 11)) - c0[11 := []].Keys == {};
    assert chart.cache == c0[11 := []];
    chart.Select(p, false, server, rank);
    childShown := 11 in chart.display;
    childSaved := 11 in chart.save;
    saved := chart.save;
  }

  lemma OverlapFacts(p: Organization, c: Organization,
                     server: int -> Response<seq<Organization>>, rank: int -> nat)
    requires p.organizationId == 10 && c.organizationId == 11
    requires forall k :: server(k) == if k == RootKey then Ok([p]) else if k == 10 then Ok([c]) else Ok([])
    requires forall k :: rank(k) == if k == RootKey then 2 else if k == 10 then 1 else 0
    ensures var c0 := map[RootKey := [p], 10 := [c]];
      && Ranked(c0, rank) && Ranked(c0[11 := []], rank)
      && Descendants(c0, rank, 10) == {11}
      && Fetched({11}, server) == map[11 := []]
      && Descendants(c0[11 := []], rank, 11) == {}
      && Descendants(c0[11 := []], rank, 10) == {11}
  {
    var c0 := map[RootKey := [p], 10 := [c]];
    var c1 := c0[11 := []];
    assert Descendants(c0, rank, 11) == {};
    assert ChildrenDescendants(c0, rank, 10, 1) == {};
    assert Descendants(c1, rank, 11) == {};
    assert ChildrenDescendants(c1, rank, 10, 1) == {};
  }

  /** The collector reads the snapshot: checking an organization whose children were
      never fetched saves the organization alone, although the fetch it triggers
      stores the child list in the cache. */
  method UnexpandedCheckWalkThrough() returns (saved: set<int>, nowCached: seq<Organization>)
    ensures saved == {10} && |nowCached| == 1 && nowCached[0].organizationId == 11
  {
    var a := Organization(10, "A", "A", "10", "1");
    var c := Organization(11, "C", "C", "11", "10");
    var server := (k: int) => if k == RootKey then Ok([a]) else if k == 10 then Ok([c]) else Ok([]);
    ghost var rank := (k: int) => if k == RootKey then 2 else if k == 10 then 1 else 0;
    var chart := new OrganizationChart("1");
    chart.FetchSubOrganizations(RootKey, server(RootKey));
    ghost var c0 := map[RootKey := [a]];
    assert chart.cache == c0;
    assert Ranked(c0, rank);
    assert Descendants(c0, rank, 10) == {};
    assert Fetched({10}, server) == map[10 := [c]];
    chart.Select(a, true, server, rank);
    saved := chart.save;
    nowCached := chart.cache[10];
  }
}
