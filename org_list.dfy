/** The flat organization list: a checkbox per organization collects a selection of
    organization codes, and the delete button posts one delete per selected code,
    in order, then reloads the list. */
module OrganizationListing {

  import opened Remote

  datatype Organization = Organization(oCode: string, fullName: string, employeeCount: nat)

  /** `filter(code => code !== removed)`: every occurrence goes, the rest keep their order. */
  function RemoveAll(codes: seq<string>, removed: string): (r: seq<string>)
    ensures removed !in r
    ensures forall c :: c in r <==> c in codes && c != removed
    ensures |r| <= |codes|
  {
    if codes == [] then []
    else if codes[0] == removed then RemoveAll(codes[1..], removed)
    else [codes[0]] + RemoveAll(codes[1..], removed)
  }

  /** Filtering a concatenation filters each part. */
  lemma {:induction false} RemoveAllAppend(front: seq<string>, back: seq<string>, removed: string)
    ensures RemoveAll(front + back, removed) == RemoveAll(front, removed) + RemoveAll(back, removed)
  {
    if front == [] {
      assert front + back == back;
    } else {
      var rest := front[1..];
      assert (front + back)[0] == front[0];
      assert (front + back)[1..] == rest + back;
      RemoveAllAppend(rest, back, removed);
      if front[0] != removed {
        calc {
          RemoveAll(front + back, removed);
          [front[0]] + RemoveAll(rest + back, removed);
          [front[0]] + (RemoveAll(rest, removed) + RemoveAll(back, removed));
          ([front[0]] + RemoveAll(rest, removed)) + RemoveAll(back, removed);
        }
      }
    }
  }

  /** Filtering out a code the selection does not hold changes nothing. */
  lemma {:induction false} RemoveAllAbsent(codes: seq<string>, removed: string)
    requires removed !in codes
    ensures RemoveAll(codes, removed) == codes
  {
    if codes != [] {
      RemoveAllAbsent(codes[1..], removed);
      assert codes == [codes[0]] + codes[1..];
    }
  }

  /** Checking a box and unchecking it again restores the selection when the code
      was not selected before; checking it twice appends it twice, and a single
      uncheck still removes both. */
  lemma CheckThenUncheck(selection: seq<string>, code: string)
    ensures RemoveAll(selection + [code], code) == RemoveAll(selection, code)
    ensures RemoveAll(selection + [code] + [code], code) == RemoveAll(selection, code)
    ensures code !in selection ==> RemoveAll(selection + [code], code) == selection
  {
    RemoveAllAppend(selection, [code], code);
    RemoveAllAppend(selection + [code], [code], code);
    assert RemoveAll([code], code) == [];
    if code !in selection {
      RemoveAllAbsent(selection, code);
    }
  }

  /** Unchecking one code keeps the other selected codes in their order. */
  lemma {:induction false} UncheckKeepsOrder(selection: seq<string>, code: string, i: nat, j: nat)
    requires i < j < |selection|
    requires selection[i] != code && selection[j] != code
    ensures exists k, l :: (0 <= k < l < |RemoveAll(selection, code)|
      && RemoveAll(selection, code)[k] == selection[i] && RemoveAll(selection, code)[l] == selection[j])
  {
    var front := selection[..j];
    var back := selection[j..];
    assert selection == front + back;
    RemoveAllAppend(front, back, code);
    assert selection[i] in RemoveAll(front, code) by { assert selection[i] == front[i]; }
    var k :| 0 <= k < |RemoveAll(front, code)| && RemoveAll(front, code)[k] == selection[i];
    assert back == [selection[j]] + back[1..];
    assert RemoveAll(back, code) == [selection[j]] + RemoveAll(back[1..], code);
    var l := |RemoveAll(front, code)|;
    assert RemoveAll(selection, code)[k] == selection[i];
    assert RemoveAll(selection, code)[l] == selection[j];
  }

  class OrganizationList {
    var organizations: seq<Organization>
    var selectedOrgs: seq<string>

    constructor ()
      ensures organizations == [] && selectedOrgs == []
    {
      organizations := [];
      selectedOrgs := [];
    }

    /** `fetchOrganizations`: the reply replaces the list; a failed load keeps it. */
    method FetchOrganizations(reply: Response<seq<Organization>>)
      modifies this
      ensures organizations == if reply.Ok? then reply.value else old(organizations)
      ensures selectedOrgs == old(selectedOrgs)
    {
      if reply.Ok? {
        organizations := reply.value;
      }
    }

    /** The `checked` state of an organization's box. */
    predicate IsChecked(code: string)
      reads this
    {
      code in selectedOrgs
    }

    /** A checkbox's `onChange`: checking appends the code, without looking for an
        earlier copy; unchecking removes every copy. */
    method OnChange(code: string, targetChecked: bool)
      modifies this
      ensures selectedOrgs == if targetChecked then old(selectedOrgs) + [code] else RemoveAll(old(selectedOrgs), code)
      ensures IsChecked(code) == targetChecked
      ensures forall other :: other != code ==> (IsChecked(other) <==> old(IsChecked(other)))
      ensures organizations == old(organizations)
    {
      if targetChecked {
        selectedOrgs := selectedOrgs + [code];
      } else {
        selectedOrgs := RemoveAll(selectedOrgs, code);
      }
    }

    /** `handleDelete`: one delete request per selected code, awaited in order. A
        request that rejects (a network failure; an HTTP error status does not
        reject) ends the handler, so the later codes are not deleted and the list is
        not reloaded. `rejected` holds the positions in the selection whose request
        rejects. The selection itself is left as it was. */
    method HandleDelete(rejected: set<nat>, refetchReply: Response<seq<Organization>>)
      returns (issued: seq<string>, refetched: bool)
      modifies this
      ensures |issued| <= |old(selectedOrgs)| && issued == old(selectedOrgs)[..|issued|]
      ensures forall i :: 0 <= i < |issued| - 1 ==> i !in rejected
      ensures refetched <==> forall i :: 0 <= i < |old(selectedOrgs)| ==> i !in rejected
      ensures refetched ==> issued == old(selectedOrgs)
      ensures !refetched ==> |issued| > 0 && |issued| - 1 in rejected
      ensures organizations == if refetched && refetchReply.Ok? then refetchReply.value else old(organizations)
      ensures selectedOrgs == old(selectedOrgs)
    {
      issued := [];
      var i := 0;
      var stopped := false;
      while i < |selectedOrgs| && !stopped
        invariant 0 <= i <= |selectedOrgs|
        invariant issued == selectedOrgs[..i]
        invariant stopped ==> i > 0 && i - 1 in rejected
        invariant forall j :: 0 <= j < (if stopped then i - 1 else i) ==> j !in rejected
      {
        issued := issued + [selectedOrgs[i]];
        if i in rejected {
          stopped := true;
        }
        i := i + 1;
      }
      refetched := !stopped;
      if refetched {
        FetchOrganizations(refetchReply);
      }
    }
  }

  /** Checking the same box twice and unchecking it once leaves it unchecked, and
      deleting with every request accepted posts the selection in order and reloads. */
  method SelectionWalkThrough(a: string, b: string, reloaded: seq<Organization>)
    returns (checkedAfterDoubleCheck: bool, checkedAfterUncheck: bool, issued: seq<string>, refetched: bool, shown: seq<Organization>)
    requires a != b
    ensures checkedAfterDoubleCheck && !checkedAfterUncheck
    ensures issued == [b] && refetched && shown == reloaded
  {
    var page := new OrganizationList();
    page.OnChange(a, true);
    page.OnChange(b, true);
    page.OnChange(a, true);
    checkedAfterDoubleCheck := page.IsChecked(a);
    assert page.selectedOrgs == [a, b, a];
    page.OnChange(a, false);
    checkedAfterUncheck := page.IsChecked(a);
    assert page.selectedOrgs == [b] by {
      assert RemoveAll([a, b, a], a) == RemoveAll([b, a], a);
      assert RemoveAll([b, a], a) == [b] + RemoveAll([a], a);
    }
    issued, refetched := page.HandleDelete({}, Ok(reloaded));
    shown := page.organizations;
  }
}
