/**
 * Listing the groups of a bridge (group_list.go). The decoded response maps each group's key to
 * its record; the listing copies each record, stamps it with its key and the bridge, and appends
 * it. Go visits a map in no fixed order, so the loop takes the keys in an arbitrary order.
 */
module GroupList {
  import opened Wrappers
  import opened HueBridge
  import opened Listing

  /** Group (group_list.go, lines 8-16): a group of lights as the bridge describes it. */
  datatype Group = Group(
    id: string,
    name: string,
    groupType: string,
    groupClass: string,
    lights: seq<string>,
    bridge: Bridge?)

  /** The identifier of a group: the key it is listed under. */
  function GroupId(g: Group): string {
    g.id
  }

  /**
   * What GetAllGroups returns for a decoded map: one group per entry, the entry's record with its
   * identifier replaced by the key and the bridge it was fetched from attached.
   */
  predicate AllGroupsListed(m: map<string, Group>, b: Bridge, groups: seq<Group>) {
    multiset(Project(groups, GroupId)) == multiset(m.Keys) && GroupEntries(m, b, groups)
  }

  /** Each group is the record of an entry, stamped with the entry's key and the bridge. */
  predicate GroupEntries(m: map<string, Group>, b: Bridge, groups: seq<Group>) {
    forall i :: 0 <= i < |groups| ==> groups[i].id in m && groups[i] == m[groups[i].id].(id := groups[i].id, bridge := b)
  }

  /** Appending the stamped record of an entry keeps GroupEntries. */
  lemma GroupEntriesStep(m: map<string, Group>, b: Bridge, groups: seq<Group>, id: string)
    requires GroupEntries(m, b, groups) && id in m
    ensures GroupEntries(m, b, groups + [m[id].(id := id, bridge := b)])
  {
  }

  /**
   * GetAllGroups: GET /groups, then each decoded record, copied, gets its key as identifier and
   * the bridge attached; a failed call is passed on. Each iteration appends its own copy.
   */
  method GetAllGroups(b: Bridge, fetch: Transport<map<string, Group>>) returns (r: Result<seq<Group>, Error>)
    ensures var resp := fetch(b.RequestTo(Get, "/groups", None));
            && (resp.Failure? ==> r == Failure(resp.error))
            && (resp.Success? ==> r.Success? && AllGroupsListed(resp.value, b, r.value))
  {
    var resp := fetch(b.RequestTo(Get, "/groups", None));
    if resp.Failure? {
      return Failure(resp.error);
    }
    var m := resp.value;
    var groups: seq<Group> := [];
    var rest := m.Keys;
    while rest != {}
      invariant rest <= m.Keys
      invariant multiset(Project(groups, GroupId)) + multiset(rest) == multiset(m.Keys)
      invariant GroupEntries(m, b, groups)
      decreases |rest|
    {
      var id :| id in rest;
      var group := m[id];
      group := group.(id := id);
      group := group.(bridge := b);
      MoveKey(groups, group, GroupId, rest);
      GroupEntriesStep(m, b, groups, id);
      groups := groups + [group];
      rest := rest - {id};
    }
    return Success(groups);
  }

  /**
   * Each entry is listed exactly once, with the name, type, class and member lights it was
   * decoded with, so there are as many groups as entries.
   */
  lemma AllGroupsListedOnce(m: map<string, Group>, b: Bridge, groups: seq<Group>)
    requires AllGroupsListed(m, b, groups)
    ensures |groups| == |m|
    ensures forall id :: id in m ==> multiset(Project(groups, GroupId))[id] == 1
    ensures forall id :: id in m ==> exists i :: 0 <= i < |groups| && groups[i].id == id
    ensures forall i :: 0 <= i < |groups| ==>
              && groups[i].bridge == b
              && groups[i].name == m[groups[i].id].name && groups[i].groupType == m[groups[i].id].groupType
              && groups[i].groupClass == m[groups[i].id].groupClass && groups[i].lights == m[groups[i].id].lights
  {
    ListedOnce(groups, GroupId, m.Keys);
    assert |m.Keys| == |m|;
  }

  /** Group "0", the group of all lights, is listed whenever the bridge reports it: nothing filters it. */
  lemma GroupZeroListed(m: map<string, Group>, b: Bridge, groups: seq<Group>)
    requires AllGroupsListed(m, b, groups) && "0" in m
    ensures exists i :: 0 <= i < |groups| && groups[i] == m["0"].(id := "0", bridge := b)
  {
    AllGroupsListedOnce(m, b, groups);
  }
}
