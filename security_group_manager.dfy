/**
 * The security-group manager: describe-before-create and describe-before-delete over the
 * provider's table of security groups, found by their tags.
 */
module SecurityGroupManager {
  import opened Wrappers
  import RID = ResourceIdentifier
  import opened Constants

  /** Provider-assigned group id; the provider hands out ids in increasing order. */
  type GroupId = nat

  /** A security group as the provider holds it; `ingress`/`egress` say whether the default rules are attached. */
  datatype Group = Group(name: string, description: string, vpcId: string, tags: map<string, string>,
                         ingress: bool, egress: bool)

  /** An environment is keyed by (project, pull request) or by (project, deployment name). */
  datatype EnvKey = PrKey(pid: string, pr: string) | DeploymentKey(pid: string, deployment: string)
  {
    /** The pull request number or the deployment name. */
    function Label(): string
    {
      if PrKey? then pr else deployment
    }
  }

  datatype SgError =
    | TypeError(message: string)        // a `throw new TypeError(...)` before any remote call
    | MissingArgument(message: string)  // a `throw new Error(...)` before any remote call
    | Conflict(message: string)         // rejectIfExists found a group
    | NotFound                          // no group carries the key's tags
    | RemoteError                       // a provider call failed

  /** Which provider calls fail during one operation. */
  datatype Faults = Faults(describe: bool, create: bool, tag: bool, ingress: bool, egress: bool, delete: bool)

  /** The tags a group created for `key` carries. */
  function KeyTags(key: EnvKey): map<string, string>
  {
    match key
    case PrKey(pid, pr) => map[ClusternatorTag := "true", ProjectTag := pid, PrTag := pr]
    case DeploymentKey(pid, d) => map[ClusternatorTag := "true", ProjectTag := pid, DeploymentTag := d]
  }

  /** The object literal given to generateRID for the group name: `{pid, pr}` or `{pid, deployment}`. */
  function KeySegments(key: EnvKey): seq<RID.Segment>
  {
    match key
    case PrKey(pid, pr) => [RID.Segment("pid", pid), RID.Segment("pr", pr)]
    case DeploymentKey(pid, d) => [RID.Segment("pid", pid), RID.Segment("deployment", d)]
  }

  function Description(key: EnvKey): string
  {
    match key
    case PrKey(pid, pr) => "Created by clusternator for " + pid + ", PR: " + pr
    case DeploymentKey(pid, d) => "Created by clusternator for " + pid + ", Deplyoment: " + d
  }

  /** The tag filter of describePr / describeDeployment, on top of the clusternator tag and the VPC filter. */
  predicate Matches(g: Group, vpcId: string, key: EnvKey)
  {
    && g.vpcId == vpcId
    && ClusternatorTag in g.tags && g.tags[ClusternatorTag] == "true"
    && ProjectTag in g.tags && g.tags[ProjectTag] == key.pid
    && (if key.PrKey? then PrTag in g.tags && g.tags[PrTag] == key.pr
        else DeploymentTag in g.tags && g.tags[DeploymentTag] == key.deployment)
  }

  /** A group tagged for one key is found by no other key's filter. */
  lemma KeyTagsMatchOnlyTheirKey(g: Group, vpcId: string, key: EnvKey, other: EnvKey)
    requires g.tags == KeyTags(key) && Matches(g, vpcId, other)
    ensures other == key
  {
  }

  /** The ids (below `bound`) of the groups a tag-filtered describe lists, in the provider's order. */
  function Describe(groups: map<GroupId, Group>, bound: nat, vpcId: string, key: EnvKey): (ids: seq<GroupId>)
  {
    if bound == 0 then []
    else
      Describe(groups, bound - 1, vpcId, key)
      + (if bound - 1 in groups && Matches(groups[bound - 1], vpcId, key) then [bound - 1] else [])
  }

  /** A describe lists exactly the groups that pass the key's filter ... */
  lemma {:induction false} DescribeMembers(groups: map<GroupId, Group>, bound: nat, vpcId: string, key: EnvKey)
    ensures forall id :: id in Describe(groups, bound, vpcId, key) <==>
      id < bound && id in groups && Matches(groups[id], vpcId, key)
  {
    if bound > 0 {
      DescribeMembers(groups, bound - 1, vpcId, key);
    }
  }

  predicate Sorted(ids: seq<GroupId>)
  {
    forall i, j :: 0 <= i < j < |ids| ==> ids[i] < ids[j]
  }

  /** ... each once, in increasing id order. */
  lemma {:induction false} DescribeSorted(groups: map<GroupId, Group>, bound: nat, vpcId: string, key: EnvKey)
    ensures Sorted(Describe(groups, bound, vpcId, key))
  {
    if bound > 0 {
      var prev := Describe(groups, bound - 1, vpcId, key);
      DescribeSorted(groups, bound - 1, vpcId, key);
      DescribeMembers(groups, bound - 1, vpcId, key);
      var tail := if bound - 1 in groups && Matches(groups[bound - 1], vpcId, key) then [bound - 1] else [];
      var ids := Describe(groups, bound, vpcId, key);
      assert ids == prev + tail;
      forall i, j | 0 <= i < j < |ids| ensures ids[i] < ids[j] {
        assert ids[i] == prev[i];
        if j < |prev| {
          assert ids[j] == prev[j];
        } else {
          assert ids[j] == bound - 1 && prev[i] in prev;
        }
      }
    }
  }

  lemma {:induction false} DescribeAgree(g1: map<GroupId, Group>, g2: map<GroupId, Group>, bound: nat,
                                         vpcId: string, key: EnvKey)
    requires forall id :: id < bound ==> (id in g1 <==> id in g2)
    requires forall id :: id < bound && id in g1 ==> g1[id] == g2[id]
    ensures Describe(g1, bound, vpcId, key) == Describe(g2, bound, vpcId, key)
  {
    if bound > 0 {
      DescribeAgree(g1, g2, bound - 1, vpcId, key);
    }
  }

  /** Adding a group with a fresh, larger id appends it to the listings whose filter it passes. */
  lemma DescribeAdd(groups: map<GroupId, Group>, n: nat, g: Group, vpcId: string, key: EnvKey)
    requires forall id :: id in groups ==> id < n
    ensures Describe(groups[n := g], n + 1, vpcId, key)
         == Describe(groups, n, vpcId, key) + (if Matches(g, vpcId, key) then [n] else [])
  {
    DescribeAgree(groups[n := g], groups, n, vpcId, key);
    assert Describe(groups[n := g], n + 1, vpcId, key)
        == Describe(groups[n := g], n, vpcId, key) + (if Matches(g, vpcId, key) then [n] else []);
  }

  /** A new group that only `key`'s filter can find keeps every listing at one group at most, when `key` had none. */
  lemma AddKeepsAtMostOne(groups: map<GroupId, Group>, n: nat, g: Group, vpcId: string, key: EnvKey, k: EnvKey)
    requires forall id :: id in groups ==> id < n
    requires |Describe(groups, n, vpcId, k)| <= 1 && Describe(groups, n, vpcId, key) == []
    requires Matches(g, vpcId, k) ==> k == key
    ensures |Describe(groups[n := g], n + 1, vpcId, k)| <= 1
  {
    DescribeAdd(groups, n, g, vpcId, k);
  }

  /** A newly created group is found by its own key's filter once tagged, and by no other key's filter. */
  lemma NewGroupMatchesOnlyItsKey(prefix: string, vpcId: string, key: EnvKey, faults: Faults, k: EnvKey)
    ensures Matches(NewGroup(prefix, vpcId, key, faults), vpcId, k) <==> !faults.tag && k == key
  {
    var g := NewGroup(prefix, vpcId, key, faults);
    if Matches(g, vpcId, k) {
      KeyTagsMatchOnlyTheirKey(g, vpcId, key, k);
    }
  }

  /** A second write to the same id replaces the first. */
  lemma Overwrite(m: map<GroupId, Group>, id: GroupId, a: Group, b: Group)
    ensures m[id := a][id := b] == m[id := b]
  {
  }

  /** The group createSecurityGroupPr / createSecurityGroupDeployment leave behind for `key`. */
  function NewGroup(prefix: string, vpcId: string, key: EnvKey, faults: Faults): Group
  {
    Group(RID.GenerateRID(prefix, KeySegments(key)), Description(key), vpcId,
          if faults.tag then map[] else KeyTags(key), !faults.ingress, !faults.egress)
  }

  /** `ids` without the element `d`. */
  function Without(ids: seq<GroupId>, d: GroupId): (r: seq<GroupId>)
    ensures forall id :: id in r <==> id in ids && id != d
  {
    if ids == [] then []
    else (if ids[0] == d then [] else [ids[0]]) + Without(ids[1..], d)
  }

  lemma {:induction false} DescribeRemove(groups: map<GroupId, Group>, bound: nat, d: GroupId, vpcId: string, key: EnvKey)
    ensures Describe(groups - {d}, bound, vpcId, key) == Without(Describe(groups, bound, vpcId, key), d)
  {
    if bound > 0 {
      var b := bound - 1;
      DescribeRemove(groups, b, d, vpcId, key);
      var tail := if b in groups && Matches(groups[b], vpcId, key) then [b] else [];
      var tail' := if b in groups - {d} && Matches((groups - {d})[b], vpcId, key) then [b] else [];
      assert Without(tail, d) == tail' by {
        if tail != [] { assert Without(tail, d) == (if b == d then [] else [b]) + Without([], d); }
      }
      WithoutAppend(Describe(groups, b, vpcId, key), tail, d);
    }
  }

  lemma {:induction false} WithoutAppend(a: seq<GroupId>, b: seq<GroupId>, d: GroupId)
    ensures Without(a + b, d) == Without(a, d) + Without(b, d)
  {
    if a == [] {
      assert a + b == b;
    } else {
      assert (a + b)[1..] == a[1..] + b;
      WithoutAppend(a[1..], b, d);
    }
  }

  lemma WithoutFirst(ids: seq<GroupId>)
    requires ids != []
    requires Sorted(ids)
    ensures Without(ids, ids[0]) == ids[1..]
  {
    WithoutAbsent(ids[1..], ids[0]);
  }

  lemma {:induction false} WithoutAbsent(ids: seq<GroupId>, d: GroupId)
    requires d !in ids
    ensures Without(ids, d) == ids
  {
    if ids != [] {
      WithoutAbsent(ids[1..], d);
    }
  }

  /**
   * The provider's table of security groups as seen by one manager, which is bound to one VPC.
   * `ingressRuleGroup` and `egressRuleGroup` are the GroupId fields of the shared default-rule
   * skeletons, which defaultInOutRules overwrites in place.
   */
  class SecurityGroupManager {
    const vpcId: string
    const prefix: string
    var groups: map<GroupId, Group>
    var nextId: GroupId
    var ingressRuleGroup: Option<GroupId>
    var egressRuleGroup: Option<GroupId>

    ghost predicate Valid()
      reads this
    {
      forall id :: id in groups ==> id < nextId
    }

    /** The groups describePr / describeDeployment list for `key`. */
    function Matching(key: EnvKey): seq<GroupId>
      reads this
    {
      Describe(groups, nextId, vpcId, key)
    }

    /**
     * At most one group carries any key's tags: a pull request's create refuses a second group,
     * and a deployment's create reuses the group it finds.
     */
    ghost predicate Unique()
      reads this
    {
      forall key: EnvKey :: |Describe(groups, nextId, vpcId, key)| <= 1
    }

    constructor (vpcId: string, prefix: string, existing: map<GroupId, Group>, next: GroupId)
      requires forall id :: id in existing ==> id < next
      ensures Valid()
      ensures this.vpcId == vpcId && this.prefix == prefix && groups == existing && nextId == next
      ensures ingressRuleGroup == None && egressRuleGroup == None
    {
      this.vpcId := vpcId;
      this.prefix := prefix;
      groups := existing;
      nextId := next;
      ingressRuleGroup := None;
      egressRuleGroup := None;
    }

    /**
     * defaultInOutRules: writes the id into both rule skeletons, asks for both rules, and
     * yields the id whether or not the rules could be attached.
     */
    method DefaultInOutRules(groupId: GroupId, faults: Faults) returns (id: GroupId)
      requires Valid()
      modifies this
      ensures Valid()
      ensures id == groupId
      ensures ingressRuleGroup == Some(groupId) && egressRuleGroup == Some(groupId)
      ensures nextId == old(nextId)
      ensures groupId !in old(groups) ==> groups == old(groups)
      ensures groupId in old(groups) ==>
        groups == old(groups)[groupId := old(groups)[groupId].(
          ingress := old(groups)[groupId].ingress || !faults.ingress,
          egress := old(groups)[groupId].egress || !faults.egress)]
    {
      ingressRuleGroup := Some(groupId);
      egressRuleGroup := Some(groupId);
      if groupId in groups && !faults.ingress {
        groups := groups[groupId := groups[groupId].(ingress := true)];
      }
      if groupId in groups && !faults.egress {
        groups := groups[groupId := groups[groupId].(egress := true)];
      }
      id := groupId;
    }

    /** What createSecurityGroupPr / createSecurityGroupDeployment do to the table and return. */
    twostate predicate CreatedGroup(key: EnvKey, faults: Faults, new r: Result<GroupId, SgError>)
      reads this
    {
      if faults.create then
        && r == Err(RemoteError)
        && groups == old(groups) && nextId == old(nextId)
        && ingressRuleGroup == old(ingressRuleGroup) && egressRuleGroup == old(egressRuleGroup)
      else
        && groups == old(groups)[old(nextId) := NewGroup(prefix, vpcId, key, faults)]
        && nextId == old(nextId) + 1
        && ingressRuleGroup == Some(old(nextId)) && egressRuleGroup == Some(old(nextId))
        && r == (if faults.tag then Err(RemoteError) else Ok(old(nextId)))
    }

    /**
     * createSecurityGroupPr and createSecurityGroupDeployment: create the group named by the RID
     * of the key in this VPC, then tag it and attach the default rules; a tagging failure
     * rejects (leaving an untagged group), a rule failure is swallowed.
     */
    method CreateSecurityGroup(key: EnvKey, faults: Faults) returns (r: Result<GroupId, SgError>)
      requires Valid()
      modifies this
      ensures Valid()
      ensures CreatedGroup(key, faults, r)
    {
      if faults.create {
        return Err(RemoteError);
      }
      ghost var before := groups;
      var id := nextId;
      var name := RID.GenerateRID(prefix, KeySegments(key));
      var created := Group(name, Description(key), vpcId, map[], false, false);
      groups := groups[id := created];
      nextId := nextId + 1;
      ghost var tagged := created;
      if !faults.tag {
        tagged := created.(tags := KeyTags(key));
        Overwrite(before, id, created, tagged);
        groups := groups[id := groups[id].(tags := KeyTags(key))];
      }
      var _ := DefaultInOutRules(id, faults);
      Overwrite(before, id, tagged, NewGroup(prefix, vpcId, key, faults));
      r := if faults.tag then Err(RemoteError) else Ok(id);
    }

    /** Creating a group leaves every key's listing as it was, except that its own key's listing gains the group when it was tagged. */
    lemma CreatePreservesUnique(key: EnvKey, faults: Faults, before: map<GroupId, Group>, n: nat,
                                after: map<GroupId, Group>, bound: nat)
      requires forall id :: id in before ==> id < n
      requires forall k: EnvKey :: |Describe(before, n, vpcId, k)| <= 1
      requires Describe(before, n, vpcId, key) == []
      requires after == before[n := NewGroup(prefix, vpcId, key, faults)] && bound == n + 1
      ensures forall k: EnvKey :: |Describe(after, bound, vpcId, k)| <= 1
      ensures !faults.tag ==> Describe(after, bound, vpcId, key) == [n]
    {
      var g := NewGroup(prefix, vpcId, key, faults);
      forall k: EnvKey ensures |Describe(after, bound, vpcId, k)| <= 1 {
        NewGroupMatchesOnlyItsKey(prefix, vpcId, key, faults, k);
        AddKeepsAtMostOne(before, n, g, vpcId, key, k);
      }
      NewGroupMatchesOnlyItsKey(prefix, vpcId, key, faults, key);
      DescribeAdd(before, n, g, vpcId, key);
    }

    /** The listings after creating a group for a key that had none: the key's own listing, and uniqueness kept. */
    lemma CreateListing(key: EnvKey, faults: Faults, before: map<GroupId, Group>, n: nat,
                        after: map<GroupId, Group>, bound: nat)
      requires forall id :: id in before ==> id < n
      requires Describe(before, n, vpcId, key) == []
      requires after == before[n := NewGroup(prefix, vpcId, key, faults)] && bound == n + 1
      ensures !faults.tag ==> Describe(after, bound, vpcId, key) == [n]
      ensures (forall k: EnvKey :: |Describe(before, n, vpcId, k)| <= 1) ==>
        forall k: EnvKey :: |Describe(after, bound, vpcId, k)| <= 1
    {
      if forall k: EnvKey :: |Describe(before, n, vpcId, k)| <= 1 {
        CreatePreservesUnique(key, faults, before, n, after, bound);
      } else {
        NewGroupMatchesOnlyItsKey(prefix, vpcId, key, faults, key);
        DescribeAdd(before, n, NewGroup(prefix, vpcId, key, faults), vpcId, key);
      }
    }

    /** rejectIfExists: fails when describePr lists any group for (pid, pr). */
    method RejectIfExists(pid: string, pr: string, describeFails: bool) returns (r: Result<(), SgError>)
      ensures describeFails ==> r == Err(RemoteError)
      ensures !describeFails ==> (r.Ok? <==> Matching(PrKey(pid, pr)) == [])
      ensures !describeFails && r.Err? ==> r.error.Conflict?
    {
      if describeFails {
        return Err(RemoteError);
      }
      var list := Matching(PrKey(pid, pr));
      if |list| > 0 {
        return Err(Conflict("SecurityGroup Exists For Project: " + pid + " PR: " + pr));
      }
      r := Ok(());
    }

    /**
     * createPr: a TypeError on a missing argument; a Conflict, creating nothing, when a group
     * for (pid, pr) exists; otherwise one new group, whose id it returns.
     */
    method CreatePr(pid: string, pr: string, faults: Faults) returns (r: Result<GroupId, SgError>)
      requires Valid()
      modifies this
      ensures Valid()
      ensures pid == "" || pr == "" ==> r.Err? && r.error.TypeError? && unchanged(this)
      ensures pid != "" && pr != "" && faults.describe ==> r == Err(RemoteError) && unchanged(this)
      ensures pid != "" && pr != "" && !faults.describe && old(Matching(PrKey(pid, pr))) != [] ==>
        r.Err? && r.error.Conflict? && unchanged(this)
      ensures pid != "" && pr != "" && !faults.describe && old(Matching(PrKey(pid, pr))) == [] ==>
        CreatedGroup(PrKey(pid, pr), faults, r)
      ensures r.Ok? ==> Matching(PrKey(pid, pr)) == [r.value]
      ensures old(Unique()) ==> Unique()
    {
      if pid == "" || pr == "" {
        r := Err(TypeError("Create SecurityGroup requires a projectId, and pull request #"));
      } else {
        var check := RejectIfExists(pid, pr, faults.describe);
        if check.Err? {
          r := Err(check.error);
        } else {
          ghost var before, n := groups, nextId;
          r := CreateSecurityGroup(PrKey(pid, pr), faults);
          if !faults.create {
            CreateListing(PrKey(pid, pr), faults, before, n, groups, nextId);
          }
        }
      }
    }

    /**
     * createDeployment: an upsert. The first group tagged for (pid, deployment) is returned and
     * nothing is created; without one, one group is created and tagged.
     */
    method CreateDeployment(pid: string, deployment: string, faults: Faults) returns (r: Result<GroupId, SgError>)
      requires Valid()
      modifies this
      ensures Valid()
      ensures pid == "" || deployment == "" ==> r.Err? && r.error.TypeError? && unchanged(this)
      ensures pid != "" && deployment != "" && faults.describe ==> r == Err(RemoteError) && unchanged(this)
      ensures pid != "" && deployment != "" && !faults.describe && old(Matching(DeploymentKey(pid, deployment))) != [] ==>
        r == Ok(old(Matching(DeploymentKey(pid, deployment)))[0]) && unchanged(this)
      ensures pid != "" && deployment != "" && !faults.describe && old(Matching(DeploymentKey(pid, deployment))) == [] ==>
        CreatedGroup(DeploymentKey(pid, deployment), faults, r)
      ensures r.Ok? ==> (Matching(DeploymentKey(pid, deployment)) != []
                         && Matching(DeploymentKey(pid, deployment))[0] == r.value)
      ensures old(Unique()) ==> Unique()
    {
      if pid == "" || deployment == "" {
        r := Err(TypeError("Create SecurityGroup requires a projectId, and a deployment label"));
      } else if faults.describe {
        r := Err(RemoteError);
      } else {
        var key := DeploymentKey(pid, deployment);
        var list := Matching(key);
        if |list| > 0 {
          r := Ok(list[0]);
        } else {
          ghost var before, n := groups, nextId;
          r := CreateSecurityGroup(key, faults);
          if !faults.create {
            CreateListing(key, faults, before, n, groups, nextId);
          }
        }
      }
    }

    /**
     * destroyPr and destroyDeployment: an Error on a missing argument, NotFound when no group
     * carries the key's tags, otherwise the deletion of the first group listed, and of no other.
     */
    method Destroy(key: EnvKey, faults: Faults) returns (r: Result<(), SgError>)
      requires Valid()
      modifies this
      ensures Valid()
      ensures key.pid == "" || key.Label() == "" ==> r.Err? && r.error.MissingArgument? && unchanged(this)
      ensures key.pid != "" && key.Label() != "" && faults.describe ==> r == Err(RemoteError) && unchanged(this)
      ensures key.pid != "" && key.Label() != "" && !faults.describe && old(Matching(key)) == [] ==>
        r == Err(NotFound) && unchanged(this)
      ensures key.pid != "" && key.Label() != "" && !faults.describe && old(Matching(key)) != [] ==>
        (if faults.delete then r == Err(RemoteError) && unchanged(this)
         else (&& r == Ok(())
               && groups == old(groups) - {old(Matching(key))[0]}
               && nextId == old(nextId) && ingressRuleGroup == old(ingressRuleGroup)
               && egressRuleGroup == old(egressRuleGroup)))
      ensures r.Ok? ==> Matching(key) == old(Matching(key))[1..]
      ensures old(Unique()) ==> Unique()
    {
      if key.pid == "" || key.Label() == "" {
        var message := if key.PrKey? then "Destroy SecurityGroups requires a projectId, and a pull request #"
                       else "Destroy SecurityGroups requires a projectId, and a deployment label";
        return Err(MissingArgument(message));
      }
      if faults.describe {
        return Err(RemoteError);
      }
      var list := Matching(key);
      if |list| == 0 {
        return Err(NotFound);
      }
      if faults.delete {
        return Err(RemoteError);
      }
      var d := list[0];
      groups := groups - {d};
      r := Ok(());
      DescribeRemove(old(groups), nextId, d, vpcId, key);
      DescribeSorted(old(groups), nextId, vpcId, key);
      WithoutFirst(list);
      if old(Unique()) {
        forall k: EnvKey ensures |Describe(groups, nextId, vpcId, k)| <= 1 {
          DescribeRemove(old(groups), nextId, d, vpcId, k);
          WithoutShorter(Describe(old(groups), nextId, vpcId, k), d);
        }
      }
    }
  }

  lemma {:induction false} WithoutShorter(ids: seq<GroupId>, d: GroupId)
    ensures |Without(ids, d)| <= |ids|
  {
    if ids != [] {
      WithoutShorter(ids[1..], d);
    }
  }

  /**
   * Two createDeployment calls for one key return the same group, and together they create at
   * most that one group: the second call finds the first call's group and changes nothing.
   */
  method CreateDeploymentTwice(m: SecurityGroupManager, pid: string, deployment: string, first: Faults, second: Faults)
    returns (a: Result<GroupId, SgError>, b: Result<GroupId, SgError>)
    requires m.Valid()
    modifies m
    ensures a.Ok? && !second.describe ==> b == a
    ensures a.Ok? && !second.describe ==> m.nextId <= old(m.nextId) + 1
    ensures a.Ok? && !second.describe ==> forall id :: id in m.groups ==> id in old(m.groups) || id == a.value
  {
    a := m.CreateDeployment(pid, deployment, first);
    b := m.CreateDeployment(pid, deployment, second);
  }

  /** A second createPr for the same pull request is rejected with a Conflict and creates nothing. */
  method CreatePrTwice(m: SecurityGroupManager, pid: string, pr: string, first: Faults, second: Faults)
    returns (a: Result<GroupId, SgError>, b: Result<GroupId, SgError>)
    requires m.Valid()
    modifies m
    ensures a.Ok? && !second.describe ==> b.Err? && b.error.Conflict?
    ensures a.Ok? && !second.describe ==> m.nextId == old(m.nextId) + 1
  {
    a := m.CreatePr(pid, pr, first);
    b := m.CreatePr(pid, pr, second);
  }
}
