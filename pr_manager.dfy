/**
 * The pull-request lifecycle: the ordered requests that create and destroy the environment of one
 * pull request (security group, ECS cluster, EC2 instance, task services, Route53 record).
 * The managers behind the requests are abstract; each request may succeed or fail.
 */
module PrManager {
  import opened Wrappers
  import RID = ResourceIdentifier
  import opened Tasks

  /** A request to one of the resource managers. */
  datatype Call =
    | DescribeSubnets
    | CreateSecurityGroup(pid: string, pr: string)
    | CreateCluster(clusterName: string)
    | CreateInstance(clusterName: string, pid: string, pr: string, groupId: string, subnetId: string)
    | CreateTasks(clusterName: string, serviceName: string, appDef: AppDef)
    | CreateRecord(pid: string, pr: string)
    | DestroyRecord(pid: string, pr: string)
    | ListContainers(clusterName: string)
    | Deregister(containerArn: string)
    | DestroyInstance(pid: string, pr: string)
    | DestroyTasks(clusterName: string)
    | DestroyCluster(pid: string, pr: string)
    | DestroySecurityGroup(pid: string, pr: string)

  /**
   * What the managers answer: the subnets of the VPC, the id of the group the security-group
   * manager creates, the container instances listed for the cluster, and which requests fail.
   */
  datatype World = World(subnets: seq<string>, groupId: string, containers: seq<string>, failing: set<Call>)

  datatype PrError =
    | NoSubnet(message: string)
    | MissingClusterName(message: string)
    | ReferenceError   // reading a variable that is not declared
    | RemoteError      // a manager's request failed

  /** The environment's name: the RID of `{pid, pr}`; it names the cluster and its service. */
  function ClusterName(prefix: string, pid: string, pr: string): string
  {
    RID.GenerateRID(prefix, [RID.Segment("pid", pid), RID.Segment("pr", pr)])
  }

  /** The name always holds the two segments, so it is never empty (destroyEc2's guard never fires from destroy). */
  lemma ClusterNameNotEmpty(prefix: string, pid: string, pr: string)
    ensures ClusterName(prefix, pid, pr) != ""
  {
    var params := [RID.Segment("pid", pid), RID.Segment("pr", pr)];
    RID.WhitelistedMembers(params);
    assert RID.IsValidType("pr") by {
      assert RID.ValidIdTypes[0] == "pr";
    }
    assert params[1] in RID.Whitelisted(params);
  }

  function NoSubnetMessage(pid: string, pr: string): string
  {
    "Create Pull Request failed, no subnet found for Project: " + pid + " PulL Request # " + pr
  }

  const ClusterNameMessage: string := "destroyEc2: requires valid clusterName"

  // ---------------------------------------------------------------- staged runs

  /**
   * A group of requests sent together (one `Q.all`, or a single request). A failure in a hard
   * stage rejects the chain; a soft stage's failures are caught and logged.
   */
  datatype Stage = Stage(calls: seq<Call>, soft: bool)

  function Flatten(stages: seq<Stage>): seq<Call>
  {
    if stages == [] then [] else stages[0].calls + Flatten(stages[1..])
  }

  predicate AnyFails(calls: seq<Call>, failing: set<Call>)
  {
    exists i :: 0 <= i < |calls| && calls[i] in failing
  }

  /** The requests a promise chain over `stages` sends, and whether it resolves. */
  function Run(stages: seq<Stage>, failing: set<Call>): (r: (seq<Call>, bool))
  {
    if stages == [] then ([], true)
    else if !stages[0].soft && AnyFails(stages[0].calls, failing) then (stages[0].calls, false)
    else
      var rest := Run(stages[1..], failing);
      (stages[0].calls + rest.0, rest.1)
  }

  predicate StageFails(s: Stage, failing: set<Call>)
  {
    !s.soft && AnyFails(s.calls, failing)
  }

  lemma AnyFailsOne(a: Call, failing: set<Call>)
    ensures AnyFails([a], failing) <==> a in failing
  {
    if a in failing {
      assert [a][0] in failing;
    }
  }

  lemma AnyFailsTwo(a: Call, b: Call, failing: set<Call>)
    ensures AnyFails([a, b], failing) <==> a in failing || b in failing
  {
    if a in failing {
      assert [a, b][0] in failing;
    }
    if b in failing {
      assert [a, b][1] in failing;
    }
  }

  /** The first stage whose failure rejects the chain, or |stages| when there is none. */
  function FirstFailure(stages: seq<Stage>, failing: set<Call>): (k: nat)
    ensures k <= |stages|
    ensures forall i :: 0 <= i < k ==> !StageFails(stages[i], failing)
    ensures k < |stages| ==> StageFails(stages[k], failing)
  {
    if stages == [] then 0
    else if StageFails(stages[0], failing) then 0
    else 1 + FirstFailure(stages[1..], failing)
  }

  lemma FlattenCons(s: Stage, rest: seq<Stage>)
    ensures Flatten([s] + rest) == s.calls + Flatten(rest)
  {
    assert ([s] + rest)[1..] == rest;
  }

  lemma RunCons(s: Stage, rest: seq<Stage>, failing: set<Call>)
    ensures Run([s] + rest, failing) ==
      (if StageFails(s, failing) then (s.calls, false)
       else (s.calls + Run(rest, failing).0, Run(rest, failing).1))
  {
    assert ([s] + rest)[1..] == rest;
  }

  /**
   * A run sends every stage up to and including the first failing hard stage, and no later one;
   * it resolves exactly when no hard stage fails.
   */
  lemma {:induction false} RunUpTo(stages: seq<Stage>, failing: set<Call>)
    ensures var k := FirstFailure(stages, failing);
      Run(stages, failing) == (Flatten(stages[..if k < |stages| then k + 1 else k]), k == |stages|)
  {
    if stages != [] {
      var k := FirstFailure(stages, failing);
      var n := if k < |stages| then k + 1 else k;
      assert stages[..n] == [stages[0]] + stages[1..][..n - 1];
      FlattenCons(stages[0], stages[1..][..n - 1]);
      if StageFails(stages[0], failing) {
        assert stages[1..][..n - 1] == [];
        assert stages[0].calls + [] == stages[0].calls;
      } else {
        RunUpTo(stages[1..], failing);
        assert FirstFailure(stages[1..], failing) == k - 1;
      }
    }
  }

  lemma {:induction false} FlattenAppend(a: seq<Stage>, b: seq<Stage>)
    ensures Flatten(a + b) == Flatten(a) + Flatten(b)
  {
    if a == [] {
      assert a + b == b;
    } else {
      assert (a + b)[1..] == a[1..] + b;
      FlattenAppend(a[1..], b);
    }
  }

  /** Chaining two runs: the second starts only when the first resolves. */
  lemma {:induction false} RunAppend(a: seq<Stage>, b: seq<Stage>, failing: set<Call>)
    ensures Run(a + b, failing) ==
      (if Run(a, failing).1 then (Run(a, failing).0 + Run(b, failing).0, Run(b, failing).1) else Run(a, failing))
  {
    if a == [] {
      assert a + b == b;
      assert [] + Run(b, failing).0 == Run(b, failing).0;
    } else {
      assert a + b == [a[0]] + (a[1..] + b);
      assert a == [a[0]] + a[1..];
      RunCons(a[0], a[1..] + b, failing);
      RunCons(a[0], a[1..], failing);
      RunAppend(a[1..], b, failing);
      if !StageFails(a[0], failing) && Run(a[1..], failing).1 {
        assert a[0].calls + (Run(a[1..], failing).0 + Run(b, failing).0)
            == (a[0].calls + Run(a[1..], failing).0) + Run(b, failing).0;
      }
    }
  }

  // ---------------------------------------------------------------- create

  /** createCluster's chain: group and cluster together, then the instance, the task services, the record. */
  function CreateStages(clusterName: string, pid: string, pr: string, appDef: AppDef, groupId: string, subnetId: string)
    : seq<Stage>
  {
    [Stage([CreateSecurityGroup(pid, pr), CreateCluster(clusterName)], false),
     Stage([CreateInstance(clusterName, pid, pr, groupId, subnetId)], false),
     Stage([CreateTasks(clusterName, clusterName, appDef)], false),
     Stage([CreateRecord(pid, pr)], false)]
  }

  function CreateOutcome(clusterName: string, pid: string, pr: string, appDef: AppDef, groupId: string, subnetId: string,
                         failing: set<Call>): (seq<Call>, bool)
  {
    var group, cluster := CreateSecurityGroup(pid, pr), CreateCluster(clusterName);
    var instance := CreateInstance(clusterName, pid, pr, groupId, subnetId);
    var tasks, record := CreateTasks(clusterName, clusterName, appDef), CreateRecord(pid, pr);
    if group in failing || cluster in failing then ([group, cluster], false)
    else if instance in failing then ([group, cluster, instance], false)
    else if tasks in failing then ([group, cluster, instance, tasks], false)
    else ([group, cluster, instance, tasks, record], record !in failing)
  }

  /**
   * The create chain in full: the group and the cluster are both requested; the instance only
   * when neither failed; the task services only when the instance succeeded; the record only
   * when the task services succeeded; it resolves exactly when every request succeeded.
   */
  lemma CreateSequence(clusterName: string, pid: string, pr: string, appDef: AppDef, groupId: string, subnetId: string,
                       failing: set<Call>)
    ensures Run(CreateStages(clusterName, pid, pr, appDef, groupId, subnetId), failing) ==
      CreateOutcome(clusterName, pid, pr, appDef, groupId, subnetId, failing)
  {
    var stages := CreateStages(clusterName, pid, pr, appDef, groupId, subnetId);
    var group, cluster := CreateSecurityGroup(pid, pr), CreateCluster(clusterName);
    var instance := CreateInstance(clusterName, pid, pr, groupId, subnetId);
    var tasks, record := CreateTasks(clusterName, clusterName, appDef), CreateRecord(pid, pr);
    var s0, s1, s2, s3 := stages[0], stages[1], stages[2], stages[3];
    AnyFailsTwo(group, cluster, failing);
    AnyFailsOne(instance, failing);
    AnyFailsOne(tasks, failing);
    AnyFailsOne(record, failing);
    var t3 := [s3];
    var t2 := [s2] + t3;
    var t1 := [s1] + t2;
    assert stages == [s0] + t1;
    assert [s3] + [] == t3;
    RunCons(s3, [], failing);
    RunCons(s2, t3, failing);
    RunCons(s1, t2, failing);
    RunCons(s0, t1, failing);
    assert Run([], failing) == ([], true);
    assert s0.calls == [group, cluster] && s1.calls == [instance] && s2.calls == [tasks] && s3.calls == [record];
    assert !s0.soft && !s1.soft && !s2.soft && !s3.soft;
    assert [group, cluster] + ([instance] + ([tasks] + ([record] + []))) == [group, cluster, instance, tasks, record];
    assert [group, cluster] + ([instance] + ([tasks])) == [group, cluster, instance, tasks];
    assert [group, cluster] + [instance] == [group, cluster, instance];
    var run := Run(stages, failing);
    if group in failing || cluster in failing {
      assert run == ([group, cluster], false);
    } else if instance in failing {
      assert run == ([group, cluster, instance], false);
    } else if tasks in failing {
      assert run == ([group, cluster, instance, tasks], false);
    } else {
      assert [group, cluster] + ([instance] + ([tasks] + [record])) == [group, cluster, instance, tasks, record];
    }
  }

  /**
   * Hence creation is strict: the instance is requested only once the group and the cluster
   * both exist, and the chain resolves exactly when every request in it succeeded.
   */
  lemma CreateIsStrict(clusterName: string, pid: string, pr: string, appDef: AppDef, groupId: string, subnetId: string,
                       failing: set<Call>)
    ensures var run := Run(CreateStages(clusterName, pid, pr, appDef, groupId, subnetId), failing);
      && (CreateInstance(clusterName, pid, pr, groupId, subnetId) in run.0 ==>
            CreateSecurityGroup(pid, pr) !in failing && CreateCluster(clusterName) !in failing)
      && (run.1 <==> forall c :: c in Flatten(CreateStages(clusterName, pid, pr, appDef, groupId, subnetId)) ==> c !in failing)
  {
    var stages := CreateStages(clusterName, pid, pr, appDef, groupId, subnetId);
    CreateSequence(clusterName, pid, pr, appDef, groupId, subnetId, failing);
    var t3 := [stages[3]];
    var t2 := [stages[2]] + t3;
    var t1 := [stages[1]] + t2;
    assert stages == [stages[0]] + t1;
    assert [stages[3]] + [] == t3;
    FlattenCons(stages[3], []);
    FlattenCons(stages[2], t3);
    FlattenCons(stages[1], t2);
    FlattenCons(stages[0], t1);
  }

  // ---------------------------------------------------------------- destroy

  function Deregistrations(containers: seq<string>): (r: seq<Call>)
    ensures |r| == |containers| && forall i :: 0 <= i < |containers| ==> r[i] == Deregister(containers[i])
  {
    seq(|containers|, i requires 0 <= i < |containers| => Deregister(containers[i]))
  }

  /** destroyEc2's chain: list the container instances, deregister each (failures swallowed), terminate the instance (failure swallowed). */
  function Ec2Stages(clusterName: string, pid: string, pr: string, containers: seq<string>): seq<Stage>
  {
    [Stage([ListContainers(clusterName)], false),
     Stage(Deregistrations(containers), true),
     Stage([DestroyInstance(pid, pr)], true)]
  }

  /** destroy's chain: the record, then the EC2 steps, the task services (failure swallowed), the cluster, the group. */
  function DestroyStages(clusterName: string, pid: string, pr: string, containers: seq<string>): seq<Stage>
  {
    [Stage([DestroyRecord(pid, pr)], false)]
    + Ec2Stages(clusterName, pid, pr, containers)
    + [Stage([DestroyTasks(clusterName)], true),
       Stage([DestroyCluster(pid, pr)], false),
       Stage([DestroySecurityGroup(pid, pr)], false)]
  }

  /** The full destroy sequence, in order. */
  function DestroyOrder(clusterName: string, pid: string, pr: string, containers: seq<string>): seq<Call>
  {
    [DestroyRecord(pid, pr), ListContainers(clusterName)] + Deregistrations(containers)
    + [DestroyInstance(pid, pr), DestroyTasks(clusterName), DestroyCluster(pid, pr), DestroySecurityGroup(pid, pr)]
  }

  /** destroyEc2's chain in full: only a failed listing stops it. */
  lemma Ec2Sequence(clusterName: string, pid: string, pr: string, containers: seq<string>, failing: set<Call>)
    ensures Run(Ec2Stages(clusterName, pid, pr, containers), failing) ==
      if ListContainers(clusterName) in failing then ([ListContainers(clusterName)], false)
      else ([ListContainers(clusterName)] + Deregistrations(containers) + [DestroyInstance(pid, pr)], true)
  {
    var stages := Ec2Stages(clusterName, pid, pr, containers);
    AnyFailsOne(ListContainers(clusterName), failing);
    var t2 := [stages[2]];
    var t1 := [stages[1]] + t2;
    assert stages == [stages[0]] + t1;
    assert [stages[2]] + [] == t2;
    RunCons(stages[2], [], failing);
    RunCons(stages[1], t2, failing);
    RunCons(stages[0], t1, failing);
    assert Run([], failing) == ([], true);
    var lc, deregs, di := ListContainers(clusterName), Deregistrations(containers), DestroyInstance(pid, pr);
    assert stages[0].calls == [lc] && stages[1].calls == deregs && stages[2].calls == [di];
    assert [lc] + (deregs + ([di] + [])) == [lc] + deregs + [di];
  }

  function DestroyOutcome(clusterName: string, pid: string, pr: string, containers: seq<string>, failing: set<Call>)
    : (seq<Call>, bool)
  {
    var order := DestroyOrder(clusterName, pid, pr, containers);
    if DestroyRecord(pid, pr) in failing then ([DestroyRecord(pid, pr)], false)
    else if ListContainers(clusterName) in failing then ([DestroyRecord(pid, pr), ListContainers(clusterName)], false)
    else if DestroyCluster(pid, pr) in failing then (order[..|order| - 1], false)
    else (order, DestroySecurityGroup(pid, pr) !in failing)
  }

  /** A single hard request: sent, and the chain goes on exactly when it succeeds. */
  lemma {:induction false} RunOneHard(c: Call, failing: set<Call>)
    ensures Run([Stage([c], false)], failing) == ([c], c !in failing)
  {
    AnyFailsOne(c, failing);
    RunCons(Stage([c], false), [], failing);
    assert [c] + [] == [c];
  }

  /** destroy's last three stages: the task services (failure swallowed), then the cluster, then the group. */
  function DestroyTailStages(clusterName: string, pid: string, pr: string): seq<Stage>
  {
    [Stage([DestroyTasks(clusterName)], true), Stage([DestroyCluster(pid, pr)], false), Stage([DestroySecurityGroup(pid, pr)], false)]
  }

  lemma {:induction false} DestroyTail(clusterName: string, pid: string, pr: string, failing: set<Call>)
    ensures DestroyCluster(pid, pr) in failing ==>
      Run(DestroyTailStages(clusterName, pid, pr), failing) == ([DestroyTasks(clusterName), DestroyCluster(pid, pr)], false)
    ensures DestroyCluster(pid, pr) !in failing ==>
      Run(DestroyTailStages(clusterName, pid, pr), failing)
        == ([DestroyTasks(clusterName), DestroyCluster(pid, pr), DestroySecurityGroup(pid, pr)], DestroySecurityGroup(pid, pr) !in failing)
  {
    var dt, dc, dsg := DestroyTasks(clusterName), DestroyCluster(pid, pr), DestroySecurityGroup(pid, pr);
    var tasks, cluster, group := Stage([dt], true), Stage([dc], false), Stage([dsg], false);
    AnyFailsOne(dc, failing);
    RunOneHard(dsg, failing);
    RunCons(cluster, [group], failing);
    RunCons(tasks, [cluster, group], failing);
    assert [cluster, group] == [cluster] + [group];
    assert [tasks, cluster, group] == [tasks] + [cluster, group];
    assert [dt] + [dc] == [dt, dc];
    assert [dt] + ([dc] + [dsg]) == [dt, dc, dsg];
  }

  /**
   * The destroy chain in full. It is fail-soft only for deregistrations, the instance and the task
   * services: a failed record, listing, cluster or group request stops it there, and any other
   * failure leaves the rest of the sequence to run.
   */
  lemma DestroySequence(clusterName: string, pid: string, pr: string, containers: seq<string>, failing: set<Call>)
    ensures Run(DestroyStages(clusterName, pid, pr, containers), failing) ==
      DestroyOutcome(clusterName, pid, pr, containers, failing)
  {
    var dr, lc, deregs := DestroyRecord(pid, pr), ListContainers(clusterName), Deregistrations(containers);
    var di, dt, dc, dsg := DestroyInstance(pid, pr), DestroyTasks(clusterName), DestroyCluster(pid, pr), DestroySecurityGroup(pid, pr);
    var head := [Stage([dr], false)];
    var ec2 := Ec2Stages(clusterName, pid, pr, containers);
    var tail := DestroyTailStages(clusterName, pid, pr);
    assert DestroyStages(clusterName, pid, pr, containers) == head + (ec2 + tail);
    RunAppend(head, ec2 + tail, failing);
    RunAppend(ec2, tail, failing);
    RunOneHard(dr, failing);
    Ec2Sequence(clusterName, pid, pr, containers, failing);
    DestroyTail(clusterName, pid, pr, failing);
    var order := DestroyOrder(clusterName, pid, pr, containers);
    if dr !in failing && lc !in failing {
      var front := [lc] + deregs + [di];
      if dc in failing {
        assert [dr] + (front + [dt, dc]) == order[..|order| - 1];
      } else {
        assert [dr] + (front + [dt, dc, dsg]) == order;
      }
    } else if dr !in failing {
      assert [dr] + [lc] == [dr, lc];
    }
  }

  lemma DeregistrationsSnoc(containers: seq<string>, i: nat)
    requires i < |containers|
    ensures Deregistrations(containers[..i + 1]) == Deregistrations(containers[..i]) + [Deregister(containers[i])]
  {
  }

  /** The full destroy order: the record and the EC2 requests, then the task services, the cluster and the group. */
  lemma DestroyOrderSplit(clusterName: string, pid: string, pr: string, containers: seq<string>)
    ensures var front := [DestroyRecord(pid, pr)] + ([ListContainers(clusterName)] + Deregistrations(containers) + [DestroyInstance(pid, pr)]);
      var order := DestroyOrder(clusterName, pid, pr, containers);
      && order == front + [DestroyTasks(clusterName), DestroyCluster(pid, pr), DestroySecurityGroup(pid, pr)]
      && order[..|order| - 1] == front + [DestroyTasks(clusterName), DestroyCluster(pid, pr)]
  {
  }

  // ---------------------------------------------------------------- the manager

  /** The PR manager over its abstract managers; `trace` records every request sent, in order. */
  class PrManager {
    const prefix: string
    var trace: seq<Call>

    constructor (prefix: string)
      ensures this.prefix == prefix && trace == []
    {
      this.prefix := prefix;
      trace := [];
    }

    /**
     * create: describe the subnets; none means an error and nothing else is sent; otherwise the
     * first subnet's id is used for createCluster.
     */
    method Create(pid: string, pr: string, appDef: AppDef, w: World) returns (r: Result<(), PrError>)
      modifies this
      ensures DescribeSubnets in w.failing ==> r == Err(RemoteError) && trace == old(trace) + [DescribeSubnets]
      ensures DescribeSubnets !in w.failing && w.subnets == [] ==>
        r == Err(NoSubnet(NoSubnetMessage(pid, pr))) && trace == old(trace) + [DescribeSubnets]
      ensures DescribeSubnets !in w.failing && w.subnets != [] ==>
        var run := Run(CreateStages(ClusterName(prefix, pid, pr), pid, pr, appDef, w.groupId, w.subnets[0]), w.failing);
        trace == old(trace) + [DescribeSubnets] + run.0 && r == (if run.1 then Ok(()) else Err(RemoteError))
    {
      trace := trace + [DescribeSubnets];
      if DescribeSubnets in w.failing {
        return Err(RemoteError);
      }
      if |w.subnets| == 0 {
        return Err(NoSubnet(NoSubnetMessage(pid, pr)));
      }
      r := CreateEnvironment(w.subnets[0], pid, pr, appDef, w);
    }

    /** createCluster: the create chain, stopping at the first failure. */
    method CreateEnvironment(subnetId: string, pid: string, pr: string, appDef: AppDef, w: World)
      returns (r: Result<(), PrError>)
      modifies this
      ensures var run := Run(CreateStages(ClusterName(prefix, pid, pr), pid, pr, appDef, w.groupId, subnetId), w.failing);
        trace == old(trace) + run.0 && r == (if run.1 then Ok(()) else Err(RemoteError))
    {
      var clusterName := ClusterName(prefix, pid, pr);
      CreateSequence(clusterName, pid, pr, appDef, w.groupId, subnetId, w.failing);
      var group, cluster := CreateSecurityGroup(pid, pr), CreateCluster(clusterName);
      var instance := CreateInstance(clusterName, pid, pr, w.groupId, subnetId);
      var tasks, record := CreateTasks(clusterName, clusterName, appDef), CreateRecord(pid, pr);
      trace := trace + [group, cluster];
      if group in w.failing || cluster in w.failing {
        r := Err(RemoteError);
      } else {
        trace := trace + [instance];
        if instance in w.failing {
          assert trace == old(trace) + [group, cluster, instance];
          r := Err(RemoteError);
        } else {
          trace := trace + [tasks];
          if tasks in w.failing {
            assert trace == old(trace) + [group, cluster, instance, tasks];
            r := Err(RemoteError);
          } else {
            trace := trace + [record];
            assert trace == old(trace) + [group, cluster, instance, tasks, record];
            r := if record in w.failing then Err(RemoteError) else Ok(());
          }
        }
      }
    }

    /**
     * destroyEc2 as intended: refuse an empty cluster name; list the container instances;
     * deregister each one (failures swallowed); terminate the instance (failure swallowed).
     */
    method DestroyEc2(pid: string, pr: string, clusterName: string, w: World) returns (r: Result<(), PrError>)
      modifies this
      ensures clusterName == "" ==> r == Err(MissingClusterName(ClusterNameMessage)) && trace == old(trace)
      ensures clusterName != "" ==>
        var run := Run(Ec2Stages(clusterName, pid, pr, w.containers), w.failing);
        trace == old(trace) + run.0 && r == (if run.1 then Ok(()) else Err(RemoteError))
    {
      if clusterName == "" {
        return Err(MissingClusterName(ClusterNameMessage));
      }
      Ec2Sequence(clusterName, pid, pr, w.containers, w.failing);
      trace := trace + [ListContainers(clusterName)];
      if ListContainers(clusterName) in w.failing {
        return Err(RemoteError);
      }
      var containers := w.containers;
      var i := 0;
      while i < |containers|
        invariant 0 <= i <= |containers|
        invariant trace == old(trace) + [ListContainers(clusterName)] + Deregistrations(containers[..i])
      {
        DeregistrationsSnoc(containers, i);
        trace := trace + [Deregister(containers[i])];
        i := i + 1;
      }
      assert containers[..i] == containers;
      trace := trace + [DestroyInstance(pid, pr)];
      r := Ok(());
    }

    /**
     * destroyEc2 as written: the deregistration callback reads `instance`, which is declared
     * nowhere, so a non-empty container list rejects before any deregistration or termination.
     */
    method DestroyEc2AsWritten(pid: string, pr: string, clusterName: string, w: World) returns (r: Result<(), PrError>)
      modifies this
      ensures clusterName == "" ==> r == Err(MissingClusterName(ClusterNameMessage)) && trace == old(trace)
      ensures clusterName != "" && ListContainers(clusterName) in w.failing ==>
        r == Err(RemoteError) && trace == old(trace) + [ListContainers(clusterName)]
      ensures clusterName != "" && ListContainers(clusterName) !in w.failing && w.containers != [] ==>
        r == Err(ReferenceError) && trace == old(trace) + [ListContainers(clusterName)]
      ensures clusterName != "" && ListContainers(clusterName) !in w.failing && w.containers == [] ==>
        r == Ok(()) && trace == old(trace) + [ListContainers(clusterName), DestroyInstance(pid, pr)]
    {
      if clusterName == "" {
        return Err(MissingClusterName(ClusterNameMessage));
      }
      trace := trace + [ListContainers(clusterName)];
      if ListContainers(clusterName) in w.failing {
        return Err(RemoteError);
      }
      if |w.containers| > 0 {
        return Err(ReferenceError);
      }
      trace := trace + [DestroyInstance(pid, pr)];
      r := Ok(());
    }

    /** destroy: the record, the EC2 steps, the task services (failure swallowed), the cluster, then the group. */
    method Destroy(pid: string, pr: string, w: World) returns (r: Result<(), PrError>)
      modifies this
      ensures var run := Run(DestroyStages(ClusterName(prefix, pid, pr), pid, pr, w.containers), w.failing);
        trace == old(trace) + run.0 && r == (if run.1 then Ok(()) else Err(RemoteError))
    {
      var clusterName := ClusterName(prefix, pid, pr);
      ClusterNameNotEmpty(prefix, pid, pr);
      DestroySequence(clusterName, pid, pr, w.containers, w.failing);
      ghost var out := DestroyOutcome(clusterName, pid, pr, w.containers, w.failing);
      ghost var start := trace;
      trace := trace + [DestroyRecord(pid, pr)];
      if DestroyRecord(pid, pr) in w.failing {
        assert out == ([DestroyRecord(pid, pr)], false);
        return Err(RemoteError);
      }
      Ec2Sequence(clusterName, pid, pr, w.containers, w.failing);
      var e := DestroyEc2(pid, pr, clusterName, w);
      if e.Err? {
        assert trace == start + [DestroyRecord(pid, pr), ListContainers(clusterName)] == start + out.0;
        return Err(RemoteError);
      }
      DestroyOrderSplit(clusterName, pid, pr, w.containers);
      ghost var front := [DestroyRecord(pid, pr)] + ([ListContainers(clusterName)] + Deregistrations(w.containers) + [DestroyInstance(pid, pr)]);
      assert trace == start + front;
      trace := trace + [DestroyTasks(clusterName), DestroyCluster(pid, pr)];
      if DestroyCluster(pid, pr) in w.failing {
        assert trace == start + out.0;
        return Err(RemoteError);
      }
      trace := trace + [DestroySecurityGroup(pid, pr)];
      assert [DestroyTasks(clusterName), DestroyCluster(pid, pr)] + [DestroySecurityGroup(pid, pr)]
        == [DestroyTasks(clusterName), DestroyCluster(pid, pr), DestroySecurityGroup(pid, pr)];
      r := if DestroySecurityGroup(pid, pr) in w.failing then Err(RemoteError) else Ok(());
    }

    /**
     * destroy over destroyEc2 as written: with any container instance listed, the ReferenceError
     * rejects the chain right after the listing, so the task services, the cluster and the group
     * are never destroyed; with none listed it runs the full chain.
     */
    method DestroyAsWritten(pid: string, pr: string, w: World) returns (r: Result<(), PrError>)
      modifies this
      ensures var clusterName := ClusterName(prefix, pid, pr);
        DestroyRecord(pid, pr) !in w.failing && ListContainers(clusterName) !in w.failing && w.containers != [] ==>
          trace == old(trace) + [DestroyRecord(pid, pr), ListContainers(clusterName)] && r == Err(ReferenceError)
      ensures var run := Run(DestroyStages(ClusterName(prefix, pid, pr), pid, pr, w.containers), w.failing);
        DestroyRecord(pid, pr) in w.failing || ListContainers(ClusterName(prefix, pid, pr)) in w.failing || w.containers == [] ==>
          trace == old(trace) + run.0 && r == (if run.1 then Ok(()) else Err(RemoteError))
    {
      var clusterName := ClusterName(prefix, pid, pr);
      ClusterNameNotEmpty(prefix, pid, pr);
      DestroySequence(clusterName, pid, pr, w.containers, w.failing);
      DestroyOrderSplit(clusterName, pid, pr, w.containers);
      ghost var start := trace;
      trace := trace + [DestroyRecord(pid, pr)];
      if DestroyRecord(pid, pr) in w.failing {
        return Err(RemoteError);
      }
      var e := DestroyEc2AsWritten(pid, pr, clusterName, w);
      if e.Err? {
        assert trace == start + [DestroyRecord(pid, pr), ListContainers(clusterName)];
        return e;
      }
      assert Deregistrations(w.containers) == [];
      ghost var front := [DestroyRecord(pid, pr)] + ([ListContainers(clusterName)] + Deregistrations(w.containers) + [DestroyInstance(pid, pr)]);
      assert trace == start + front;
      trace := trace + [DestroyTasks(clusterName), DestroyCluster(pid, pr)];
      if DestroyCluster(pid, pr) in w.failing {
        return Err(RemoteError);
      }
      trace := trace + [DestroySecurityGroup(pid, pr)];
      assert [DestroyTasks(clusterName), DestroyCluster(pid, pr)] + [DestroySecurityGroup(pid, pr)]
        == [DestroyTasks(clusterName), DestroyCluster(pid, pr), DestroySecurityGroup(pid, pr)];
      r := if DestroySecurityGroup(pid, pr) in w.failing then Err(RemoteError) else Ok(());
    }
  }
}
