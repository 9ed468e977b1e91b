/**
 * The application flows over an existing ECS cluster: update an app in place (describe the
 * cluster, destroy its task services, create them again), destroy an app's task services, and
 * stand up a new app (cluster, EC2 instance, task services). The ECS and EC2 managers are
 * abstract; each request's reply is an input, and a failed request rejects with a reason.
 */
module Clusternator {
  import opened Wrappers
  import opened Tasks
  import Ec2 = Ec2Manager

  /** The service-name and app-definition arguments of a task-service create request. */
  datatype TaskArg = Text(text: string) | Def(appDef: AppDef) | Absent

  /** A request to the ECS cluster, task-service or EC2 manager. */
  datatype Call =
    | DescribeCluster(clusterName: string)
    | DestroyTasks(clusterArn: Option<string>)
    | CreateTasks(clusterName: string, serviceName: TaskArg, appDef: TaskArg)
    | CreateCluster(pid: string, pr: string)
    | CreateInstance(config: Ec2.Ec2Config)

  /** What describe reports of a cluster: its ARN, when the reply carries one. */
  datatype Cluster = Cluster(clusterArn: Option<string>)

  datatype Service = Service(serviceName: string)

  /** The replies of the three ECS requests an update makes; `Err` carries the rejection reason. */
  datatype Ecs = Ecs(describe: Result<Cluster, string>, destroy: Result<seq<Service>, string>,
                     create: Result<seq<Service>, string>)

  /**
   * The replies of the requests newApp makes. `errLogRethrows` stands for util.errLog (whose code
   * is not part of this model): whether handling a failed cluster creation rejects again or
   * resolves and lets the chain go on.
   */
  datatype Setup = Setup(cluster: Result<(), string>, instance: Result<(), string>,
                         tasks: Result<seq<Service>, string>, errLogRethrows: bool)

  datatype AppError =
    | TypeError        // a property read off a missing app definition
    | Thrown(message: string)
    | Rejected(reason: string)

  const ClusterNameMessage: string := "Requires clusterName"
  const AppDefMessage: string := "Requires appDef"
  const Ec2ConfigMessage: string := "Requires ec2Config"

  /** The cluster parameters newApp hard-codes, whatever the cluster name. */
  const FixedPid: string := "ha"
  const FixedPr: string := "test"

  /** The ARN destroy is handed: the one describe reported, or nothing when describe failed. */
  function ArnOf(ecs: Ecs): Option<string>
  {
    if ecs.describe.Ok? then ecs.describe.value.clusterArn else None
  }

  /** The first rejection among the replies an update waits for, in order. */
  function FirstRejection(ecs: Ecs): Option<string>
  {
    if ecs.describe.Err? then Some(ecs.describe.error)
    else if ecs.destroy.Err? then Some(ecs.destroy.error)
    else if ecs.create.Err? then Some(ecs.create.error)
    else None
  }

  // ---------------------------------------------------------------- destroyApp

  /**
   * destroyApp's requests and result: describe, then destroy the task services under the
   * reported ARN; it resolves to what destroy resolved to, and never deletes the cluster or the
   * EC2 instance.
   */
  function Teardown(clusterName: string, ecs: Ecs): (r: (seq<Call>, Result<seq<Service>, AppError>))
    ensures 1 <= |r.0| <= 2 && r.0[0] == DescribeCluster(clusterName)
    ensures forall i :: 0 <= i < |r.0| ==> r.0[i].DescribeCluster? || r.0[i].DestroyTasks?
    ensures |r.0| == 2 <==> ecs.describe.Ok?
    ensures |r.0| == 2 ==> r.0[1] == DestroyTasks(ecs.describe.value.clusterArn)
    ensures r.1.Ok? <==> ecs.describe.Ok? && ecs.destroy.Ok?
    ensures r.1.Ok? ==> r.1.value == ecs.destroy.value
    ensures r.1.Err? ==> r.1 == Err(Rejected(if ecs.describe.Err? then ecs.describe.error else ecs.destroy.error))
  {
    match ecs.describe
    case Err(e) => ([DescribeCluster(clusterName)], Err(Rejected(e)))
    case Ok(cluster) =>
      var calls := [DescribeCluster(clusterName), DestroyTasks(cluster.clusterArn)];
      match ecs.destroy
      case Err(e) => (calls, Err(Rejected(e)))
      case Ok(services) => (calls, Ok(services))
  }

  // ---------------------------------------------------------------- updateApp

  /** The three requests of an update in order, under the ARN describe reported. */
  function UpdateOrder(clusterName: string, appDef: AppDef, ecs: Ecs): seq<Call>
  {
    [DescribeCluster(clusterName), DestroyTasks(ArnOf(ecs)), CreateTasks(clusterName, Text(appDef.name), Def(appDef))]
  }

  /**
   * updateApp's requests and result. The requests follow describe, destroy, create in that order
   * and stop at the first rejection, whose reason the update rejects with; otherwise the update
   * resolves to the created services (the destroy result is only passed along).
   */
  function Update(clusterName: string, appDef: Option<AppDef>, ecs: Ecs): (r: (seq<Call>, Result<seq<Service>, AppError>))
    ensures appDef == None ==> r == ([], Err(TypeError))
    ensures appDef != None ==>
      && r.0 <= UpdateOrder(clusterName, appDef.value, ecs)
      && |r.0| == (if ecs.describe.Err? then 1 else if ecs.destroy.Err? then 2 else 3)
      && (r.1.Ok? <==> FirstRejection(ecs) == None)
      && (r.1.Ok? ==> r.1.value == ecs.create.value)
      && (r.1.Err? ==> r.1 == Err(Rejected(FirstRejection(ecs).value)))
  {
    match appDef
    case None => ([], Err(TypeError))
    case Some(def) =>
      var describe := DescribeCluster(clusterName);
      match ecs.describe
      case Err(e) => ([describe], Err(Rejected(e)))
      case Ok(cluster) =>
        var destroy := DestroyTasks(cluster.clusterArn);
        match ecs.destroy
        case Err(e) => ([describe, destroy], Err(Rejected(e)))
        case Ok(_) =>
          var calls := [describe, destroy, CreateTasks(clusterName, Text(def.name), Def(def))];
          match ecs.create
          case Err(e) => (calls, Err(Rejected(e)))
          case Ok(services) => (calls, Ok(services))
  }

  /**
   * An update begins with exactly the requests of destroyApp; a rejected teardown is the update's
   * own outcome, and otherwise the update adds the one create request.
   */
  lemma UpdateBeginsWithTeardown(clusterName: string, appDef: AppDef, ecs: Ecs)
    ensures var u, t := Update(clusterName, Some(appDef), ecs), Teardown(clusterName, ecs);
      && (t.1.Err? ==> u == t)
      && (t.1.Ok? ==> u.0 == t.0 + [CreateTasks(clusterName, Text(appDef.name), Def(appDef))])
      && (u.1.Ok? <==> t.1.Ok? && ecs.create.Ok?)
  {
    var u, t := Update(clusterName, Some(appDef), ecs), Teardown(clusterName, ecs);
    var order := UpdateOrder(clusterName, appDef, ecs);
    if t.1.Ok? {
      assert u.0 == order[..3] == t.0 + [order[2]];
    } else if ecs.describe.Err? {
      assert u.0 == order[..1] == t.0;
    } else {
      assert u.0 == order[..2] == t.0;
    }
  }

  // ---------------------------------------------------------------- newApp

  /** newApp's full request sequence: the fixed cluster, the instance, then the task services. */
  function LaunchOrder(clusterName: string, appDef: AppDef, config: Ec2.Ec2Config): seq<Call>
  {
    [CreateCluster(FixedPid, FixedPr), CreateInstance(config), CreateTasks(clusterName, Def(appDef), Absent)]
  }

  /** What newApp resolves to once the task services have been requested: their reply. */
  function TasksReply(setup: Setup): (r: Result<seq<Service>, AppError>)
    ensures r.Ok? <==> setup.tasks.Ok?
    ensures r.Ok? ==> r.value == setup.tasks.value
    ensures r.Err? ==> r.error == Rejected(setup.tasks.error)
  {
    if setup.tasks.Err? then Err(Rejected(setup.tasks.error)) else Ok(setup.tasks.value)
  }

  /**
   * newApp's requests and result. A missing cluster name, app definition or EC2 configuration
   * throws before any request; otherwise the cluster is created first, then the instance, then the
   * task services (with the app definition passed where the service name belongs). A failed
   * instance stops the chain; a failed cluster stops it only when the error logger rethrows, and
   * otherwise the task services are requested without any instance.
   */
  function Launch(clusterName: string, appDef: Option<AppDef>, config: Option<Ec2.Ec2Config>, setup: Setup)
    : (r: (seq<Call>, Result<seq<Service>, AppError>))
    ensures clusterName == "" ==> r == ([], Err(Thrown(ClusterNameMessage)))
    ensures clusterName != "" && appDef == None ==> r == ([], Err(Thrown(AppDefMessage)))
    ensures clusterName != "" && appDef != None && config == None ==> r == ([], Err(Thrown(Ec2ConfigMessage)))
    ensures r.1.Err? && r.1.error.Thrown? ==> r.0 == []
    ensures clusterName != "" && appDef != None && config != None ==>
      var order := LaunchOrder(clusterName, appDef.value, config.value);
      && (if setup.cluster.Err? && !setup.errLogRethrows then r.0 == [order[0], order[2]] else r.0 <= order)
      && |r.0| >= 1 && r.0[0] == CreateCluster(FixedPid, FixedPr)
      && (CreateInstance(config.value) in r.0 <==> setup.cluster.Ok?)
      && (r.1.Ok? ==> setup.tasks.Ok? && r.1.value == setup.tasks.value && order[2] in r.0)
    ensures clusterName != "" && appDef != None && config != None ==>
      var order := LaunchOrder(clusterName, appDef.value, config.value);
      && (setup.cluster.Ok? && setup.instance.Ok? ==> r == (order, TasksReply(setup)))
      && (setup.cluster.Ok? && setup.instance.Err? ==> r == ([order[0], order[1]], Err(Rejected(setup.instance.error))))
      && (setup.cluster.Err? && setup.errLogRethrows ==> r == ([order[0]], Err(Rejected(setup.cluster.error))))
      && (setup.cluster.Err? && !setup.errLogRethrows ==> r == ([order[0], order[2]], TasksReply(setup)))
  {
    if clusterName == "" then ([], Err(Thrown(ClusterNameMessage)))
    else if appDef == None then ([], Err(Thrown(AppDefMessage)))
    else if config == None then ([], Err(Thrown(Ec2ConfigMessage)))
    else
      var cluster, instance := CreateCluster(FixedPid, FixedPr), CreateInstance(config.value);
      var tasks := CreateTasks(clusterName, Def(appDef.value), Absent);
      var tasksResult := TasksReply(setup);
      match setup.cluster
      case Err(e) =>
        if setup.errLogRethrows then ([cluster], Err(Rejected(e))) else ([cluster, tasks], tasksResult)
      case Ok(_) =>
        match setup.instance
        case Err(e) => ([cluster, instance], Err(Rejected(e)))
        case Ok(_) => ([cluster, instance, tasks], tasksResult)
  }

  /** The task services are never requested before the instance has been created, unless cluster creation failed and was swallowed. */
  lemma LaunchTasksFollowInstance(clusterName: string, appDef: AppDef, config: Ec2.Ec2Config, setup: Setup)
    ensures var r := Launch(clusterName, Some(appDef), Some(config), setup);
      CreateTasks(clusterName, Def(appDef), Absent) in r.0 ==>
        (setup.cluster.Ok? && setup.instance.Ok?) || (setup.cluster.Err? && !setup.errLogRethrows)
  {
    var r := Launch(clusterName, Some(appDef), Some(config), setup);
    var order := LaunchOrder(clusterName, appDef, config);
    if clusterName != "" && setup.cluster.Ok? && setup.instance.Err? {
      assert r.0 == [order[0], order[1]];
    }
  }

  // ---------------------------------------------------------------- the flows

  /** The app flows over abstract managers; `trace` records every request sent, in order. */
  class Clusternator {
    var trace: seq<Call>

    constructor ()
      ensures trace == []
    {
      trace := [];
    }

    /** updateApp: describe, destroy the task services, create them again; stop at the first rejection. */
    method UpdateApp(clusterName: string, appDef: Option<AppDef>, ecs: Ecs)
      returns (r: Result<seq<Service>, AppError>)
      modifies this
      ensures trace == old(trace) + Update(clusterName, appDef, ecs).0
      ensures r == Update(clusterName, appDef, ecs).1
    {
      if appDef == None {
        return Err(TypeError);
      }
      trace := trace + [DescribeCluster(clusterName)];
      if ecs.describe.Err? {
        return Err(Rejected(ecs.describe.error));
      }
      trace := trace + [DestroyTasks(ecs.describe.value.clusterArn)];
      if ecs.destroy.Err? {
        return Err(Rejected(ecs.destroy.error));
      }
      var def := appDef.value;
      trace := trace + [CreateTasks(clusterName, Text(def.name), Def(def))];
      if ecs.create.Err? {
        return Err(Rejected(ecs.create.error));
      }
      r := Ok(ecs.create.value);
    }

    /** destroyApp: describe, then destroy the task services; nothing else is removed. */
    method DestroyApp(clusterName: string, ecs: Ecs) returns (r: Result<seq<Service>, AppError>)
      modifies this
      ensures trace == old(trace) + Teardown(clusterName, ecs).0
      ensures r == Teardown(clusterName, ecs).1
    {
      trace := trace + [DescribeCluster(clusterName)];
      if ecs.describe.Err? {
        return Err(Rejected(ecs.describe.error));
      }
      trace := trace + [DestroyTasks(ecs.describe.value.clusterArn)];
      if ecs.destroy.Err? {
        return Err(Rejected(ecs.destroy.error));
      }
      r := Ok(ecs.destroy.value);
    }

    /** newApp: the argument guards, then cluster, instance and task services. */
    method NewApp(clusterName: string, appDef: Option<AppDef>, config: Option<Ec2.Ec2Config>, setup: Setup)
      returns (r: Result<seq<Service>, AppError>)
      modifies this
      ensures trace == old(trace) + Launch(clusterName, appDef, config, setup).0
      ensures r == Launch(clusterName, appDef, config, setup).1
    {
      if clusterName == "" {
        return Err(Thrown(ClusterNameMessage));
      }
      if appDef == None {
        return Err(Thrown(AppDefMessage));
      }
      if config == None {
        return Err(Thrown(Ec2ConfigMessage));
      }
      trace := trace + [CreateCluster(FixedPid, FixedPr)];
      if setup.cluster.Err? {
        if setup.errLogRethrows {
          return Err(Rejected(setup.cluster.error));
        }
      } else {
        trace := trace + [CreateInstance(config.value)];
        if setup.instance.Err? {
          return Err(Rejected(setup.instance.error));
        }
      }
      trace := trace + [CreateTasks(clusterName, Def(appDef.value), Absent)];
      if setup.tasks.Err? {
        return Err(Rejected(setup.tasks.error));
      }
      r := Ok(setup.tasks.value);
    }
  }
}
