/**
 * The EC2 instance builder: the boot script that makes an instance join its ECS cluster, the
 * launch parameters overlaid on a default template, and the tagging of every launched instance.
 */
module Ec2Manager {
  import opened Wrappers
  import opened Strings
  import opened Constants
  import Enc = Encoding

  // ---------------------------------------------------------------- the boot script

  /** A container-registry credential; "" stands for a field that is absent or empty. */
  datatype Auth = Auth(cfg: string, username: string, password: string, email: string)

  /**
   * The JSON handling the model leaves abstract: `reserialize` is JSON.stringify(JSON.parse(cfg))
   * (None when the parse throws), `hubDocument` is JSON.stringify of the Docker Hub document
   * `{ "https://index.docker.io/v1/user": auth }`.
   */
  datatype Json = Json(reserialize: string -> Option<string>, hubDocument: Auth -> string)

  datatype Ec2Error =
    | Thrown(message: string)  // a string thrown before any remote call
    | ParseError               // JSON.parse rejected `cfg`
    | TypeError                // `apiConfig.UserData = ...` with no apiConfig
    | RemoteError              // a provider call failed

  const ScriptHeader: string := "#!/bin/bash"
  const EcsConfigSuffix: string := " >> /etc/ecs/ecs.config;"
  const AuthMessage: string := "Auth should contain a username, password, and email"

  function ClusterLine(clusterName: string): string
  {
    "echo ECS_CLUSTER=" + clusterName + EcsConfigSuffix
  }

  function AuthTypeLine(cfgType: string): string
  {
    "echo ECS_ENGINE_AUTH_TYPE=" + cfgType + EcsConfigSuffix
  }

  function AuthDataLine(authStr: string): string
  {
    "echo ECS_ENGINE_AUTH_DATA=" + authStr + EcsConfigSuffix
  }

  /** A credential with neither a `cfg` document nor a complete username/password/email triple. */
  predicate Incomplete(a: Auth)
  {
    a.cfg == "" && (a.username == "" || a.password == "" || a.email == "")
  }

  /** The engine auth type and the serialised credential the script carries for `a`. */
  function AuthSettings(a: Auth, json: Json): (r: Result<(string, string), Ec2Error>)
    ensures r.Err? <==> Incomplete(a) || (a.cfg != "" && json.reserialize(a.cfg).None?)
    ensures Incomplete(a) ==> r == Err(Thrown(AuthMessage))
    ensures r.Ok? ==> r.value.0 == (if a.cfg != "" then "dockercfg" else "docker")
    ensures r.Ok? ==> r.value.1 == (if a.cfg != "" then json.reserialize(a.cfg).value else json.hubDocument(a))
    ensures !Incomplete(a) && a.cfg != "" && json.reserialize(a.cfg).None? ==> r == Err(ParseError)
  {
    if Incomplete(a) then Err(Thrown(AuthMessage))
    else if a.cfg != "" then
      match json.reserialize(a.cfg)
      case None => Err(ParseError)
      case Some(doc) => Ok(("dockercfg", doc))
    else Ok(("docker", json.hubDocument(a)))
  }

  /** The lines of the boot script: the shebang and the cluster line, then the two auth lines when a credential is given. */
  function ScriptLines(clusterName: string, auth: Option<Auth>, json: Json): (r: Result<seq<string>, Ec2Error>)
    ensures r.Err? <==> auth.Some? && AuthSettings(auth.value, json).Err?
    ensures r.Ok? ==> (&& |r.value| == (if auth.None? then 2 else 4)
                       && r.value[0] == ScriptHeader && r.value[1] == ClusterLine(clusterName))
    ensures r.Ok? && auth.Some? ==>
      && r.value[2] == AuthTypeLine(AuthSettings(auth.value, json).value.0)
      && r.value[3] == AuthDataLine(AuthSettings(auth.value, json).value.1)
  {
    match auth
    case None => Ok([ScriptHeader, ClusterLine(clusterName)])
    case Some(a) =>
      match AuthSettings(a, json)
      case Err(e) => Err(e)
      case Ok((cfgType, authStr)) =>
        Ok([ScriptHeader, ClusterLine(clusterName), AuthTypeLine(cfgType), AuthDataLine(authStr)])
  }

  /** `new Buffer(text).toString('base64')`. */
  function Base64Text(text: string): string
  {
    Enc.Base64Encode(Enc.Utf8Encode(text))
  }

  /** What an instance recovers from its boot-configuration field. */
  function DecodeText(data: string): Option<string>
  {
    match Enc.Base64Decode(data)
    case None => None
    case Some(bytes) => Enc.Utf8Decode(bytes)
  }

  lemma TextRoundTrip(text: string)
    ensures DecodeText(Base64Text(text)) == Some(text)
  {
    Enc.Base64RoundTrip(Enc.Utf8Encode(text));
    Enc.Utf8RoundTrip(text);
  }

  /** The value getECSContainerInstanceUserData returns: the script's lines joined by newlines, in base64. */
  function EncodedScript(clusterName: string, auth: Option<Auth>, json: Json): Result<string, Ec2Error>
  {
    match ScriptLines(clusterName, auth, json)
    case Err(e) => Err(e)
    case Ok(lines) => Ok(Base64Text(Join(lines, "\n")))
  }

  /** getECSContainerInstanceUserData: builds the script line by line, then encodes it. */
  method UserData(clusterName: string, auth: Option<Auth>, json: Json) returns (r: Result<string, Ec2Error>)
    ensures r == EncodedScript(clusterName, auth, json)
  {
    var data := [ScriptHeader, ClusterLine(clusterName)];
    if auth.Some? {
      var a := auth.value;
      if a.cfg == "" && (a.username == "" || a.password == "" || a.email == "") {
        return Err(Thrown(AuthMessage));
      }
      var authStr, cfgType;
      if a.cfg != "" {
        var parsed := json.reserialize(a.cfg);
        if parsed.None? {
          return Err(ParseError);
        }
        authStr, cfgType := parsed.value, "dockercfg";
      } else {
        authStr, cfgType := json.hubDocument(a), "docker";
      }
      assert AuthSettings(a, json) == Ok((cfgType, authStr));
      data := data + [AuthTypeLine(cfgType)];
      data := data + [AuthDataLine(authStr)];
      assert data == [ScriptHeader, ClusterLine(clusterName), AuthTypeLine(cfgType), AuthDataLine(authStr)];
    }
    var bash := Join(data, "\n");
    r := Ok(Base64Text(bash));
  }

  lemma LineClean(prefix: string, value: string)
    requires '\n' !in prefix && '\n' !in value
    ensures Clean(prefix + value + EcsConfigSuffix, "\n")
  {
    var line := prefix + value + EcsConfigSuffix;
    assert '\n' !in EcsConfigSuffix;
    assert forall i :: 0 <= i < |line| ==> line[i] != '\n' by {
      forall i | 0 <= i < |line| ensures line[i] != '\n' {
        if i < |prefix| {
          assert line[i] == prefix[i];
        } else if i < |prefix| + |value| {
          assert line[i] == value[i - |prefix|];
        } else {
          assert line[i] == EcsConfigSuffix[i - |prefix| - |value|];
        }
      }
    }
    CleanChar(line, '\n');
  }

  /**
   * The instance decodes its user data back to the script, and the script has exactly the lines
   * ScriptLines lists (two without a credential, four with one), provided the cluster name and
   * the serialised credential hold no newline.
   */
  lemma BootScriptLines(clusterName: string, auth: Option<Auth>, json: Json)
    requires ScriptLines(clusterName, auth, json).Ok?
    requires '\n' !in clusterName
    requires auth.Some? ==> '\n' !in AuthSettings(auth.value, json).value.1
    ensures var lines := ScriptLines(clusterName, auth, json).value;
      && DecodeText(EncodedScript(clusterName, auth, json).value) == Some(Join(lines, "\n"))
      && Split(Join(lines, "\n"), "\n") == lines
  {
    var lines := ScriptLines(clusterName, auth, json).value;
    TextRoundTrip(Join(lines, "\n"));
    ScriptLinesClean(clusterName, auth, json);
    SplitJoin(lines, "\n");
  }

  /** No line of the script holds a newline when the cluster name and the credential hold none. */
  lemma ScriptLinesClean(clusterName: string, auth: Option<Auth>, json: Json)
    requires ScriptLines(clusterName, auth, json).Ok?
    requires '\n' !in clusterName
    requires auth.Some? ==> '\n' !in AuthSettings(auth.value, json).value.1
    ensures var lines := ScriptLines(clusterName, auth, json).value;
      forall i :: 0 <= i < |lines| ==> Clean(lines[i], "\n")
  {
    CleanChar(ScriptHeader, '\n');
    ClusterLineClean(clusterName);
    if auth.Some? {
      var settings := AuthSettings(auth.value, json).value;
      assert '\n' !in settings.0;
      AuthTypeLineClean(settings.0);
      AuthDataLineClean(settings.1);
    }
  }

  lemma ClusterLineClean(clusterName: string)
    requires '\n' !in clusterName
    ensures Clean(ClusterLine(clusterName), "\n")
  {
    LineClean("echo ECS_CLUSTER=", clusterName);
  }

  lemma AuthTypeLineClean(cfgType: string)
    requires '\n' !in cfgType
    ensures Clean(AuthTypeLine(cfgType), "\n")
  {
    LineClean("echo ECS_ENGINE_AUTH_TYPE=", cfgType);
  }

  lemma AuthDataLineClean(authStr: string)
    requires '\n' !in authStr
    ensures Clean(AuthDataLine(authStr), "\n")
  {
    LineClean("echo ECS_ENGINE_AUTH_DATA=", authStr);
  }

  // ---------------------------------------------------------------- launch parameters

  /** The JSON-like values of the launch parameters. */
  datatype Value = Str(s: string) | Num(n: int) | Bool(b: bool) | Obj(fields: map<string, Value>) | List(items: seq<Value>)

  /** DEFAULT_INSTANCE_PARAMS; the image id and instance type come from constants that are not part of this model. */
  function DefaultInstanceParams(amiId: string, instanceType: string): map<string, Value>
  {
    map[
      "ImageId" := Str(amiId),
      "MaxCount" := Num(1),
      "MinCount" := Num(1),
      "DisableApiTermination" := Bool(false),
      "IamInstanceProfile" := Obj(map["Name" := Str("ecsInstanceRole")]),
      "EbsOptimized" := Bool(false),
      "InstanceInitiatedShutdownBehavior" := Str("terminate"),
      "InstanceType" := Str(instanceType),
      "Monitoring" := Obj(map["Enabled" := Bool(true)]),
      "NetworkInterfaces" := List([Obj(map[
        "DeviceIndex" := Num(0),
        "AssociatePublicIpAddress" := Bool(true),
        "SubnetId" := Str("subnet-0b251420"),
        "DeleteOnTermination" := Bool(true),
        "Groups" := List([Str("sg-692ee50e")])])]),
      "Placement" := Obj(map["Tenancy" := Str("default")])
    ]
  }

  /** R.merge: a shallow overlay in which the second object's keys win. */
  function Merge(defaults: map<string, Value>, overlay: map<string, Value>): (r: map<string, Value>)
    ensures r.Keys == defaults.Keys + overlay.Keys
    ensures forall k :: k in overlay ==> r[k] == overlay[k]
    ensures forall k :: k in defaults && k !in overlay ==> r[k] == defaults[k]
  {
    defaults + overlay
  }

  /**
   * The parameters runInstances receives: the caller's fields, with UserData set to the boot
   * script, over the defaults.
   */
  function LaunchParams(amiId: string, instanceType: string, caller: map<string, Value>, userData: string): (r: map<string, Value>)
    ensures r.Keys == DefaultInstanceParams(amiId, instanceType).Keys + caller.Keys + {"UserData"}
    ensures r["UserData"] == Str(userData)
    ensures forall k :: k in caller && k != "UserData" ==> r[k] == caller[k]
    ensures forall k :: k in DefaultInstanceParams(amiId, instanceType) && k !in caller ==>
      r[k] == DefaultInstanceParams(amiId, instanceType)[k]
  {
    Merge(DefaultInstanceParams(amiId, instanceType), caller["UserData" := Str(userData)])
  }

  /** Unless the caller overrides the counts, exactly one instance is asked for. */
  lemma SingleInstanceByDefault(amiId: string, instanceType: string, caller: map<string, Value>, userData: string)
    requires "MinCount" !in caller && "MaxCount" !in caller
    ensures LaunchParams(amiId, instanceType, caller, userData)["MinCount"] == Num(1)
    ensures LaunchParams(amiId, instanceType, caller, userData)["MaxCount"] == Num(1)
  {
    DefaultCounts(amiId, instanceType);
  }

  lemma DefaultCounts(amiId: string, instanceType: string)
    ensures var d := DefaultInstanceParams(amiId, instanceType);
      "MinCount" in d && d["MinCount"] == Num(1) && "MaxCount" in d && d["MaxCount"] == Num(1)
  {
  }

  // ---------------------------------------------------------------- tagging

  datatype Tag = Tag(key: string, value: string)

  /** An instance description as the provider returns it: named properties with string values. */
  datatype Instance = Instance(properties: map<string, string>)

  /** Reading a property of a JavaScript object: undefined (None) when it is missing. */
  function Property(instance: Instance, name: string): (r: Option<string>)
    ensures r.Some? <==> name in instance.properties
  {
    if name in instance.properties then Some(instance.properties[name]) else None
  }

  /** The provider describes every instance by an "InstanceId" property, and by no misspelled one. */
  predicate FromProvider(instance: Instance)
  {
    "InstanceId" in instance.properties && "InstaneId" !in instance.properties
  }

  datatype Ec2Call =
    | RunInstances(params: map<string, Value>)
    | CreateTags(resource: Option<string>, tags: seq<Tag>)
    | DescribeInstances(instanceIds: seq<string>)

  function InstanceTags(pr: string, pid: string): seq<Tag>
  {
    [Tag(ClusternatorTag, "true"), Tag(PrTag, pr), Tag(ProjectTag, pid)]
  }

  /** tagInstance as written: the resource is read from the misspelled property "InstaneId". */
  function TagRequestAsWritten(instance: Instance, pr: string, pid: string): (r: Ec2Call)
    ensures r.CreateTags? && r.tags == InstanceTags(pr, pid)
    ensures FromProvider(instance) ==> r.resource == None
  {
    CreateTags(Property(instance, "InstaneId"), InstanceTags(pr, pid))
  }

  /** tagInstance as intended: the request names the launched instance. */
  function TagRequest(instance: Instance, pr: string, pid: string): (r: Ec2Call)
    ensures r.CreateTags? && r.tags == InstanceTags(pr, pid)
    ensures FromProvider(instance) ==> r.resource == Some(instance.properties["InstanceId"])
  {
    CreateTags(Property(instance, "InstanceId"), InstanceTags(pr, pid))
  }

  /** For an instance the provider returned, the written request names no resource at all. */
  lemma TagTargetMisspelled(id: string, pr: string, pid: string)
    ensures var instance := Instance(map["InstanceId" := id]);
      && TagRequestAsWritten(instance, pr, pid).resource == None
      && TagRequest(instance, pr, pid).resource == Some(id)
  {
    var instance := Instance(map["InstanceId" := id]);
    assert FromProvider(instance);
  }

  /** One tag request per instance, in the order the provider listed them. */
  function TagRequests(instances: seq<Instance>, pr: string, pid: string): (r: seq<Ec2Call>)
    ensures |r| == |instances|
    ensures forall i :: 0 <= i < |instances| ==> r[i] == TagRequest(instances[i], pr, pid)
  {
    seq(|instances|, i requires 0 <= i < |instances| => TagRequest(instances[i], pr, pid))
  }

  /** What runInstances answers: a failure, or the launched instances. */
  datatype Launch = LaunchFails | Launched(instances: seq<Instance>)

  // ---------------------------------------------------------------- the manager

  /** The caller's `apiConfig` object, which buildEc2Box changes in place. */
  class ApiConfig {
    var fields: map<string, Value>

    constructor (fields: map<string, Value>)
      ensures this.fields == fields
    {
      this.fields := fields;
    }
  }

  datatype Ec2Config = Ec2Config(clusterName: string, auth: Option<Auth>, apiConfig: Option<ApiConfig>,
                                 pr: string, pid: string)

  const ConfigMessage: string := "This function requires a configuration object"
  const ClusterNameMessage: string := "Instance requires cluster name"

  function ApiConfigOf(config: Option<Ec2Config>): set<ApiConfig>
  {
    if config.Some? && config.value.apiConfig.Some? then {config.value.apiConfig.value} else {}
  }

  /**
   * The error buildEc2Box fails with before calling the provider, if any: no config, no cluster
   * name, a bad credential (thrown while building the script), then no apiConfig to write the
   * script into.
   */
  function Precheck(config: Option<Ec2Config>, json: Json): (e: Option<Ec2Error>)
    ensures e.None? <==> && config.Some? && config.value.clusterName != ""
                         && EncodedScript(config.value.clusterName, config.value.auth, json).Ok?
                         && config.value.apiConfig.Some?
    ensures config.None? ==> e == Some(Thrown(ConfigMessage))
    ensures config.Some? && config.value.clusterName == "" ==> e == Some(Thrown(ClusterNameMessage))
  {
    if config.None? then Some(Thrown(ConfigMessage))
    else if config.value.clusterName == "" then Some(Thrown(ClusterNameMessage))
    else match EncodedScript(config.value.clusterName, config.value.auth, json)
      case Err(err) => Some(err)
      case Ok(_) => if config.value.apiConfig.None? then Some(TypeError) else None
  }

  predicate SomeTagFails(count: nat, tagFailures: set<nat>)
  {
    exists i :: 0 <= i < count && i in tagFailures
  }

  /** The EC2 client as the manager uses it: `calls` records every request sent to the provider. */
  class Ec2Manager {
    const amiId: string
    const instanceType: string
    var calls: seq<Ec2Call>

    constructor (amiId: string, instanceType: string)
      ensures this.amiId == amiId && this.instanceType == instanceType && calls == []
    {
      this.amiId := amiId;
      this.instanceType := instanceType;
      calls := [];
    }

    /**
     * buildEc2Box (createEC2Instance): fails fast without a remote call, or writes the boot script
     * into the caller's apiConfig, launches with the merged parameters and sends one tag request
     * per launched instance; it fails if the launch or any tag request fails.
     */
    method BuildEc2Box(config: Option<Ec2Config>, json: Json, launch: Launch, tagFailures: set<nat>)
      returns (r: Result<(), Ec2Error>)
      modifies this, ApiConfigOf(config)
      ensures Precheck(config, json).Some? ==>
        r == Err(Precheck(config, json).value) && calls == old(calls) && unchanged(ApiConfigOf(config))
      ensures Precheck(config, json).None? ==>
        var c := config.value;
        var userData := EncodedScript(c.clusterName, c.auth, json).value;
        && c.apiConfig.value.fields == old(c.apiConfig.value.fields)["UserData" := Str(userData)]
        && calls == old(calls) + [RunInstances(LaunchParams(amiId, instanceType, old(c.apiConfig.value.fields), userData))]
                    + (if launch.Launched? then TagRequests(launch.instances, c.pr, c.pid) else [])
        && r == (if launch.LaunchFails? then Err(RemoteError)
                 else if SomeTagFails(|launch.instances|, tagFailures) then Err(RemoteError)
                 else Ok(()))
    {
      if config.None? {
        return Err(Thrown(ConfigMessage));
      }
      var c := config.value;
      if c.clusterName == "" {
        return Err(Thrown(ClusterNameMessage));
      }
      var userData := UserData(c.clusterName, c.auth, json);
      if userData.Err? {
        return Err(userData.error);
      }
      if c.apiConfig.None? {
        return Err(TypeError);
      }
      var apiConfig := c.apiConfig.value;
      apiConfig.fields := apiConfig.fields["UserData" := Str(userData.value)];
      var params := Merge(DefaultInstanceParams(amiId, instanceType), apiConfig.fields);
      assert params == LaunchParams(amiId, instanceType, old(apiConfig.fields), userData.value);
      calls := calls + [RunInstances(params)];
      if launch.LaunchFails? {
        return Err(RemoteError);
      }
      var failed := TagInstances(launch.instances, c.pr, c.pid, tagFailures);
      r := if failed then Err(RemoteError) else Ok(());
    }

    /** The forEach of buildEc2Box: one tag request per instance; `failed` when any of them fails. */
    method TagInstances(instances: seq<Instance>, pr: string, pid: string, tagFailures: set<nat>) returns (failed: bool)
      modifies this
      ensures calls == old(calls) + TagRequests(instances, pr, pid)
      ensures failed <==> SomeTagFails(|instances|, tagFailures)
    {
      var i := 0;
      failed := false;
      while i < |instances|
        invariant 0 <= i <= |instances|
        invariant calls == old(calls) + TagRequests(instances[..i], pr, pid)
        invariant failed <==> SomeTagFails(i, tagFailures)
      {
        calls := calls + [TagRequest(instances[i], pr, pid)];
        failed := failed || i in tagFailures;
        i := i + 1;
      }
      assert instances[..i] == instances;
    }

    /** checkInstanceStatuses: refuses an empty id list, otherwise describes exactly those instances. */
    method CheckInstanceStatuses(instanceIds: seq<string>, reply: Option<Value>) returns (r: Result<Value, Ec2Error>)
      modifies this
      ensures instanceIds == [] ==> r == Err(Thrown("No instance IDs")) && calls == old(calls)
      ensures instanceIds != [] ==> calls == old(calls) + [DescribeInstances(instanceIds)]
      ensures instanceIds != [] ==> r == (if reply.None? then Err(RemoteError) else Ok(reply.value))
    {
      if |instanceIds| == 0 {
        return Err(Thrown("No instance IDs"));
      }
      calls := calls + [DescribeInstances(instanceIds)];
      r := if reply.None? then Err(RemoteError) else Ok(reply.value);
    }
  }
}
