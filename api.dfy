/**
 * The authorisation and execution layer of the REST API, version 0.1: a command is addressed by
 * a namespace and a command name; the configuration may require a privilege level for it; a user
 * whose numeric authority is at most that level may run it (a lower number is more powerful);
 * the command is then looked up and run on the request body.
 */
module ClusternatorApi {
  import opened Wrappers

  /** The JavaScript values the layer inspects; a function is known by its name. */
  datatype JsValue =
    | Undefined
    | Null
    | Bool(b: bool)
    | Num(n: int)
    | Str(s: string)
    | Obj(fields: map<string, JsValue>)
    | Fn(name: string)

  /** `v[key]`: a missing property, or any property of a non-object, reads as undefined. */
  function Get(v: JsValue, key: string): (r: JsValue)
    ensures v.Obj? && key in v.fields ==> r == v.fields[key]
    ensures !(v.Obj? && key in v.fields) ==> r == Undefined
  {
    if v.Obj? && key in v.fields then v.fields[key] else Undefined
  }

  /** JavaScript truthiness. */
  predicate Truthy(v: JsValue)
  {
    match v
    case Undefined => false
    case Null => false
    case Bool(b) => b
    case Num(n) => n != 0
    case Str(s) => s != ""
    case Obj(_) => true
    case Fn(_) => true
  }

  // ---------------------------------------------------------------- numbers

  predicate IsSpace(c: char)
  {
    c == ' ' || c == '\t' || c == '\n' || c == '\r'
  }

  function TrimStart(s: string): (r: string)
    ensures |r| <= |s| && r == s[|s| - |r|..]
    ensures r != "" ==> !IsSpace(r[0])
    ensures forall i :: 0 <= i < |s| - |r| ==> IsSpace(s[i])
  {
    if s != "" && IsSpace(s[0]) then TrimStart(s[1..]) else s
  }

  function TrimEnd(s: string): (r: string)
    ensures |r| <= |s| && r == s[..|r|]
    ensures r != "" ==> !IsSpace(r[|r| - 1])
    ensures forall i :: |r| <= i < |s| ==> IsSpace(s[i])
  {
    if s != "" && IsSpace(s[|s| - 1]) then TrimEnd(s[..|s| - 1]) else s
  }

  predicate IsDigit(c: char)
  {
    '0' <= c <= '9'
  }

  /** The value of a run of decimal digits. */
  function DigitsValue(s: string): (r: nat)
    requires forall i :: 0 <= i < |s| ==> IsDigit(s[i])
  {
    if s == "" then 0
    else
      assert IsDigit(s[|s| - 1]);
      var d: nat := s[|s| - 1] as int - '0' as int;
      DigitsValue(s[..|s| - 1]) * 10 + d
  }

  predicate AllDigits(s: string)
  {
    s != "" && forall i :: 0 <= i < |s| ==> IsDigit(s[i])
  }

  /**
   * The unary `+` on a string, for whole decimal numbers: surrounding white space is ignored, blank
   * text is 0, an optional sign and digits give their value, and anything else is NaN (None).
   */
  function StringToNumber(s: string): (r: Option<int>)
  {
    var t := TrimEnd(TrimStart(s));
    if t == "" then Some(0)
    else if AllDigits(t) then Some(DigitsValue(t))
    else if t[0] == '-' && AllDigits(t[1..]) then Some(0 - DigitsValue(t[1..]))
    else if t[0] == '+' && AllDigits(t[1..]) then Some(DigitsValue(t[1..]))
    else None
  }

  /** The unary `+`: None stands for NaN. */
  function ToNumber(v: JsValue): (r: Option<int>)
    ensures v.Num? ==> r == Some(v.n)
    ensures v == Null ==> r == Some(0)
    ensures v == Undefined || v.Obj? || v.Fn? ==> r == None
  {
    match v
    case Undefined => None
    case Null => Some(0)
    case Bool(b) => Some(if b then 1 else 0)
    case Num(n) => Some(n)
    case Str(s) => StringToNumber(s)
    case Obj(_) => None
    case Fn(_) => None
  }

  // ---------------------------------------------------------------- authorisation

  const CommandPrivileges: string := "commandPrivileges"

  /**
   * commandPrivFromNamespace: the privilege the configuration requires for `namespace.command`;
   * null when there is no privilege table, no (truthy) entry for the namespace or no entry for
   * the command; otherwise the entry as stored, 0 and other falsy values included.
   */
  function CommandPriv(config: JsValue, namespace: string, command: string): (r: JsValue)
    ensures !Truthy(Get(config, CommandPrivileges)) ==> r == Null
    ensures !Truthy(Get(Get(config, CommandPrivileges), namespace)) ==> r == Null
    ensures Get(Get(Get(config, CommandPrivileges), namespace), command) == Undefined ==> r == Null
    ensures Truthy(Get(config, CommandPrivileges)) && Truthy(Get(Get(config, CommandPrivileges), namespace)) ==>
      var entry := Get(Get(Get(config, CommandPrivileges), namespace), command);
      r == (if entry == Undefined then Null else entry)
  {
    var cp := Get(config, CommandPrivileges);
    if !Truthy(cp) then Null
    else
      var ns := Get(cp, namespace);
      if !Truthy(ns) then Null
      else
        var entry := Get(ns, command);
        if entry == Undefined then Null else entry
  }

  /** `+authority <= +required`: a comparison with NaN is false. */
  predicate Authorized(authority: JsValue, required: JsValue)
  {
    var a, q := ToNumber(authority), ToNumber(required);
    a.Some? && q.Some? && a.value <= q.value
  }

  /** A null requirement acts as 0: only authority at most 0 passes. */
  lemma NullRequirementActsAsZero(authority: JsValue)
    ensures Authorized(authority, Null) <==> ToNumber(authority).Some? && ToNumber(authority).value <= 0
  {
  }

  /** An undefined, object or non-numeric authority never passes, whatever is required. */
  lemma NonNumericAuthorityDenied(authority: JsValue, required: JsValue)
    requires authority == Undefined || authority.Obj? || ToNumber(authority) == None
    ensures !Authorized(authority, required)
  {
  }

  /** A lower number is more powerful: what one authority may run, any lower one may run too. */
  lemma LowerAuthorityIsStronger(a: JsValue, b: JsValue, required: JsValue)
    requires Authorized(a, required)
    requires ToNumber(b).Some? && ToNumber(b).value <= ToNumber(a).value
    ensures Authorized(b, required)
  {
  }

  /** A command the configuration does not list is open only to authority at most 0. */
  lemma UnlistedCommandNeedsTopAuthority(config: JsValue, namespace: string, command: string, authority: JsValue)
    requires Get(Get(Get(config, CommandPrivileges), namespace), command) == Undefined
    ensures Authorized(authority, CommandPriv(config, namespace, command))
      <==> ToNumber(authority).Some? && ToNumber(authority).value <= 0
  {
    NullRequirementActsAsZero(authority);
  }

  /** A requirement written as decimal text compares like the number. */
  lemma TextRequirementIsNumeric(authority: JsValue, digits: string)
    requires AllDigits(digits)
    ensures Authorized(authority, Str(digits)) <==> Authorized(authority, Num(DigitsValue(digits)))
  {
    assert TrimStart(digits) == digits;
    assert TrimEnd(digits) == digits;
  }

  // ---------------------------------------------------------------- the response

  /** What the layer does to the response and the `next` callback. */
  datatype Event =
    | SetStatus(code: int)
    | SendJson(body: JsValue)
    | CallNext
    | RunCommand(command: JsValue, body: JsValue)

  function ErrorBody(message: string): JsValue
  {
    Obj(map["error" := Str(message)])
  }

  const NotAuthorizedMessage: string := "Not Authorized"
  const BadNamespaceMessage: string := "Invalid Command (bad namespace)"
  const BadFunctionMessage: string := "Invalid Command (bad function)"

  /** The error reading `authority` off a missing user record raises (its wording is the engine's). */
  function MissingUserMessage(userAuth: JsValue): string
  {
    "Cannot read property 'authority' of " + (if userAuth == Null then "null" else "undefined")
  }

  function Fail(message: string): seq<Event>
  {
    [SetStatus(500), SendJson(ErrorBody(message))]
  }

  /**
   * authorizeCommand's effect, given what looking up the user's authority gave: `next` once when
   * the user is authorised; otherwise 403 "Not Authorized"; a failed lookup (or a missing record)
   * is a 500 with the error's message.
   */
  function AuthorizeEvents(config: JsValue, namespace: string, command: string, found: Result<JsValue, string>)
    : (r: seq<Event>)
    ensures CallNext in r <==>
      found.Ok? && found.value != Undefined && found.value != Null
      && Authorized(Get(found.value, "authority"), CommandPriv(config, namespace, command))
    ensures CallNext in r ==> r == [CallNext]
    ensures CallNext !in r ==> |r| == 2 && (r[0] == SetStatus(403) || r[0] == SetStatus(500))
    ensures r == [SetStatus(403), SendJson(ErrorBody(NotAuthorizedMessage))] <==>
      found.Ok? && found.value != Undefined && found.value != Null
      && !Authorized(Get(found.value, "authority"), CommandPriv(config, namespace, command))
    ensures found.Err? ==> r == Fail(found.error)
    ensures found.Ok? && (found.value == Undefined || found.value == Null) ==> r == Fail(MissingUserMessage(found.value))
  {
    match found
    case Err(message) => Fail(message)
    case Ok(userAuth) =>
      if userAuth == Undefined || userAuth == Null then Fail(MissingUserMessage(userAuth))
      else if Authorized(Get(userAuth, "authority"), CommandPriv(config, namespace, command)) then [CallNext]
      else [SetStatus(403), SendJson(ErrorBody(NotAuthorizedMessage))]
  }

  /**
   * executeCommand's effect, given the reply of the command it runs: a namespace that is not a
   * truthy entry is a 500 before anything runs; so is a command that is not a function; otherwise
   * the command runs once on the request body and its output (or its error) is sent.
   */
  function ExecuteEvents(commands: JsValue, namespace: string, command: string, body: JsValue,
                         reply: Result<JsValue, string>)
    : (r: seq<Event>)
    ensures !Truthy(Get(commands, namespace)) ==> r == Fail(BadNamespaceMessage)
    ensures Truthy(Get(commands, namespace)) && !Get(Get(commands, namespace), command).Fn? ==>
      r == Fail(BadFunctionMessage)
    ensures forall i :: 0 <= i < |r| && r[i].RunCommand? ==>
      i == 0 && r[i] == RunCommand(Get(Get(commands, namespace), command), body)
    ensures (|r| > 0 && r[0].RunCommand?) <==>
      Truthy(Get(commands, namespace)) && Get(Get(commands, namespace), command).Fn?
    ensures |r| > 0 && r[0].RunCommand? && reply.Ok? ==> r[1..] == [SendJson(reply.value)]
    ensures |r| > 0 && r[0].RunCommand? && reply.Err? ==> r[1..] == Fail(reply.error)
  {
    var ns := Get(commands, namespace);
    if !Truthy(ns) then Fail(BadNamespaceMessage)
    else
      var fn := Get(ns, command);
      if !fn.Fn? then Fail(BadFunctionMessage)
      else
        [RunCommand(fn, body)] + match reply
          case Ok(output) => [SendJson(output)]
          case Err(message) => Fail(message)
  }

  /** One request's response object and `next` callback; `events` records every call on them. */
  class Exchange {
    var events: seq<Event>

    constructor ()
      ensures events == []
    {
      events := [];
    }

    method Respond(code: int, body: JsValue)
      modifies this
      ensures events == old(events) + [SetStatus(code), SendJson(body)]
    {
      events := events + [SetStatus(code)];
      events := events + [SendJson(body)];
    }

    /** authorizeCommand's handler, once the user's authority record has been looked up. */
    method AuthorizeCommand(config: JsValue, namespace: string, command: string, found: Result<JsValue, string>)
      modifies this
      ensures events == old(events) + AuthorizeEvents(config, namespace, command, found)
    {
      var required := CommandPriv(config, namespace, command);
      if found.Err? {
        Respond(500, ErrorBody(found.error));
        return;
      }
      var userAuth := found.value;
      if userAuth == Undefined || userAuth == Null {
        Respond(500, ErrorBody(MissingUserMessage(userAuth)));
        return;
      }
      if Authorized(Get(userAuth, "authority"), required) {
        events := events + [CallNext];
        return;
      }
      Respond(403, ErrorBody(NotAuthorizedMessage));
    }

    /** executeCommand's handler, given what the command it runs replies. */
    method ExecuteCommand(commands: JsValue, namespace: string, command: string, body: JsValue,
                          reply: Result<JsValue, string>)
      modifies this
      ensures events == old(events) + ExecuteEvents(commands, namespace, command, body, reply)
    {
      var ns := Get(commands, namespace);
      if !Truthy(ns) {
        Respond(500, ErrorBody(BadNamespaceMessage));
        return;
      }
      var fn := Get(ns, command);
      if !fn.Fn? {
        Respond(500, ErrorBody(BadFunctionMessage));
        return;
      }
      events := events + [RunCommand(fn, body)];
      match reply
      case Ok(output) => events := events + [SendJson(output)];
      case Err(message) => Respond(500, ErrorBody(message));
    }
  }
}
