/** Container sampler (`get_docker`): the runtime's JSON-lines output is
    split into non-empty lines, every line is decoded, and every decoded
    record is mapped to a `Docker` value. Running the runtime command is not
    modelled: the sampler starts from the text it printed. */
module Containers {
  import opened Wrappers
  import opened Text
  import opened Json
  import opened Records

  /** The Python exception that aborts the sampler. */
  datatype DockerError =
    | JsonDecodeError(line: string)  // json.loads rejected a line
    | KeyError(key: string)          // an object lacks a required key
    | TypeError(key: string)         // a non-object was subscripted with key
    | AttributeError(attr: string)   // Name has no .replace, Ports has no .keys

  /** The keys read from the `State` object, in evaluation order. */
  const StateKeys: seq<string> := ["Status", "Running", "Paused", "Restarting", "Dead",
                                   "Pid", "ExitCode", "Error", "StartedAt", "FinishedAt"]

  /** `x[a][b]`, when both subscripts succeed. */
  function Lookup2(x: Json, a: string, b: string): Option<Json>
  {
    match Lookup(x, a)
    case Some(inner) => Lookup(inner, b)
    case None => None
  }

  /** What a decoded line must look like for the mapping to succeed: every
      key it reads is present, `Name` is a string and `Ports` an object.
      Other values are taken as they are. */
  ghost predicate IsContainerRecord(x: Json)
  {
    && (forall i :: 0 <= i < |StateKeys| ==> Lookup2(x, "State", StateKeys[i]).Some?)
    && Lookup(x, "Name").Some? && Lookup(x, "Name").value.JString?
    && Lookup(x, "RestartCount").Some?
    && Lookup2(x, "NetworkSettings", "Ports").Some?
    && Lookup2(x, "NetworkSettings", "Ports").value.JObject?
  }

  /** Python's `j[key]`: the value, a `KeyError` on an object without the
      key, a `TypeError` on anything that is not an object. */
  function Subscript(j: Json, key: string): (r: Result<Json, DockerError>)
    ensures r.Success? <==> Lookup(j, key).Some?
    ensures r.Success? ==> r.value == Lookup(j, key).value
    ensures r.Failure? && j.JObject? ==> r.error == KeyError(key)
    ensures r.Failure? && !j.JObject? ==> r.error == TypeError(key)
  {
    match Lookup(j, key)
    case Some(v) => Success(v)
    case None => Failure(if j.JObject? then KeyError(key) else TypeError(key))
  }

  /** `[j[k] for k in keys]`: every value, or the first failing subscript. */
  function SubscriptAll(j: Json, keys: seq<string>): (r: Result<seq<Json>, DockerError>)
    ensures r.Success? <==> forall i :: 0 <= i < |keys| ==> Lookup(j, keys[i]).Some?
    ensures r.Success? ==> |r.value| == |keys|
    ensures r.Success? ==> forall i :: 0 <= i < |keys| ==> Lookup(j, keys[i]) == Some(r.value[i])
  {
    if |keys| == 0 then Success([])
    else
      var head :- Subscript(j, keys[0]);
      var tail :- SubscriptAll(j, keys[1..]);
      Success([head] + tail)
  }

  /** The `DockerState(...)` constructor call: each field is `x['State'][k]`. */
  function ToState(s: Json): (r: Result<DockerState, DockerError>)
    ensures r.Success? <==> forall i :: 0 <= i < |StateKeys| ==> Lookup(s, StateKeys[i]).Some?
    ensures r.Success? ==>
      && Lookup(s, "Status") == Some(r.value.status)
      && Lookup(s, "Running") == Some(r.value.running)
      && Lookup(s, "Paused") == Some(r.value.paused)
      && Lookup(s, "Restarting") == Some(r.value.restarting)
      && Lookup(s, "Dead") == Some(r.value.dead)
      && Lookup(s, "Pid") == Some(r.value.pid)
      && Lookup(s, "ExitCode") == Some(r.value.exitCode)
      && Lookup(s, "Error") == Some(r.value.error)
      && Lookup(s, "StartedAt") == Some(r.value.startedAt)
      && Lookup(s, "FinishedAt") == Some(r.value.finishedAt)
  {
    var v :- SubscriptAll(s, StateKeys);
    Success(DockerState(v[0], v[1], v[2], v[3], v[4], v[5], v[6], v[7], v[8], v[9]))
  }

  /** The `Docker(...)` constructor call for one decoded line. */
  function ToDocker(x: Json): (r: Result<Docker, DockerError>)
    ensures r.Success? <==> IsContainerRecord(x)
    ensures r.Success? ==>
      && Lookup(x, "State").Some?
      && ToState(Lookup(x, "State").value) == Success(r.value.state)
      && r.value.name == RemoveAll(Lookup(x, "Name").value.s, '/')
      && '/' !in r.value.name
      && Lookup(x, "RestartCount") == Some(r.value.restartCount)
      && Some(r.value.ports) == Keys(Lookup2(x, "NetworkSettings", "Ports").value)
  {
    assert Lookup(x, "State").None? ==> Lookup2(x, "State", StateKeys[0]).None?;
    var state :- Subscript(x, "State");
    assert forall k :: Lookup2(x, "State", k) == Lookup(state, k);
    var st :- ToState(state);
    var name :- Subscript(x, "Name");
    var text :- if name.JString? then Success(name.s) else Failure(AttributeError("replace"));
    var restarts :- Subscript(x, "RestartCount");
    var settings :- Subscript(x, "NetworkSettings");
    var ports :- Subscript(settings, "Ports");
    var keys :- if ports.JObject? then Success(ports.fields.Keys) else Failure(AttributeError("keys"));
    Success(Docker(st, RemoveAll(text, '/'), restarts, keys))
  }

  /** `[json.loads(x) for x in lines]`: all lines or the first failure. */
  function DecodeAll(lines: seq<string>, decode: string -> Option<Json>): (r: Result<seq<Json>, DockerError>)
    ensures r.Success? <==> forall i :: 0 <= i < |lines| ==> decode(lines[i]).Some?
    ensures r.Success? ==> |r.value| == |lines|
    ensures r.Success? ==> forall i :: 0 <= i < |lines| ==> decode(lines[i]) == Some(r.value[i])
    ensures r.Failure? ==> exists i :: 0 <= i < |lines| && decode(lines[i]).None?
                            && r.error == JsonDecodeError(lines[i])
                            && forall j :: 0 <= j < i ==> decode(lines[j]).Some?
  {
    if |lines| == 0 then Success([])
    else
      match decode(lines[0])
      case None => Failure(JsonDecodeError(lines[0]))
      case Some(head) =>
        var tail :- DecodeAll(lines[1..], decode);
        Success([head] + tail)
  }

  /** The `[Docker(...) for x in container_data]` comprehension of
      `get_docker`: all records or the first failure. */
  function ToDockers(records: seq<Json>): (r: Result<seq<Docker>, DockerError>)
    ensures r.Success? <==> forall i :: 0 <= i < |records| ==> IsContainerRecord(records[i])
    ensures r.Success? ==> |r.value| == |records|
    ensures r.Success? ==> forall i :: 0 <= i < |records| ==> ToDocker(records[i]) == Success(r.value[i])
    ensures r.Failure? ==> exists i :: 0 <= i < |records| && ToDocker(records[i]) == Failure(r.error)
                            && forall j :: 0 <= j < i ==> ToDocker(records[j]).Success?
  {
    if |records| == 0 then Success([])
    else
      var head :- ToDocker(records[0]);
      var tail :- ToDockers(records[1..]);
      Success([head] + tail)
  }

  /** `get_docker` from the runtime's output onwards. */
  function GetDocker(output: string, decode: string -> Option<Json>): (r: Result<seq<Docker>, DockerError>)
    ensures var lines := Lines(output);
      r.Success? <==> forall i :: 0 <= i < |lines| ==>
        decode(lines[i]).Some? && IsContainerRecord(decode(lines[i]).value)
    ensures var lines := Lines(output);
      r.Success? ==> (|r.value| == |lines| &&
        forall i :: 0 <= i < |lines| ==> ToDocker(decode(lines[i]).value) == Success(r.value[i]))
    ensures var lines := Lines(output);
      (exists i :: 0 <= i < |lines| && decode(lines[i]).None?) ==>
        r.Failure? && r.error.JsonDecodeError? && r.error.line in lines
    ensures r.Success? ==> forall i :: 0 <= i < |r.value| ==> '/' !in r.value[i].name
  {
    var records :- DecodeAll(Lines(output), decode);
    ToDockers(records)
  }

  /** No output at all, or only newlines (the runtime listed no containers
      or failed), gives an empty list rather than an error. */
  lemma GetDockerNoLines(output: string, decode: string -> Option<Json>)
    requires forall i :: 0 <= i < |output| ==> output[i] == '\n'
    ensures GetDocker(output, decode) == Success([])
  {
    LinesOfNewlines(output);
  }

  /** One newline-terminated line per container, read back as exactly one
      record per line in the same order; every name has lost its '/'. */
  lemma GetDockerPerLine(lines: seq<string>, decode: string -> Option<Json>)
    requires |lines| > 0
    requires forall i :: 0 <= i < |lines| ==> lines[i] != "" && '\n' !in lines[i]
    requires forall i :: 0 <= i < |lines| ==>
      decode(lines[i]).Some? && IsContainerRecord(decode(lines[i]).value)
    ensures var r := GetDocker(Join(lines, '\n') + "\n", decode);
      && r.Success?
      && |r.value| == |lines|
      && forall i :: 0 <= i < |lines| ==>
           && ToDocker(decode(lines[i]).value) == Success(r.value[i])
           && r.value[i].name == RemoveAll(Lookup(decode(lines[i]).value, "Name").value.s, '/')
  {
    LinesTrailingNewline(Join(lines, '\n'));
    LinesJoin(lines);
  }

  /** A single undecodable line fails the whole call, even when the line
      before it is a valid record: no partial list is returned, and the
      first undecodable line is the one reported. */
  lemma BadLineFailsAll(good: string, bad: string, decode: string -> Option<Json>)
    requires good != "" && '\n' !in good && bad != "" && '\n' !in bad
    requires decode(bad).None?
    ensures GetDocker(good + "\n" + bad + "\n", decode)
      == Failure(JsonDecodeError(if decode(good).None? then good else bad))
  {
    assert Join([good, bad], '\n') + "\n" == good + "\n" + bad + "\n";
    LinesTrailingNewline(Join([good, bad], '\n'));
    LinesJoin([good, bad]);
  }
}
