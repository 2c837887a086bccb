/**
 * The declarative (Diego) backend client: which apps it stages and runs, the desire
 * request it publishes, the staging request that stamps the token first, and the
 * handling of the placement tracker's (TPS) reply for a process's instances.
 */
module DiegoClient {
  import opened Common
  import opened Apps
  import opened Messaging

  /** A value of the desire request hash. */
  datatype Value = Str(s: string) | Int(i: int) | Strs(items: seq<string>)

  /** `(app.environment_json || {})[key]`. */
  function EnvValue(env: Option<map<string, string>>, key: string): (v: Option<string>)
    ensures v.Some? <==> key in env.GetOr(map[])
    ensures v.Some? ==> v.value == env.GetOr(map[])[key]
  {
    var m := env.GetOr(map[]);
    if key in m then Some(m[key]) else None
  }

  /** Diego runs an app when the client is enabled and the app's run-beta flag is the string "true". */
  predicate RunningEnabled(enabled: bool, a: Attrs)
    ensures RunningEnabled(enabled, a) ==> enabled && a.environment.Some?
    ensures RunningEnabled(enabled, a) <==>
              enabled && a.environment.Some? && "CF_DIEGO_RUN_BETA" in a.environment.value &&
              a.environment.value["CF_DIEGO_RUN_BETA"] == "true"
  {
    enabled && EnvValue(a.environment, "CF_DIEGO_RUN_BETA") == Some("true")
  }

  /** Diego stages an app when the client is enabled and either beta flag is the string "true". */
  predicate StagingEnabled(enabled: bool, a: Attrs)
    ensures StagingEnabled(enabled, a) ==> enabled
    ensures RunningEnabled(enabled, a) ==> StagingEnabled(enabled, a)
    ensures StagingEnabled(enabled, a) <==>
              enabled && (EnvValue(a.environment, "CF_DIEGO_RUN_BETA") == Some("true") ||
                          EnvValue(a.environment, "CF_DIEGO_BETA") == Some("true"))
  {
    if !enabled then false
    else RunningEnabled(enabled, a) || EnvValue(a.environment, "CF_DIEGO_BETA") == Some("true")
  }

  /** An app with no environment at all is treated as one with an empty environment. */
  lemma NilEnvironmentIsEmpty(enabled: bool, a: Attrs)
    requires a.environment.None?
    ensures RunningEnabled(enabled, a) == RunningEnabled(enabled, a.(environment := Some(map[])))
    ensures StagingEnabled(enabled, a) == StagingEnabled(enabled, a.(environment := Some(map[])))
    ensures !StagingEnabled(enabled, a)
  {
  }

  /** Diego must stage the app: it stages for Diego, and it needs staging or has no detected command. */
  predicate StagingNeeded(enabled: bool, a: Attrs, detectedStartCommand: string)
    ensures !StagingEnabled(enabled, a) ==> !StagingNeeded(enabled, a, detectedStartCommand)
    ensures StagingEnabled(enabled, a) && detectedStartCommand == "" ==> StagingNeeded(enabled, a, detectedStartCommand)
    ensures StagingEnabled(enabled, a) && a.needsStaging ==> StagingNeeded(enabled, a, detectedStartCommand)
    ensures StagingNeeded(enabled, a, detectedStartCommand) && !a.needsStaging ==> detectedStartCommand == ""
  {
    StagingEnabled(enabled, a) && (a.needsStaging || |detectedStartCommand| == 0)
  }

  /** The process guid: the app guid and the app version joined by a dash. */
  function LrpGuid(a: Attrs): (g: string)
    ensures |g| == |a.guid| + 1 + |a.version|
    ensures g[..|a.guid|] == a.guid && g[|a.guid|] == '-' && g[|a.guid| + 1..] == a.version
  {
    a.guid + "-" + a.version
  }

  /** Declared instances when the app is started, none otherwise. */
  function DesiredInstances(a: Attrs): (n: nat)
    ensures a.started ==> n == a.instances
    ensures !a.started ==> n == 0
  {
    if a.started then a.instances else 0
  }

  const HealthCheckKey := "health_check_timeout_in_seconds"

  /** The keys every desire request carries. */
  const BaseDesireKeys: set<string> := {"process_guid", "memory_mb", "disk_mb", "file_descriptors", "droplet_uri",
                                        "stack", "start_command", "environment", "num_instances", "routes", "log_guid"}

  /**
   * `desire_request`: the desire message as a hash. The droplet URI (from the blobstore) and the
   * rendered environment (`Environment#to_a`) come from collaborators and are inputs here.
   */
  function DesireRequest(a: Attrs, detectedStartCommand: string, dropletUri: string, environment: seq<string>): (m: map<string, Value>)
    ensures m.Keys == BaseDesireKeys + (if a.healthCheckTimeout.Some? then {HealthCheckKey} else {})
    ensures m["process_guid"] == Str(a.guid + "-" + a.version)
    ensures m["num_instances"] == Int(if a.started then a.instances else 0)
    ensures m["log_guid"] == Str(a.guid) && m["start_command"] == Str(detectedStartCommand)
    ensures m["memory_mb"] == Int(a.memory) && m["disk_mb"] == Int(a.diskQuota) && m["routes"] == Strs(a.uris)
    ensures m["file_descriptors"] == Int(a.fileDescriptors) && m["stack"] == Str(a.stack)
    ensures m["droplet_uri"] == Str(dropletUri) && m["environment"] == Strs(environment)
    ensures HealthCheckKey in m <==> a.healthCheckTimeout.Some?
    ensures HealthCheckKey in m ==> m[HealthCheckKey] == Int(a.healthCheckTimeout.value)
  {
    var base := map[
      "process_guid" := Str(LrpGuid(a)),
      "memory_mb" := Int(a.memory),
      "disk_mb" := Int(a.diskQuota),
      "file_descriptors" := Int(a.fileDescriptors),
      "droplet_uri" := Str(dropletUri),
      "stack" := Str(a.stack),
      "start_command" := Str(detectedStartCommand),
      "environment" := Strs(environment),
      "num_instances" := Int(DesiredInstances(a)),
      "routes" := Strs(a.uris),
      "log_guid" := Str(a.guid)];
    if a.healthCheckTimeout.Some? then base[HealthCheckKey := Int(a.healthCheckTimeout.value)] else base
  }

  /** Messages the client publishes. */
  datatype DiegoPayload =
    | DesireApp(request: map<string, Value>)
    | StageStart(appId: string, taskId: Option<Token>)

  /** One instance as reported by the placement tracker (already parsed from JSON). */
  datatype TpsInstance = TpsInstance(processGuid: string, instanceGuid: string, index: int, state: string, sinceInNs: int)

  /** One instance as returned to callers. */
  datatype LrpInstance = LrpInstance(processGuid: string, instanceGuid: string, index: int, state: string, since: int)

  /** The HTTP exchange with the tracker: the connection was refused, or a status code and the parsed body. */
  datatype TpsExchange = ConnectionRefused | Response(code: string, instances: seq<TpsInstance>)

  datatype Unavailable = Unavailable

  const NanosecondsPerSecond := 1_000_000_000

  /** Ruby's `String#upcase` on ASCII letters. */
  function UpcaseChar(c: char): char {
    if 'a' <= c <= 'z' then (c as int - 32) as char else c
  }

  function Upcase(s: string): (u: string)
    ensures |u| == |s|
    ensures forall i :: 0 <= i < |s| ==> u[i] == UpcaseChar(s[i])
  {
    if s == [] then [] else [UpcaseChar(s[0])] + Upcase(s[1..])
  }

  /** Upcasing leaves no lower-case ASCII letter and is idempotent. */
  lemma UpcaseIsCanonical(s: string)
    ensures forall i :: 0 <= i < |Upcase(s)| ==> !('a' <= Upcase(s)[i] <= 'z')
    ensures Upcase(Upcase(s)) == Upcase(s)
  {
  }

  class Client {
    const enabled: bool
    const bus: Bus<DiegoPayload>

    constructor (enabled: bool, bus: Bus<DiegoPayload>)
      ensures this.enabled == enabled && this.bus == bus
    {
      this.enabled := enabled;
      this.bus := bus;
    }

    /** `send_desire_request`: publish the desire message. */
    method SendDesireRequest(app: App, dropletUri: string, environment: seq<string>)
      modifies bus
      ensures bus.published == old(bus.published) +
                [Message("diego.desire.app", DesireApp(DesireRequest(app.attrs, app.detectedStartCommand, dropletUri, environment)))]
    {
      bus.Publish(Message("diego.desire.app", DesireApp(DesireRequest(app.attrs, app.detectedStartCommand, dropletUri, environment))));
    }

    /**
     * `send_stage_request`: stamp the token on the app, then build the staging request from the
     * app as it now is and publish it once; the published request carries the new token.
     */
    method SendStageRequest(app: App, stagingTaskId: Token)
      modifies app, bus
      ensures app.State() == old(app.State()).(stagingTaskId := Some(stagingTaskId))
      ensures bus.published == old(bus.published) +
                [Message("diego.staging.start", StageStart(app.attrs.guid, Some(stagingTaskId)))]
    {
      app.stagingTaskId := Some(stagingTaskId);
      var request := StageStart(app.attrs.guid, app.stagingTaskId);
      bus.Publish(Message("diego.staging.start", request));
    }

    /**
     * `lrp_instances`, the handling around the HTTP call. With no tracker address it fails
     * before any request (`requested` is None); otherwise it asks the first address only.
     * A refused connection or a status other than "200" is Unavailable; on success there is one
     * entry per reported instance, in order, with the state upper-cased and `since` in whole seconds.
     */
    method LrpInstances(a: Attrs, tpsAddrs: seq<string>, exchange: TpsExchange)
      returns (r: Result<seq<LrpInstance>, Unavailable>, requested: Option<string>)
      ensures tpsAddrs == [] ==> r == Failure(Unavailable) && requested == None
      ensures tpsAddrs != [] ==> requested == Some(tpsAddrs[0] + "/lrps/" + LrpGuid(a))
      ensures tpsAddrs != [] && (exchange.ConnectionRefused? || exchange.code != "200") ==> r == Failure(Unavailable)
      ensures r.Success? <==> tpsAddrs != [] && exchange.Response? && exchange.code == "200"
      ensures r.Success? ==>
                |r.value| == |exchange.instances| &&
                forall i :: 0 <= i < |r.value| ==>
                  var t := exchange.instances[i];
                  r.value[i] == LrpInstance(t.processGuid, t.instanceGuid, t.index, Upcase(t.state), t.sinceInNs / NanosecondsPerSecond)
    {
      if tpsAddrs == [] {
        return Failure(Unavailable), None;
      }
      var address := tpsAddrs[0];
      requested := Some(address + "/lrps/" + LrpGuid(a));
      if exchange.ConnectionRefused? || exchange.code != "200" {
        return Failure(Unavailable), requested;
      }
      var tps := exchange.instances;
      var result: seq<LrpInstance> := [];
      var i := 0;
      while i < |tps|
        invariant 0 <= i <= |tps|
        invariant |result| == i
        invariant forall k :: 0 <= k < i ==>
                    result[k] == LrpInstance(tps[k].processGuid, tps[k].instanceGuid, tps[k].index,
                                             Upcase(tps[k].state), tps[k].sinceInNs / NanosecondsPerSecond)
      {
        var t := tps[i];
        result := result + [LrpInstance(t.processGuid, t.instanceGuid, t.index, Upcase(t.state), t.sinceInNs / NanosecondsPerSecond)];
        i := i + 1;
      }
      r := Success(result);
    }
  }

  /** A second is 10^9 nanoseconds, truncated toward negative infinity (Ruby's Integer#/). */
  lemma SinceTruncates(ns: int)
    ensures (ns / NanosecondsPerSecond) * NanosecondsPerSecond <= ns < (ns / NanosecondsPerSecond + 1) * NanosecondsPerSecond
    ensures 1_000_000_000 / NanosecondsPerSecond == 1 && 1_999_999_999 / NanosecondsPerSecond == 1
  {
  }
}
