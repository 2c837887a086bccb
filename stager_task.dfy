/**
 * One staging attempt on the pooled-worker (DEA) backend: sizing, stager selection,
 * dispatch, the setup reply, and the token-guarded, commit-once completion reply.
 * The effect of each reply on the app is a pure step function; the AppStagerTask
 * class applies those steps to the shared App object and sequences the phases.
 */
module StagerTask {
  import opened Common
  import opened Apps
  import opened Pools
  import opened Messaging

  /** Floors used when the staging configuration leaves a minimum unset. */
  const DefaultMinimumStagingMemoryMb := 1024
  const DefaultMinimumStagingDiskMb := 4096

  /** The reason recorded when a failed reply carries no error type. */
  const GenericFailureReason := "StagingError"

  datatype StagingConfig = StagingConfig(minimumStagingMemoryMb: Option<int>, minimumStagingDiskMb: Option<int>)

  /** Memory asked of the stager pool and reserved in both pools: the larger of the app's and the floor. */
  function StagingMemoryMb(config: StagingConfig, a: Attrs): (mb: int)
    ensures mb >= a.memory && mb >= config.minimumStagingMemoryMb.GetOr(DefaultMinimumStagingMemoryMb)
    ensures mb == a.memory || mb == config.minimumStagingMemoryMb.GetOr(DefaultMinimumStagingMemoryMb)
  {
    Max(config.minimumStagingMemoryMb.GetOr(DefaultMinimumStagingMemoryMb), a.memory)
  }

  /** Disk asked of the stager pool: the larger of the app's quota and the floor (4096 when unset). */
  function StagingDiskMb(config: StagingConfig, a: Attrs): (mb: int)
    ensures mb >= a.diskQuota && mb >= config.minimumStagingDiskMb.GetOr(DefaultMinimumStagingDiskMb)
    ensures mb == a.diskQuota || mb == config.minimumStagingDiskMb.GetOr(DefaultMinimumStagingDiskMb)
  {
    Max(config.minimumStagingDiskMb.GetOr(DefaultMinimumStagingDiskMb), a.diskQuota)
  }

  // ---------------------------------------------------------------------------
  // Replies from the stager, decoded once at the boundary.

  datatype ErrorInfo = ErrorInfo(kind: string, message: string)

  datatype ReplyFields = ReplyFields(
    streamingLogUrl: Option<string>,
    detectedBuildpack: Option<string>,
    buildpackKey: Option<string>,
    detectedStartCommand: Option<string>,
    dropletHash: Option<string>)

  /** A reply that did not parse, a well-formed one, or one carrying an `error` (and maybe `error_info`). */
  datatype Reply = Invalid | Ok(fields: ReplyFields) | Err(error: string, info: Option<ErrorInfo>)

  datatype StagingError =
    | NoAvailableStagers
    | FailedToStage
    | AnotherStagingInitiated
    | AlreadyMarkedFailed

  /** Outcome of the setup reply: the log locator, a raised StagingError, or nothing (not awaited). */
  datatype SetupOutcome = StreamingLog(url: Option<string>) | SetupRaised(error: StagingError) | SetupIgnored

  /** Outcome of the completion reply; only Committed invokes the caller's continuation. */
  datatype CompletionOutcome =
    | Committed(startedInstances: nat)
    | Abandoned(error: StagingError)
    | FailureLogged(reason: string)
    | CompletionIgnored

  /** The failure reason of a failed reply: `error_info.type` when present, else the generic one. */
  function FailureReason(reply: Reply): (reason: string)
    requires !reply.Ok?
    ensures reply.Err? && reply.info.Some? ==> reason == reply.info.value.kind
    ensures reply.Invalid? || reply.info.None? ==> reason == GenericFailureReason
  {
    match reply
    case Err(_, Some(info)) => info.kind
    case _ => GenericFailureReason
  }

  /** The detected outputs and the droplet hash agree: the result fields other than `staged`. */
  predicate DetectedUnchanged(s: Staging, t: Staging) {
    s.detectedStartCommand == t.detectedStartCommand &&
    s.detectedBuildpack == t.detectedBuildpack &&
    s.detectedBuildpackGuid == t.detectedBuildpackGuid &&
    s.dropletHash == t.dropletHash
  }

  /**
   * The setup reply of the attempt that captured token `captured`. A bad or error reply marks
   * the app failed and raises; a good reply raises without touching the app when another
   * attempt has since stamped its token or the app has already been marked failed, and
   * otherwise hands back the streaming log locator.
   */
  function SetupStep(s: Staging, captured: Token, reply: Reply): (r: (Staging, SetupOutcome))
    ensures r.0.stagingTaskId == s.stagingTaskId
    ensures r.0.(packageState := s.packageState, failedReason := s.failedReason) == s
    ensures r.1 != SetupIgnored
    ensures !reply.Ok? ==> r.1 == SetupRaised(FailedToStage) && r.0.IsFailed() && !r.0.IsStaged() &&
                           r.0.failedReason == Some(FailureReason(reply))
    ensures reply.Ok? ==> r.0 == s
    ensures reply.Ok? && s.stagingTaskId != Some(captured) ==> r.1 == SetupRaised(AnotherStagingInitiated)
    ensures reply.Ok? && s.stagingTaskId == Some(captured) && s.IsFailed() ==> r.1 == SetupRaised(AlreadyMarkedFailed)
    ensures r.1.StreamingLog? <==> reply.Ok? && s.stagingTaskId == Some(captured) && !s.IsFailed()
    ensures r.1.StreamingLog? ==> r.1.url == reply.fields.streamingLogUrl
  {
    match reply
    case Ok(f) =>
      if s.stagingTaskId != Some(captured) then (s, SetupRaised(AnotherStagingInitiated))
      else if s.IsFailed() then (s, SetupRaised(AlreadyMarkedFailed))
      else (s, StreamingLog(f.streamingLogUrl))
    case _ => (MarkFailed(s, FailureReason(reply)), SetupRaised(FailedToStage))
  }

  // ---------------------------------------------------------------------------
  // Admin buildpacks, security groups and the staging request projection.

  /** An admin buildpack; `downloadUrl` is None when its bits were never uploaded. */
  datatype AdminBuildpack = AdminBuildpack(guid: string, name: string, key: string, enabled: bool, downloadUrl: Option<string>)

  /** The guid of the first admin buildpack with the given key. */
  function GuidForKey(bps: seq<AdminBuildpack>, key: string): (g: Option<string>)
    ensures g.None? <==> forall i :: 0 <= i < |bps| ==> bps[i].key != key
    ensures g.Some? ==> exists i :: 0 <= i < |bps| && bps[i].key == key && bps[i].guid == g.value
  {
    if bps == [] then None
    else if bps[0].key == key then Some(bps[0].guid)
    else
      var g := GuidForKey(bps[1..], key);
      assert forall i :: 1 <= i < |bps| ==> bps[i] == bps[1..][i - 1];
      g
  }

  /** The detected buildpack guid: that of the admin buildpack whose key the stager reported, if any. */
  function DetectedGuid(bps: seq<AdminBuildpack>, key: Option<string>): Option<string> {
    if key.Some? then GuidForKey(bps, key.value) else None
  }

  /**
   * The successful completion: mark staged, record the detected buildpack and its guid, and
   * replace the start command only when a droplet is already present and the reply has one.
   */
  function Commit(s: Staging, f: ReplyFields, bps: seq<AdminBuildpack>): (r: Staging)
    ensures r.IsStaged() && !r.IsFailed()
    ensures r.detectedBuildpack == f.detectedBuildpack
    ensures r.detectedBuildpackGuid.Some? <==>
              f.buildpackKey.Some? && exists i :: 0 <= i < |bps| && bps[i].key == f.buildpackKey.value
    ensures r.detectedBuildpackGuid.Some? ==>
              exists i :: 0 <= i < |bps| && bps[i].key == f.buildpackKey.value && bps[i].guid == r.detectedBuildpackGuid.value
    ensures r.detectedStartCommand ==
              if s.dropletHash.Some? && f.detectedStartCommand.Some? then f.detectedStartCommand.value
              else s.detectedStartCommand
    ensures r.stagingTaskId == s.stagingTaskId && r.failedReason == s.failedReason && r.dropletHash == s.dropletHash
  {
    s.(packageState := Staged,
       detectedBuildpack := f.detectedBuildpack,
       detectedBuildpackGuid := DetectedGuid(bps, f.buildpackKey),
       detectedStartCommand :=
         if s.dropletHash.Some? && f.detectedStartCommand.Some? then f.detectedStartCommand.value
         else s.detectedStartCommand)
  }

  /**
   * The completion reply of the attempt that captured token `captured`. A stale token or an
   * app already marked failed abandons the reply without touching the app; a bad or error
   * reply is recorded as a failure (never raised); a good reply commits.
   */
  function CompletionStep(s: Staging, captured: Token, reply: Reply, bps: seq<AdminBuildpack>): (r: (Staging, CompletionOutcome))
    ensures r.0.stagingTaskId == s.stagingTaskId
    ensures s.stagingTaskId != Some(captured) ==> r == (s, Abandoned(AnotherStagingInitiated))
    ensures s.stagingTaskId == Some(captured) && s.IsFailed() ==> r == (s, Abandoned(AlreadyMarkedFailed))
    ensures r.1.Committed? <==> s.stagingTaskId == Some(captured) && !s.IsFailed() && reply.Ok?
    ensures r.1.Committed? ==> r.0 == Commit(s, reply.fields, bps) &&
                               r.1.startedInstances == (if reply.fields.dropletHash.Some? then 1 else 0)
    ensures r.1.FailureLogged? <==> s.stagingTaskId == Some(captured) && !s.IsFailed() && !reply.Ok?
    ensures r.1.FailureLogged? ==> r.1.reason == FailureReason(reply) && r.0 == MarkFailed(s, r.1.reason)
    ensures !r.1.Committed? ==> DetectedUnchanged(s, r.0) && (r.0.IsStaged() ==> s.IsStaged())
  {
    if s.stagingTaskId != Some(captured) then (s, Abandoned(AnotherStagingInitiated))
    else if s.IsFailed() then (s, Abandoned(AlreadyMarkedFailed))
    else match reply
      case Ok(f) => (Commit(s, f, bps), Committed(if f.dropletHash.Some? then 1 else 0))
      case _ =>
        var reason := FailureReason(reply);
        (MarkFailed(s, reason), FailureLogged(reason))
  }

  datatype SecurityRule = SecurityRule(protocol: string, ports: string, destination: string)
  datatype SecurityGroup = SecurityGroup(rules: seq<SecurityRule>, stagingDefault: bool)

  /** Egress rules for staging: the rules of the staging-default groups, flattened in group order. */
  function StagingEgressRules(groups: seq<SecurityGroup>): (rules: seq<SecurityRule>)
    ensures forall r :: r in rules ==> exists i :: 0 <= i < |groups| && groups[i].stagingDefault && r in groups[i].rules
  {
    if groups == [] then []
    else
      var rest := StagingEgressRules(groups[1..]);
      assert forall i :: 1 <= i < |groups| ==> groups[i] == groups[1..][i - 1];
      (if groups[0].stagingDefault then groups[0].rules else []) + rest
  }

  lemma {:induction false} StagingEgressRulesMembership(groups: seq<SecurityGroup>, rule: SecurityRule)
    ensures rule in StagingEgressRules(groups) <==>
              exists i :: 0 <= i < |groups| && groups[i].stagingDefault && rule in groups[i].rules
  {
    if groups != [] {
      StagingEgressRulesMembership(groups[1..], rule);
      assert forall i :: 1 <= i < |groups| ==> groups[i] == groups[1..][i - 1];
      if rule in StagingEgressRules(groups[1..]) {
        var k :| 0 <= k < |groups[1..]| && groups[1..][k].stagingDefault && rule in groups[1..][k].rules;
        assert groups[k + 1] == groups[1..][k];
      }
    }
  }

  /** No element occurs twice. */
  predicate NoRepeats<T(==)>(s: seq<T>) {
    forall a, b :: 0 <= a < b < |s| ==> s[a] != s[b]
  }

  lemma NoRepeatsConcat<T>(x: seq<T>, y: seq<T>)
    requires NoRepeats(x) && NoRepeats(y)
    requires forall e :: e in x ==> e !in y
    ensures NoRepeats(x + y)
  {
    forall a, b | 0 <= a < b < |x + y|
      ensures (x + y)[a] != (x + y)[b]
    {
      if b < |x| {
        assert (x + y)[a] == x[a] && (x + y)[b] == x[b];
      } else if a < |x| {
        assert (x + y)[a] == x[a] && x[a] in x;
        assert (x + y)[b] == y[b - |x|] && y[b - |x|] in y;
      } else {
        assert (x + y)[a] == y[a - |x|] && (x + y)[b] == y[b - |x|];
      }
    }
  }

  /**
   * When no rule occurs twice among the staging-default groups (within one group or across
   * two), the staging egress rules have no repeats: each such rule is sent exactly once.
   */
  lemma {:induction false} StagingEgressRulesNoRepeats(groups: seq<SecurityGroup>)
    requires forall i, j, k, l ::
               0 <= i < |groups| && 0 <= j < |groups| && groups[i].stagingDefault && groups[j].stagingDefault &&
               0 <= k < |groups[i].rules| && 0 <= l < |groups[j].rules| && (i != j || k != l) ==>
               groups[i].rules[k] != groups[j].rules[l]
    ensures NoRepeats(StagingEgressRules(groups))
  {
    if groups != [] {
      var tail := groups[1..];
      assert forall i :: 0 <= i < |tail| ==> tail[i] == groups[i + 1];
      StagingEgressRulesNoRepeats(tail);
      var head := if groups[0].stagingDefault then groups[0].rules else [];
      forall e | e in StagingEgressRules(tail)
        ensures e !in head
      {
        StagingEgressRulesMembership(tail, e);
        var m :| 0 <= m < |tail| && tail[m].stagingDefault && e in tail[m].rules;
        var l :| 0 <= l < |tail[m].rules| && tail[m].rules[l] == e;
        assert groups[m + 1].rules[l] == e;
        assert forall k :: 0 <= k < |head| ==> head[k] == groups[0].rules[k];
      }
      NoRepeatsConcat(head, StagingEgressRules(tail));
    }
  }

  datatype BuildpackEntry = BuildpackEntry(url: string, key: string)

  /** An admin buildpack is offered to the stager when it is enabled and its bits are uploaded. */
  predicate Offered(b: AdminBuildpack) {
    b.enabled && b.downloadUrl.Some?
  }

  /** The admin buildpacks offered to the stager: one entry per offered buildpack, in order. */
  function AdminBuildpackEntries(bps: seq<AdminBuildpack>): (entries: seq<BuildpackEntry>)
    ensures |entries| <= |bps|
    ensures forall e :: e in entries ==>
              exists i :: 0 <= i < |bps| && Offered(bps[i]) && bps[i].downloadUrl == Some(e.url) && bps[i].key == e.key
  {
    if bps == [] then []
    else
      var rest := AdminBuildpackEntries(bps[1..]);
      assert forall i :: 1 <= i < |bps| ==> bps[i] == bps[1..][i - 1];
      (if Offered(bps[0]) then [BuildpackEntry(bps[0].downloadUrl.value, bps[0].key)] else []) + rest
  }

  lemma {:induction false} AdminBuildpackEntriesAppend(a: seq<AdminBuildpack>, b: seq<AdminBuildpack>)
    ensures AdminBuildpackEntries(a + b) == AdminBuildpackEntries(a) + AdminBuildpackEntries(b)
  {
    if a == [] {
      assert a + b == b;
    } else {
      assert (a + b)[0] == a[0] && (a + b)[1..] == a[1..] + b;
      AdminBuildpackEntriesAppend(a[1..], b);
    }
  }

  /** The positions of the offered buildpacks. */
  ghost function OfferedIndices(bps: seq<AdminBuildpack>): set<int> {
    set i | 0 <= i < |bps| && Offered(bps[i])
  }

  lemma OfferedIndicesSnoc(bps: seq<AdminBuildpack>)
    requires bps != []
    ensures |OfferedIndices(bps)| ==
              |OfferedIndices(bps[..|bps| - 1])| + (if Offered(bps[|bps| - 1]) then 1 else 0)
  {
    var n := |bps|;
    var init := bps[..n - 1];
    assert forall i :: 0 <= i < n - 1 ==> init[i] == bps[i];
    assert OfferedIndices(bps) == OfferedIndices(init) + (if Offered(bps[n - 1]) then {n - 1} else {});
    assert n - 1 !in OfferedIndices(init);
  }

  lemma AdminBuildpackEntriesSnoc(bps: seq<AdminBuildpack>)
    requires bps != []
    ensures |AdminBuildpackEntries(bps)| ==
              |AdminBuildpackEntries(bps[..|bps| - 1])| + (if Offered(bps[|bps| - 1]) then 1 else 0)
  {
    var n := |bps|;
    assert bps == bps[..n - 1] + [bps[n - 1]];
    AdminBuildpackEntriesAppend(bps[..n - 1], [bps[n - 1]]);
    assert [bps[n - 1]][1..] == [];
  }

  /** As many entries as there are offered buildpacks. */
  lemma {:induction false} AdminBuildpackEntriesCount(bps: seq<AdminBuildpack>)
    ensures |AdminBuildpackEntries(bps)| == |OfferedIndices(bps)|
    decreases |bps|
  {
    if bps != [] {
      AdminBuildpackEntriesSnoc(bps);
      OfferedIndicesSnoc(bps);
      AdminBuildpackEntriesCount(bps[..|bps| - 1]);
    }
  }

  /** Admin buildpacks with distinct keys give entries with distinct keys, so none is offered twice. */
  lemma {:induction false} AdminBuildpackEntriesDistinct(bps: seq<AdminBuildpack>)
    requires forall i, j :: 0 <= i < j < |bps| ==> bps[i].key != bps[j].key
    ensures forall i, j :: 0 <= i < j < |AdminBuildpackEntries(bps)| ==>
              AdminBuildpackEntries(bps)[i].key != AdminBuildpackEntries(bps)[j].key
  {
    if bps != [] {
      var tail := bps[1..];
      var rest := AdminBuildpackEntries(tail);
      assert forall i :: 0 <= i < |tail| ==> tail[i] == bps[i + 1];
      AdminBuildpackEntriesDistinct(tail);
      forall e | e in rest
        ensures e.key != bps[0].key
      {
        AdminBuildpackEntriesMembership(tail, e);
        var k :| 0 <= k < |tail| && tail[k].enabled && tail[k].downloadUrl == Some(e.url) && tail[k].key == e.key;
        assert tail[k] == bps[k + 1];
      }
      var entries := AdminBuildpackEntries(bps);
      if Offered(bps[0]) {
        assert entries == [BuildpackEntry(bps[0].downloadUrl.value, bps[0].key)] + rest;
        forall i, j | 0 <= i < j < |entries|
          ensures entries[i].key != entries[j].key
        {
          assert entries[j] == rest[j - 1];
          if i > 0 {
            assert entries[i] == rest[i - 1];
          }
        }
      } else {
        assert entries == rest;
      }
    }
  }

  lemma {:induction false} AdminBuildpackEntriesMembership(bps: seq<AdminBuildpack>, e: BuildpackEntry)
    ensures e in AdminBuildpackEntries(bps) <==>
              exists i :: 0 <= i < |bps| && bps[i].enabled && bps[i].downloadUrl == Some(e.url) && bps[i].key == e.key
  {
    if bps != [] {
      AdminBuildpackEntriesMembership(bps[1..], e);
      assert forall i :: 1 <= i < |bps| ==> bps[i] == bps[1..][i - 1];
      if e in AdminBuildpackEntries(bps[1..]) {
        var k :| 0 <= k < |bps[1..]| && bps[1..][k].enabled && bps[1..][k].downloadUrl == Some(e.url) && bps[1..][k].key == e.key;
        assert bps[k + 1] == bps[1..][k];
      }
    }
  }

  /** The buildpack keys of the request's properties, by the app's buildpack choice. */
  function BuildpackProperties(choice: BuildpackChoice): (props: map<string, string>)
    ensures "buildpack_key" in props <==> choice.Admin?
    ensures "buildpack" in props <==> choice.Custom?
    ensures "buildpack_git_url" in props <==> choice.Custom?
    ensures choice.Admin? ==> props["buildpack_key"] == choice.key
    ensures choice.Custom? ==> props["buildpack"] == choice.url && props["buildpack_git_url"] == choice.url
  {
    match choice
    case AutoDetect => map[]
    case Custom(url) => map["buildpack" := url, "buildpack_git_url" := url]
    case Admin(_, key) => map["buildpack_key" := key]
  }

  /** The staging environment: the staging group's variables, overridden by the app's own (nil is empty). */
  function StagingEnvironment(group: map<string, string>, appEnv: Option<map<string, string>>): (env: map<string, string>)
    ensures env.Keys == group.Keys + appEnv.GetOr(map[]).Keys
    ensures forall k :: k in appEnv.GetOr(map[]) ==> env[k] == appEnv.GetOr(map[])[k]
    ensures forall k :: k in group && k !in appEnv.GetOr(map[]) ==> env[k] == group[k]
  {
    group + appEnv.GetOr(map[])
  }

  /** The embedded start message: instance index 0, droplet sha and download URI blanked. */
  datatype StartMessage = StartMessage(index: nat, sha1: Option<string>, executableUri: Option<string>)

  datatype StagingRequest = StagingRequest(
    appId: string,
    taskId: Token,
    environment: map<string, string>,
    buildpackProperties: map<string, string>,
    adminBuildpacks: seq<BuildpackEntry>,
    egressNetworkRules: seq<SecurityRule>,
    startMessage: StartMessage)

  /** Platform-wide inputs of the projection: the staging variable group, security groups, admin buildpacks. */
  datatype StagingGlobals = StagingGlobals(
    stagingGroupEnvironment: map<string, string>,
    securityGroups: seq<SecurityGroup>,
    buildpacks: seq<AdminBuildpack>)

  /** `staging_request`: the immutable request built once per attempt. */
  function StagingRequestFor(a: Attrs, taskId: Token, g: StagingGlobals): (req: StagingRequest)
    ensures req.appId == a.guid && req.taskId == taskId
    ensures req.environment == StagingEnvironment(g.stagingGroupEnvironment, a.environment)
    ensures req.buildpackProperties == BuildpackProperties(a.buildpack)
    ensures req.adminBuildpacks == AdminBuildpackEntries(g.buildpacks)
    ensures req.egressNetworkRules == StagingEgressRules(g.securityGroups)
    ensures req.startMessage == StartMessage(0, None, None)
  {
    StagingRequest(
      a.guid,
      taskId,
      StagingEnvironment(g.stagingGroupEnvironment, a.environment),
      BuildpackProperties(a.buildpack),
      AdminBuildpackEntries(g.buildpacks),
      StagingEgressRules(g.securityGroups),
      StartMessage(0, None, None))
  }

  /** The admin buildpack list does not depend on which buildpack the app asks for. */
  lemma AdminBuildpacksIgnoreChoice(a: Attrs, choice: BuildpackChoice, taskId: Token, g: StagingGlobals)
    ensures StagingRequestFor(a.(buildpack := choice), taskId, g).adminBuildpacks == StagingRequestFor(a, taskId, g).adminBuildpacks
  {
  }

  // ---------------------------------------------------------------------------
  // The task object.

  /** Messages the task publishes: the stop broadcast and the staging request to one stager. */
  datatype DeaPayload = StopStaging(appId: string) | StartStaging(request: StagingRequest)

  function StartSubject(w: WorkerId): string {
    "staging." + w + ".start"
  }

  datatype Phase = Created | AwaitingSetup | AwaitingCompletion | Finished

  class AppStagerTask {
    const config: StagingConfig
    const app: App
    const deaPool: DeaPool
    const stagerPool: StagerPool
    const bus: Bus<DeaPayload>
    const globals: StagingGlobals
    /** The task id, generated once per task (`VCAP.secure_uuid`); it is the token stamped on the app. */
    const taskId: Token
    var phase: Phase
    var stagerId: Option<WorkerId>
    /** The `started_instances` values passed to the caller's continuation, in order. */
    var callbackLog: seq<nat>

    predicate Valid()
      reads this
    {
      (phase == AwaitingSetup || phase == AwaitingCompletion) ==> stagerId.Some?
    }

    constructor (config: StagingConfig, app: App, deaPool: DeaPool, stagerPool: StagerPool,
                 bus: Bus<DeaPayload>, globals: StagingGlobals, taskId: Token)
      ensures Valid() && phase == Created && stagerId.None? && callbackLog == []
      ensures this.config == config && this.app == app && this.deaPool == deaPool
      ensures this.stagerPool == stagerPool && this.bus == bus && this.globals == globals && this.taskId == taskId
    {
      this.config, this.app, this.deaPool, this.stagerPool := config, app, deaPool, stagerPool;
      this.bus, this.globals, this.taskId := bus, globals, taskId;
      phase, stagerId, callbackLog := Created, None, [];
    }

    /**
     * `stage`: select a stager for the sized requirements; without one, fail and change nothing.
     * Otherwise stamp the token on the app, broadcast the stop, reserve the sized memory in both
     * pools and send the staging request to the chosen stager.
     */
    method Stage() returns (r: Result<WorkerId, StagingError>)
      requires phase == Created
      modifies this, app, deaPool, stagerPool, bus
      ensures Valid()
      ensures var mb := StagingMemoryMb(config, app.attrs);
              var found := old(stagerPool.FindStager(app.attrs.stack, mb, StagingDiskMb(config, app.attrs)));
              match found
              case None =>
                r == Failure(NoAvailableStagers) &&
                unchanged(this, app, deaPool, stagerPool, bus)
              case Some(w) =>
                r == Success(w) && stagerId == Some(w) && phase == AwaitingSetup && callbackLog == old(callbackLog) &&
                app.State() == old(app.State()).(stagingTaskId := Some(taskId)) &&
                deaPool.memory == Reserve(old(deaPool.memory), w, mb) && deaPool.started == old(deaPool.started) &&
                stagerPool.memory == Reserve(old(stagerPool.memory), w, mb) &&
                stagerPool.order == old(stagerPool.order) && stagerPool.stacks == old(stagerPool.stacks) &&
                stagerPool.disk == old(stagerPool.disk) &&
                bus.published == old(bus.published) + [
                  Message("staging.stop", StopStaging(app.attrs.guid)),
                  Message(StartSubject(w), StartStaging(StagingRequestFor(app.attrs, taskId, globals)))]
    {
      var mb := StagingMemoryMb(config, app.attrs);
      var diskMb := StagingDiskMb(config, app.attrs);
      var found := stagerPool.FindStager(app.attrs.stack, mb, diskMb);
      if found.None? {
        return Failure(NoAvailableStagers);
      }
      var w := found.value;
      app.stagingTaskId := Some(taskId);
      bus.Publish(Message("staging.stop", StopStaging(app.attrs.guid)));
      deaPool.ReserveAppMemory(w, mb);
      stagerPool.ReserveAppMemory(w, mb);
      bus.Publish(Message(StartSubject(w), StartStaging(StagingRequestFor(app.attrs, taskId, globals))));
      stagerId := Some(w);
      phase := AwaitingSetup;
      r := Success(w);
    }

    /**
     * The first reply: handled once, while it is awaited; anything else is ignored. The attempt
     * goes on to await the completion reply only when the setup handed back the log locator.
     */
    method HandleSetupReply(reply: Reply) returns (r: SetupOutcome)
      requires Valid()
      modifies this, app
      ensures Valid() && stagerId == old(stagerId) && callbackLog == old(callbackLog)
      ensures old(phase) != AwaitingSetup ==> r == SetupIgnored && unchanged(this, app)
      ensures old(phase) == AwaitingSetup ==>
                (app.State(), r) == SetupStep(old(app.State()), taskId, reply) &&
                phase == (if r.StreamingLog? then AwaitingCompletion else Finished)
    {
      if phase != AwaitingSetup {
        return SetupIgnored;
      }
      var step := SetupStep(app.State(), taskId, reply);
      app.Save(step.0);
      r := step.1;
      phase := if r.StreamingLog? then AwaitingCompletion else Finished;
    }

    /**
     * The second reply: handled once (later replies are ignored). On commit the stager is marked
     * as running the app when a droplet was produced, and the continuation gets the started count.
     */
    method HandleCompletionReply(reply: Reply) returns (r: CompletionOutcome)
      requires Valid()
      modifies this, app, deaPool
      ensures Valid() && stagerId == old(stagerId) && deaPool.memory == old(deaPool.memory)
      ensures old(phase) != AwaitingCompletion ==> r == CompletionIgnored && unchanged(this, app, deaPool)
      ensures old(phase) == AwaitingCompletion ==>
                (app.State(), r) == CompletionStep(old(app.State()), taskId, reply, globals.buildpacks) &&
                phase == Finished &&
                callbackLog == (if r.Committed? then old(callbackLog) + [r.startedInstances] else old(callbackLog)) &&
                deaPool.started == (if r.Committed? && reply.fields.dropletHash.Some?
                                    then old(deaPool.started) + {(stagerId.value, app.attrs.guid)}
                                    else old(deaPool.started))
    {
      if phase != AwaitingCompletion {
        return CompletionIgnored;
      }
      var step := CompletionStep(app.State(), taskId, reply, globals.buildpacks);
      app.Save(step.0);
      r := step.1;
      if r.Committed? {
        if reply.fields.dropletHash.Some? {
          deaPool.MarkAppStarted(stagerId.value, app.attrs.guid);
        }
        callbackLog := callbackLog + [r.startedInstances];
      }
      phase := Finished;
    }
  }
}
