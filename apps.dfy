/** The application record: the attributes the staging code reads and the bookkeeping fields it writes. */
module Apps {
  import opened Common

  /** An opaque staging token (the task id of a staging attempt). */
  type Token = string

  /** The app's package state; `staged?` and `staging_failed?` are both read off it. */
  datatype PackageState = Pending | Staged | Failed

  /** What the app asks for as a buildpack: nothing (detect), a custom git URL, or an admin buildpack. */
  datatype BuildpackChoice = AutoDetect | Custom(url: string) | Admin(name: string, key: string)

  /** Attributes that a staging attempt or a desire request only reads. */
  datatype Attrs = Attrs(
    guid: string,
    version: string,
    memory: int,
    diskQuota: int,
    fileDescriptors: int,
    stack: string,
    instances: nat,
    started: bool,
    needsStaging: bool,
    environment: Option<map<string, string>>,
    uris: seq<string>,
    healthCheckTimeout: Option<int>,
    buildpack: BuildpackChoice)

  /** The staging bookkeeping fields of an app, as one value. */
  datatype Staging = Staging(
    stagingTaskId: Option<Token>,
    packageState: PackageState,
    failedReason: Option<string>,
    detectedStartCommand: string,
    detectedBuildpack: Option<string>,
    detectedBuildpackGuid: Option<string>,
    dropletHash: Option<string>)
  {
    predicate IsStaged() { packageState == Staged }
    predicate IsFailed() { packageState == Failed }
  }

  /** `mark_as_failed_to_stage(reason)`: only the package state and the reason change. */
  function MarkFailed(s: Staging, reason: string): (r: Staging)
    ensures r.IsFailed() && !r.IsStaged() && r.failedReason == Some(reason)
    ensures r.(packageState := s.packageState, failedReason := s.failedReason) == s
  {
    s.(packageState := Failed, failedReason := Some(reason))
  }

  /** The persisted app row. Several staging attempts, and other writers, share one App object. */
  class App {
    const attrs: Attrs
    var stagingTaskId: Option<Token>
    var packageState: PackageState
    var failedReason: Option<string>
    var detectedStartCommand: string
    var detectedBuildpack: Option<string>
    var detectedBuildpackGuid: Option<string>
    var dropletHash: Option<string>

    constructor (attrs: Attrs, s: Staging)
      ensures this.attrs == attrs && State() == s
    {
      this.attrs := attrs;
      stagingTaskId := s.stagingTaskId;
      packageState := s.packageState;
      failedReason := s.failedReason;
      detectedStartCommand := s.detectedStartCommand;
      detectedBuildpack := s.detectedBuildpack;
      detectedBuildpackGuid := s.detectedBuildpackGuid;
      dropletHash := s.dropletHash;
    }

    /** The bookkeeping fields as a value. */
    function State(): Staging
      reads this
    {
      Staging(stagingTaskId, packageState, failedReason, detectedStartCommand,
              detectedBuildpack, detectedBuildpackGuid, dropletHash)
    }

    /** Writes every bookkeeping field (an ORM `update` of these columns). */
    method Save(s: Staging)
      modifies this
      ensures State() == s
    {
      stagingTaskId := s.stagingTaskId;
      packageState := s.packageState;
      failedReason := s.failedReason;
      detectedStartCommand := s.detectedStartCommand;
      detectedBuildpack := s.detectedBuildpack;
      detectedBuildpackGuid := s.detectedBuildpackGuid;
      dropletHash := s.dropletHash;
    }
  }
}
