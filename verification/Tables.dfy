/** The five tables the Provider credential migrations read and rewrite, and the database that holds them.
    A table is the sequence of its rows in the runners' `ORDER BY` order, which no update changes. */
module Tables {
  import opened Sequences

  datatype Adapter = Codex | Xai | GithubCopilot | Generic {
    predicate Managed() {
      !Generic?
    }

    function Name(): string {
      match this
      case Codex => "codex"
      case Xai => "xai"
      case GithubCopilot => "github_copilot"
      case Generic => "generic"
    }
  }

  datatype ProviderStatus = Active | Disabled | Deleted {
    function Name(): string {
      match this
      case Active => "active"
      case Disabled => "disabled"
      case Deleted => "deleted"
    }
  }

  datatype BindingMode = FollowDefault | Pinned {
    function Name(): string {
      match this
      case FollowDefault => "follow_default"
      case Pinned => "pinned"
    }
  }

  datatype CredentialStatus = Connected | ReauthRequired | Disconnected {
    predicate Live() {
      !Disconnected?
    }

    function Name(): string {
      match this
      case Connected => "connected"
      case ReauthRequired => "reauth_required"
      case Disconnected => "disconnected"
    }
  }

  datatype AttemptStatus = Starting | Pending | Succeeded | Denied | Expired | Cancelled | Failed {
    predicate Active() {
      Starting? || Pending?
    }

    function Name(): string {
      match this
      case Starting => "starting"
      case Pending => "pending"
      case Succeeded => "succeeded"
      case Denied => "denied"
      case Expired => "expired"
      case Cancelled => "cancelled"
      case Failed => "failed"
    }
  }

  datatype JobStatus = JobPending | JobProcessing | JobSucceeded | JobFailed | JobUnsupported {
    predicate Terminal() {
      JobSucceeded? || JobUnsupported?
    }

    function Name(): string {
      match this
      case JobPending => "pending"
      case JobProcessing => "processing"
      case JobSucceeded => "succeeded"
      case JobFailed => "failed"
      case JobUnsupported => "unsupported"
    }
  }

  datatype SourceKind = FromCredential | FromAttempt {
    function Name(): string {
      match this
      case FromCredential => "credential"
      case FromAttempt => "attempt"
    }
  }

  /** The five nullable envelope columns. */
  datatype Bundle = Bundle(
    formatVersion: Option<int>,
    keyId: Option<string>,
    ciphertext: Option<string>,
    nonce: Option<string>,
    tag: Option<string>)
  {
    /** How many of the five columns are not NULL. */
    function Present(): nat {
      (if formatVersion.Some? then 1 else 0) + (if keyId.Some? then 1 else 0)
      + (if ciphertext.Some? then 1 else 0) + (if nonce.Some? then 1 else 0) + (if tag.Some? then 1 else 0)
    }
  }

  const NO_BUNDLE := Bundle(None, None, None, None, None)

  datatype Provider = Provider(
    id: string,
    adapter: Adapter,
    status: ProviderStatus,
    mode: Option<BindingMode>,
    credentialId: Option<string>,
    authEpoch: int,
    activeCredentialKind: string)

  datatype Credential = Credential(
    id: string,
    providerId: Option<string>,
    adapter: Adapter,
    status: CredentialStatus,
    authEpoch: int,
    revision: int,
    contextId: Option<string>,
    bundle: Bundle,
    identityHash: Option<string>)

  datatype DefaultAccount = DefaultAccount(adapter: Adapter, credentialId: string, revision: int)

  /** `flow` stands for the device-flow and lease columns, which are only ever cleared together. */
  datatype Attempt = Attempt(
    id: string,
    providerId: string,
    adapter: Adapter,
    targetCredentialId: Option<string>,
    status: AttemptStatus,
    revision: int,
    contextId: Option<string>,
    bundle: Bundle,
    flow: Option<string>,
    failureCode: Option<string>)

  datatype Job = Job(
    id: string,
    adapter: Adapter,
    sourceKind: SourceKind,
    sourceRecordId: string,
    status: JobStatus,
    accountScopeId: Option<string>,
    managedCredentialId: Option<string>,
    credentialAuthEpoch: Option<int>,
    contextId: Option<string>,
    bundle: Bundle)

  datatype State = State(
    providers: seq<Provider>,
    credentials: seq<Credential>,
    defaults: seq<DefaultAccount>,
    attempts: seq<Attempt>,
    jobs: seq<Job>)

  function ProviderKey(p: Provider): string { p.id }

  function CredentialKey(c: Credential): string { c.id }

  function DefaultKey(d: DefaultAccount): Adapter { d.adapter }

  function AttemptKey(a: Attempt): string { a.id }

  function JobKey(j: Job): string { j.id }

  function IsManaged(p: Provider): bool { p.adapter.Managed() }

  function IsLive(c: Credential): bool { c.status.Live() }

  function IsActive(a: Attempt): bool { a.status.Active() }

  function IsUnfinished(j: Job): bool { !j.status.Terminal() }

  /** A revocation job that still holds encrypted material. */
  function HasMaterial(j: Job): bool { j.bundle.Present() > 0 }

  /** JavaScript truthiness of a nullable text column: NULL and the empty string are both false. */
  predicate Truthy(value: Option<string>) {
    value.Some? && value.value != ""
  }

  /** The primary keys of the schema. */
  ghost predicate PrimaryKeys(s: State) {
    && UniqueBy(s.providers, ProviderKey)
    && UniqueBy(s.credentials, CredentialKey)
    && UniqueBy(s.defaults, DefaultKey)
    && UniqueBy(s.attempts, AttemptKey)
    && UniqueBy(s.jobs, JobKey)
  }

  /** The adapter CHECK constraints, and ids that are not blank. */
  ghost predicate WellTyped(s: State) {
    && (forall p :: p in s.providers ==> p.id != "")
    && (forall c :: c in s.credentials ==> c.id != "" && c.adapter.Managed())
    && (forall a :: a in s.attempts ==> a.adapter.Managed())
  }

  class Database {
    var providers: seq<Provider>
    var credentials: seq<Credential>
    var defaults: seq<DefaultAccount>
    var attempts: seq<Attempt>
    var jobs: seq<Job>

    constructor (s: State)
      ensures Contents() == s
    {
      providers, credentials, defaults, attempts, jobs := s.providers, s.credentials, s.defaults, s.attempts, s.jobs;
    }

    function Contents(): State
      reads this
    {
      State(providers, credentials, defaults, attempts, jobs)
    }

    /** `ROLLBACK`: back to the snapshot taken by `BEGIN`. */
    method Restore(snapshot: State)
      modifies this
      ensures Contents() == snapshot
    {
      providers, credentials, defaults := snapshot.providers, snapshot.credentials, snapshot.defaults;
      attempts, jobs := snapshot.attempts, snapshot.jobs;
    }

    method UpdateProviders(hit: Provider -> bool, change: Provider -> Provider) returns (rowCount: nat)
      modifies this`providers
      ensures providers == UpdateWhere(old(providers), hit, change)
      ensures Contents() == old(Contents()).(providers := UpdateWhere(old(providers), hit, change))
      ensures rowCount == Count(old(providers), hit)
    {
      rowCount := Count(providers, hit);
      providers := UpdateWhere(providers, hit, change);
    }

    method UpdateCredentials(hit: Credential -> bool, change: Credential -> Credential) returns (rowCount: nat)
      modifies this`credentials
      ensures credentials == UpdateWhere(old(credentials), hit, change)
      ensures Contents() == old(Contents()).(credentials := UpdateWhere(old(credentials), hit, change))
      ensures rowCount == Count(old(credentials), hit)
    {
      rowCount := Count(credentials, hit);
      credentials := UpdateWhere(credentials, hit, change);
    }

    method UpdateAttempts(hit: Attempt -> bool, change: Attempt -> Attempt) returns (rowCount: nat)
      modifies this`attempts
      ensures attempts == UpdateWhere(old(attempts), hit, change)
      ensures Contents() == old(Contents()).(attempts := UpdateWhere(old(attempts), hit, change))
      ensures rowCount == Count(old(attempts), hit)
    {
      rowCount := Count(attempts, hit);
      attempts := UpdateWhere(attempts, hit, change);
    }

    method UpdateJobs(hit: Job -> bool, change: Job -> Job) returns (rowCount: nat)
      modifies this`jobs
      ensures jobs == UpdateWhere(old(jobs), hit, change)
      ensures Contents() == old(Contents()).(jobs := UpdateWhere(old(jobs), hit, change))
      ensures rowCount == Count(old(jobs), hit)
    {
      rowCount := Count(jobs, hit);
      jobs := UpdateWhere(jobs, hit, change);
    }

    method DeleteDefaults()
      modifies this`defaults
      ensures Contents() == old(Contents()).(defaults := [])
    {
      defaults := [];
    }
  }
}
