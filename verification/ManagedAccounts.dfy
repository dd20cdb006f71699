/** provider-managed-accounts-v1: Provider-owned credentials become accounts with their own encryption context,
    keyed identity and explicit bindings. Checks that throw and writes are interleaved, row by row. */
module ManagedAccounts {
  import opened Sequences
  import opened Text
  import opened CanonicalJson
  import opened Tables
  import opened Envelopes

  datatype Fault =
    | JobsNotTerminal
    | JobRetainedMaterial
    | LegacyOwnerDuplicate
    | PinInvalid
    | DuplicateIdentity
    | EnvelopeIncomplete
    | EnvelopeMissing
    | ContextUnrecognized
    | DecryptionFailed
    | IdentityInvalid
    | EncryptionFailed
    | EpochUnrecoverable
    | VerificationFailed

  datatype Transformed = Transformed(
    envelope: Option<Envelope>,
    identityHash: Option<string>,
    reencrypt: bool,
    identityChanged: bool,
    contextChanged: bool)

  // ---- transformManagedCredential ----

  /** The context a stored envelope was made in: the recorded one, else the legacy owner. */
  function SourceContext(c: Credential): string {
    var recorded := if c.contextId.Some? then Trim(c.contextId.value) else "";
    if recorded != "" then recorded else if c.providerId.Some? then Trim(c.providerId.value) else ""
  }

  function ContextOf(c: Credential, providerId: string): Context {
    Context(providerId, c.adapter, c.id, c.revision)
  }

  function EnvelopeFrom(b: Bundle): Option<Envelope> {
    if b.formatVersion != Some(1) || !Truthy(b.keyId) || !Truthy(b.ciphertext) || !Truthy(b.nonce) || !Truthy(b.tag) then None
    else Some(Envelope(1, b.keyId.value, b.ciphertext.value, b.nonce.value, b.tag.value))
  }

  function Reencrypt(c: Credential, b: TokenBundle, crypto: Crypto): Result<Envelope, Fault> {
    match crypto.encrypt(b, ContextOf(c, c.id))
    case None => Failure(EncryptionFailed)
    case Some(e) => if crypto.decrypt(e, ContextOf(c, c.id)).None? then Failure(DecryptionFailed) else Success(e)
  }

  function Transform(c: Credential, crypto: Crypto, apply: bool): Result<Transformed, Fault> {
    if c.bundle.Present() != 0 && c.bundle.Present() != 5 then Failure(EnvelopeIncomplete)
    else if c.status.Connected? && c.bundle.Present() == 0 then Failure(EnvelopeMissing)
    else if c.bundle.Present() == 0 then
      Success(Transformed(None, None, false, c.identityHash.Some?, c.contextId != Some(c.id)))
    else if SourceContext(c) == "" || (SourceContext(c) != c.id && Some(SourceContext(c)) != c.providerId) then
      Failure(ContextUnrecognized)
    else
      match EnvelopeFrom(c.bundle)
      case None => Failure(EnvelopeIncomplete)
      case Some(e) =>
        match crypto.decrypt(e, ContextOf(c, SourceContext(c)))
        case None => Failure(DecryptionFailed)
        case Some(b) =>
          var hash := IdentityHash(crypto, c.adapter, b);
          var reencrypt := SourceContext(c) != c.id;
          var replaced := if reencrypt && apply then Reencrypt(c, b, crypto) else Success(e);
          if hash.None? then Failure(IdentityInvalid)
          else if replaced.Failure? then Failure(replaced.error)
          else
            Success(Transformed(if reencrypt && apply then Some(replaced.value) else None, hash, reencrypt,
                                c.identityHash != hash, c.contextId != Some(c.id)))
  }

  // ---- Row rules ----

  /** Two rows with the same non-empty key. */
  ghost predicate DistinctKeys<T(!new), K(!new)>(rows: seq<T>, key: T -> Option<K>) {
    forall i, j :: 0 <= i < j < |rows| && key(rows[i]).Some? ==> key(rows[i]) != key(rows[j])
  }

  function OwnerKey(c: Credential): Option<string> {
    if Truthy(c.providerId) then c.providerId else None
  }

  /** The identity a live credential carries before the migration. */
  function LegacyKey(c: Credential): Option<(Adapter, string)> {
    if Truthy(c.identityHash) && IsLive(c) then Some((c.adapter, c.identityHash.value)) else None
  }

  function NewHash(c: Credential, crypto: Crypto): Option<string> {
    match Transform(c, crypto, false)
    case Failure(_) => None
    case Success(t) => t.identityHash
  }

  /** The identity a live credential carries after it. */
  function NewKey(c: Credential, crypto: Crypto): Option<(Adapter, string)> {
    var hash := NewHash(c, crypto);
    if Truthy(hash) && IsLive(c) then Some((c.adapter, hash.value)) else None
  }

  function Legacy(credentials: seq<Credential>, p: Provider): Option<Credential> {
    if p.id == "" then None else Find(credentials, OwnerKey, Some(p.id))
  }

  function DesiredMode(credentials: seq<Credential>, p: Provider): BindingMode {
    if p.mode.Some? then p.mode.value else if Legacy(credentials, p).Some? then Pinned else FollowDefault
  }

  function DesiredPointer(credentials: seq<Credential>, p: Provider): Option<string> {
    if DesiredMode(credentials, p).FollowDefault? then None
    else if p.credentialId.Some? then p.credentialId
    else if Legacy(credentials, p).Some? then Some(Legacy(credentials, p).value.id)
    else None
  }

  function ProviderFault(credentials: seq<Credential>, p: Provider): Option<Fault> {
    var pointer := DesiredPointer(credentials, p);
    var account := if Truthy(pointer) then Find(credentials, CredentialKey, pointer.value) else None;
    if DesiredMode(credentials, p).Pinned? && (account.None? || account.value.adapter != p.adapter) then Some(PinInvalid)
    else None
  }

  function BindProvider(credentials: seq<Credential>, p: Provider): Provider {
    p.(mode := Some(DesiredMode(credentials, p)), credentialId := DesiredPointer(credentials, p))
  }

  function MigrateProvider(credentials: seq<Credential>, p: Provider): Provider {
    if IsManaged(p) then BindProvider(credentials, p) else p
  }

  ghost function CredentialsFault(credentials: seq<Credential>, crypto: Crypto, apply: bool): Option<Fault> {
    if credentials == [] then None
    else
      var front, c := credentials[..|credentials| - 1], credentials[|credentials| - 1];
      var earlier := CredentialsFault(front, crypto, apply);
      if earlier.Some? then earlier
      else
        match Transform(c, crypto, apply)
        case Failure(fault) => Some(fault)
        case Success(_) =>
          if NewKey(c, crypto).Some? && exists x :: x in front && NewKey(x, crypto) == NewKey(c, crypto)
          then Some(DuplicateIdentity) else None
  }

  function Rewritten(c: Credential, t: Transformed): Credential {
    c.(contextId := Some(c.id), identityHash := t.identityHash,
       bundle := if t.envelope.Some? then BundleOf(t.envelope.value) else c.bundle)
  }

  function MigrateCredential(crypto: Crypto, c: Credential): Credential {
    match Transform(c, crypto, true)
    case Failure(_) => c
    case Success(t) => Rewritten(c, t)
  }

  function MigrateAttempt(a: Attempt): Attempt {
    if IsActive(a) || a.contextId != Some(a.id) then
      a.(status := if IsActive(a) then Cancelled else a.status, revision := a.revision + 1, contextId := Some(a.id),
         bundle := NO_BUNDLE, flow := None, failureCode := if IsActive(a) then None else a.failureCode)
    else a
  }

  function JobScope(j: Job): string {
    if j.accountScopeId.Some? then j.accountScopeId.value else j.sourceRecordId
  }

  function JobAccount(credentials: seq<Credential>, j: Job): Option<string> {
    if j.managedCredentialId.Some? then j.managedCredentialId
    else if j.sourceKind.FromCredential? && Find(credentials, CredentialKey, j.sourceRecordId).Some? then Some(j.sourceRecordId)
    else None
  }

  function JobEpoch(credentials: seq<Credential>, j: Job): Option<int> {
    var account := JobAccount(credentials, j);
    if !Truthy(account) then None
    else if j.credentialAuthEpoch.Some? then j.credentialAuthEpoch
    else
      match Find(credentials, CredentialKey, account.value)
      case None => None
      case Some(c) => Some(c.authEpoch)
  }

  function JobFault(credentials: seq<Credential>, j: Job): Option<Fault> {
    if Truthy(JobAccount(credentials, j)) && (JobEpoch(credentials, j).None? || JobEpoch(credentials, j) == Some(0))
    then Some(EpochUnrecoverable) else None
  }

  function MigrateJob(credentials: seq<Credential>, j: Job): Job {
    j.(accountScopeId := Some(JobScope(j)), managedCredentialId := JobAccount(credentials, j),
       credentialAuthEpoch := JobEpoch(credentials, j), contextId := Some(JobScope(j)))
  }

  /** The checks made before the first write. */
  ghost function IntakeFault(credentials: seq<Credential>, jobs: seq<Job>): Option<Fault> {
    if Count(jobs, IsUnfinished) > 0 then Some(JobsNotTerminal)
    else if Count(jobs, HasMaterial) > 0 then Some(JobRetainedMaterial)
    else if !DistinctKeys(credentials, OwnerKey) then Some(LegacyOwnerDuplicate)
    else None
  }

  /** The checks made after the Provider rows have been written. */
  ghost function AccountsFault(credentials: seq<Credential>, jobs: seq<Job>, crypto: Crypto, apply: bool): Option<Fault> {
    if !DistinctKeys(credentials, LegacyKey) then Some(DuplicateIdentity)
    else if CredentialsFault(credentials, crypto, apply).Some? then CredentialsFault(credentials, crypto, apply)
    else FirstFault(jobs, j => JobFault(credentials, j))
  }

  function Selected(s: State): State {
    s.(providers := Filter(s.providers, IsManaged))
  }

  /** The checks made up to the last Provider row. */
  ghost function BindingsFault(s: State): Option<Fault> {
    if IntakeFault(s.credentials, s.jobs).Some? then IntakeFault(s.credentials, s.jobs)
    else FirstFault(Selected(s).providers, p => ProviderFault(s.credentials, p))
  }

  /** Which check throws first, if any does before verification. */
  ghost function MigrationFault(s: State, crypto: Crypto, apply: bool): Option<Fault> {
    if BindingsFault(s).Some? then BindingsFault(s) else AccountsFault(s.credentials, s.jobs, crypto, apply)
  }

  function MigratedProviders(s: State): seq<Provider> {
    MapRows(s.providers, p => MigrateProvider(s.credentials, p))
  }

  function MigratedCredentials(s: State, crypto: Crypto): seq<Credential> {
    MapRows(s.credentials, c => MigrateCredential(crypto, c))
  }

  function MigratedAttempts(s: State): seq<Attempt> {
    MapRows(s.attempts, MigrateAttempt)
  }

  function MigratedJobs(s: State): seq<Job> {
    MapRows(s.jobs, j => MigrateJob(s.credentials, j))
  }

  /** The row-wise specification of an apply run. */
  function Migrated(s: State, crypto: Crypto): State {
    State(MigratedProviders(s), MigratedCredentials(s, crypto), s.defaults, MigratedAttempts(s), MigratedJobs(s))
  }

  // ---- Fingerprint entries and counters ----

  function ProviderLine(p: Provider, mode: BindingMode, pointer: Option<string>): Entry {
    [Str("provider"), Str(p.id), Str(p.adapter.Name()), Str(mode.Name()), OptText(pointer)]
  }

  function ProviderEntry(credentials: seq<Credential>, p: Provider): Entry {
    ProviderLine(p, DesiredMode(credentials, p), DesiredPointer(credentials, p))
  }

  function CredentialLine(c: Credential, identityHash: Option<string>): Entry {
    [Str("credential"), Str(c.id), OptText(c.providerId), Str(c.adapter.Name()), Str(c.status.Name()),
     Num(c.authEpoch), Num(c.revision), OptText(identityHash)]
  }

  function CredentialEntry(crypto: Crypto, c: Credential): Entry {
    CredentialLine(c, NewHash(c, crypto))
  }

  function AttemptEntry(a: Attempt): Entry {
    [Str("attempt"), Str(a.id), Str(a.adapter.Name())]
  }

  function JobLine(j: Job, scope: string, account: Option<string>): Entry {
    [Str("revocation"), Str(j.id), Str(j.adapter.Name()), Str(j.sourceKind.Name()), Str(j.sourceRecordId),
     Str(scope), OptText(account)]
  }

  function JobEntry(credentials: seq<Credential>, j: Job): Entry {
    JobLine(j, JobScope(j), JobAccount(credentials, j))
  }

  function Entries(selected: State, crypto: Crypto): seq<Entry> {
    MapRows(selected.providers, p => ProviderEntry(selected.credentials, p))
    + MapRows(selected.credentials, c => CredentialEntry(crypto, c))
    + MapRows(selected.attempts, AttemptEntry)
    + MapRows(selected.jobs, j => JobEntry(selected.credentials, j))
  }

  predicate ProviderChanges(credentials: seq<Credential>, p: Provider) {
    p.mode != Some(DesiredMode(credentials, p)) || p.credentialId != DesiredPointer(credentials, p)
  }

  /** The dry transform of a row that has one; its flags drive the credential counters. */
  function Plan(c: Credential, crypto: Crypto): Transformed {
    match Transform(c, crypto, false)
    case Success(t) => t
    case Failure(_) => Transformed(None, None, false, false, false)
  }

  predicate Touched(t: Transformed) {
    t.reencrypt || t.identityChanged || t.contextChanged
  }

  predicate JobChanges(credentials: seq<Credential>, j: Job) {
    MigrateJob(credentials, j) != j
  }

  datatype ProviderTally = ProviderTally(changed: nat, pinned: nat, following: nat)

  datatype CredentialTally = CredentialTally(changed: nat, reencrypted: nat, rehashed: nat, cleared: nat)

  datatype AttemptTally = AttemptTally(changed: nat, terminated: nat, backfilled: nat)

  function TallyProviders(credentials: seq<Credential>, providers: seq<Provider>): ProviderTally {
    ProviderTally(
      Count(providers, p => ProviderChanges(credentials, p)),
      Count(providers, p => ProviderChanges(credentials, p) && DesiredMode(credentials, p).Pinned?),
      Count(providers, p => ProviderChanges(credentials, p) && DesiredMode(credentials, p).FollowDefault?))
  }

  function TallyCredentials(crypto: Crypto, credentials: seq<Credential>): CredentialTally {
    CredentialTally(
      Count(credentials, c => Touched(Plan(c, crypto))),
      Count(credentials, c => Plan(c, crypto).reencrypt),
      Count(credentials, c => Plan(c, crypto).identityChanged && Truthy(Plan(c, crypto).identityHash)),
      Count(credentials, c => Plan(c, crypto).identityChanged && !Truthy(Plan(c, crypto).identityHash)))
  }

  function ContextMissing(a: Attempt): bool {
    a.contextId != Some(a.id)
  }

  function AttemptChanges(a: Attempt): bool {
    IsActive(a) || ContextMissing(a)
  }

  function TallyAttempts(attempts: seq<Attempt>): AttemptTally {
    AttemptTally(Count(attempts, AttemptChanges), Count(attempts, IsActive), Count(attempts, ContextMissing))
  }

  // ---- The database as the run proceeds ----

  function AfterProviders(s: State, apply: bool): State {
    if apply then s.(providers := MigratedProviders(s)) else s
  }

  function AfterCredentials(s: State, crypto: Crypto, apply: bool): State {
    if apply then AfterProviders(s, apply).(credentials := MigratedCredentials(s, crypto)) else s
  }

  function AfterAttempts(s: State, crypto: Crypto, apply: bool): State {
    if apply then AfterCredentials(s, crypto, apply).(attempts := MigratedAttempts(s)) else s
  }

  function AfterJobs(s: State, crypto: Crypto, apply: bool): State {
    if apply then AfterAttempts(s, crypto, apply).(jobs := MigratedJobs(s)) else s
  }

  // ---- The loops ----

  method HasDuplicate<T(!new), K(!new,==)>(rows: seq<T>, key: T -> Option<K>) returns (duplicate: bool)
    ensures duplicate <==> !DistinctKeys(rows, key)
  {
    var seen: set<K> := {};
    for i := 0 to |rows|
      invariant DistinctKeys(rows[..i], key)
      invariant forall k :: k in seen <==> exists j :: 0 <= j < i && key(rows[j]) == Some(k)
    {
      var k := key(rows[i]);
      if k.Some? {
        if k.value in seen {
          return true;
        }
        seen := seen + {k.value};
      }
      ghost var was, now := rows[..i], rows[..i + 1];
      forall a, b | 0 <= a < b < |now| && key(now[a]).Some? ensures key(now[a]) != key(now[b]) {
        if b < i {
          assert was[a] == rows[a] && was[b] == rows[b];
        } else {
          assert key(rows[a]) == Some(key(rows[a]).value);
        }
      }
    }
    assert rows[..|rows|] == rows;
    return false;
  }

  /** One Provider: its desired binding, from the two lookup maps. */
  method Decide(credentials: seq<Credential>, p: Provider, byId: map<string, Credential>, byOwner: map<Option<string>, Credential>)
    returns (fault: Option<Fault>, mode: BindingMode, pointer: Option<string>)
    requires byId == IndexBy(credentials, CredentialKey) && byOwner == IndexBy(credentials, OwnerKey)
    ensures fault == ProviderFault(credentials, p)
    ensures mode == DesiredMode(credentials, p) && pointer == DesiredPointer(credentials, p)
  {
    IndexFind(credentials, OwnerKey, Some(p.id));
    var legacy := if p.id == "" then None else Get(byOwner, Some(p.id));
    mode := if p.mode.Some? then p.mode.value else if legacy.Some? then Pinned else FollowDefault;
    pointer := None;
    if mode.Pinned? {
      pointer := if p.credentialId.Some? then p.credentialId else if legacy.Some? then Some(legacy.value.id) else None;
    }
    var account := None;
    if Truthy(pointer) {
      IndexFind(credentials, CredentialKey, pointer.value);
      account := Get(byId, pointer.value);
    }
    fault := if mode.Pinned? && (account.None? || account.value.adapter != p.adapter) then Some(PinInvalid) else None;
  }

  /** The Provider table after the first `i` selected rows. */
  ghost function ProvidersAt(s: State, i: nat): seq<Provider>
    requires i <= |Selected(s).providers|
  {
    Patched(s.providers, ProviderKey, Keys(Selected(s).providers[..i], ProviderKey), p => MigrateProvider(s.credentials, p))
  }

  function ProviderHit(p: Provider): Provider -> bool {
    (row: Provider) => row.id == p.id
  }

  function ProviderChange(mode: BindingMode, pointer: Option<string>): Provider -> Provider {
    (row: Provider) => row.(mode := Some(mode), credentialId := pointer)
  }

  lemma ProviderStep(s: State, i: nat)
    requires UniqueBy(s.providers, ProviderKey) && i < |Selected(s).providers|
    ensures var p := Selected(s).providers[i];
      ProvidersAt(s, i + 1) ==
      if ProviderChanges(s.credentials, p)
      then UpdateWhere(ProvidersAt(s, i), ProviderHit(p),
                       ProviderChange(DesiredMode(s.credentials, p), DesiredPointer(s.credentials, p)))
      else ProvidersAt(s, i)
  {
    var rows := Selected(s).providers;
    var p, done := rows[i], Keys(rows[..i], ProviderKey);
    var migrate := p => MigrateProvider(s.credentials, p);
    assert p in rows;
    FilterUnique(s.providers, IsManaged, ProviderKey);
    KeysStep(rows, ProviderKey, i);
    if ProviderChanges(s.credentials, p) {
      PatchStep(s.providers, ProviderKey, done, migrate, p, ProviderHit(p),
                ProviderChange(DesiredMode(s.credentials, p), DesiredPointer(s.credentials, p)));
    } else {
      PatchSkip(s.providers, ProviderKey, done, migrate, p);
    }
  }

  /** The database after the first `i` selected Providers. */
  ghost function ProviderStage(s: State, apply: bool, i: nat): State
    requires i <= |Selected(s).providers|
  {
    if apply then s.(providers := ProvidersAt(s, i)) else s
  }

  lemma ProvidersEnds(s: State, apply: bool)
    ensures ProviderStage(s, apply, 0) == s
    ensures ProviderStage(s, apply, |Selected(s).providers|) == AfterProviders(s, apply)
  {
    var rows := Selected(s).providers;
    assert rows[..|rows|] == rows && Keys(rows[..0], ProviderKey) == {};
    PatchAll(s.providers, ProviderKey, Keys(rows, ProviderKey), p => MigrateProvider(s.credentials, p));
  }

  lemma TallyProvider(credentials: seq<Credential>, providers: seq<Provider>, i: nat)
    requires i < |providers|
    ensures var p := providers[i];
      TallyProviders(credentials, providers[..i + 1])
      == Bound(TallyProviders(credentials, providers[..i]), ProviderChanges(credentials, p), DesiredMode(credentials, p))
  {
    FilterPrefix(providers, p => ProviderChanges(credentials, p), i);
    FilterPrefix(providers, p => ProviderChanges(credentials, p) && DesiredMode(credentials, p).Pinned?, i);
    FilterPrefix(providers, p => ProviderChanges(credentials, p) && DesiredMode(credentials, p).FollowDefault?, i);
  }

  method WriteProvider(db: Database, s: State, apply: bool, i: nat, mode: BindingMode, pointer: Option<string>)
    returns (changed: bool)
    requires UniqueBy(s.providers, ProviderKey) && i < |Selected(s).providers|
    requires mode == DesiredMode(s.credentials, Selected(s).providers[i])
    requires pointer == DesiredPointer(s.credentials, Selected(s).providers[i])
    requires db.Contents() == ProviderStage(s, apply, i)
    modifies db
    ensures changed == ProviderChanges(s.credentials, Selected(s).providers[i])
    ensures db.Contents() == ProviderStage(s, apply, i + 1)
  {
    var p := Selected(s).providers[i];
    ProviderStep(s, i);
    changed := p.mode != Some(mode) || p.credentialId != pointer;
    if changed && apply {
      var _ := db.UpdateProviders(ProviderHit(p), ProviderChange(mode, pointer));
    }
  }

  /** The counter increments of one Provider. */
  function Bound(tally: ProviderTally, changed: bool, mode: BindingMode): ProviderTally {
    if !changed then tally
    else if mode.Pinned? then tally.(changed := tally.changed + 1, pinned := tally.pinned + 1)
    else tally.(changed := tally.changed + 1, following := tally.following + 1)
  }

  /** Counters and fingerprint entries after the first `i` selected Providers. */
  ghost predicate ProvidersNoted(s: State, i: nat, tally: ProviderTally, entries: seq<Entry>) {
    var rows := Selected(s).providers;
    && i <= |rows|
    && tally == TallyProviders(s.credentials, rows[..i])
    && entries == MapRows(rows[..i], p => ProviderEntry(s.credentials, p))
  }

  lemma NoProviderNoted(s: State)
    ensures ProvidersNoted(s, 0, ProviderTally(0, 0, 0), [])
  {
  }

  lemma NoteProvider(s: State, i: nat, tally: ProviderTally, entries: seq<Entry>)
    requires i < |Selected(s).providers| && ProvidersNoted(s, i, tally, entries)
    ensures var p := Selected(s).providers[i];
      ProvidersNoted(s, i + 1, Bound(tally, ProviderChanges(s.credentials, p), DesiredMode(s.credentials, p)),
                     entries + [ProviderEntry(s.credentials, p)])
  {
    TallyProvider(s.credentials, Selected(s).providers, i);
    MapPrefix(Selected(s).providers, p => ProviderEntry(s.credentials, p), i);
  }

  lemma AllProvidersNoted(s: State, tally: ProviderTally, entries: seq<Entry>)
    requires ProvidersNoted(s, |Selected(s).providers|, tally, entries)
    ensures tally == TallyProviders(s.credentials, Selected(s).providers)
    ensures entries == MapRows(Selected(s).providers, p => ProviderEntry(s.credentials, p))
  {
    assert Selected(s).providers[..|Selected(s).providers|] == Selected(s).providers;
  }

  /** One Provider: its binding decided, checked and written. */
  method RewriteProvider(db: Database, s: State, apply: bool, i: nat, byId: map<string, Credential>,
                         byOwner: map<Option<string>, Credential>)
    returns (fault: Option<Fault>, mode: BindingMode, pointer: Option<string>, changed: bool)
    requires UniqueBy(s.providers, ProviderKey) && i < |Selected(s).providers|
    requires byId == IndexBy(s.credentials, CredentialKey) && byOwner == IndexBy(s.credentials, OwnerKey)
    requires db.Contents() == ProviderStage(s, apply, i)
    modifies db
    ensures var p := Selected(s).providers[i];
      && fault == ProviderFault(s.credentials, p)
      && mode == DesiredMode(s.credentials, p) && pointer == DesiredPointer(s.credentials, p)
      && (fault.None? ==> changed == ProviderChanges(s.credentials, p))
    ensures fault.None? ==> db.Contents() == ProviderStage(s, apply, i + 1)
  {
    changed := false;
    fault, mode, pointer := Decide(s.credentials, Selected(s).providers[i], byId, byOwner);
    if fault.None? {
      changed := WriteProvider(db, s, apply, i, mode, pointer);
    }
  }

  /** The first `i` selected Providers have no fault. */
  ghost predicate ProvidersPass(s: State, i: nat) {
    i <= |Selected(s).providers| && FirstFault(Selected(s).providers[..i], p => ProviderFault(s.credentials, p)).None?
  }

  lemma CheckProvider(s: State, i: nat)
    requires i < |Selected(s).providers| && ProvidersPass(s, i)
    ensures var fault := ProviderFault(s.credentials, Selected(s).providers[i]);
      if fault.Some? then FirstFault(Selected(s).providers, p => ProviderFault(s.credentials, p)) == fault
      else ProvidersPass(s, i + 1)
  {
    FaultStep(Selected(s).providers, p => ProviderFault(s.credentials, p), i);
  }

  lemma AllProvidersPass(s: State)
    requires ProvidersPass(s, |Selected(s).providers|)
    ensures FirstFault(Selected(s).providers, p => ProviderFault(s.credentials, p)).None?
  {
    assert Selected(s).providers[..|Selected(s).providers|] == Selected(s).providers;
  }

  method MigrateProviders(db: Database, s: State, apply: bool, byId: map<string, Credential>, byOwner: map<Option<string>, Credential>)
    returns (fault: Option<Fault>, tally: ProviderTally, entries: seq<Entry>)
    requires db.Contents() == s && UniqueBy(s.providers, ProviderKey)
    requires byId == IndexBy(s.credentials, CredentialKey) && byOwner == IndexBy(s.credentials, OwnerKey)
    modifies db
    ensures fault == FirstFault(Selected(s).providers, p => ProviderFault(s.credentials, p))
    ensures fault.None? ==> db.Contents() == AfterProviders(s, apply)
    ensures fault.None? ==> ProvidersNoted(s, |Selected(s).providers|, tally, entries)
  {
    var rows := Selected(s).providers;
    ProvidersEnds(s, apply);
    NoProviderNoted(s);
    tally, entries := ProviderTally(0, 0, 0), [];
    for i := 0 to |rows|
      invariant ProvidersPass(s, i)
      invariant db.Contents() == ProviderStage(s, apply, i)
      invariant ProvidersNoted(s, i, tally, entries)
    {
      var mode, pointer, changed;
      fault, mode, pointer, changed := RewriteProvider(db, s, apply, i, byId, byOwner);
      CheckProvider(s, i);
      if fault.Some? {
        return;
      }
      NoteProvider(s, i, tally, entries);
      tally := Bound(tally, changed, mode);
      entries := entries + [ProviderLine(rows[i], mode, pointer)];
    }
    AllProvidersPass(s);
    fault := None;
  }

  /** The transform an apply run makes differs from the dry one only by carrying the new envelope. */
  lemma TransformDry(c: Credential, crypto: Crypto)
    ensures Transform(c, crypto, true).Success? ==>
              && Transform(c, crypto, false).Success?
              && Transform(c, crypto, false).value == Transform(c, crypto, true).value.(envelope := None)
              && Transform(c, crypto, true).value.reencrypt == Transform(c, crypto, true).value.envelope.Some?
  {
  }

  ghost function CredentialsAt(s: State, crypto: Crypto, i: nat): seq<Credential>
    requires i <= |s.credentials|
  {
    Patched(s.credentials, CredentialKey, Keys(s.credentials[..i], CredentialKey), c => MigrateCredential(crypto, c))
  }

  function CredentialHit(c: Credential): Credential -> bool {
    (row: Credential) => row.id == c.id
  }

  function CredentialChange(t: Transformed): Credential -> Credential {
    (row: Credential) => Rewritten(row, t)
  }

  lemma CredentialStep(s: State, crypto: Crypto, i: nat, t: Transformed)
    requires UniqueBy(s.credentials, CredentialKey) && i < |s.credentials|
    requires Transform(s.credentials[i], crypto, true) == Success(t)
    ensures CredentialsAt(s, crypto, i + 1) ==
      if Touched(t) then UpdateWhere(CredentialsAt(s, crypto, i), CredentialHit(s.credentials[i]), CredentialChange(t))
      else CredentialsAt(s, crypto, i)
  {
    var c, done := s.credentials[i], Keys(s.credentials[..i], CredentialKey);
    var migrate := c => MigrateCredential(crypto, c);
    KeysStep(s.credentials, CredentialKey, i);
    if Touched(t) {
      PatchStep(s.credentials, CredentialKey, done, migrate, c, CredentialHit(c), CredentialChange(t));
    } else {
      PatchSkip(s.credentials, CredentialKey, done, migrate, c);
    }
  }

  /** The database after the first `i` credentials. */
  ghost function CredentialStage(s: State, crypto: Crypto, apply: bool, i: nat): State
    requires i <= |s.credentials|
  {
    if apply then AfterProviders(s, apply).(credentials := CredentialsAt(s, crypto, i)) else s
  }

  lemma CredentialsEnds(s: State, crypto: Crypto, apply: bool)
    ensures CredentialStage(s, crypto, apply, 0) == AfterProviders(s, apply)
    ensures CredentialStage(s, crypto, apply, |s.credentials|) == AfterCredentials(s, crypto, apply)
  {
    var rows := s.credentials;
    assert rows[..|rows|] == rows && Keys(rows[..0], CredentialKey) == {};
    PatchAll(rows, CredentialKey, Keys(rows, CredentialKey), c => MigrateCredential(crypto, c));
  }

  lemma TallyCredential(crypto: Crypto, credentials: seq<Credential>, i: nat)
    requires i < |credentials|
    ensures TallyCredentials(crypto, credentials[..i + 1])
         == Add(TallyCredentials(crypto, credentials[..i]), Plan(credentials[i], crypto))
  {
    FilterPrefix(credentials, c => Touched(Plan(c, crypto)), i);
    FilterPrefix(credentials, c => Plan(c, crypto).reencrypt, i);
    FilterPrefix(credentials, c => Plan(c, crypto).identityChanged && Truthy(Plan(c, crypto).identityHash), i);
    FilterPrefix(credentials, c => Plan(c, crypto).identityChanged && !Truthy(Plan(c, crypto).identityHash), i);
  }

  /** The four counter increments of one credential. */
  function Add(tally: CredentialTally, t: Transformed): CredentialTally {
    CredentialTally(
      tally.changed + (if Touched(t) then 1 else 0),
      tally.reencrypted + (if t.reencrypt then 1 else 0),
      tally.rehashed + (if t.identityChanged && Truthy(t.identityHash) then 1 else 0),
      tally.cleared + (if t.identityChanged && !Truthy(t.identityHash) then 1 else 0))
  }

  lemma {:induction false} CredentialsFaultPrefix(credentials: seq<Credential>, crypto: Crypto, apply: bool, n: nat)
    requires n <= |credentials| && CredentialsFault(credentials[..n], crypto, apply).Some?
    ensures CredentialsFault(credentials, crypto, apply) == CredentialsFault(credentials[..n], crypto, apply)
    decreases |credentials|
  {
    if n < |credentials| {
      assert credentials[..|credentials| - 1][..n] == credentials[..n];
      CredentialsFaultPrefix(credentials[..|credentials| - 1], crypto, apply, n);
    } else {
      assert credentials[..n] == credentials;
    }
  }

  ghost predicate KeysSeen(seen: set<(Adapter, string)>, credentials: seq<Credential>, crypto: Crypto) {
    forall k :: k in seen <==> exists x :: x in credentials && NewKey(x, crypto) == Some(k)
  }

  lemma NextFault(credentials: seq<Credential>, crypto: Crypto, apply: bool, i: nat)
    requires i < |credentials| && CredentialsFault(credentials[..i], crypto, apply).None?
    ensures var c := credentials[i];
      CredentialsFault(credentials[..i + 1], crypto, apply)
      == (match Transform(c, crypto, apply)
          case Failure(fault) => Some(fault)
          case Success(_) =>
            if NewKey(c, crypto).Some? && exists x :: x in credentials[..i] && NewKey(x, crypto) == NewKey(c, crypto)
            then Some(DuplicateIdentity) else None)
  {
    assert credentials[..i + 1][..i] == credentials[..i];
  }

  lemma AdoptStep(s: State, crypto: Crypto, apply: bool, seen: set<(Adapter, string)>, i: nat)
    requires i < |s.credentials|
    requires CredentialsFault(s.credentials[..i], crypto, apply).None? && KeysSeen(seen, s.credentials[..i], crypto)
    ensures var c := s.credentials[i];
      CredentialsFault(s.credentials[..i + 1], crypto, apply)
      == (match Transform(c, crypto, apply)
          case Failure(fault) => Some(fault)
          case Success(_) =>
            if NewKey(c, crypto).Some? && NewKey(c, crypto).value in seen then Some(DuplicateIdentity) else None)
  {
    var c := s.credentials[i];
    NextFault(s.credentials, crypto, apply, i);
    if NewKey(c, crypto).Some? {
      SeenBefore(seen, s.credentials[..i], crypto, NewKey(c, crypto).value);
    }
  }

  lemma SeenBefore(seen: set<(Adapter, string)>, credentials: seq<Credential>, crypto: Crypto, key: (Adapter, string))
    requires KeysSeen(seen, credentials, crypto)
    ensures key in seen <==> exists x :: x in credentials && NewKey(x, crypto) == Some(key)
  {
  }

  lemma SeeStep(s: State, crypto: Crypto, seen: set<(Adapter, string)>, i: nat)
    requires i < |s.credentials| && KeysSeen(seen, s.credentials[..i], crypto)
    ensures var key := NewKey(s.credentials[i], crypto);
      KeysSeen(if key.Some? then seen + {key.value} else seen, s.credentials[..i + 1], crypto)
  {
    var c, was, now := s.credentials[i], s.credentials[..i], s.credentials[..i + 1];
    assert now == was + [c];
    var next := if NewKey(c, crypto).Some? then seen + {NewKey(c, crypto).value} else seen;
    forall k | k in next ensures exists x :: x in now && NewKey(x, crypto) == Some(k) {
      if k !in seen {
        assert c in now && NewKey(c, crypto) == Some(k);
      } else {
        var x :| x in was && NewKey(x, crypto) == Some(k);
        assert x in now;
      }
    }
  }

  /** One credential: transformed, and not a second live row with the same new identity. */
  method Adopt(c: Credential, crypto: Crypto, apply: bool, seen: set<(Adapter, string)>, ghost s: State, ghost i: nat)
    returns (fault: Option<Fault>, t: Transformed, seen': set<(Adapter, string)>)
    requires i < |s.credentials| && s.credentials[i] == c
    requires CredentialsFault(s.credentials[..i], crypto, apply).None? && KeysSeen(seen, s.credentials[..i], crypto)
    ensures fault == CredentialsFault(s.credentials[..i + 1], crypto, apply)
    ensures fault.None? ==> Transform(c, crypto, apply) == Success(t) && KeysSeen(seen', s.credentials[..i + 1], crypto)
  {
    AdoptStep(s, crypto, apply, seen, i);
    SeeStep(s, crypto, seen, i);
    t, seen' := Transformed(None, None, false, false, false), seen;
    var transformed := Transform(c, crypto, apply);
    if transformed.Failure? {
      return Some(transformed.error), t, seen';
    }
    t := transformed.value;
    assert t.identityHash == NewHash(c, crypto) by {
      TransformDry(c, crypto);
    }
    if Truthy(t.identityHash) && c.status.Live() {
      var key := (c.adapter, t.identityHash.value);
      if key in seen {
        return Some(DuplicateIdentity), t, seen';
      }
      seen' := seen + {key};
    }
    fault := None;
  }

  /** Counters and fingerprint entries after the first `i` credentials. */
  ghost predicate CredentialsNoted(s: State, crypto: Crypto, i: nat, tally: CredentialTally, entries: seq<Entry>) {
    && i <= |s.credentials|
    && tally == TallyCredentials(crypto, s.credentials[..i])
    && entries == MapRows(s.credentials[..i], c => CredentialEntry(crypto, c))
  }

  lemma NoteCredential(s: State, crypto: Crypto, apply: bool, i: nat, tally: CredentialTally, entries: seq<Entry>, t: Transformed)
    requires i < |s.credentials| && CredentialsNoted(s, crypto, i, tally, entries)
    requires Transform(s.credentials[i], crypto, apply) == Success(t)
    ensures CredentialsNoted(s, crypto, i + 1, Add(tally, t), entries + [CredentialLine(s.credentials[i], t.identityHash)])
  {
    TransformDry(s.credentials[i], crypto);
    TallyCredential(crypto, s.credentials, i);
    MapPrefix(s.credentials, c => CredentialEntry(crypto, c), i);
  }

  lemma NoCredentialNoted(s: State, crypto: Crypto)
    ensures CredentialsNoted(s, crypto, 0, CredentialTally(0, 0, 0, 0), [])
  {
  }

  lemma AllCredentialsNoted(s: State, crypto: Crypto, tally: CredentialTally, entries: seq<Entry>)
    requires CredentialsNoted(s, crypto, |s.credentials|, tally, entries)
    ensures tally == TallyCredentials(crypto, s.credentials)
    ensures entries == MapRows(s.credentials, c => CredentialEntry(crypto, c))
  {
    assert s.credentials[..|s.credentials|] == s.credentials;
  }

  method WriteCredential(db: Database, s: State, apply: bool, crypto: Crypto, i: nat, t: Transformed)
    requires UniqueBy(s.credentials, CredentialKey) && i < |s.credentials|
    requires Transform(s.credentials[i], crypto, apply) == Success(t)
    requires db.Contents() == CredentialStage(s, crypto, apply, i)
    modifies db
    ensures db.Contents() == CredentialStage(s, crypto, apply, i + 1)
  {
    if apply {
      CredentialStep(s, crypto, i, t);
      if Touched(t) {
        if t.reencrypt && t.envelope.None? {
          assert false;
        }
        var _ := db.UpdateCredentials(CredentialHit(s.credentials[i]), CredentialChange(t));
      }
    }
  }

  /** One credential: adopted and written. */
  method RewriteCredential(db: Database, s: State, apply: bool, crypto: Crypto, i: nat, seen: set<(Adapter, string)>)
    returns (fault: Option<Fault>, t: Transformed, seen': set<(Adapter, string)>)
    requires UniqueBy(s.credentials, CredentialKey) && i < |s.credentials|
    requires CredentialsFault(s.credentials[..i], crypto, apply).None? && KeysSeen(seen, s.credentials[..i], crypto)
    requires db.Contents() == CredentialStage(s, crypto, apply, i)
    modifies db
    ensures fault == CredentialsFault(s.credentials[..i + 1], crypto, apply)
    ensures fault.Some? ==> CredentialsFault(s.credentials, crypto, apply) == fault
    ensures fault.None? ==> Transform(s.credentials[i], crypto, apply) == Success(t) && KeysSeen(seen', s.credentials[..i + 1], crypto)
    ensures fault.None? ==> db.Contents() == CredentialStage(s, crypto, apply, i + 1)
  {
    fault, t, seen' := Adopt(s.credentials[i], crypto, apply, seen, s, i);
    if fault.Some? {
      CredentialsFaultPrefix(s.credentials, crypto, apply, i + 1);
    } else {
      WriteCredential(db, s, apply, crypto, i, t);
    }
  }

  method MigrateCredentials(db: Database, s: State, apply: bool, crypto: Crypto)
    returns (fault: Option<Fault>, tally: CredentialTally, entries: seq<Entry>)
    requires db.Contents() == AfterProviders(s, apply) && UniqueBy(s.credentials, CredentialKey)
    modifies db
    ensures fault == CredentialsFault(s.credentials, crypto, apply)
    ensures fault.None? ==> db.Contents() == AfterCredentials(s, crypto, apply)
    ensures fault.None? ==> CredentialsNoted(s, crypto, |s.credentials|, tally, entries)
  {
    var seen := {};
    CredentialsEnds(s, crypto, apply);
    NoCredentialNoted(s, crypto);
    tally, entries := CredentialTally(0, 0, 0, 0), [];
    for i := 0 to |s.credentials|
      invariant CredentialsFault(s.credentials[..i], crypto, apply).None?
      invariant KeysSeen(seen, s.credentials[..i], crypto)
      invariant db.Contents() == CredentialStage(s, crypto, apply, i)
      invariant CredentialsNoted(s, crypto, i, tally, entries)
    {
      var t;
      fault, t, seen := RewriteCredential(db, s, apply, crypto, i, seen);
      if fault.Some? {
        return;
      }
      NoteCredential(s, crypto, apply, i, tally, entries, t);
      tally := Add(tally, t);
      entries := entries + [CredentialLine(s.credentials[i], t.identityHash)];
    }
    assert s.credentials[..|s.credentials|] == s.credentials;
    fault := None;
  }

  ghost function AttemptsAt(s: State, i: nat): seq<Attempt>
    requires i <= |s.attempts|
  {
    Patched(s.attempts, AttemptKey, Keys(s.attempts[..i], AttemptKey), MigrateAttempt)
  }

  function AttemptHit(a: Attempt): Attempt -> bool {
    (row: Attempt) => row.id == a.id
  }

  function AttemptChange(row: Attempt): Attempt {
    row.(status := if IsActive(row) then Cancelled else row.status, revision := row.revision + 1, contextId := Some(row.id),
         bundle := NO_BUNDLE, flow := None, failureCode := if IsActive(row) then None else row.failureCode)
  }

  lemma AttemptStep(s: State, i: nat)
    requires UniqueBy(s.attempts, AttemptKey) && i < |s.attempts|
    ensures AttemptsAt(s, i + 1) ==
      if AttemptChanges(s.attempts[i]) then UpdateWhere(AttemptsAt(s, i), AttemptHit(s.attempts[i]), AttemptChange)
      else AttemptsAt(s, i)
  {
    var a, done := s.attempts[i], Keys(s.attempts[..i], AttemptKey);
    KeysStep(s.attempts, AttemptKey, i);
    if AttemptChanges(a) {
      PatchStep(s.attempts, AttemptKey, done, MigrateAttempt, a, AttemptHit(a), AttemptChange);
    } else {
      PatchSkip(s.attempts, AttemptKey, done, MigrateAttempt, a);
    }
  }

  lemma AttemptsEnds(s: State)
    ensures AttemptsAt(s, 0) == s.attempts
    ensures AttemptsAt(s, |s.attempts|) == MigratedAttempts(s)
  {
    var rows := s.attempts;
    assert rows[..|rows|] == rows && Keys(rows[..0], AttemptKey) == {};
    PatchAll(rows, AttemptKey, Keys(rows, AttemptKey), MigrateAttempt);
  }

  /** The three counter increments of one attempt. */
  function Noted(tally: AttemptTally, active: bool, contextChanged: bool): AttemptTally {
    AttemptTally(
      tally.changed + (if active || contextChanged then 1 else 0),
      tally.terminated + (if active then 1 else 0),
      tally.backfilled + (if contextChanged then 1 else 0))
  }

  lemma TallyAttempt(attempts: seq<Attempt>, i: nat)
    requires i < |attempts|
    ensures TallyAttempts(attempts[..i + 1])
         == Noted(TallyAttempts(attempts[..i]), IsActive(attempts[i]), ContextMissing(attempts[i]))
  {
    FilterPrefix(attempts, AttemptChanges, i);
    FilterPrefix(attempts, IsActive, i);
    FilterPrefix(attempts, ContextMissing, i);
  }

  method MigrateAttempts(db: Database, s: State, apply: bool, ghost crypto: Crypto)
    returns (tally: AttemptTally, entries: seq<Entry>)
    requires db.Contents() == AfterCredentials(s, crypto, apply) && UniqueBy(s.attempts, AttemptKey)
    modifies db
    ensures db.Contents() == AfterAttempts(s, crypto, apply)
    ensures tally == TallyAttempts(s.attempts)
    ensures entries == MapRows(s.attempts, AttemptEntry)
  {
    AttemptsEnds(s);
    tally, entries := AttemptTally(0, 0, 0), [];
    for i := 0 to |s.attempts|
      invariant db.Contents() == if apply then AfterCredentials(s, crypto, apply).(attempts := AttemptsAt(s, i)) else s
      invariant tally == TallyAttempts(s.attempts[..i])
      invariant entries == MapRows(s.attempts[..i], AttemptEntry)
    {
      var a := s.attempts[i];
      TallyAttempt(s.attempts, i);
      MapPrefix(s.attempts, AttemptEntry, i);
      AttemptStep(s, i);
      tally := Noted(tally, a.status.Active(), a.contextId != Some(a.id));
      if apply && (a.status.Active() || a.contextId != Some(a.id)) {
        var _ := db.UpdateAttempts(AttemptHit(a), AttemptChange);
      }
      entries := entries + [[Str("attempt"), Str(a.id), Str(a.adapter.Name())]];
    }
    assert s.attempts[..|s.attempts|] == s.attempts;
  }

  ghost function JobsAt(s: State, i: nat): seq<Job>
    requires i <= |s.jobs|
  {
    Patched(s.jobs, JobKey, Keys(s.jobs[..i], JobKey), j => MigrateJob(s.credentials, j))
  }

  function JobHit(j: Job): Job -> bool {
    (row: Job) => row.id == j.id
  }

  function JobChange(scope: string, account: Option<string>, epoch: Option<int>): Job -> Job {
    (row: Job) => row.(accountScopeId := Some(scope), managedCredentialId := account, credentialAuthEpoch := epoch,
                       contextId := Some(scope))
  }

  lemma JobStep(s: State, i: nat)
    requires UniqueBy(s.jobs, JobKey) && i < |s.jobs|
    ensures var j := s.jobs[i];
      JobsAt(s, i + 1) ==
      if JobChanges(s.credentials, j)
      then UpdateWhere(JobsAt(s, i), JobHit(j), JobChange(JobScope(j), JobAccount(s.credentials, j), JobEpoch(s.credentials, j)))
      else JobsAt(s, i)
  {
    var j, done := s.jobs[i], Keys(s.jobs[..i], JobKey);
    var migrate := j => MigrateJob(s.credentials, j);
    KeysStep(s.jobs, JobKey, i);
    if JobChanges(s.credentials, j) {
      PatchStep(s.jobs, JobKey, done, migrate, j, JobHit(j),
                JobChange(JobScope(j), JobAccount(s.credentials, j), JobEpoch(s.credentials, j)));
    } else {
      PatchSkip(s.jobs, JobKey, done, migrate, j);
    }
  }

  /** The database after the first `i` revocation jobs. */
  ghost function JobStage(s: State, crypto: Crypto, apply: bool, i: nat): State
    requires i <= |s.jobs|
  {
    if apply then AfterAttempts(s, crypto, apply).(jobs := JobsAt(s, i)) else s
  }

  lemma JobsEnds(s: State, crypto: Crypto, apply: bool)
    ensures JobStage(s, crypto, apply, 0) == AfterAttempts(s, crypto, apply)
    ensures JobStage(s, crypto, apply, |s.jobs|) == AfterJobs(s, crypto, apply)
  {
    var rows := s.jobs;
    assert rows[..|rows|] == rows && Keys(rows[..0], JobKey) == {};
    PatchAll(rows, JobKey, Keys(rows, JobKey), j => MigrateJob(s.credentials, j));
  }

  /** One revocation job: its scope, account and epoch, from the credential map. */
  method Scope(credentials: seq<Credential>, j: Job, byId: map<string, Credential>)
    returns (fault: Option<Fault>, scope: string, account: Option<string>, epoch: Option<int>)
    requires byId == IndexBy(credentials, CredentialKey)
    ensures fault == JobFault(credentials, j)
    ensures scope == JobScope(j) && account == JobAccount(credentials, j) && epoch == JobEpoch(credentials, j)
  {
    IndexFind(credentials, CredentialKey, j.sourceRecordId);
    var source := if j.sourceKind.FromCredential? then Get(byId, j.sourceRecordId) else None;
    scope := if j.accountScopeId.Some? then j.accountScopeId.value else j.sourceRecordId;
    account := if j.managedCredentialId.Some? then j.managedCredentialId
               else if source.Some? then Some(source.value.id) else None;
    epoch := None;
    if Truthy(account) {
      IndexFind(credentials, CredentialKey, account.value);
      var credential := Get(byId, account.value);
      epoch := if j.credentialAuthEpoch.Some? then j.credentialAuthEpoch
               else if credential.Some? then Some(credential.value.authEpoch) else None;
    }
    fault := if Truthy(account) && (epoch.None? || epoch.value == 0) then Some(EpochUnrecoverable) else None;
  }

  /** Counter and fingerprint entries after the first `i` revocation jobs. */
  ghost predicate JobsNoted(s: State, i: nat, changed: nat, entries: seq<Entry>) {
    && i <= |s.jobs|
    && changed == Count(s.jobs[..i], j => JobChanges(s.credentials, j))
    && entries == MapRows(s.jobs[..i], j => JobEntry(s.credentials, j))
  }

  lemma NoJobNoted(s: State)
    ensures JobsNoted(s, 0, 0, [])
  {
  }

  lemma NoteJob(s: State, i: nat, changed: nat, entries: seq<Entry>)
    requires i < |s.jobs| && JobsNoted(s, i, changed, entries)
    ensures JobsNoted(s, i + 1, changed + if JobChanges(s.credentials, s.jobs[i]) then 1 else 0,
                      entries + [JobEntry(s.credentials, s.jobs[i])])
  {
    FilterPrefix(s.jobs, j => JobChanges(s.credentials, j), i);
    MapPrefix(s.jobs, j => JobEntry(s.credentials, j), i);
  }

  lemma AllJobsNoted(s: State, changed: nat, entries: seq<Entry>)
    requires JobsNoted(s, |s.jobs|, changed, entries)
    ensures changed == Count(s.jobs, j => JobChanges(s.credentials, j))
    ensures entries == MapRows(s.jobs, j => JobEntry(s.credentials, j))
  {
    assert s.jobs[..|s.jobs|] == s.jobs;
  }

  /** One revocation job rewritten, if it differs from its target. */
  method WriteJob(db: Database, s: State, apply: bool, ghost crypto: Crypto, i: nat, scope: string, account: Option<string>,
                  epoch: Option<int>) returns (changed: bool)
    requires UniqueBy(s.jobs, JobKey) && i < |s.jobs|
    requires scope == JobScope(s.jobs[i]) && account == JobAccount(s.credentials, s.jobs[i])
    requires epoch == JobEpoch(s.credentials, s.jobs[i])
    requires db.Contents() == JobStage(s, crypto, apply, i)
    modifies db
    ensures changed == JobChanges(s.credentials, s.jobs[i])
    ensures db.Contents() == JobStage(s, crypto, apply, i + 1)
  {
    var j := s.jobs[i];
    JobStep(s, i);
    changed := j.accountScopeId != Some(scope) || j.managedCredentialId != account || j.credentialAuthEpoch != epoch
               || j.contextId != Some(scope);
    if changed && apply {
      var _ := db.UpdateJobs(JobHit(j), JobChange(scope, account, epoch));
    }
  }

  /** One revocation job: checked, rewritten and fingerprinted. */
  method RewriteJob(db: Database, s: State, apply: bool, ghost crypto: Crypto, i: nat, byId: map<string, Credential>)
    returns (fault: Option<Fault>, changed: bool, entry: Entry)
    requires UniqueBy(s.jobs, JobKey) && i < |s.jobs| && byId == IndexBy(s.credentials, CredentialKey)
    requires db.Contents() == JobStage(s, crypto, apply, i)
    modifies db
    ensures fault == JobFault(s.credentials, s.jobs[i])
    ensures fault.None? ==> changed == JobChanges(s.credentials, s.jobs[i]) && entry == JobEntry(s.credentials, s.jobs[i])
    ensures fault.None? ==> db.Contents() == JobStage(s, crypto, apply, i + 1)
  {
    var scope, account, epoch;
    fault, scope, account, epoch := Scope(s.credentials, s.jobs[i], byId);
    changed, entry := false, [];
    if fault.None? {
      changed := WriteJob(db, s, apply, crypto, i, scope, account, epoch);
      entry := JobLine(s.jobs[i], scope, account);
    }
  }

  /** The first `i` jobs have no fault. */
  ghost predicate JobsPass(s: State, i: nat) {
    i <= |s.jobs| && FirstFault(s.jobs[..i], j => JobFault(s.credentials, j)).None?
  }

  lemma CheckJob(s: State, i: nat)
    requires i < |s.jobs| && JobsPass(s, i)
    ensures var fault := JobFault(s.credentials, s.jobs[i]);
      if fault.Some? then FirstFault(s.jobs, j => JobFault(s.credentials, j)) == fault else JobsPass(s, i + 1)
  {
    FaultStep(s.jobs, j => JobFault(s.credentials, j), i);
  }

  lemma AllJobsPass(s: State)
    requires JobsPass(s, |s.jobs|)
    ensures FirstFault(s.jobs, j => JobFault(s.credentials, j)).None?
  {
    assert s.jobs[..|s.jobs|] == s.jobs;
  }

  method MigrateJobs(db: Database, s: State, apply: bool, ghost crypto: Crypto, byId: map<string, Credential>)
    returns (fault: Option<Fault>, changed: nat, entries: seq<Entry>)
    requires db.Contents() == AfterAttempts(s, crypto, apply)
    requires UniqueBy(s.jobs, JobKey) && byId == IndexBy(s.credentials, CredentialKey)
    modifies db
    ensures fault == FirstFault(s.jobs, j => JobFault(s.credentials, j))
    ensures fault.None? ==> db.Contents() == AfterJobs(s, crypto, apply)
    ensures fault.None? ==> JobsNoted(s, |s.jobs|, changed, entries)
  {
    JobsEnds(s, crypto, apply);
    NoJobNoted(s);
    changed, entries := 0, [];
    for i := 0 to |s.jobs|
      invariant JobsPass(s, i)
      invariant db.Contents() == JobStage(s, crypto, apply, i)
      invariant JobsNoted(s, i, changed, entries)
    {
      var rewritten, entry;
      fault, rewritten, entry := RewriteJob(db, s, apply, crypto, i, byId);
      CheckJob(s, i);
      if fault.Some? {
        return;
      }
      NoteJob(s, i, changed, entries);
      changed := changed + if rewritten then 1 else 0;
      entries := entries + [entry];
    }
    AllJobsPass(s);
    fault := None;
  }

  // ---- The verifier ----

  function InvalidProvider(p: Provider): bool {
    && IsManaged(p)
    && (|| p.mode.None?
        || (p.mode == Some(Pinned) && p.credentialId.None?)
        || (p.mode == Some(FollowDefault) && p.credentialId.Some?))
  }

  function InvalidCredential(c: Credential): bool {
    || c.contextId != Some(c.id)
    || (c.status.Connected? && c.identityHash.None?)
    || (c.identityHash.Some? && !IsIdentityHash(c.identityHash.value))
  }

  function InvalidJob(j: Job): bool {
    || IsUnfinished(j)
    || j.accountScopeId.None?
    || j.contextId != j.accountScopeId
    || j.managedCredentialId.None? != j.credentialAuthEpoch.None?
  }

  /** A (adapter, identity) group with more than one live row: the verifier counts groups. */
  function Group(c: Credential): Option<(Adapter, string)> {
    if c.identityHash.Some? && IsLive(c) then Some((c.adapter, c.identityHash.value)) else None
  }

  function DuplicateGroups(s: State): set<(Adapter, string)> {
    set i, j | 0 <= i < j < |s.credentials| && Group(s.credentials[i]).Some?
               && Group(s.credentials[i]) == Group(s.credentials[j]) :: Group(s.credentials[i]).value
  }

  predicate Verified(s: State) {
    && Count(s.providers, InvalidProvider) == 0
    && Count(s.credentials, InvalidCredential) == 0
    && Count(s.attempts, IsActive) == 0
    && Count(s.attempts, ContextMissing) == 0
    && Count(s.jobs, InvalidJob) == 0
    && |DuplicateGroups(s)| == 0
  }

  // ---- Receipt and runner ----

  datatype Receipt = Receipt(
    applied: bool,
    providerRows: nat,
    credentialRows: nat,
    attemptRows: nat,
    revocationJobRows: nat,
    changedRows: nat,
    providers: ProviderTally,
    credentials: CredentialTally,
    attempts: AttemptTally,
    revocationRowsChanged: nat,
    remainingActiveAttempts: nat,
    fingerprint: string)

  function ReceiptOf(s: State, applied: bool, providers: ProviderTally, credentials: CredentialTally, attempts: AttemptTally,
                     jobs: nat, fingerprint: string): Receipt {
    Receipt(applied, |s.providers|, |s.credentials|, |s.attempts|, |s.jobs|,
            providers.changed + credentials.changed + attempts.changed + jobs,
            providers, credentials, attempts, jobs, if applied then 0 else attempts.terminated, fingerprint)
  }

  /** What a run that reaches its end reports about the selected rows. */
  function Report(selected: State, apply: bool, crypto: Crypto): Receipt {
    ReceiptOf(selected, apply, TallyProviders(selected.credentials, selected.providers),
              TallyCredentials(crypto, selected.credentials), TallyAttempts(selected.attempts),
              Count(selected.jobs, j => JobChanges(selected.credentials, j)),
              crypto.sha256(Preimage(Entries(selected, crypto))))
  }

  ghost function Outcome(s: State, apply: bool, crypto: Crypto): Result<Receipt, Fault> {
    match MigrationFault(s, crypto, apply)
    case Some(fault) => Failure(fault)
    case None =>
      if apply && !Verified(Migrated(s, crypto)) then Failure(VerificationFailed)
      else Success(Report(Selected(s), apply, crypto))
  }

  method Preconditions(s: State) returns (fault: Option<Fault>, byId: map<string, Credential>, byOwner: map<Option<string>, Credential>)
    ensures fault == IntakeFault(s.credentials, s.jobs)
    ensures byId == IndexBy(s.credentials, CredentialKey) && byOwner == IndexBy(s.credentials, OwnerKey)
  {
    byId, byOwner := IndexBy(s.credentials, CredentialKey), IndexBy(s.credentials, OwnerKey);
    if Count(s.jobs, IsUnfinished) > 0 {
      return Some(JobsNotTerminal), byId, byOwner;
    }
    if Count(s.jobs, HasMaterial) > 0 {
      return Some(JobRetainedMaterial), byId, byOwner;
    }
    var duplicate := HasDuplicate(s.credentials, OwnerKey);
    fault := if duplicate then Some(LegacyOwnerDuplicate) else None;
  }

  /** The second half of the run, from the legacy-identity check on. */
  method RewriteAccounts(db: Database, s: State, apply: bool, crypto: Crypto, byId: map<string, Credential>)
    returns (fault: Option<Fault>, credentials: CredentialTally, attempts: AttemptTally, jobs: nat, entries: seq<Entry>)
    requires PrimaryKeys(s) && byId == IndexBy(s.credentials, CredentialKey) && db.Contents() == AfterProviders(s, apply)
    modifies db
    ensures fault == AccountsFault(s.credentials, s.jobs, crypto, apply)
    ensures fault.None? ==> db.Contents() == AfterJobs(s, crypto, apply)
    ensures fault.None? ==> credentials == TallyCredentials(crypto, s.credentials) && attempts == TallyAttempts(s.attempts)
    ensures fault.None? ==> jobs == Count(s.jobs, j => JobChanges(s.credentials, j))
    ensures fault.None? ==> entries == AccountEntries(s, crypto)
  {
    credentials, attempts, jobs, entries := CredentialTally(0, 0, 0, 0), AttemptTally(0, 0, 0), 0, [];
    var duplicate := HasDuplicate(s.credentials, LegacyKey);
    if duplicate {
      fault := Some(DuplicateIdentity);
      return;
    }
    fault, credentials, entries := MigrateCredentials(db, s, apply, crypto);
    if fault.Some? {
      return;
    }
    AllCredentialsNoted(s, crypto, credentials, entries);
    var attemptEntries, jobEntries;
    attempts, attemptEntries := MigrateAttempts(db, s, apply, crypto);
    fault, jobs, jobEntries := MigrateJobs(db, s, apply, crypto, byId);
    if fault.None? {
      AllJobsNoted(s, jobs, jobEntries);
    }
    entries := entries + attemptEntries + jobEntries;
  }

  function AccountEntries(s: State, crypto: Crypto): seq<Entry> {
    MapRows(s.credentials, c => CredentialEntry(crypto, c)) + MapRows(s.attempts, AttemptEntry)
    + MapRows(s.jobs, j => JobEntry(s.credentials, j))
  }

  /** The first half of the run: intake checks, then the Provider bindings. */
  method RewriteBindings(db: Database, s: State, apply: bool)
    returns (fault: Option<Fault>, byId: map<string, Credential>, tally: ProviderTally, entries: seq<Entry>)
    requires UniqueBy(s.providers, ProviderKey) && db.Contents() == s
    modifies db
    ensures fault == BindingsFault(s)
    ensures byId == IndexBy(s.credentials, CredentialKey)
    ensures fault.None? ==> db.Contents() == AfterProviders(s, apply)
    ensures fault.None? ==> tally == TallyProviders(s.credentials, Selected(s).providers)
    ensures fault.None? ==> entries == MapRows(Selected(s).providers, p => ProviderEntry(s.credentials, p))
  {
    var byOwner;
    tally, entries := ProviderTally(0, 0, 0), [];
    fault, byId, byOwner := Preconditions(s);
    if fault.Some? {
      return;
    }
    fault, tally, entries := MigrateProviders(db, s, apply, byId, byOwner);
    if fault.None? {
      AllProvidersNoted(s, tally, entries);
    }
  }

  /** Everything up to verification: checks and writes of the four tables in turn. */
  method Rewrite(db: Database, s: State, apply: bool, crypto: Crypto) returns (result: Result<Receipt, Fault>)
    requires PrimaryKeys(s) && db.Contents() == s
    modifies db
    ensures result == match MigrationFault(s, crypto, apply)
                      case Some(fault) => Failure(fault)
                      case None => Success(Report(Selected(s), apply, crypto))
    ensures result.Success? ==> db.Contents() == AfterJobs(s, crypto, apply)
  {
    var fault, byId, providers, providerEntries := RewriteBindings(db, s, apply);
    if fault.Some? {
      return Failure(fault.value);
    }
    var credentials, attempts, jobs, entries;
    fault, credentials, attempts, jobs, entries := RewriteAccounts(db, s, apply, crypto, byId);
    if fault.Some? {
      return Failure(fault.value);
    }
    Reported(s, apply, crypto, providerEntries, entries);
    var fingerprint := crypto.sha256(Preimage(providerEntries + entries));
    result := Success(ReceiptOf(Selected(s), apply, providers, credentials, attempts, jobs, fingerprint));
  }

  lemma Reported(s: State, apply: bool, crypto: Crypto, providers: seq<Entry>, accounts: seq<Entry>)
    requires providers == MapRows(Selected(s).providers, p => ProviderEntry(s.credentials, p))
    requires accounts == AccountEntries(s, crypto)
    ensures ReceiptOf(Selected(s), apply, TallyProviders(s.credentials, Selected(s).providers),
                      TallyCredentials(crypto, s.credentials), TallyAttempts(s.attempts),
                      Count(s.jobs, j => JobChanges(s.credentials, j)), crypto.sha256(Preimage(providers + accounts)))
         == Report(Selected(s), apply, crypto)
  {
    Regroup(providers, MapRows(s.credentials, c => CredentialEntry(crypto, c)), MapRows(s.attempts, AttemptEntry),
            MapRows(s.jobs, j => JobEntry(s.credentials, j)));
  }

  lemma Assembled(s: State, crypto: Crypto, apply: bool)
    ensures AfterJobs(s, crypto, apply) == if apply then Migrated(s, crypto) else s
  {
  }

  method Migrate(db: Database, apply: bool, crypto: Crypto) returns (result: Result<Receipt, Fault>)
    requires PrimaryKeys(db.Contents())
    modifies db
    ensures result == Outcome(old(db.Contents()), apply, crypto)
    ensures result.Success? ==> db.Contents() == if apply then Migrated(old(db.Contents()), crypto) else old(db.Contents())
  {
    var s := db.Contents();
    result := Rewrite(db, s, apply, crypto);
    Assembled(s, crypto, apply);
    if result.Success? && apply && !Verified(db.Contents()) {
      result := Failure(VerificationFailed);
    }
  }

  method Run(db: Database, apply: bool, crypto: Crypto) returns (result: Result<Receipt, Fault>)
    requires PrimaryKeys(db.Contents())
    modifies db
    ensures result == Outcome(old(db.Contents()), apply, crypto)
    ensures db.Contents() == if apply && result.Success? then Migrated(old(db.Contents()), crypto) else old(db.Contents())
  {
    var snapshot := db.Contents();
    result := Migrate(db, apply, crypto);
    if !apply || result.Failure? {
      db.Restore(snapshot);
    }
  }
}
