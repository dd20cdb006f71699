/** provider-owned-credentials-v1: every live credential gets the one Provider that effectively uses it. */
module OwnedCredentials {
  import opened Sequences
  import opened CanonicalJson
  import opened Tables
  import opened Envelopes

  datatype Fault =
    | ActiveAttempts(count: nat)
    | NonTerminalJobs(count: nat)
    | JobRetainedMaterial
    | DuplicateProvider
    | DuplicateCredential
    | DuplicateDefault
    | DefaultDangling
    | DefaultNotLive
    | ProvenanceDangling
    | ContextInvalid
    | IdentityMissing
    | IdentityHashInvalid
    | EnvelopeIncomplete
    | EnvelopeMissing
    | DecryptionFailed
    | FollowDefaultPointer
    | BindingModeMissing
    | ProviderCredentialDangling
    | ProviderCredentialNotLive
    | SharedLive(count: nat)
    | OrphanLive(count: nat)
    | VerificationFailed

  datatype ProviderTarget = ProviderTarget(providerId: string, credentialId: Option<string>, changed: bool)

  datatype CredentialTarget = CredentialTarget(credentialId: string, providerId: string, changed: bool)

  datatype Plan = Plan(
    providerTargets: seq<ProviderTarget>,
    credentialTargets: seq<CredentialTarget>,
    providerRowsChanged: nat,
    credentialRowsChanged: nat,
    providersDirectBound: nat,
    providersWithoutCredential: nat,
    liveCredentialRows: nat,
    disconnectedCredentialRows: int)

  // ---- Row checks, in the order the planner makes them ----

  function DefaultsFault(defaults: seq<DefaultAccount>, credentials: seq<Credential>): Option<Fault> {
    if defaults == [] then None
    else
      var front, d := defaults[..|defaults| - 1], defaults[|defaults| - 1];
      var earlier := DefaultsFault(front, credentials);
      if earlier.Some? then earlier
      else if Find(front, DefaultKey, d.adapter).Some? then Some(DuplicateDefault)
      else
        match Find(credentials, CredentialKey, d.credentialId)
        case None => Some(DefaultDangling)
        case Some(c) =>
          if c.adapter != d.adapter then Some(DefaultDangling)
          else if !IsLive(c) then Some(DefaultNotLive)
          else None
  }

  /** `validateCredentialEnvelope`. */
  function EnvelopeFault(c: Credential, crypto: Crypto): Option<Fault> {
    if c.bundle.Present() != 0 && c.bundle.Present() != 5 then Some(EnvelopeIncomplete)
    else if c.status.Connected? && c.bundle.Present() == 0 then Some(EnvelopeMissing)
    else if c.bundle.Present() == 0 then None
    else if c.bundle.formatVersion != Some(1) || c.contextId != Some(c.id) then Some(ContextInvalid)
    else
      var e := Envelope(1, c.bundle.keyId.value, c.bundle.ciphertext.value, c.bundle.nonce.value, c.bundle.tag.value);
      if crypto.decrypt(e, Context(c.id, c.adapter, c.id, c.revision)).None? then Some(DecryptionFailed) else None
  }

  function CredentialFault(providers: seq<Provider>, crypto: Crypto, validateEnvelopes: bool, c: Credential): Option<Fault> {
    var owner := if Truthy(c.providerId) then Find(providers, ProviderKey, c.providerId.value) else None;
    if Truthy(c.providerId) && (owner.None? || owner.value.adapter != c.adapter) then Some(ProvenanceDangling)
    else if c.contextId != Some(c.id) then Some(ContextInvalid)
    else if c.status.Connected? && !Truthy(c.identityHash) then Some(IdentityMissing)
    else if Truthy(c.identityHash) && !IsIdentityHash(c.identityHash.value) then Some(IdentityHashInvalid)
    else if validateEnvelopes then EnvelopeFault(c, crypto)
    else None
  }

  /** The effective binding: a pinned Provider's own pointer, else its adapter's default account. */
  function Binding(defaults: seq<DefaultAccount>, p: Provider): Option<string> {
    if p.mode == Some(Pinned) then p.credentialId
    else
      match Find(defaults, DefaultKey, p.adapter)
      case None => None
      case Some(d) => Some(d.credentialId)
  }

  function ProviderFault(s: State, p: Provider): Option<Fault> {
    if p.status.Deleted? then None
    else if p.mode == Some(FollowDefault) && p.credentialId.Some? then Some(FollowDefaultPointer)
    else if p.mode.None? then Some(BindingModeMissing)
    else if !Truthy(Binding(s.defaults, p)) then None
    else
      match Find(s.credentials, CredentialKey, Binding(s.defaults, p).value)
      case None => Some(ProviderCredentialDangling)
      case Some(c) =>
        if c.adapter != p.adapter then Some(ProviderCredentialDangling)
        else if !IsLive(c) then Some(ProviderCredentialNotLive)
        else None
  }

  function TargetPointer(defaults: seq<DefaultAccount>, p: Provider): Option<string> {
    if p.status.Deleted? then None else Binding(defaults, p)
  }

  function TargetOf(defaults: seq<DefaultAccount>, p: Provider): ProviderTarget {
    var pointer := TargetPointer(defaults, p);
    ProviderTarget(p.id, pointer, p.mode != Some(Pinned) || p.credentialId != pointer)
  }

  /** `p` competes for the credential `id`; tombstones do not compete. */
  predicate Claims(defaults: seq<DefaultAccount>, p: Provider, id: string) {
    !p.status.Deleted? && id != "" && Binding(defaults, p) == Some(id)
  }

  function Claimants(defaults: seq<DefaultAccount>, providers: seq<Provider>, id: string): seq<Provider> {
    Filter(providers, p => Claims(defaults, p, id))
  }

  function Owners(s: State, c: Credential): nat {
    |Claimants(s.defaults, s.providers, c.id)|
  }

  predicate HasOwner(s: State, c: Credential) {
    IsLive(c) && Owners(s, c) == 1
  }

  function OwnerId(s: State, c: Credential): string
    requires Owners(s, c) == 1
  {
    Claimants(s.defaults, s.providers, c.id)[0].id
  }

  function CredentialTargetOf(s: State, c: Credential): CredentialTarget {
    if Owners(s, c) == 1 then CredentialTarget(c.id, OwnerId(s, c), c.providerId != Some(OwnerId(s, c)))
    else CredentialTarget(c.id, "", false)
  }

  function Owned(s: State, credentials: seq<Credential>): seq<Credential> {
    Filter(credentials, c => HasOwner(s, c))
  }

  function CredentialTargets(s: State, credentials: seq<Credential>): seq<CredentialTarget> {
    MapRows(Owned(s, credentials), c => CredentialTargetOf(s, c))
  }

  function SharedCount(s: State, credentials: seq<Credential>): nat {
    Count(credentials, c => IsLive(c) && Owners(s, c) > 1)
  }

  function OrphanCount(s: State, credentials: seq<Credential>): nat {
    Count(credentials, c => IsLive(c) && Owners(s, c) == 0)
  }

  /** What stops the planner before it looks at who owns what. */
  ghost function IntakeFault(s: State): Option<Fault> {
    if Count(s.attempts, IsActive) > 0 then Some(ActiveAttempts(Count(s.attempts, IsActive)))
    else if Count(s.jobs, IsUnfinished) > 0 then Some(NonTerminalJobs(Count(s.jobs, IsUnfinished)))
    else if Count(s.jobs, HasMaterial) > 0 then Some(JobRetainedMaterial)
    else if !UniqueBy(s.providers, ProviderKey) then Some(DuplicateProvider)
    else if !UniqueBy(s.credentials, CredentialKey) then Some(DuplicateCredential)
    else None
  }

  ghost function RowFault(s: State, crypto: Crypto, validateEnvelopes: bool): Option<Fault> {
    var defaultsFault := DefaultsFault(s.defaults, s.credentials);
    var credentialsFault := FirstFault(s.credentials, c => CredentialFault(s.providers, crypto, validateEnvelopes, c));
    if defaultsFault.Some? then defaultsFault
    else if credentialsFault.Some? then credentialsFault
    else FirstFault(s.providers, p => ProviderFault(s, p))
  }

  /** Why the planner rejects the snapshot, if it does. `s.providers` holds the selected rows. */
  ghost function PlanFault(s: State, crypto: Crypto, validateEnvelopes: bool): Option<Fault> {
    if IntakeFault(s).Some? then IntakeFault(s)
    else if RowFault(s, crypto, validateEnvelopes).Some? then RowFault(s, crypto, validateEnvelopes)
    else if SharedCount(s, s.credentials) > 0 then Some(SharedLive(SharedCount(s, s.credentials)))
    else if OrphanCount(s, s.credentials) > 0 then Some(OrphanLive(OrphanCount(s, s.credentials)))
    else None
  }

  function ProviderTargets(s: State): seq<ProviderTarget> {
    MapRows(s.providers, p => TargetOf(s.defaults, p))
  }

  function Summary(credentialRows: nat, providerTargets: seq<ProviderTarget>, credentialTargets: seq<CredentialTarget>): Plan {
    Plan(
      providerTargets,
      credentialTargets,
      Count(providerTargets, (t: ProviderTarget) => t.changed),
      Count(credentialTargets, (t: CredentialTarget) => t.changed),
      Count(providerTargets, (t: ProviderTarget) => t.credentialId.Some?),
      Count(providerTargets, (t: ProviderTarget) => t.credentialId.None?),
      |credentialTargets|,
      credentialRows - |credentialTargets|)
  }

  function PlanOf(s: State): Plan {
    Summary(|s.credentials|, ProviderTargets(s), CredentialTargets(s, s.credentials))
  }

  // ---- The planner ----

  method CheckDefaults(s: State, credentialsById: map<string, Credential>)
    returns (fault: Option<Fault>, defaultsByAdapter: map<Adapter, DefaultAccount>)
    requires credentialsById == IndexBy(s.credentials, CredentialKey)
    ensures fault == DefaultsFault(s.defaults, s.credentials)
    ensures fault.None? ==> defaultsByAdapter == IndexBy(s.defaults, DefaultKey)
  {
    defaultsByAdapter := map[];
    for i := 0 to |s.defaults|
      invariant DefaultsFault(s.defaults[..i], s.credentials).None?
      invariant defaultsByAdapter == IndexBy(s.defaults[..i], DefaultKey)
    {
      var d := s.defaults[i];
      fault := CheckDefault(s, i, credentialsById, defaultsByAdapter);
      if fault.Some? {
        DefaultsFaultPrefix(s.defaults, s.credentials, i + 1);
        return;
      }
      assert s.defaults[..i + 1][..i] == s.defaults[..i];
      defaultsByAdapter := defaultsByAdapter[d.adapter := d];
    }
    assert s.defaults[..|s.defaults|] == s.defaults;
    fault := None;
  }

  /** One default row: first of its adapter, and a live account of it. */
  method CheckDefault(s: State, i: nat, credentialsById: map<string, Credential>, defaultsByAdapter: map<Adapter, DefaultAccount>)
    returns (fault: Option<Fault>)
    requires i < |s.defaults| && DefaultsFault(s.defaults[..i], s.credentials).None?
    requires credentialsById == IndexBy(s.credentials, CredentialKey)
    requires defaultsByAdapter == IndexBy(s.defaults[..i], DefaultKey)
    ensures fault == DefaultsFault(s.defaults[..i + 1], s.credentials)
  {
    var d := s.defaults[i];
    assert s.defaults[..i + 1][..i] == s.defaults[..i];
    IndexFind(s.defaults[..i], DefaultKey, d.adapter);
    IndexFind(s.credentials, CredentialKey, d.credentialId);
    var credential := Get(credentialsById, d.credentialId);
    if d.adapter in defaultsByAdapter {
      fault := Some(DuplicateDefault);
    } else if credential.None? || credential.value.adapter != d.adapter {
      fault := Some(DefaultDangling);
    } else if !credential.value.status.Live() {
      fault := Some(DefaultNotLive);
    } else {
      fault := None;
    }
  }

  lemma {:induction false} DefaultsFaultPrefix(defaults: seq<DefaultAccount>, credentials: seq<Credential>, n: nat)
    requires n <= |defaults| && DefaultsFault(defaults[..n], credentials).Some?
    ensures DefaultsFault(defaults, credentials) == DefaultsFault(defaults[..n], credentials)
    decreases |defaults|
  {
    if n < |defaults| {
      assert defaults[..|defaults| - 1][..n] == defaults[..n];
      DefaultsFaultPrefix(defaults[..|defaults| - 1], credentials, n);
    } else {
      assert defaults[..n] == defaults;
    }
  }

  method CheckCredentials(s: State, crypto: Crypto, validateEnvelopes: bool, providersById: map<string, Provider>)
    returns (fault: Option<Fault>)
    requires providersById == IndexBy(s.providers, ProviderKey)
    ensures fault == FirstFault(s.credentials, c => CredentialFault(s.providers, crypto, validateEnvelopes, c))
  {
    ghost var check := c => CredentialFault(s.providers, crypto, validateEnvelopes, c);
    for i := 0 to |s.credentials|
      invariant FirstFault(s.credentials[..i], check).None?
    {
      fault := CheckCredential(s.providers, crypto, validateEnvelopes, s.credentials[i], providersById);
      FaultStep(s.credentials, check, i);
      if fault.Some? {
        return;
      }
    }
    assert s.credentials[..|s.credentials|] == s.credentials;
    fault := None;
  }

  /** One credential: provenance, context, identity and envelope, in this order. */
  method CheckCredential(providers: seq<Provider>, crypto: Crypto, validateEnvelopes: bool, c: Credential,
                         providersById: map<string, Provider>) returns (fault: Option<Fault>)
    requires providersById == IndexBy(providers, ProviderKey)
    ensures fault == CredentialFault(providers, crypto, validateEnvelopes, c)
  {
    if Truthy(c.providerId) {
      IndexFind(providers, ProviderKey, c.providerId.value);
      var provenance := Get(providersById, c.providerId.value);
      if provenance.None? || provenance.value.adapter != c.adapter {
        return Some(ProvenanceDangling);
      }
    }
    if c.contextId != Some(c.id) {
      return Some(ContextInvalid);
    }
    if c.status.Connected? && !Truthy(c.identityHash) {
      return Some(IdentityMissing);
    }
    if Truthy(c.identityHash) && !IsIdentityHash(c.identityHash.value) {
      return Some(IdentityHashInvalid);
    }
    fault := if validateEnvelopes then EnvelopeFault(c, crypto) else None;
  }

  /** `ownerCandidates` holds, under each claimed id, its claimants among the first `i` Providers. */
  ghost predicate Collected(owners: map<string, seq<string>>, defaults: seq<DefaultAccount>, providers: seq<Provider>) {
    forall id :: (if id in owners then owners[id] else []) == MapRows(Claimants(defaults, providers, id), ProviderKey)
  }

  lemma CollectStep(owners: map<string, seq<string>>, defaults: seq<DefaultAccount>, providers: seq<Provider>, i: nat,
                    next: map<string, seq<string>>)
    requires i < |providers| && Collected(owners, defaults, providers[..i])
    requires var p := providers[i];
             next == if !p.status.Deleted? && Truthy(Binding(defaults, p))
               then var id := Binding(defaults, p).value;
                    owners[id := (if id in owners then owners[id] else []) + [p.id]]
               else owners
    ensures Collected(next, defaults, providers[..i + 1])
  {
    forall id
      ensures (if id in next then next[id] else []) == MapRows(Claimants(defaults, providers[..i + 1], id), ProviderKey)
    {
      ClaimStep(defaults, providers, i, id);
      assert (if id in owners then owners[id] else []) == MapRows(Claimants(defaults, providers[..i], id), ProviderKey);
    }
  }

  lemma ClaimStep(defaults: seq<DefaultAccount>, providers: seq<Provider>, i: nat, id: string)
    requires i < |providers|
    ensures MapRows(Claimants(defaults, providers[..i + 1], id), ProviderKey)
         == MapRows(Claimants(defaults, providers[..i], id), ProviderKey)
            + if Claims(defaults, providers[i], id) then [providers[i].id] else []
  {
    FilterPrefix(providers, p => Claims(defaults, p, id), i);
  }

  method BindProviders(s: State, credentialsById: map<string, Credential>, defaultsByAdapter: map<Adapter, DefaultAccount>)
    returns (fault: Option<Fault>, providerTargets: seq<ProviderTarget>, ownerCandidates: map<string, seq<string>>)
    requires credentialsById == IndexBy(s.credentials, CredentialKey)
    requires defaultsByAdapter == IndexBy(s.defaults, DefaultKey)
    ensures fault == FirstFault(s.providers, p => ProviderFault(s, p))
    ensures fault.None? ==> providerTargets == ProviderTargets(s)
    ensures fault.None? ==> Collected(ownerCandidates, s.defaults, s.providers)
  {
    ghost var check := p => ProviderFault(s, p);
    ownerCandidates, providerTargets := map[], [];
    for i := 0 to |s.providers|
      invariant FirstFault(s.providers[..i], check).None?
      invariant providerTargets == MapRows(s.providers[..i], p => TargetOf(s.defaults, p))
      invariant Collected(ownerCandidates, s.defaults, s.providers[..i])
    {
      var p := s.providers[i];
      ghost var was := ownerCandidates;
      FaultStep(s.providers, check, i);
      MapPrefix(s.providers, p => TargetOf(s.defaults, p), i);
      if p.status.Deleted? {
        providerTargets := providerTargets + [ProviderTarget(p.id, None, p.mode != Some(Pinned) || p.credentialId.Some?)];
      } else {
        var credentialId: Option<string>;
        credentialId, fault := EffectiveCredential(s, p, credentialsById, defaultsByAdapter);
        if fault.Some? {
          return;
        }
        if Truthy(credentialId) {
          var owners := if credentialId.value in ownerCandidates then ownerCandidates[credentialId.value] else [];
          ownerCandidates := ownerCandidates[credentialId.value := owners + [p.id]];
        }
        providerTargets := providerTargets
          + [ProviderTarget(p.id, credentialId, p.mode != Some(Pinned) || p.credentialId != credentialId)];
      }
      CollectStep(was, s.defaults, s.providers, i, ownerCandidates);
    }
    assert s.providers[..|s.providers|] == s.providers;
    fault := None;
  }

  /** The binding of one Provider that is not a tombstone, and what is wrong with it. */
  method EffectiveCredential(s: State, p: Provider, credentialsById: map<string, Credential>,
                             defaultsByAdapter: map<Adapter, DefaultAccount>)
    returns (credentialId: Option<string>, fault: Option<Fault>)
    requires !p.status.Deleted?
    requires credentialsById == IndexBy(s.credentials, CredentialKey)
    requires defaultsByAdapter == IndexBy(s.defaults, DefaultKey)
    ensures fault == ProviderFault(s, p)
    ensures fault.None? ==> credentialId == Binding(s.defaults, p)
  {
    IndexFind(s.defaults, DefaultKey, p.adapter);
    credentialId := None;
    match p.mode {
      case Some(Pinned) =>
        credentialId := p.credentialId;
      case Some(FollowDefault) =>
        if p.credentialId.Some? {
          return credentialId, Some(FollowDefaultPointer);
        }
        if p.adapter in defaultsByAdapter {
          credentialId := Some(defaultsByAdapter[p.adapter].credentialId);
        }
      case None =>
        return credentialId, Some(BindingModeMissing);
    }
    if Truthy(credentialId) {
      IndexFind(s.credentials, CredentialKey, credentialId.value);
      var credential := Get(credentialsById, credentialId.value);
      if credential.None? || credential.value.adapter != p.adapter {
        return credentialId, Some(ProviderCredentialDangling);
      }
      if !credential.value.status.Live() {
        return credentialId, Some(ProviderCredentialNotLive);
      }
    }
    fault := None;
  }

  method Candidates(s: State, c: Credential, ownerCandidates: map<string, seq<string>>) returns (owners: seq<string>)
    requires Collected(ownerCandidates, s.defaults, s.providers)
    ensures |owners| == Owners(s, c) && (|owners| == 1 ==> owners[0] == OwnerId(s, c))
  {
    owners := if c.id in ownerCandidates then ownerCandidates[c.id] else [];
    assert owners == MapRows(Claimants(s.defaults, s.providers, c.id), ProviderKey);
  }

  /** One credential: counted as shared or as an orphan, or a target. */
  method MatchCredential(s: State, c: Credential, ownerCandidates: map<string, seq<string>>)
    returns (shared: nat, orphans: nat, targets: seq<CredentialTarget>)
    requires Collected(ownerCandidates, s.defaults, s.providers)
    ensures shared == if IsLive(c) && Owners(s, c) > 1 then 1 else 0
    ensures orphans == if IsLive(c) && Owners(s, c) == 0 then 1 else 0
    ensures targets == if HasOwner(s, c) then [CredentialTargetOf(s, c)] else []
  {
    shared, orphans, targets := 0, 0, [];
    if !c.status.Live() {
      return;
    }
    var owners := Candidates(s, c, ownerCandidates);
    if |owners| > 1 {
      shared := 1;
    } else if |owners| == 0 {
      orphans := 1;
    } else {
      targets := [CredentialTarget(c.id, owners[0], c.providerId != Some(owners[0]))];
    }
  }

  /** Counts and targets after the first `i` credentials. */
  ghost predicate Matched(s: State, i: nat, shared: nat, orphans: nat, targets: seq<CredentialTarget>) {
    && i <= |s.credentials|
    && shared == SharedCount(s, s.credentials[..i])
    && orphans == OrphanCount(s, s.credentials[..i])
    && targets == CredentialTargets(s, s.credentials[..i])
  }

  lemma MatchStep(s: State, i: nat, shared: nat, orphans: nat, targets: seq<CredentialTarget>)
    requires i < |s.credentials| && Matched(s, i, shared, orphans, targets)
    ensures var c := s.credentials[i];
      Matched(s, i + 1,
              shared + (if IsLive(c) && Owners(s, c) > 1 then 1 else 0),
              orphans + (if IsLive(c) && Owners(s, c) == 0 then 1 else 0),
              targets + if HasOwner(s, c) then [CredentialTargetOf(s, c)] else [])
  {
    FilterPrefix(s.credentials, c => IsLive(c) && Owners(s, c) > 1, i);
    FilterPrefix(s.credentials, c => IsLive(c) && Owners(s, c) == 0, i);
    FilterPrefix(s.credentials, c => HasOwner(s, c), i);
  }

  lemma NoneMatched(s: State)
    ensures Matched(s, 0, 0, 0, [])
  {
  }

  lemma AllMatched(s: State, shared: nat, orphans: nat, targets: seq<CredentialTarget>)
    requires Matched(s, |s.credentials|, shared, orphans, targets)
    ensures shared == SharedCount(s, s.credentials) && orphans == OrphanCount(s, s.credentials)
    ensures targets == CredentialTargets(s, s.credentials)
  {
    assert s.credentials[..|s.credentials|] == s.credentials;
  }

  method MatchCredentials(s: State, ownerCandidates: map<string, seq<string>>)
    returns (shared: nat, orphans: nat, credentialTargets: seq<CredentialTarget>)
    requires Collected(ownerCandidates, s.defaults, s.providers)
    ensures shared == SharedCount(s, s.credentials)
    ensures orphans == OrphanCount(s, s.credentials)
    ensures credentialTargets == CredentialTargets(s, s.credentials)
  {
    NoneMatched(s);
    shared, orphans, credentialTargets := 0, 0, [];
    for i := 0 to |s.credentials|
      invariant Matched(s, i, shared, orphans, credentialTargets)
    {
      var more, lost, targets := MatchCredential(s, s.credentials[i], ownerCandidates);
      MatchStep(s, i, shared, orphans, credentialTargets);
      shared, orphans, credentialTargets := shared + more, orphans + lost, credentialTargets + targets;
    }
    AllMatched(s, shared, orphans, credentialTargets);
  }

  method PlanCutover(s: State, crypto: Crypto, validateEnvelopes: bool) returns (result: Result<Plan, Fault>)
    ensures result == match PlanFault(s, crypto, validateEnvelopes)
                      case Some(fault) => Failure(fault)
                      case None => Success(PlanOf(s))
  {
    var activeAttempts := Count(s.attempts, IsActive);
    if activeAttempts > 0 {
      return Failure(ActiveAttempts(activeAttempts));
    }
    var nonTerminal := Count(s.jobs, IsUnfinished);
    if nonTerminal > 0 {
      return Failure(NonTerminalJobs(nonTerminal));
    }
    if Count(s.jobs, HasMaterial) > 0 {
      return Failure(JobRetainedMaterial);
    }
    var providersById := IndexBy(s.providers, ProviderKey);
    IndexSize(s.providers, ProviderKey);
    if |providersById| != |s.providers| {
      return Failure(DuplicateProvider);
    }
    var credentialsById := IndexBy(s.credentials, CredentialKey);
    IndexSize(s.credentials, CredentialKey);
    if |credentialsById| != |s.credentials| {
      return Failure(DuplicateCredential);
    }
    var fault, defaultsByAdapter := CheckDefaults(s, credentialsById);
    if fault.Some? {
      return Failure(fault.value);
    }
    fault := CheckCredentials(s, crypto, validateEnvelopes, providersById);
    if fault.Some? {
      return Failure(fault.value);
    }
    var providerTargets, ownerCandidates;
    fault, providerTargets, ownerCandidates := BindProviders(s, credentialsById, defaultsByAdapter);
    if fault.Some? {
      return Failure(fault.value);
    }
    var shared, orphans, credentialTargets := MatchCredentials(s, ownerCandidates);
    if shared > 0 {
      return Failure(SharedLive(shared));
    }
    if orphans > 0 {
      return Failure(OrphanLive(orphans));
    }
    return Success(Summary(|s.credentials|, providerTargets, credentialTargets));
  }

  // ---- What applying an accepted plan does to the tables ----

  /** The rows the runner selects: managed Providers, and every row of the other tables. */
  function Selected(s: State): State {
    s.(providers := Filter(s.providers, IsManaged))
  }

  function CutProvider(defaults: seq<DefaultAccount>, p: Provider): Provider {
    if IsManaged(p) then p.(mode := Some(Pinned), credentialId := TargetPointer(defaults, p)) else p
  }

  function CutCredential(selected: State, c: Credential): Credential {
    if HasOwner(selected, c) then c.(providerId := Some(OwnerId(selected, c))) else c
  }

  function Cutover(s: State): State {
    s.(providers := MapRows(s.providers, p => CutProvider(s.defaults, p)),
       credentials := MapRows(s.credentials, c => CutCredential(Selected(s), c)),
       defaults := [])
  }

  /** The Provider table after the first `i` selected rows. */
  ghost function ProvidersAt(s: State, i: nat): seq<Provider>
    requires i <= |Selected(s).providers|
  {
    Patched(s.providers, ProviderKey, Keys(Selected(s).providers[..i], ProviderKey), p => CutProvider(s.defaults, p))
  }

  /** `UPDATE ai_providers SET ... WHERE id = $1`. */
  function ProviderRow(target: ProviderTarget): Provider -> bool {
    (row: Provider) => row.id == target.providerId
  }

  function PinProvider(target: ProviderTarget): Provider -> Provider {
    (row: Provider) => row.(mode := Some(Pinned), credentialId := target.credentialId)
  }

  lemma ProviderUpdate(s: State, i: nat)
    requires UniqueBy(s.providers, ProviderKey) && i < |Selected(s).providers|
    ensures var target := ProviderTargets(Selected(s))[i];
      ProvidersAt(s, i + 1)
      == if target.changed then UpdateWhere(ProvidersAt(s, i), ProviderRow(target), PinProvider(target)) else ProvidersAt(s, i)
  {
    var rows := Selected(s).providers;
    var cut := p => CutProvider(s.defaults, p);
    var p, done := rows[i], Keys(rows[..i], ProviderKey);
    var target := TargetOf(s.defaults, p);
    assert p in rows;
    FilterUnique(s.providers, IsManaged, ProviderKey);
    KeysStep(rows, ProviderKey, i);
    if target.changed {
      PatchStep(s.providers, ProviderKey, done, cut, p, ProviderRow(target), PinProvider(target));
    } else {
      PatchSkip(s.providers, ProviderKey, done, cut, p);
    }
  }

  lemma ProvidersDone(s: State)
    ensures ProvidersAt(s, 0) == s.providers && ProvidersAt(s, |Selected(s).providers|) == Cutover(s).providers
  {
    var rows, cut := Selected(s).providers, (p: Provider) => CutProvider(s.defaults, p);
    assert Keys(rows[..0], ProviderKey) == {} && rows[..|rows|] == rows;
    PatchNone(s.providers, ProviderKey, cut);
    PatchAll(s.providers, ProviderKey, Keys(rows, ProviderKey), cut);
  }

  method ApplyProviders(db: Database, s: State, targets: seq<ProviderTarget>)
    requires db.Contents() == s && UniqueBy(s.providers, ProviderKey)
    requires targets == ProviderTargets(Selected(s))
    modifies db
    ensures db.Contents() == s.(providers := Cutover(s).providers)
  {
    ProvidersDone(s);
    for i := 0 to |targets|
      invariant db.Contents() == s.(providers := ProvidersAt(s, i))
    {
      ProviderUpdate(s, i);
      if targets[i].changed {
        var _ := db.UpdateProviders(ProviderRow(targets[i]), PinProvider(targets[i]));
      }
    }
  }

  /** The credential table after the first `i` targets. */
  ghost function CredentialsAt(s: State, i: nat): seq<Credential>
    requires i <= |Owned(Selected(s), s.credentials)|
  {
    Patched(s.credentials, CredentialKey, Keys(Owned(Selected(s), s.credentials)[..i], CredentialKey),
            c => CutCredential(Selected(s), c))
  }

  /** `UPDATE ai_provider_managed_credentials SET provider_id = $2 WHERE id = $1`. */
  function CredentialRow(target: CredentialTarget): Credential -> bool {
    (row: Credential) => row.id == target.credentialId
  }

  function OwnCredential(target: CredentialTarget): Credential -> Credential {
    (row: Credential) => row.(providerId := Some(target.providerId))
  }

  lemma CredentialUpdate(s: State, i: nat)
    requires UniqueBy(s.credentials, CredentialKey) && i < |Owned(Selected(s), s.credentials)|
    ensures var target := CredentialTargets(Selected(s), s.credentials)[i];
      CredentialsAt(s, i + 1)
      == if target.changed then UpdateWhere(CredentialsAt(s, i), CredentialRow(target), OwnCredential(target)) else CredentialsAt(s, i)
  {
    var selected := Selected(s);
    var rows := Owned(selected, s.credentials);
    var cut := c => CutCredential(selected, c);
    var c, done := rows[i], Keys(rows[..i], CredentialKey);
    var target := CredentialTargetOf(selected, c);
    assert c in rows;
    FilterUnique(s.credentials, c => HasOwner(selected, c), CredentialKey);
    KeysStep(rows, CredentialKey, i);
    if target.changed {
      PatchStep(s.credentials, CredentialKey, done, cut, c, CredentialRow(target), OwnCredential(target));
    } else {
      PatchSkip(s.credentials, CredentialKey, done, cut, c);
    }
  }

  lemma CredentialsDone(s: State)
    ensures CredentialsAt(s, 0) == s.credentials
    ensures CredentialsAt(s, |Owned(Selected(s), s.credentials)|) == Cutover(s).credentials
  {
    var rows, cut := Owned(Selected(s), s.credentials), (c: Credential) => CutCredential(Selected(s), c);
    assert Keys(rows[..0], CredentialKey) == {} && rows[..|rows|] == rows;
    PatchNone(s.credentials, CredentialKey, cut);
    PatchAll(s.credentials, CredentialKey, Keys(rows, CredentialKey), cut);
  }

  method ApplyCredentials(db: Database, s: State, targets: seq<CredentialTarget>)
    requires db.Contents() == s.(providers := Cutover(s).providers) && UniqueBy(s.credentials, CredentialKey)
    requires targets == CredentialTargets(Selected(s), s.credentials)
    modifies db
    ensures db.Contents() == s.(providers := Cutover(s).providers, credentials := Cutover(s).credentials)
  {
    CredentialsDone(s);
    for i := 0 to |targets|
      invariant db.Contents() == s.(providers := Cutover(s).providers, credentials := CredentialsAt(s, i))
    {
      CredentialUpdate(s, i);
      if targets[i].changed {
        var _ := db.UpdateCredentials(CredentialRow(targets[i]), OwnCredential(targets[i]));
      }
    }
  }

  // ---- The verifier: six counts over the tables, none of which mentions the plan ----

  /** `c` is the live credential `p` points at, and points back. */
  predicate Holds(p: Provider, c: Credential) {
    p.credentialId == Some(c.id) && c.providerId == Some(p.id) && c.adapter == p.adapter && c.status.Live()
  }

  predicate InvalidProvider(s: State, p: Provider) {
    && IsManaged(p)
    && (p.mode != Some(Pinned) || (p.credentialId.Some? && !exists c :: c in s.credentials && Holds(p, c)))
  }

  predicate OwnerlessLive(s: State, c: Credential) {
    c.status.Live()
    && !exists p :: p in s.providers && c.providerId == Some(p.id) && p.adapter == c.adapter && p.credentialId == Some(c.id)
  }

  predicate BadProvenance(s: State, c: Credential) {
    c.providerId.Some? && !exists p :: p in s.providers && p.id == c.providerId.value && p.adapter == c.adapter
  }

  predicate Verified(s: State) {
    && Count(s.providers, p => InvalidProvider(s, p)) == 0
    && Count(s.credentials, c => OwnerlessLive(s, c)) == 0
    && Count(s.credentials, c => BadProvenance(s, c)) == 0
    && |s.defaults| == 0
    && Count(s.attempts, IsActive) == 0
    && Count(s.jobs, IsUnfinished) == 0
  }

  // ---- Receipt and runner ----

  datatype Receipt = Receipt(
    applied: bool,
    providerRows: nat,
    credentialRows: nat,
    defaultRows: nat,
    attemptRows: nat,
    revocationJobRows: nat,
    sourceRowCount: nat,
    changedRows: nat,
    providerRowsChanged: nat,
    credentialRowsChanged: nat,
    defaultRowsChanged: nat,
    providersDirectBound: nat,
    providersWithoutCredential: nat,
    liveCredentialRows: nat,
    disconnectedCredentialRows: int,
    fingerprint: string)

  function ProviderEntry(t: ProviderTarget): Entry {
    [Str("provider"), Str(t.providerId), OptText(t.credentialId)]
  }

  function CredentialEntry(c: Credential, owner: Option<string>): Entry {
    [Str("credential"), Str(c.id), Str(c.adapter.Name()), Str(c.status.Name()), Num(c.authEpoch), Num(c.revision),
     OptText(owner), OptText(c.identityHash)]
  }

  function AttemptEntry(a: Attempt): Entry {
    [Str("attempt"), Str(a.id), Str(a.status.Name())]
  }

  function JobEntry(j: Job): Entry {
    [Str("revocation"), Str(j.id), Str(j.status.Name())]
  }

  /** The fingerprinted content of a snapshot: targets, resulting ownership, and the terminal histories. */
  function Entries(selected: State): seq<Entry> {
    MapRows(ProviderTargets(selected), ProviderEntry)
    + MapRows(selected.credentials, c => CredentialEntry(c, CutCredential(selected, c).providerId))
    + MapRows(selected.attempts, AttemptEntry)
    + MapRows(selected.jobs, JobEntry)
  }

  function TargetKey(t: CredentialTarget): string { t.credentialId }

  /** `credentialTargets.get(credential.id)?.providerId ?? credential.provider_id`. */
  function TargetOwner(targets: map<string, CredentialTarget>, c: Credential): Option<string> {
    if c.id in targets then Some(targets[c.id].providerId) else c.providerId
  }

  lemma TargetOwnerIsCut(s: State, c: Credential)
    requires UniqueBy(s.credentials, CredentialKey) && c in s.credentials
    ensures TargetOwner(IndexBy(CredentialTargets(s, s.credentials), TargetKey), c) == CutCredential(s, c).providerId
  {
    var owned := Owned(s, s.credentials);
    var targets := CredentialTargets(s, s.credentials);
    IndexFind(targets, TargetKey, c.id);
    var found := Find(targets, TargetKey, c.id);
    if HasOwner(s, c) {
      assert c in owned;
      var i :| 0 <= i < |owned| && owned[i] == c;
      assert targets[i] in targets && TargetKey(targets[i]) == c.id;
    }
    if found.Some? {
      var i :| 0 <= i < |targets| && targets[i] == found.value;
      assert owned[i] in owned;
      UniqueRow(s.credentials, CredentialKey, owned[i], c);
    }
  }

  function ReceiptOf(s: State, plan: Plan, applied: bool, fingerprint: string): Receipt {
    Receipt(
      applied, |s.providers|, |s.credentials|, |s.defaults|, |s.attempts|, |s.jobs|,
      |s.providers| + |s.credentials| + |s.defaults| + |s.attempts| + |s.jobs|,
      plan.providerRowsChanged + plan.credentialRowsChanged + |s.defaults|,
      plan.providerRowsChanged, plan.credentialRowsChanged, |s.defaults|,
      plan.providersDirectBound, plan.providersWithoutCredential,
      plan.liveCredentialRows, plan.disconnectedCredentialRows, fingerprint)
  }

  ghost function Outcome(s: State, apply: bool, crypto: Crypto): Result<Receipt, Fault> {
    var selected := Selected(s);
    match PlanFault(selected, crypto, true)
    case Some(fault) => Failure(fault)
    case None =>
      if apply && !Verified(Cutover(s)) then Failure(VerificationFailed)
      else Success(ReceiptOf(selected, PlanOf(selected), apply, crypto.sha256(Preimage(Entries(selected)))))
  }

  method Fingerprint(selected: State, plan: Plan, crypto: Crypto) returns (fingerprint: string)
    requires UniqueBy(selected.credentials, CredentialKey) && plan == PlanOf(selected)
    ensures fingerprint == crypto.sha256(Preimage(Entries(selected)))
  {
    var owners := IndexBy(plan.credentialTargets, TargetKey);
    var credentialEntries := MapRows(selected.credentials, c => CredentialEntry(c, TargetOwner(owners, c)));
    forall i | 0 <= i < |selected.credentials|
      ensures credentialEntries[i] == CredentialEntry(selected.credentials[i], CutCredential(selected, selected.credentials[i]).providerId)
    {
      TargetOwnerIsCut(selected, selected.credentials[i]);
    }
    assert credentialEntries
        == MapRows(selected.credentials, c => CredentialEntry(c, CutCredential(selected, c).providerId));
    fingerprint := crypto.sha256(Preimage(
      MapRows(plan.providerTargets, ProviderEntry) + credentialEntries
      + MapRows(selected.attempts, AttemptEntry) + MapRows(selected.jobs, JobEntry)));
  }

  method Apply(db: Database, s: State, plan: Plan)
    requires PrimaryKeys(s) && db.Contents() == s && plan == PlanOf(Selected(s))
    modifies db
    ensures db.Contents() == Cutover(s)
  {
    ApplyProviders(db, s, plan.providerTargets);
    ApplyCredentials(db, s, plan.credentialTargets);
    db.DeleteDefaults();
  }

  method Migrate(db: Database, apply: bool, crypto: Crypto) returns (result: Result<Receipt, Fault>)
    requires PrimaryKeys(db.Contents())
    modifies db
    ensures result == Outcome(old(db.Contents()), apply, crypto)
    ensures result.Success? ==> db.Contents() == if apply then Cutover(old(db.Contents())) else old(db.Contents())
  {
    var s := db.Contents();
    var selected := Selected(s);
    var planned := PlanCutover(selected, crypto, true);
    if planned.Failure? {
      return Failure(planned.error);
    }
    var plan := planned.value;
    var fingerprint := Fingerprint(selected, plan, crypto);
    if apply {
      Apply(db, s, plan);
      if !Verified(db.Contents()) {
        return Failure(VerificationFailed);
      }
    }
    result := Success(ReceiptOf(selected, plan, apply, fingerprint));
  }

  /** The transaction: commit an applied success, roll everything else back. */
  method Run(db: Database, apply: bool, crypto: Crypto) returns (result: Result<Receipt, Fault>)
    requires PrimaryKeys(db.Contents())
    modifies db
    ensures result == Outcome(old(db.Contents()), apply, crypto)
    ensures db.Contents() == if apply && result.Success? then Cutover(old(db.Contents())) else old(db.Contents())
  {
    var snapshot := db.Contents();
    result := Migrate(db, apply, crypto);
    if !apply || result.Failure? {
      db.Restore(snapshot);
    }
  }
}
