/** The managed-account migration in terms of columns: what it accepts, and what every row becomes. */
module ManagedRows {
  import opened Sequences
  import opened Text
  import opened CanonicalJson
  import opened Tables
  import opened Envelopes
  import opened ManagedAccounts
  import opened ManagedTheorems

  // ---- Providers ----

  /** `c` still names `p` as its owner. */
  ghost predicate Owns(s: State, p: Provider, c: Credential) {
    c in s.credentials && p.id != "" && c.providerId == Some(p.id)
  }

  ghost predicate HasCredential(s: State, p: Provider) {
    exists c :: Owns(s, p, c)
  }

  /** `p` will be pinned: it already is, or it has no mode yet and a credential that names it. */
  ghost predicate WillPin(s: State, p: Provider) {
    p.mode == Some(Pinned) || (p.mode.None? && HasCredential(s, p))
  }

  /** `c` is the account `p` will be pinned to: the one it points at, or without a pointer the one that names it. */
  ghost predicate PinnedTo(s: State, p: Provider, c: Credential) {
    c in s.credentials && if p.credentialId.Some? then p.credentialId == Some(c.id) else Owns(s, p, c)
  }

  /** `q` is the Provider row `p` after the migration. */
  ghost predicate ProviderMoved(s: State, p: Provider, q: Provider) {
    if !IsManaged(p) then q == p
    else
      && q == p.(mode := q.mode, credentialId := q.credentialId)
      && (p.mode == Some(Pinned) && p.credentialId.Some? ==> q == p)
      && (WillPin(s, p) ==>
            && q.mode == Some(Pinned)
            && (p.credentialId.Some? ==> q.credentialId == p.credentialId)
            && (p.credentialId.None? ==>
                  if HasCredential(s, p) then forall c :: Owns(s, p, c) ==> q.credentialId == Some(c.id)
                  else q.credentialId.None?))
      && (!WillPin(s, p) ==> q.mode == Some(FollowDefault) && q.credentialId.None?)
  }

  lemma OwnerFound(s: State, p: Provider)
    requires DistinctKeys(s.credentials, OwnerKey)
    ensures Legacy(s.credentials, p).Some? <==> HasCredential(s, p)
    ensures forall c :: Owns(s, p, c) ==> Legacy(s.credentials, p) == Some(c)
    ensures Legacy(s.credentials, p).Some? ==> Owns(s, p, Legacy(s.credentials, p).value)
  {
    forall c | Owns(s, p, c) ensures Legacy(s.credentials, p) == Some(c) {
      assert OwnerKey(c) == Some(p.id);
      var d := Find(s.credentials, OwnerKey, Some(p.id)).value;
      var i :| 0 <= i < |s.credentials| && s.credentials[i] == c;
      var j :| 0 <= j < |s.credentials| && s.credentials[j] == d;
    }
  }

  lemma ProviderMoves(s: State, p: Provider)
    requires DistinctKeys(s.credentials, OwnerKey)
    ensures ProviderMoved(s, p, MigrateProvider(s.credentials, p))
  {
    OwnerFound(s, p);
  }

  /** Provider by Provider: an explicit pin is kept, a credential that names its Provider becomes its pin, and every other
      managed Provider follows its default. */
  lemma ProviderRows(s: State, crypto: Crypto)
    requires Clean(s, crypto, true)
    ensures var t := Migrated(s, crypto);
      |t.providers| == |s.providers| && forall i :: 0 <= i < |s.providers| ==> ProviderMoved(s, s.providers[i], t.providers[i])
  {
    CleanRows(s, crypto, true);
    forall i | 0 <= i < |s.providers| ensures ProviderMoved(s, s.providers[i], MigratedProviders(s)[i]) {
      ProviderMoves(s, s.providers[i]);
    }
  }

  /** A Provider that will be pinned has an account of its adapter to be pinned to. */
  ghost predicate PinSound(s: State, p: Provider) {
    WillPin(s, p) ==> exists c :: PinnedTo(s, p, c) && c.id != "" && c.adapter == p.adapter
  }

  lemma PinAccepted(s: State, p: Provider)
    requires UniqueBy(s.credentials, CredentialKey) && DistinctKeys(s.credentials, OwnerKey)
    ensures ProviderFault(s.credentials, p).None? <==> PinSound(s, p)
  {
    OwnerFound(s, p);
    if WillPin(s, p) {
      var pointer := DesiredPointer(s.credentials, p);
      if exists c :: PinnedTo(s, p, c) && c.id != "" && c.adapter == p.adapter {
        var c :| PinnedTo(s, p, c) && c.id != "" && c.adapter == p.adapter;
        assert pointer == Some(c.id);
        FindUnique(s.credentials, CredentialKey, c);
      }
      if ProviderFault(s.credentials, p).None? {
        var c := Find(s.credentials, CredentialKey, pointer.value).value;
        PointerAccount(s, p, c);
      }
    }
  }

  lemma PointerAccount(s: State, p: Provider, c: Credential)
    requires UniqueBy(s.credentials, CredentialKey) && DistinctKeys(s.credentials, OwnerKey)
    requires WillPin(s, p) && c in s.credentials && DesiredPointer(s.credentials, p) == Some(c.id)
    ensures PinnedTo(s, p, c)
  {
    OwnerFound(s, p);
    if p.credentialId.None? {
      UniqueRow(s.credentials, CredentialKey, c, Legacy(s.credentials, p).value);
    }
  }

  // ---- Credentials ----

  predicate Recorded(c: Credential) {
    c.contextId.Some? && Trim(c.contextId.value) != ""
  }

  /** The envelope of `c` was made in the context `x`: the recorded one, or without one the owner; it names row or owner. */
  predicate MadeIn(c: Credential, x: string) {
    && x != ""
    && (if Recorded(c) then x == Trim(c.contextId.value) else c.providerId.Some? && x == Trim(c.providerId.value))
    && (x == c.id || c.providerId == Some(x))
  }

  /** The five columns hold a version-1 envelope that opens in the context `x`, to `b`. */
  predicate OpensTo(c: Credential, crypto: Crypto, x: string, b: TokenBundle) {
    && c.bundle.formatVersion == Some(1)
    && Truthy(c.bundle.keyId) && Truthy(c.bundle.ciphertext) && Truthy(c.bundle.nonce) && Truthy(c.bundle.tag)
    && crypto.decrypt(Envelope(1, c.bundle.keyId.value, c.bundle.ciphertext.value, c.bundle.nonce.value, c.bundle.tag.value),
                      Context(x, c.adapter, c.id, c.revision)) == Some(b)
  }

  /** `b` is the bundle `c` holds, readable where it was made. */
  ghost predicate HoldsBundle(c: Credential, crypto: Crypto, b: TokenBundle) {
    exists x :: MadeIn(c, x) && OpensTo(c, crypto, x, b)
  }

  /** `c` can be migrated: it holds nothing and is not connected, or a readable bundle with an identity. */
  ghost predicate Convertible(c: Credential, crypto: Crypto) {
    || (c.bundle == NO_BUNDLE && !c.status.Connected?)
    || exists b :: HoldsBundle(c, crypto, b) && CanonicalIdentity(c.adapter, b).Some?
  }

  lemma MadeInSource(c: Credential, x: string)
    ensures MadeIn(c, x) <==>
            x != "" && x == SourceContext(c) && (SourceContext(c) == c.id || Some(SourceContext(c)) == c.providerId)
  {
  }

  lemma OpensSource(c: Credential, crypto: Crypto, b: TokenBundle)
    ensures HoldsBundle(c, crypto, b) <==>
            && MadeIn(c, SourceContext(c)) && EnvelopeFrom(c.bundle).Some?
            && crypto.decrypt(EnvelopeFrom(c.bundle).value, ContextOf(c, SourceContext(c))) == Some(b)
  {
    forall x | MadeIn(c, x) ensures x == SourceContext(c) {
      MadeInSource(c, x);
    }
    if MadeIn(c, SourceContext(c)) && EnvelopeFrom(c.bundle).Some?
       && crypto.decrypt(EnvelopeFrom(c.bundle).value, ContextOf(c, SourceContext(c))) == Some(b) {
      assert OpensTo(c, crypto, SourceContext(c), b);
    }
  }

  /** The transform of one credential fails exactly on the rows that cannot be migrated. */
  lemma TransformAccepted(c: Credential, crypto: Crypto, apply: bool)
    requires Lawful(crypto)
    ensures Transform(c, crypto, apply).Success? <==> Convertible(c, crypto)
  {
    TransformApply(c, crypto);
    MadeInSource(c, SourceContext(c));
    if EnvelopeFrom(c.bundle).Some? {
      var b := crypto.decrypt(EnvelopeFrom(c.bundle).value, ContextOf(c, SourceContext(c)));
      if b.Some? {
        OpensSource(c, crypto, b.value);
      }
    }
    forall b | HoldsBundle(c, crypto, b)
      ensures crypto.decrypt(EnvelopeFrom(c.bundle).value, ContextOf(c, SourceContext(c))) == Some(b)
      ensures EnvelopeFrom(c.bundle).Some? && MadeIn(c, SourceContext(c))
    {
      OpensSource(c, crypto, b);
    }
  }

  /** `d` is the credential row `c` after the migration: its context is its own, its hash is that of the bundle it holds, and
      only a bundle made in another context is encrypted anew. */
  ghost predicate CredentialMoved(c: Credential, d: Credential, crypto: Crypto) {
    && d == c.(contextId := Some(c.id), identityHash := d.identityHash, bundle := d.bundle)
    && (c.bundle == NO_BUNDLE ==> d.identityHash.None? && d.bundle == NO_BUNDLE)
    && (forall x, b :: MadeIn(c, x) && OpensTo(c, crypto, x, b) ==>
          && d.identityHash == IdentityHash(crypto, c.adapter, b)
          && (if x == c.id then d.bundle == c.bundle
              else crypto.encrypt(b, Context(c.id, c.adapter, c.id, c.revision)).Some?
                   && d.bundle == BundleOf(crypto.encrypt(b, Context(c.id, c.adapter, c.id, c.revision)).value)))
  }

  lemma BundleMoves(c: Credential, crypto: Crypto, x: string, b: TokenBundle)
    requires Lawful(crypto) && Transform(c, crypto, true).Success? && MadeIn(c, x) && OpensTo(c, crypto, x, b)
    ensures var d := MigrateCredential(crypto, c);
      && d.identityHash == IdentityHash(crypto, c.adapter, b)
      && (if x == c.id then d.bundle == c.bundle
          else crypto.encrypt(b, ContextOf(c, c.id)).Some?
               && d.bundle == BundleOf(crypto.encrypt(b, ContextOf(c, c.id)).value))
  {
    MadeInSource(c, x);
    TransformDry(c, crypto);
  }

  lemma CredentialMoves(c: Credential, crypto: Crypto)
    requires Lawful(crypto) && Transform(c, crypto, true).Success?
    ensures CredentialMoved(c, MigrateCredential(crypto, c), crypto)
  {
    forall x, b | MadeIn(c, x) && OpensTo(c, crypto, x, b)
      ensures var d := MigrateCredential(crypto, c);
        && d.identityHash == IdentityHash(crypto, c.adapter, b)
        && (if x == c.id then d.bundle == c.bundle
            else crypto.encrypt(b, Context(c.id, c.adapter, c.id, c.revision)).Some?
                 && d.bundle == BundleOf(crypto.encrypt(b, Context(c.id, c.adapter, c.id, c.revision)).value))
    {
      BundleMoves(c, crypto, x, b);
    }
  }

  lemma CredentialRows(s: State, crypto: Crypto)
    requires Lawful(crypto) && Clean(s, crypto, true)
    ensures var t := Migrated(s, crypto);
      && |t.credentials| == |s.credentials|
      && forall i :: 0 <= i < |s.credentials| ==> CredentialMoved(s.credentials[i], t.credentials[i], crypto)
  {
    CleanRows(s, crypto, true);
    forall i | 0 <= i < |s.credentials| ensures CredentialMoved(s.credentials[i], MigratedCredentials(s, crypto)[i], crypto) {
      assert s.credentials[i] in s.credentials;
      CredentialMoves(s.credentials[i], crypto);
    }
  }

  // ---- Identities ----

  /** Two live accounts of one adapter hold bundles of the same identity. */
  ghost predicate SameAccount(c: Credential, d: Credential, crypto: Crypto) {
    && IsLive(c) && IsLive(d) && c.adapter == d.adapter
    && exists a, b :: HoldsBundle(c, crypto, a) && HoldsBundle(d, crypto, b)
                      && IdentityHash(crypto, c.adapter, a) == IdentityHash(crypto, d.adapter, b)
  }

  predicate SameStored(c: Credential, d: Credential) {
    IsLive(c) && IsLive(d) && c.adapter == d.adapter && Truthy(c.identityHash) && c.identityHash == d.identityHash
  }

  ghost predicate OneRowEach(credentials: seq<Credential>, crypto: Crypto) {
    forall i, j :: 0 <= i < j < |credentials| ==>
      !SameStored(credentials[i], credentials[j]) && !SameAccount(credentials[i], credentials[j], crypto)
  }

  lemma HeldHash(c: Credential, crypto: Crypto)
    requires Lawful(crypto) && Convertible(c, crypto)
    ensures NewHash(c, crypto).Some? <==> c.bundle != NO_BUNDLE
    ensures NewHash(c, crypto).Some? ==> Truthy(NewHash(c, crypto))
    ensures forall b :: HoldsBundle(c, crypto, b) ==> NewHash(c, crypto) == IdentityHash(crypto, c.adapter, b)
    ensures c.bundle != NO_BUNDLE ==> exists b :: HoldsBundle(c, crypto, b)
  {
    TransformAccepted(c, crypto, false);
    forall b | HoldsBundle(c, crypto, b) ensures NewHash(c, crypto) == IdentityHash(crypto, c.adapter, b) && c.bundle != NO_BUNDLE {
      OpensSource(c, crypto, b);
    }
  }

  lemma SameKey(c: Credential, d: Credential, crypto: Crypto)
    requires Lawful(crypto) && Convertible(c, crypto) && Convertible(d, crypto)
    ensures NewKey(c, crypto).Some? && NewKey(c, crypto) == NewKey(d, crypto) <==> SameAccount(c, d, crypto)
  {
    HeldHash(c, crypto);
    HeldHash(d, crypto);
  }

  lemma KeysDistinct(credentials: seq<Credential>, crypto: Crypto)
    requires Lawful(crypto) && forall c :: c in credentials ==> Convertible(c, crypto)
    ensures DistinctKeys(credentials, LegacyKey) && DistinctKeys(credentials, c => NewKey(c, crypto)) <==> OneRowEach(credentials, crypto)
  {
    forall i, j | 0 <= i < j < |credentials|
      ensures LegacyKey(credentials[i]).Some? && LegacyKey(credentials[i]) == LegacyKey(credentials[j])
         <==> SameStored(credentials[i], credentials[j])
      ensures NewKey(credentials[i], crypto).Some? && NewKey(credentials[i], crypto) == NewKey(credentials[j], crypto)
         <==> SameAccount(credentials[i], credentials[j], crypto)
    {
      SameKey(credentials[i], credentials[j], crypto);
    }
  }

  // ---- Revocation jobs ----

  ghost predicate IsAccount(s: State, id: string) {
    exists c :: c in s.credentials && c.id == id
  }

  /** The account `j` will name: the one it names already, else the credential it was made from. */
  ghost predicate JobNames(s: State, j: Job, id: string) {
    if j.managedCredentialId.Some? then j.managedCredentialId == Some(id)
    else j.sourceKind.FromCredential? && j.sourceRecordId == id && IsAccount(s, id)
  }

  /** `k` is the job row `j` after the migration. */
  ghost predicate JobMoved(s: State, j: Job, k: Job) {
    && k == j.(accountScopeId := k.accountScopeId, managedCredentialId := k.managedCredentialId,
               credentialAuthEpoch := k.credentialAuthEpoch, contextId := k.contextId)
    && k.accountScopeId == (if j.accountScopeId.Some? then j.accountScopeId else Some(j.sourceRecordId))
    && k.contextId == k.accountScopeId
    && (forall id :: k.managedCredentialId == Some(id) <==> JobNames(s, j, id))
    && (k.managedCredentialId.None? || k.managedCredentialId == Some("") ==> k.credentialAuthEpoch.None?)
    && (forall id :: id != "" && JobNames(s, j, id) ==>
          if j.credentialAuthEpoch.Some? then k.credentialAuthEpoch == j.credentialAuthEpoch
          else forall c :: c in s.credentials && c.id == id ==> k.credentialAuthEpoch == Some(c.authEpoch))
  }

  /** The epoch of the account a job names is on the job or on the credential, and not 0. */
  ghost predicate JobRecoverable(s: State, j: Job) {
    forall id :: id != "" && JobNames(s, j, id) ==>
      if j.credentialAuthEpoch.Some? then j.credentialAuthEpoch != Some(0)
      else exists c :: c in s.credentials && c.id == id && c.authEpoch != 0
  }

  lemma JobAccountIs(s: State, j: Job)
    ensures forall id :: JobAccount(s.credentials, j) == Some(id) <==> JobNames(s, j, id)
  {
    var found := Find(s.credentials, CredentialKey, j.sourceRecordId);
    assert found.Some? <==> IsAccount(s, j.sourceRecordId);
  }

  lemma EpochFound(s: State, id: string)
    requires UniqueBy(s.credentials, CredentialKey)
    ensures forall c :: c in s.credentials && c.id == id ==> Find(s.credentials, CredentialKey, id) == Some(c)
  {
    forall c | c in s.credentials && c.id == id ensures Find(s.credentials, CredentialKey, id) == Some(c) {
      FindUnique(s.credentials, CredentialKey, c);
    }
  }

  lemma JobMoves(s: State, j: Job)
    requires UniqueBy(s.credentials, CredentialKey)
    ensures JobMoved(s, j, MigrateJob(s.credentials, j))
    ensures JobFault(s.credentials, j).None? <==> JobRecoverable(s, j)
  {
    JobAccountIs(s, j);
    var account := JobAccount(s.credentials, j);
    if Truthy(account) {
      EpochFound(s, account.value);
    }
  }

  lemma JobRows(s: State, crypto: Crypto)
    requires UniqueBy(s.credentials, CredentialKey)
    ensures var t := Migrated(s, crypto);
      |t.jobs| == |s.jobs| && forall i :: 0 <= i < |s.jobs| ==> JobMoved(s, s.jobs[i], t.jobs[i])
  {
    forall i | 0 <= i < |s.jobs| ensures JobMoved(s, s.jobs[i], MigratedJobs(s)[i]) {
      JobMoves(s, s.jobs[i]);
    }
  }

  // ---- Acceptance ----

  ghost predicate OwnersDistinct(credentials: seq<Credential>) {
    forall i, j :: 0 <= i < j < |credentials| && Truthy(credentials[i].providerId) ==>
      credentials[i].providerId != credentials[j].providerId
  }

  lemma OwnersAreKeys(credentials: seq<Credential>)
    ensures DistinctKeys(credentials, OwnerKey) <==> OwnersDistinct(credentials)
  {
    assert forall i, j :: 0 <= i < j < |credentials| && Truthy(credentials[i].providerId) ==>
      (OwnerKey(credentials[i]) == OwnerKey(credentials[j]) <==> credentials[i].providerId == credentials[j].providerId);
  }

  /** What the first stage demands of the tables. */
  ghost predicate Acceptable(s: State, crypto: Crypto) {
    && (forall j :: j in s.jobs ==> j.status.Terminal() && j.bundle == NO_BUNDLE && JobRecoverable(s, j))
    && OwnersDistinct(s.credentials)
    && (forall p :: p in s.providers && IsManaged(p) ==> PinSound(s, p))
    && (forall c :: c in s.credentials ==> Convertible(c, crypto))
    && OneRowEach(s.credentials, crypto)
  }

  lemma JobsSettled(s: State)
    ensures Count(s.jobs, IsUnfinished) == 0 && Count(s.jobs, HasMaterial) == 0 <==>
            forall j :: j in s.jobs ==> j.status.Terminal() && j.bundle == NO_BUNDLE
  {
    CountZero(s.jobs, IsUnfinished);
    CountZero(s.jobs, HasMaterial);
    assert forall j: Job :: !HasMaterial(j) <==> j.bundle == NO_BUNDLE;
  }

  lemma BindingsAccepted(s: State)
    requires UniqueBy(s.credentials, CredentialKey)
    ensures BindingsFault(s).None? <==>
            && (forall j :: j in s.jobs ==> j.status.Terminal() && j.bundle == NO_BUNDLE)
            && OwnersDistinct(s.credentials)
            && (forall p :: p in s.providers && IsManaged(p) ==> PinSound(s, p))
  {
    JobsSettled(s);
    OwnersAreKeys(s.credentials);
    if OwnersDistinct(s.credentials) {
      forall p | p in s.providers ensures ProviderFault(s.credentials, p).None? <==> PinSound(s, p) {
        PinAccepted(s, p);
      }
    }
  }

  lemma AccountsAccepted(s: State, crypto: Crypto)
    requires Lawful(crypto) && UniqueBy(s.credentials, CredentialKey)
    ensures AccountsFault(s.credentials, s.jobs, crypto, true).None? <==>
            && (forall c :: c in s.credentials ==> Convertible(c, crypto))
            && OneRowEach(s.credentials, crypto)
            && (forall j :: j in s.jobs ==> JobRecoverable(s, j))
  {
    ManagedTheorems.CredentialsAccepted(s.credentials, crypto, true);
    forall c | c in s.credentials ensures Transform(c, crypto, true).Success? <==> Convertible(c, crypto) {
      TransformAccepted(c, crypto, true);
    }
    forall j | j in s.jobs ensures JobFault(s.credentials, j).None? <==> JobRecoverable(s, j) {
      JobMoves(s, j);
    }
    if forall c :: c in s.credentials ==> Convertible(c, crypto) {
      KeysDistinct(s.credentials, crypto);
    }
  }

  ghost predicate NoJobUnnamed(s: State) {
    forall j :: j in s.jobs ==> !JobNames(s, j, "")
  }

  lemma BlankIsNamed(s: State)
    ensures NoBlankAccount(s) <==> NoJobUnnamed(s)
  {
    forall j | j in s.jobs ensures JobAccount(s.credentials, j) == Some("") <==> JobNames(s, j, "") {
      JobAccountIs(s, j);
    }
  }

  /** The first stage gets through its checks exactly on acceptable tables, and commits unless a job names the blank account. */
  lemma StageOneAccepts(s: State, crypto: Crypto)
    requires Lawful(crypto) && UniqueBy(s.credentials, CredentialKey)
    ensures Clean(s, crypto, true) <==> Acceptable(s, crypto)
    ensures Outcome(s, true, crypto).Success? <==> Acceptable(s, crypto) && NoJobUnnamed(s)
  {
    BindingsAccepted(s);
    AccountsAccepted(s, crypto);
    BlankIsNamed(s);
    if Clean(s, crypto, true) {
      MigrationVerified(s, crypto);
    }
  }

  // ---- The verifier ----

  predicate InOrder(p: Provider) {
    IsManaged(p) ==>
      && p.mode.Some?
      && (p.mode == Some(Pinned) ==> p.credentialId.Some?)
      && (p.mode == Some(FollowDefault) ==> p.credentialId.None?)
  }

  predicate Keyed(c: Credential) {
    && c.contextId == Some(c.id)
    && (c.status.Connected? ==> c.identityHash.Some?)
    && (c.identityHash.Some? ==> IsIdentityHash(c.identityHash.value))
  }

  predicate Ended(a: Attempt) {
    !a.status.Starting? && !a.status.Pending? && a.contextId == Some(a.id)
  }

  predicate Scoped(j: Job) {
    && (j.status.JobSucceeded? || j.status.JobUnsupported?)
    && j.accountScopeId.Some? && j.contextId == j.accountScopeId
    && (j.managedCredentialId.None? <==> j.credentialAuthEpoch.None?)
  }

  predicate SameIdentity(c: Credential, d: Credential) {
    && !c.status.Disconnected? && !d.status.Disconnected? && c.adapter == d.adapter
    && c.identityHash.Some? && c.identityHash == d.identityHash
  }

  lemma GroupsTell(t: State)
    ensures |DuplicateGroups(t)| == 0 <==>
            forall i, j :: 0 <= i < j < |t.credentials| ==> !SameIdentity(t.credentials[i], t.credentials[j])
  {
    forall i, j | 0 <= i < j < |t.credentials|
      ensures SameIdentity(t.credentials[i], t.credentials[j]) <==>
              Group(t.credentials[i]).Some? && Group(t.credentials[i]) == Group(t.credentials[j])
    {
    }
    if k :| k in DuplicateGroups(t) {
      var i, j :| 0 <= i < j < |t.credentials| && Group(t.credentials[i]).Some?
                  && Group(t.credentials[i]) == Group(t.credentials[j]) && Group(t.credentials[i]).value == k;
      assert SameIdentity(t.credentials[i], t.credentials[j]);
    }
    if i, j :| 0 <= i < j < |t.credentials| && SameIdentity(t.credentials[i], t.credentials[j]) {
      assert Group(t.credentials[i]).value in DuplicateGroups(t);
    }
  }

  /** The verifier passes exactly the tables whose rows are all in this order, with one live row for each identity. */
  lemma VerifierTells(t: State)
    ensures Verified(t) <==>
            && (forall p :: p in t.providers ==> InOrder(p))
            && (forall c :: c in t.credentials ==> Keyed(c))
            && (forall a :: a in t.attempts ==> Ended(a))
            && (forall j :: j in t.jobs ==> Scoped(j))
            && (forall i, j :: 0 <= i < j < |t.credentials| ==> !SameIdentity(t.credentials[i], t.credentials[j]))
  {
    CountZero(t.providers, InvalidProvider);
    CountZero(t.credentials, InvalidCredential);
    CountZero(t.attempts, IsActive);
    CountZero(t.attempts, ContextMissing);
    CountZero(t.jobs, InvalidJob);
    GroupsTell(t);
  }

  // ---- The reported reason ----

  /** What is wrong with `c` when its transform fails for `fault`. */
  ghost predicate CredentialDefect(c: Credential, crypto: Crypto, fault: Fault) {
    match fault
    case EnvelopeIncomplete =>
      || (c.bundle != NO_BUNDLE && c.bundle.Present() != 5)
      || c.bundle.formatVersion != Some(1)
      || !(Truthy(c.bundle.keyId) && Truthy(c.bundle.ciphertext) && Truthy(c.bundle.nonce) && Truthy(c.bundle.tag))
    case EnvelopeMissing => c.status.Connected? && c.bundle == NO_BUNDLE
    case ContextUnrecognized => c.bundle != NO_BUNDLE && forall x :: !MadeIn(c, x)
    case DecryptionFailed => c.bundle != NO_BUNDLE && forall b :: !HoldsBundle(c, crypto, b)
    case IdentityInvalid => exists b :: HoldsBundle(c, crypto, b) && CanonicalIdentity(c.adapter, b).None?
    case _ => false
  }

  lemma TransformReason(c: Credential, crypto: Crypto, apply: bool)
    requires Lawful(crypto) && Transform(c, crypto, apply).Failure?
    ensures CredentialDefect(c, crypto, Transform(c, crypto, apply).error)
  {
    TransformApply(c, crypto);
    forall x | MadeIn(c, x) ensures x == SourceContext(c) {
      MadeInSource(c, x);
    }
    if EnvelopeFrom(c.bundle).Some? {
      var b := crypto.decrypt(EnvelopeFrom(c.bundle).value, ContextOf(c, SourceContext(c)));
      if b.Some? {
        OpensSource(c, crypto, b.value);
      }
    }
    forall b | HoldsBundle(c, crypto, b)
      ensures EnvelopeFrom(c.bundle).Some?
      ensures crypto.decrypt(EnvelopeFrom(c.bundle).value, ContextOf(c, SourceContext(c))) == Some(b)
    {
      OpensSource(c, crypto, b);
    }
  }

  lemma KeyHeld(c: Credential, crypto: Crypto)
    requires NewKey(c, crypto).Some?
    ensures exists b :: HoldsBundle(c, crypto, b) && NewKey(c, crypto).value == (c.adapter, IdentityHash(crypto, c.adapter, b).value)
                        && IdentityHash(crypto, c.adapter, b).Some? && IsLive(c)
  {
    var b := crypto.decrypt(EnvelopeFrom(c.bundle).value, ContextOf(c, SourceContext(c))).value;
    MadeInSource(c, SourceContext(c));
    OpensSource(c, crypto, b);
  }

  lemma {:induction false} CredentialsReason(credentials: seq<Credential>, crypto: Crypto, apply: bool)
    requires Lawful(crypto) && CredentialsFault(credentials, crypto, apply).Some?
    ensures var fault := CredentialsFault(credentials, crypto, apply).value;
      if fault.DuplicateIdentity? then !OneRowEach(credentials, crypto)
      else exists c :: c in credentials && CredentialDefect(c, crypto, fault)
  {
    var n := |credentials| - 1;
    var front, c := credentials[..n], credentials[n];
    if CredentialsFault(front, crypto, apply).Some? {
      CredentialsReason(front, crypto, apply);
      assert forall i :: 0 <= i < n ==> front[i] == credentials[i];
    } else if Transform(c, crypto, apply).Failure? {
      TransformReason(c, crypto, apply);
      assert c in credentials;
    } else {
      var d :| d in front && NewKey(d, crypto) == NewKey(c, crypto);
      var i :| 0 <= i < n && front[i] == d;
      KeyHeld(c, crypto);
      KeyHeld(d, crypto);
      assert SameAccount(credentials[i], credentials[n], crypto);
    }
  }

  /** What is wrong with the tables when the first stage reports `fault`. */
  ghost predicate Justified(s: State, crypto: Crypto, fault: Fault) {
    match fault
    case JobsNotTerminal => exists j :: j in s.jobs && !j.status.Terminal()
    case JobRetainedMaterial => exists j :: j in s.jobs && j.bundle != NO_BUNDLE
    case LegacyOwnerDuplicate => !OwnersDistinct(s.credentials)
    case PinInvalid => exists p :: p in s.providers && IsManaged(p) && !PinSound(s, p)
    case DuplicateIdentity => !OneRowEach(s.credentials, crypto)
    case EpochUnrecoverable => exists j :: j in s.jobs && !JobRecoverable(s, j)
    case VerificationFailed => !NoJobUnnamed(s)
    case _ => exists c :: c in s.credentials && CredentialDefect(c, crypto, fault)
  }

  lemma IntakeReason(s: State, crypto: Crypto)
    requires IntakeFault(s.credentials, s.jobs).Some?
    ensures Justified(s, crypto, IntakeFault(s.credentials, s.jobs).value)
  {
    CountZero(s.jobs, IsUnfinished);
    CountZero(s.jobs, HasMaterial);
    OwnersAreKeys(s.credentials);
  }

  lemma BindingsReason(s: State, crypto: Crypto)
    requires UniqueBy(s.credentials, CredentialKey) && BindingsFault(s).Some?
    ensures Justified(s, crypto, BindingsFault(s).value)
  {
    if IntakeFault(s.credentials, s.jobs).Some? {
      IntakeReason(s, crypto);
    } else {
      var p :| p in Selected(s).providers && ProviderFault(s.credentials, p) == BindingsFault(s);
      PinAccepted(s, p);
    }
  }

  lemma StoredTwice(s: State, crypto: Crypto)
    requires !DistinctKeys(s.credentials, LegacyKey)
    ensures !OneRowEach(s.credentials, crypto)
  {
    var i, j :| 0 <= i < j < |s.credentials| && LegacyKey(s.credentials[i]).Some?
                && LegacyKey(s.credentials[i]) == LegacyKey(s.credentials[j]);
    assert SameStored(s.credentials[i], s.credentials[j]);
  }

  lemma AccountsReason(s: State, crypto: Crypto, apply: bool)
    requires Lawful(crypto) && UniqueBy(s.credentials, CredentialKey) && AccountsFault(s.credentials, s.jobs, crypto, apply).Some?
    ensures Justified(s, crypto, AccountsFault(s.credentials, s.jobs, crypto, apply).value)
  {
    if !DistinctKeys(s.credentials, LegacyKey) {
      StoredTwice(s, crypto);
    } else if CredentialsFault(s.credentials, crypto, apply).Some? {
      CredentialsReason(s.credentials, crypto, apply);
    } else {
      var j :| j in s.jobs && JobFault(s.credentials, j) == AccountsFault(s.credentials, s.jobs, crypto, apply);
      JobMoves(s, j);
    }
  }

  /** The checks in their order; the checks of single credentials are one stage. */
  function Stage(fault: Fault): nat {
    match fault
    case JobsNotTerminal => 1
    case JobRetainedMaterial => 2
    case LegacyOwnerDuplicate => 3
    case PinInvalid => 4
    case EpochUnrecoverable => 6
    case VerificationFailed => 7
    case _ => 5
  }

  /** The check of stage `k` has nothing to report. */
  ghost predicate Passes(s: State, crypto: Crypto, k: nat) {
    match k
    case 1 => forall j :: j in s.jobs ==> j.status.Terminal()
    case 2 => forall j :: j in s.jobs ==> j.bundle == NO_BUNDLE
    case 3 => OwnersDistinct(s.credentials)
    case 4 => forall p :: p in s.providers && IsManaged(p) ==> PinSound(s, p)
    case 5 => (forall c :: c in s.credentials ==> Convertible(c, crypto)) && OneRowEach(s.credentials, crypto)
    case 6 => forall j :: j in s.jobs ==> JobRecoverable(s, j)
    case _ => true
  }

  lemma IntakeOrder(s: State, crypto: Crypto, k: nat)
    requires k <= 3 && (IntakeFault(s.credentials, s.jobs).Some? ==> k < Stage(IntakeFault(s.credentials, s.jobs).value))
    ensures Passes(s, crypto, k)
  {
    CountZero(s.jobs, IsUnfinished);
    CountZero(s.jobs, HasMaterial);
    assert forall j: Job :: !HasMaterial(j) <==> j.bundle == NO_BUNDLE;
    OwnersAreKeys(s.credentials);
  }

  ghost function JobsFirst(s: State): Option<Fault> {
    FirstFault(s.jobs, j => JobFault(s.credentials, j))
  }

  lemma JobsStage(s: State)
    requires JobsFirst(s).Some?
    ensures JobsFirst(s) == Some(EpochUnrecoverable)
  {
    var j :| j in s.jobs && JobFault(s.credentials, j) == JobsFirst(s);
  }

  lemma BindingsStage(s: State)
    requires BindingsFault(s).Some? && IntakeFault(s.credentials, s.jobs).None?
    ensures BindingsFault(s) == Some(PinInvalid)
  {
    var p :| p in Selected(s).providers && ProviderFault(s.credentials, p) == BindingsFault(s);
  }

  lemma DefectStage(c: Credential, crypto: Crypto, fault: Fault)
    requires CredentialDefect(c, crypto, fault)
    ensures Stage(fault) == 5
  {
  }

  lemma CredentialsStage(credentials: seq<Credential>, crypto: Crypto, apply: bool)
    requires Lawful(crypto) && CredentialsFault(credentials, crypto, apply).Some?
    ensures Stage(CredentialsFault(credentials, crypto, apply).value) == 5
  {
    CredentialsReason(credentials, crypto, apply);
    var fault := CredentialsFault(credentials, crypto, apply).value;
    if !fault.DuplicateIdentity? {
      var c :| c in credentials && CredentialDefect(c, crypto, fault);
      DefectStage(c, crypto, fault);
    }
  }

  lemma IntakeStage(s: State)
    ensures IntakeFault(s.credentials, s.jobs).Some? ==> Stage(IntakeFault(s.credentials, s.jobs).value) <= 3
  {
  }

  lemma StagesInOrder(distinct: bool, credentials: Option<Fault>, jobs: Option<Fault>, first: Option<Fault>)
    requires first == if !distinct then Some(DuplicateIdentity) else if credentials.Some? then credentials else jobs
    requires first.Some? && (credentials.Some? ==> Stage(credentials.value) == 5) && (jobs.Some? ==> jobs == Some(EpochUnrecoverable))
    ensures 5 <= Stage(first.value) <= 6 && (Stage(first.value) > 5 ==> distinct && credentials.None?)
  {
  }

  lemma AccountsStage(s: State, crypto: Crypto, apply: bool)
    requires Lawful(crypto) && AccountsFault(s.credentials, s.jobs, crypto, apply).Some?
    ensures var stage := Stage(AccountsFault(s.credentials, s.jobs, crypto, apply).value);
      && 5 <= stage <= 6
      && (stage > 5 ==> DistinctKeys(s.credentials, LegacyKey) && CredentialsFault(s.credentials, crypto, apply).None?)
  {
    var credentials, jobs := CredentialsFault(s.credentials, crypto, apply), JobsFirst(s);
    if credentials.Some? {
      CredentialsStage(s.credentials, crypto, apply);
    }
    if jobs.Some? {
      JobsStage(s);
    }
    StagesInOrder(DistinctKeys(s.credentials, LegacyKey), credentials, jobs, AccountsFault(s.credentials, s.jobs, crypto, apply));
  }

  lemma CheckPassed(s: State, crypto: Crypto, apply: bool, k: nat)
    requires Lawful(crypto) && UniqueBy(s.credentials, CredentialKey)
    requires MigrationFault(s, crypto, apply).Some? ==> k < Stage(MigrationFault(s, crypto, apply).value)
    ensures Passes(s, crypto, k)
  {
    if BindingsFault(s).Some? {
      EarlyCheck(s, crypto, k);
    } else if k <= 4 {
      BindingsAccepted(s);
    } else {
      LateCheck(s, crypto, apply, k);
    }
  }

  lemma EarlyCheck(s: State, crypto: Crypto, k: nat)
    requires BindingsFault(s).Some? && k < Stage(BindingsFault(s).value)
    ensures Passes(s, crypto, k)
  {
    if IntakeFault(s.credentials, s.jobs).None? {
      BindingsStage(s);
    }
    IntakeStage(s);
    IntakeOrder(s, crypto, k);
  }

  lemma LateCheck(s: State, crypto: Crypto, apply: bool, k: nat)
    requires Lawful(crypto) && UniqueBy(s.credentials, CredentialKey) && k > 4
    requires var fault := AccountsFault(s.credentials, s.jobs, crypto, apply); fault.Some? ==> k < Stage(fault.value)
    ensures Passes(s, crypto, k)
  {
    if AccountsFault(s.credentials, s.jobs, crypto, apply).Some? {
      AccountsStage(s, crypto, apply);
    }
    match k {
      case 5 => CredentialsPassed(s.credentials, crypto, apply);
      case 6 => JobsPassed(s);
      case _ =>
    }
  }

  lemma CredentialsPassed(credentials: seq<Credential>, crypto: Crypto, apply: bool)
    requires Lawful(crypto) && DistinctKeys(credentials, LegacyKey) && CredentialsFault(credentials, crypto, apply).None?
    ensures (forall c :: c in credentials ==> Convertible(c, crypto)) && OneRowEach(credentials, crypto)
  {
    ManagedTheorems.CredentialsAccepted(credentials, crypto, apply);
    forall c | c in credentials ensures Convertible(c, crypto) {
      TransformAccepted(c, crypto, apply);
    }
    KeysDistinct(credentials, crypto);
  }

  lemma JobsPassed(s: State)
    requires UniqueBy(s.credentials, CredentialKey) && JobsFirst(s).None?
    ensures forall j :: j in s.jobs ==> JobRecoverable(s, j)
  {
    forall j | j in s.jobs ensures JobRecoverable(s, j) {
      JobMoves(s, j);
    }
  }

  /** The reported failure is the first in the order of the checks. */
  lemma FailureIsFirst(s: State, crypto: Crypto, apply: bool)
    requires Lawful(crypto) && UniqueBy(s.credentials, CredentialKey) && Outcome(s, apply, crypto).Failure?
    ensures forall k: nat :: k < Stage(Outcome(s, apply, crypto).error) ==> Passes(s, crypto, k)
  {
    forall k: nat | k < Stage(Outcome(s, apply, crypto).error) ensures Passes(s, crypto, k) {
      CheckPassed(s, crypto, apply, k);
    }
  }

  /** A reported failure is there: the rows have the defect the first stage names. */
  lemma FailureIsJustified(s: State, crypto: Crypto, apply: bool)
    requires Lawful(crypto) && UniqueBy(s.credentials, CredentialKey) && Outcome(s, apply, crypto).Failure?
    ensures Justified(s, crypto, Outcome(s, apply, crypto).error)
  {
    if BindingsFault(s).Some? {
      BindingsReason(s, crypto);
    } else if AccountsFault(s.credentials, s.jobs, crypto, apply).Some? {
      AccountsReason(s, crypto, apply);
    } else {
      MigrationVerified(s, crypto);
      BlankIsNamed(s);
    }
  }

  // ---- The receipt and the fingerprint ----

  predicate Pins(p: Provider, q: Provider) {
    q != p && q.mode == Some(Pinned)
  }

  predicate Follows(p: Provider, q: Provider) {
    q != p && q.mode == Some(FollowDefault)
  }

  lemma ProviderNumbers(s: State)
    ensures var tally := TallyProviders(s.credentials, Selected(s).providers);
      && tally.pinned == Count(s.providers, p => Pins(p, MigrateProvider(s.credentials, p)))
      && tally.following == Count(s.providers, p => Follows(p, MigrateProvider(s.credentials, p)))
  {
    FilterFilter(s.providers, IsManaged, p => ProviderChanges(s.credentials, p) && DesiredMode(s.credentials, p).Pinned?,
                 p => Pins(p, MigrateProvider(s.credentials, p)));
    FilterFilter(s.providers, IsManaged, p => ProviderChanges(s.credentials, p) && DesiredMode(s.credentials, p).FollowDefault?,
                 p => Follows(p, MigrateProvider(s.credentials, p)));
  }

  predicate Rehashed(c: Credential, d: Credential) {
    d.identityHash != c.identityHash && d.identityHash.Some?
  }

  predicate Cleared(c: Credential, d: Credential) {
    d.identityHash != c.identityHash && d.identityHash.None?
  }

  /** The three flags of a row's transform are the changes of its columns. */
  lemma FlagsAreChanges(c: Credential, crypto: Crypto)
    requires Lawful(crypto) && ContextBound(crypto) && Transform(c, crypto, true).Success?
    ensures var t, d := Plan(c, crypto), MigrateCredential(crypto, c);
      && (t.reencrypt <==> d.bundle != c.bundle)
      && (t.identityChanged && Truthy(t.identityHash) <==> Rehashed(c, d))
      && (t.identityChanged && !Truthy(t.identityHash) <==> Cleared(c, d))
  {
    TransformDry(c, crypto);
    if c.bundle.Present() == 5 {
      var e, b := Opened(c, crypto);
      if SourceContext(c) != c.id {
        assert ContextOf(c, SourceContext(c)) != ContextOf(c, c.id);
        assert crypto.decrypt(e, ContextOf(c, SourceContext(c))).None?;
      }
    }
  }

  lemma CredentialNumbers(s: State, crypto: Crypto)
    requires Lawful(crypto) && ContextBound(crypto) && forall c :: c in s.credentials ==> Transform(c, crypto, true).Success?
    ensures var tally := TallyCredentials(crypto, s.credentials);
      && tally.reencrypted == Count(s.credentials, c => MigrateCredential(crypto, c).bundle != c.bundle)
      && tally.rehashed == Count(s.credentials, c => Rehashed(c, MigrateCredential(crypto, c)))
      && tally.cleared == Count(s.credentials, c => Cleared(c, MigrateCredential(crypto, c)))
  {
    forall c | c in s.credentials
      ensures Plan(c, crypto).reencrypt == (MigrateCredential(crypto, c).bundle != c.bundle)
      ensures (Plan(c, crypto).identityChanged && Truthy(Plan(c, crypto).identityHash)) == Rehashed(c, MigrateCredential(crypto, c))
      ensures (Plan(c, crypto).identityChanged && !Truthy(Plan(c, crypto).identityHash)) == Cleared(c, MigrateCredential(crypto, c))
    {
      FlagsAreChanges(c, crypto);
    }
    FilterSame(s.credentials, c => Plan(c, crypto).reencrypt, c => MigrateCredential(crypto, c).bundle != c.bundle);
    FilterSame(s.credentials, c => Plan(c, crypto).identityChanged && Truthy(Plan(c, crypto).identityHash),
               c => Rehashed(c, MigrateCredential(crypto, c)));
    FilterSame(s.credentials, c => Plan(c, crypto).identityChanged && !Truthy(Plan(c, crypto).identityHash),
               c => Cleared(c, MigrateCredential(crypto, c)));
  }

  predicate ProviderDiffers(p: Provider, q: Provider) { q != p }

  predicate CredentialDiffers(c: Credential, d: Credential) { d != c }

  predicate BundleDiffers(c: Credential, d: Credential) { d.bundle != c.bundle }

  predicate AttemptDiffers(a: Attempt, b: Attempt) { b != a }

  predicate StatusDiffers(a: Attempt, b: Attempt) { b.status != a.status }

  predicate ContextDiffers(a: Attempt, b: Attempt) { b.contextId != a.contextId }

  predicate JobDiffers(j: Job, k: Job) { k != j }

  lemma ProviderReceipt(s: State)
    ensures var t, tally := MigratedProviders(s), TallyProviders(s.credentials, Selected(s).providers);
      && tally.changed == Differing(s.providers, t, ProviderDiffers)
      && tally.pinned == Differing(s.providers, t, Pins)
      && tally.following == Differing(s.providers, t, Follows)
  {
    var f := p => MigrateProvider(s.credentials, p);
    ProvidersChanged(s);
    ProviderNumbers(s);
    CountIsDiffering(s.providers, f, p => MigrateProvider(s.credentials, p) != p, ProviderDiffers);
    CountIsDiffering(s.providers, f, p => Pins(p, MigrateProvider(s.credentials, p)), Pins);
    CountIsDiffering(s.providers, f, p => Follows(p, MigrateProvider(s.credentials, p)), Follows);
  }

  lemma CredentialReceipt(s: State, crypto: Crypto)
    requires Lawful(crypto) && ContextBound(crypto) && forall c :: c in s.credentials ==> Transform(c, crypto, true).Success?
    ensures var t, tally := MigratedCredentials(s, crypto), TallyCredentials(crypto, s.credentials);
      && tally.changed == Differing(s.credentials, t, CredentialDiffers)
      && tally.reencrypted == Differing(s.credentials, t, BundleDiffers)
      && tally.rehashed == Differing(s.credentials, t, Rehashed)
      && tally.cleared == Differing(s.credentials, t, Cleared)
  {
    var f := c => MigrateCredential(crypto, c);
    CredentialsChanged(s.credentials, crypto);
    CredentialNumbers(s, crypto);
    CountIsDiffering(s.credentials, f, c => MigrateCredential(crypto, c) != c, CredentialDiffers);
    CountIsDiffering(s.credentials, f, c => MigrateCredential(crypto, c).bundle != c.bundle, BundleDiffers);
    CountIsDiffering(s.credentials, f, c => Rehashed(c, MigrateCredential(crypto, c)), Rehashed);
    CountIsDiffering(s.credentials, f, c => Cleared(c, MigrateCredential(crypto, c)), Cleared);
  }

  lemma HistoryReceipt(s: State)
    ensures var t, tally := MigratedAttempts(s), TallyAttempts(s.attempts);
      && tally.changed == Differing(s.attempts, t, AttemptDiffers)
      && tally.terminated == Differing(s.attempts, t, StatusDiffers)
      && tally.backfilled == Differing(s.attempts, t, ContextDiffers)
    ensures Count(s.jobs, j => JobChanges(s.credentials, j)) == Differing(s.jobs, MigratedJobs(s), JobDiffers)
  {
    HistoriesChanged(s);
    AttemptTallies(s.attempts);
    CountIsDiffering(s.attempts, MigrateAttempt, a => MigrateAttempt(a) != a, AttemptDiffers);
    CountIsDiffering(s.attempts, MigrateAttempt, a => MigrateAttempt(a).status != a.status, StatusDiffers);
    CountIsDiffering(s.attempts, MigrateAttempt, a => MigrateAttempt(a).contextId != a.contextId, ContextDiffers);
    CountIsDiffering(s.jobs, j => MigrateJob(s.credentials, j), j => MigrateJob(s.credentials, j) != j, JobDiffers);
  }

  /** Every number of an applied receipt, over the tables before and after. */
  lemma ReceiptTells(s: State, crypto: Crypto)
    requires Lawful(crypto) && ContextBound(crypto) && Outcome(s, true, crypto).Success?
    ensures var r, t := Outcome(s, true, crypto).value, Migrated(s, crypto);
      && r.applied && r.remainingActiveAttempts == 0
      && r.providerRows == Count(s.providers, IsManaged) && r.credentialRows == |s.credentials|
      && r.attemptRows == |s.attempts| && r.revocationJobRows == |s.jobs|
      && r.providers.changed == Differing(s.providers, t.providers, ProviderDiffers)
      && r.providers.pinned == Differing(s.providers, t.providers, Pins)
      && r.providers.following == Differing(s.providers, t.providers, Follows)
      && r.credentials.changed == Differing(s.credentials, t.credentials, CredentialDiffers)
      && r.credentials.reencrypted == Differing(s.credentials, t.credentials, BundleDiffers)
      && r.credentials.rehashed == Differing(s.credentials, t.credentials, Rehashed)
      && r.credentials.cleared == Differing(s.credentials, t.credentials, Cleared)
      && r.attempts.changed == Differing(s.attempts, t.attempts, AttemptDiffers)
      && r.attempts.terminated == Differing(s.attempts, t.attempts, StatusDiffers)
      && r.attempts.backfilled == Differing(s.attempts, t.attempts, ContextDiffers)
      && r.revocationRowsChanged == Differing(s.jobs, t.jobs, JobDiffers)
      && r.changedRows == r.providers.changed + r.credentials.changed + r.attempts.changed + r.revocationRowsChanged
  {
    CleanRows(s, crypto, true);
    ProviderReceipt(s);
    CredentialReceipt(s, crypto);
    HistoryReceipt(s);
  }

  /** The columns of the written rows that are fingerprinted. */
  function ProviderColumns(q: Provider): Entry {
    [Str("provider"), Str(q.id), Str(q.adapter.Name()), Str(if q.mode == Some(Pinned) then "pinned" else "follow_default"),
     if q.credentialId.Some? then Str(q.credentialId.value) else Null]
  }

  function CredentialColumns(d: Credential): Entry {
    [Str("credential"), Str(d.id), if d.providerId.Some? then Str(d.providerId.value) else Null, Str(d.adapter.Name()),
     Str(d.status.Name()), Num(d.authEpoch), Num(d.revision),
     if d.identityHash.Some? then Str(d.identityHash.value) else Null]
  }

  function AttemptColumns(b: Attempt): Entry {
    [Str("attempt"), Str(b.id), Str(b.adapter.Name())]
  }

  function JobColumns(k: Job): Entry {
    [Str("revocation"), Str(k.id), Str(k.adapter.Name()), Str(k.sourceKind.Name()), Str(k.sourceRecordId),
     Str(if k.accountScopeId.Some? then k.accountScopeId.value else ""),
     if k.managedCredentialId.Some? then Str(k.managedCredentialId.value) else Null]
  }

  function Columns(t: State): seq<Entry> {
    MapRows(Filter(t.providers, IsManaged), ProviderColumns) + MapRows(t.credentials, CredentialColumns)
    + MapRows(t.attempts, AttemptColumns) + MapRows(t.jobs, JobColumns)
  }

  lemma ProviderWritten(s: State, p: Provider)
    requires IsManaged(p)
    ensures ProviderColumns(MigrateProvider(s.credentials, p)) == ProviderEntry(s.credentials, p)
  {
  }

  lemma ProviderEntries(s: State)
    ensures MapRows(Selected(s).providers, p => ProviderEntry(s.credentials, p))
         == MapRows(Filter(MigratedProviders(s), IsManaged), ProviderColumns)
  {
    FilterMap(s.providers, p => MigrateProvider(s.credentials, p), IsManaged, IsManaged);
    var rows := Filter(s.providers, IsManaged);
    forall p | p in rows ensures ProviderColumns(MigrateProvider(s.credentials, p)) == ProviderEntry(s.credentials, p) {
      ProviderWritten(s, p);
    }
    MapComposed(rows, p => MigrateProvider(s.credentials, p), ProviderColumns, p => ProviderEntry(s.credentials, p));
  }

  lemma CredentialEntries(s: State, crypto: Crypto)
    requires Lawful(crypto) && forall c :: c in s.credentials ==> Transform(c, crypto, true).Success?
    ensures MapRows(s.credentials, c => CredentialEntry(crypto, c)) == MapRows(MigratedCredentials(s, crypto), CredentialColumns)
  {
    forall i | 0 <= i < |s.credentials|
      ensures CredentialEntry(crypto, s.credentials[i]) == CredentialColumns(MigratedCredentials(s, crypto)[i])
    {
      assert s.credentials[i] in s.credentials;
      MigratedCredentialValid(s.credentials[i], crypto);
    }
  }

  lemma HistoryEntries(s: State)
    ensures MapRows(s.attempts, AttemptEntry) == MapRows(MigratedAttempts(s), AttemptColumns)
    ensures MapRows(s.jobs, j => JobEntry(s.credentials, j)) == MapRows(MigratedJobs(s), JobColumns)
  {
    MapComposed(s.attempts, MigrateAttempt, AttemptColumns, AttemptEntry);
    MapComposed(s.jobs, j => MigrateJob(s.credentials, j), JobColumns, j => JobEntry(s.credentials, j));
  }

  lemma EntriesAreColumns(s: State, crypto: Crypto)
    requires Lawful(crypto) && forall c :: c in s.credentials ==> Transform(c, crypto, true).Success?
    ensures Entries(Selected(s), crypto) == Columns(Migrated(s, crypto))
  {
    ProviderEntries(s);
    CredentialEntries(s, crypto);
    HistoryEntries(s);
  }

  /** Dry or applied, the fingerprint is taken over the columns the run writes or would write. */
  lemma FingerprintTells(s: State, apply: bool, crypto: Crypto)
    requires Lawful(crypto) && Outcome(s, apply, crypto).Success?
    ensures Outcome(s, apply, crypto).value.fingerprint == crypto.sha256(Preimage(Columns(Migrated(s, crypto))))
  {
    DryRunClean(s, crypto);
    CleanRows(s, crypto, true);
    EntriesAreColumns(s, crypto);
  }
}
