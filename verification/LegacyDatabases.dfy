/** The pipeline started on a legacy database: exactly which of them the three stages carry through. */
module LegacyDatabases {
  import opened Sequences
  import opened Text
  import opened Tables
  import opened Envelopes
  import Accounts = ManagedAccounts
  import AccountsT = ManagedTheorems
  import Owned = OwnedCredentials
  import OwnedT = OwnershipTheorems
  import CutT = CutoverTheorems
  import Orphans = OrphanRepair
  import Pipeline

  // ---- Legacy databases, in terms of their columns ----

  /** The owner foreign key: a credential that names a Provider names one of its adapter. */
  ghost predicate OwnerExists(s: State, c: Credential) {
    c.providerId.Some? ==> exists p :: p in s.providers && Some(p.id) == c.providerId && p.adapter == c.adapter
  }

  ghost predicate OwnerInUse(s: State, c: Credential) {
    exists p :: p in s.providers && Some(p.id) == c.providerId && p.adapter == c.adapter && !p.status.Deleted?
  }

  function OwnerColumn(c: Credential): Option<string> { c.providerId }

  /** What the schema up to migration 0047 guarantees before the first stage: no modes, pointers or defaults yet, terminal
      jobs without secrets and without account columns, known owners, and at most one credential a Provider. */
  ghost predicate LegacySchema(s: State) {
    && PrimaryKeys(s) && WellTyped(s)
    && s.defaults == []
    && (forall p :: p in s.providers && IsManaged(p) ==> p.mode.None? && p.credentialId.None?)
    && (forall j :: j in s.jobs ==>
          j.status.Terminal() && j.bundle == NO_BUNDLE && j.managedCredentialId.None? && j.credentialAuthEpoch.None?)
    && (forall c :: c in s.credentials ==> OwnerExists(s, c) && c.authEpoch >= 1)
    && Accounts.DistinctKeys(s.credentials, OwnerColumn)
  }

  /** The context an envelope was made in: the recorded one, or the owner. */
  function Recorded(c: Credential): string {
    if c.contextId.Some? then c.contextId.value else if c.providerId.Some? then c.providerId.value else ""
  }

  function StoredEnvelope(b: Bundle): Envelope
    requires b.Present() == 5
  {
    Envelope(b.formatVersion.value, b.keyId.value, b.ciphertext.value, b.nonce.value, b.tag.value)
  }

  /** The token bundle behind a complete envelope, in the context it was made in. */
  function StoredBundle(c: Credential, crypto: Crypto): Option<TokenBundle> {
    if c.bundle.Present() != 5 then None
    else crypto.decrypt(StoredEnvelope(c.bundle), Context(Recorded(c), c.adapter, c.id, c.revision))
  }

  /** The envelope is complete or absent, a connected account has one, and one that is there has version 1, names the row or
      its owner without surrounding white space, and opens to a bundle of the row's adapter with an identity. */
  predicate Readable(c: Credential, crypto: Crypto) {
    && (c.bundle == NO_BUNDLE || c.bundle.Present() == 5)
    && (c.status.Connected? ==> c.bundle.Present() == 5)
    && (c.bundle.Present() == 5 ==>
          && c.bundle.formatVersion == Some(1)
          && Recorded(c) != "" && Trimmed(Recorded(c)) && (Recorded(c) == c.id || Some(Recorded(c)) == c.providerId)
          && StoredBundle(c, crypto).Some?
          && CanonicalIdentity(c.adapter, StoredBundle(c, crypto).value).Some?)
  }

  /** The identity a live account gets from the bundle it holds. */
  function RecomputedKey(c: Credential, crypto: Crypto): Option<(Adapter, string)> {
    if !IsLive(c) || StoredBundle(c, crypto).None? then None
    else
      match IdentityHash(crypto, c.adapter, StoredBundle(c, crypto).value)
      case None => None
      case Some(hash) => Some((c.adapter, hash))
  }

  ghost predicate LegacyEnvelopes(s: State, crypto: Crypto) {
    && (forall c :: c in s.credentials ==> Readable(c, crypto))
    && Accounts.DistinctKeys(s.credentials, Accounts.LegacyKey)
    && Accounts.DistinctKeys(s.credentials, c => RecomputedKey(c, crypto))
  }

  /** A database that has only seen migration 0047, with readable envelopes and live identities distinct both as stored and
      as recomputed. */
  ghost predicate LegacyState(s: State, crypto: Crypto) {
    LegacySchema(s) && LegacyEnvelopes(s, crypto)
  }

  /** Every account is live exactly when the Provider it names is in use. */
  ghost predicate Balanced(s: State) {
    forall c :: c in s.credentials ==> (IsLive(c) <==> OwnerInUse(s, c))
  }

  // ---- The first stage ----

  /** A readable row transforms, to the identity of the bundle it holds. */
  lemma ReadableTransforms(c: Credential, crypto: Crypto)
    requires Lawful(crypto) && Readable(c, crypto)
    ensures Accounts.Transform(c, crypto, false).Success?
    ensures Accounts.NewKey(c, crypto) == RecomputedKey(c, crypto)
  {
    if c.bundle.Present() == 5 {
      TrimIsTrimmed(Recorded(c));
      var e := StoredEnvelope(c.bundle);
      assert Filled(e);
      SourceIsRecorded(c);
      assert Accounts.EnvelopeFrom(c.bundle) == Some(e);
    }
  }

  lemma SourceIsRecorded(c: Credential)
    requires Recorded(c) != "" && Trimmed(Recorded(c))
    ensures Accounts.SourceContext(c) == Recorded(c)
  {
    TrimIsTrimmed(Recorded(c));
  }

  lemma LegacyTransforms(s: State, crypto: Crypto)
    requires Lawful(crypto) && LegacyEnvelopes(s, crypto)
    ensures forall c :: c in s.credentials ==> Accounts.Transform(c, crypto, false).Success?
    ensures Accounts.CredentialsFault(s.credentials, crypto, false).None?
  {
    forall c | c in s.credentials
      ensures Accounts.Transform(c, crypto, false).Success? && Accounts.NewKey(c, crypto) == RecomputedKey(c, crypto)
    {
      ReadableTransforms(c, crypto);
    }
    SameKeys(s.credentials, c => RecomputedKey(c, crypto), c => Accounts.NewKey(c, crypto));
    AccountsT.CredentialsAccepted(s.credentials, crypto, false);
  }

  lemma SameKeys<T(!new), K(!new)>(rows: seq<T>, key: T -> Option<K>, other: T -> Option<K>)
    requires Accounts.DistinctKeys(rows, key) && forall x :: x in rows ==> other(x) == key(x)
    ensures Accounts.DistinctKeys(rows, other)
  {
    assert forall i :: 0 <= i < |rows| ==> rows[i] in rows;
  }

  lemma OwnerKeys(s: State)
    requires LegacySchema(s)
    ensures Accounts.DistinctKeys(s.credentials, Accounts.OwnerKey)
  {
  }

  /** The credential that names `p` is the one the owner map holds for it. */
  lemma OwnedRow(s: State, p: Provider, c: Credential)
    requires LegacySchema(s) && p in s.providers && c in s.credentials && c.providerId == Some(p.id)
    ensures Accounts.Legacy(s.credentials, p) == Some(c) && c.adapter == p.adapter && IsManaged(p) && c.id != ""
  {
    assert OwnerExists(s, c);
    var q :| q in s.providers && Some(q.id) == c.providerId && q.adapter == c.adapter;
    UniqueRow(s.providers, ProviderKey, p, q);
    assert Accounts.OwnerKey(c) == Some(p.id);
    var found := Find(s.credentials, Accounts.OwnerKey, Some(p.id)).value;
    OneOwned(s, c, found);
  }

  lemma OneOwned(s: State, c: Credential, d: Credential)
    requires LegacySchema(s) && c in s.credentials && d in s.credentials && c.providerId.Some? && c.providerId == d.providerId
    ensures c == d
  {
    var i :| 0 <= i < |s.credentials| && s.credentials[i] == c;
    var j :| 0 <= j < |s.credentials| && s.credentials[j] == d;
    assert OwnerColumn(c) == OwnerColumn(d);
    assert i == j;
  }

  /** A legacy Provider is pinned to the credential that names it, or follows the default. */
  lemma LegacyProvider(s: State, p: Provider)
    requires LegacySchema(s) && p in s.providers && IsManaged(p)
    ensures Accounts.ProviderFault(s.credentials, p).None?
    ensures var q, legacy := Accounts.MigrateProvider(s.credentials, p), Accounts.Legacy(s.credentials, p);
      if legacy.Some?
      then q == p.(mode := Some(Pinned), credentialId := Some(legacy.value.id)) && legacy.value in s.credentials
           && legacy.value.providerId == Some(p.id) && legacy.value.adapter == p.adapter && legacy.value.id != ""
      else q == p.(mode := Some(FollowDefault))
  {
    var legacy := Accounts.Legacy(s.credentials, p);
    if legacy.Some? {
      OwnedRow(s, p, legacy.value);
      FindUnique(s.credentials, CredentialKey, legacy.value);
    }
  }

  lemma LegacyProviders(s: State)
    requires LegacySchema(s)
    ensures FirstFault(Accounts.Selected(s).providers, p => Accounts.ProviderFault(s.credentials, p)).None?
  {
    forall p | p in Accounts.Selected(s).providers ensures Accounts.ProviderFault(s.credentials, p).None? {
      LegacyProvider(s, p);
    }
  }

  lemma LegacyJobs(s: State)
    requires LegacySchema(s)
    ensures FirstFault(s.jobs, j => Accounts.JobFault(s.credentials, j)).None?
    ensures AccountsT.NoBlankAccount(s)
  {
    forall j | j in s.jobs
      ensures Accounts.JobFault(s.credentials, j).None? && Accounts.JobAccount(s.credentials, j) != Some("")
    {
      var source := Find(s.credentials, CredentialKey, j.sourceRecordId);
      if source.Some? {
        assert source.value in s.credentials && source.value.authEpoch >= 1;
      }
    }
  }

  lemma LegacyIntake(s: State)
    requires LegacySchema(s)
    ensures Accounts.IntakeFault(s.credentials, s.jobs).None?
  {
    CountZero(s.jobs, IsUnfinished);
    CountZero(s.jobs, HasMaterial);
    OwnerKeys(s);
  }

  lemma LegacyClean(s: State, crypto: Crypto)
    requires LegacyState(s, crypto) && Lawful(crypto)
    ensures AccountsT.Clean(s, crypto, true)
  {
    LegacyIntake(s);
    LegacyProviders(s);
    LegacyTransforms(s, crypto);
    LegacyJobs(s);
    AccountsT.DryRunClean(s, crypto);
  }

  /** The first stage commits on every legacy database. */
  lemma LegacyStageOne(s: State, crypto: Crypto)
    requires LegacyState(s, crypto) && Lawful(crypto)
    ensures Accounts.Outcome(s, true, crypto).Success?
  {
    LegacyClean(s, crypto);
    LegacyJobs(s);
    AccountsT.MigrationVerified(s, crypto);
  }

  // ---- The second stage: who claims what ----

  /** After the first stage a Provider in use claims exactly the account that names it. */
  lemma LegacyClaims(s: State, p: Provider, id: string)
    requires LegacySchema(s) && p in s.providers && IsManaged(p)
    ensures Owned.Claims([], Accounts.MigrateProvider(s.credentials, p), id) <==>
            !p.status.Deleted? && exists c :: c in s.credentials && c.id == id && c.providerId == Some(p.id)
  {
    LegacyProvider(s, p);
    forall c | c in s.credentials && c.id == id && c.providerId == Some(p.id)
      ensures Accounts.Legacy(s.credentials, p) == Some(c) && id != ""
    {
      OwnedRow(s, p, c);
    }
  }

  /** The selected Providers of the second stage come from managed Providers. */
  lemma SelectedFrom(s: State, crypto: Crypto, q: Provider) returns (p: Provider)
    requires q in Owned.Selected(Accounts.Migrated(s, crypto)).providers
    ensures p in s.providers && IsManaged(p) && q == Accounts.MigrateProvider(s.credentials, p)
  {
    var i :| 0 <= i < |s.providers| && Accounts.Migrated(s, crypto).providers[i] == q;
    p := s.providers[i];
  }

  lemma SelectedTo(s: State, crypto: Crypto, p: Provider)
    requires p in s.providers && IsManaged(p)
    ensures Accounts.MigrateProvider(s.credentials, p) in Owned.Selected(Accounts.Migrated(s, crypto)).providers
  {
    var i :| 0 <= i < |s.providers| && s.providers[i] == p;
    assert Accounts.Migrated(s, crypto).providers[i] == Accounts.MigrateProvider(s.credentials, p);
  }

  lemma MigratedFrom(s: State, crypto: Crypto, d: Credential) returns (c: Credential)
    requires d in Accounts.Migrated(s, crypto).credentials
    ensures c in s.credentials && d == Accounts.MigrateCredential(crypto, c)
    ensures d.id == c.id && d.adapter == c.adapter && d.status == c.status && d.providerId == c.providerId
  {
    var i :| 0 <= i < |s.credentials| && Accounts.Migrated(s, crypto).credentials[i] == d;
    c := s.credentials[i];
  }

  lemma MigratedTo(s: State, crypto: Crypto, c: Credential) returns (d: Credential)
    requires c in s.credentials
    ensures d in Accounts.Migrated(s, crypto).credentials && d == Accounts.MigrateCredential(crypto, c)
    ensures d.id == c.id && d.adapter == c.adapter && d.status == c.status && d.providerId == c.providerId
  {
    var i :| 0 <= i < |s.credentials| && s.credentials[i] == c;
    d := Accounts.Migrated(s, crypto).credentials[i];
    assert d == Accounts.MigrateCredential(crypto, c);
  }

  lemma LegacyInjective(s: State, crypto: Crypto)
    requires LegacySchema(s)
    ensures OwnedT.Injective(Owned.Selected(Accounts.Migrated(s, crypto)))
  {
    var sel := Owned.Selected(Accounts.Migrated(s, crypto));
    forall q, r, id | q in sel.providers && r in sel.providers && Owned.Claims([], q, id) && Owned.Claims([], r, id) ensures q == r {
      var p := SelectedFrom(s, crypto, q);
      var o := SelectedFrom(s, crypto, r);
      OneClaim(s, p, o, id);
    }
  }

  lemma OneClaim(s: State, p: Provider, o: Provider, id: string)
    requires LegacySchema(s) && p in s.providers && o in s.providers && IsManaged(p) && IsManaged(o)
    requires Owned.Claims([], Accounts.MigrateProvider(s.credentials, p), id)
    requires Owned.Claims([], Accounts.MigrateProvider(s.credentials, o), id)
    ensures p == o
  {
    LegacyClaims(s, p, id);
    LegacyClaims(s, o, id);
    var c :| c in s.credentials && c.id == id && c.providerId == Some(p.id);
    var d :| d in s.credentials && d.id == id && d.providerId == Some(o.id);
    UniqueRow(s.credentials, CredentialKey, c, d);
    UniqueRow(s.providers, ProviderKey, p, o);
  }

  // ---- The second stage: its own row checks ----

  lemma LegacyProvenance(s: State, crypto: Crypto, c: Credential)
    requires LegacySchema(s) && c in s.credentials && c.providerId.Some?
    ensures var found := Find(Owned.Selected(Accounts.Migrated(s, crypto)).providers, ProviderKey, c.providerId.value);
      found.Some? && found.value.adapter == c.adapter
  {
    var t := Accounts.Migrated(s, crypto);
    assert OwnerExists(s, c);
    var p :| p in s.providers && Some(p.id) == c.providerId && p.adapter == c.adapter;
    OwnedRow(s, p, c);
    SelectedTo(s, crypto, p);
    Pipeline.MigratedKeys(s, crypto);
    FilterUnique(t.providers, IsManaged, ProviderKey);
    FindUnique(Owned.Selected(t).providers, ProviderKey, Accounts.MigrateProvider(s.credentials, p));
  }

  lemma LegacyCredential(s: State, crypto: Crypto, c: Credential)
    requires LegacyState(s, crypto) && Lawful(crypto) && c in s.credentials
    ensures Owned.CredentialFault(Owned.Selected(Accounts.Migrated(s, crypto)).providers, crypto, true,
                                  Accounts.MigrateCredential(crypto, c)).None?
  {
    var providers := Owned.Selected(Accounts.Migrated(s, crypto)).providers;
    var d := MigratedTo(s, crypto, c);
    assert Accounts.Transform(c, crypto, true).Success? by {
      ReadableTransforms(c, crypto);
      AccountsT.TransformApply(c, crypto);
    }
    Pipeline.MigratedCredentialSound(c, crypto, providers);
    if c.providerId.Some? {
      LegacyProvenance(s, crypto, c);
    }
    Pipeline.ProvenanceFound(providers, crypto, d);
  }

  lemma LegacyCredentials(s: State, crypto: Crypto)
    requires LegacyState(s, crypto) && Lawful(crypto)
    ensures OwnedT.CredentialsFaultless(Owned.Selected(Accounts.Migrated(s, crypto)), crypto, true)
  {
    var t := Accounts.Migrated(s, crypto);
    forall d | d in t.credentials ensures Owned.CredentialFault(Owned.Selected(t).providers, crypto, true, d).None? {
      var c := MigratedFrom(s, crypto, d);
      LegacyCredential(s, crypto, c);
    }
  }

  // ---- The second stage: exactly when bindings are sound and cover ----

  ghost predicate SoundAndCovering(sel: State) {
    (forall q :: q in sel.providers ==> OwnedT.BindingSound(sel, q)) && OwnedT.Covering(sel)
  }

  /** A balanced database: a Provider in use is bound to a live account of its adapter. */
  lemma BalancedBinding(s: State, crypto: Crypto, p: Provider)
    requires LegacySchema(s) && Balanced(s) && p in s.providers && IsManaged(p)
    ensures OwnedT.BindingSound(Owned.Selected(Accounts.Migrated(s, crypto)), Accounts.MigrateProvider(s.credentials, p))
  {
    LegacyProvider(s, p);
    var legacy := Accounts.Legacy(s.credentials, p);
    if legacy.Some? && !p.status.Deleted? {
      assert OwnerInUse(s, legacy.value);
      var d := MigratedTo(s, crypto, legacy.value);
      assert OwnedT.LiveAccount(Owned.Selected(Accounts.Migrated(s, crypto)), d.id, p.adapter);
    }
  }

  lemma BalancedCovering(s: State, crypto: Crypto, c: Credential)
    requires LegacySchema(s) && Balanced(s) && c in s.credentials && IsLive(c)
    ensures exists q :: q in Owned.Selected(Accounts.Migrated(s, crypto)).providers && Owned.Claims([], q, c.id)
  {
    assert OwnerInUse(s, c);
    var p :| p in s.providers && Some(p.id) == c.providerId && p.adapter == c.adapter && !p.status.Deleted?;
    OwnedRow(s, p, c);
    LegacyClaims(s, p, c.id);
    SelectedTo(s, crypto, p);
  }

  lemma BalancedAccepted(s: State, crypto: Crypto)
    requires LegacySchema(s) && Balanced(s)
    ensures SoundAndCovering(Owned.Selected(Accounts.Migrated(s, crypto)))
  {
    var sel := Owned.Selected(Accounts.Migrated(s, crypto));
    forall q | q in sel.providers ensures OwnedT.BindingSound(sel, q) {
      var p := SelectedFrom(s, crypto, q);
      BalancedBinding(s, crypto, p);
    }
    forall d | d in sel.credentials && IsLive(d) ensures exists q :: q in sel.providers && Owned.Claims([], q, d.id) {
      var c := MigratedFrom(s, crypto, d);
      BalancedCovering(s, crypto, c);
    }
  }

  /** What the planner accepts has every live account under a Provider in use ... */
  lemma CoveredInUse(s: State, crypto: Crypto, c: Credential)
    requires LegacySchema(s) && OwnedT.Covering(Owned.Selected(Accounts.Migrated(s, crypto)))
    requires c in s.credentials && IsLive(c)
    ensures OwnerInUse(s, c)
  {
    var d := MigratedTo(s, crypto, c);
    var q :| q in Owned.Selected(Accounts.Migrated(s, crypto)).providers && Owned.Claims([], q, d.id);
    var p := SelectedFrom(s, crypto, q);
    LegacyClaims(s, p, c.id);
    var e :| e in s.credentials && e.id == c.id && e.providerId == Some(p.id);
    UniqueRow(s.credentials, CredentialKey, c, e);
    OwnedRow(s, p, c);
  }

  /** ... and every account under a Provider in use live. */
  lemma InUseLive(s: State, crypto: Crypto, c: Credential)
    requires LegacySchema(s) && c in s.credentials && OwnerInUse(s, c)
    requires SoundAndCovering(Owned.Selected(Accounts.Migrated(s, crypto)))
    ensures IsLive(c)
  {
    var sel := Owned.Selected(Accounts.Migrated(s, crypto));
    var p :| p in s.providers && Some(p.id) == c.providerId && p.adapter == c.adapter && !p.status.Deleted?;
    OwnedRow(s, p, c);
    LegacyProvider(s, p);
    SelectedTo(s, crypto, p);
    assert OwnedT.BindingSound(sel, Accounts.MigrateProvider(s.credentials, p));
    assert OwnedT.LiveAccount(sel, c.id, p.adapter);
    var d :| d in sel.credentials && d.id == c.id && d.adapter == p.adapter && IsLive(d);
    var e := MigratedFrom(s, crypto, d);
    UniqueRow(s.credentials, CredentialKey, c, e);
  }

  lemma AcceptedBalanced(s: State, crypto: Crypto)
    requires LegacySchema(s)
    ensures SoundAndCovering(Owned.Selected(Accounts.Migrated(s, crypto))) <==> Balanced(s)
  {
    if Balanced(s) {
      BalancedAccepted(s, crypto);
    }
    if SoundAndCovering(Owned.Selected(Accounts.Migrated(s, crypto))) {
      forall c | c in s.credentials ensures IsLive(c) <==> OwnerInUse(s, c) {
        if IsLive(c) {
          CoveredInUse(s, crypto, c);
        }
        if OwnerInUse(s, c) {
          InUseLive(s, crypto, c);
        }
      }
    }
  }

  lemma LegacyNoBlank(s: State, crypto: Crypto)
    requires LegacySchema(s)
    ensures CutT.NoBlankReference(Accounts.Migrated(s, crypto))
  {
    var t := Accounts.Migrated(s, crypto);
    forall q | q in t.providers && IsManaged(q) ensures Owned.Binding([], q) != Some("") {
      var i :| 0 <= i < |s.providers| && t.providers[i] == q;
      LegacyProvider(s, s.providers[i]);
    }
    forall d | d in t.credentials ensures d.providerId != Some("") {
      var c := MigratedFrom(s, crypto, d);
      assert OwnerExists(s, c);
    }
  }

  lemma LegacyAccepted(s: State, crypto: Crypto)
    requires LegacyState(s, crypto) && Lawful(crypto)
    ensures OwnedT.Accepted(Owned.Selected(Accounts.Migrated(s, crypto)), crypto) <==> Balanced(s)
  {
    var sel := Owned.Selected(Accounts.Migrated(s, crypto));
    assert OwnedT.Settled(sel) by {
      LegacyClean(s, crypto);
      Pipeline.MigratedSettled(s, crypto);
    }
    LegacyInjective(s, crypto);
    LegacyCredentials(s, crypto);
    AcceptedBalanced(s, crypto);
    OwnedT.PlannerAcceptsRows(sel, crypto, true);
  }

  /** The second stage commits on what the first made of a legacy database exactly when every account was live under a
      Provider in use and disconnected otherwise. */
  lemma LegacyStageTwo(s: State, crypto: Crypto)
    requires LegacyState(s, crypto) && Lawful(crypto)
    ensures Owned.Outcome(Accounts.Migrated(s, crypto), true, crypto).Success? <==> Balanced(s)
  {
    var t := Accounts.Migrated(s, crypto);
    LegacyAccepted(s, crypto);
    LegacyNoBlank(s, crypto);
    CutT.OutcomeApplied(t, crypto);
    if Balanced(s) {
      CutT.CutoverVerified(t, crypto);
    }
  }

  // ---- The whole pipeline ----

  lemma MigratedTyped(s: State, crypto: Crypto)
    requires WellTyped(s)
    ensures WellTyped(Accounts.Migrated(s, crypto))
  {
    var t := Accounts.Migrated(s, crypto);
    forall q | q in t.providers ensures q.id != "" {
      var i :| 0 <= i < |s.providers| && t.providers[i] == q;
      assert s.providers[i] in s.providers;
    }
    forall d | d in t.credentials ensures d.id != "" && d.adapter.Managed() {
      var c := MigratedFrom(s, crypto, d);
    }
    forall a | a in t.attempts ensures a.adapter.Managed() {
      var i :| 0 <= i < |s.attempts| && t.attempts[i] == a;
      assert s.attempts[i] in s.attempts;
    }
  }

  /** All three stages committed, the last one without anything to repair. */
  ghost predicate CarriedThrough(s: State, crypto: Crypto) {
    var t := Accounts.Migrated(s, crypto);
    var u := Owned.Cutover(t);
    && Accounts.Outcome(s, true, crypto).Success?
    && Owned.Outcome(t, true, crypto).Success?
    && Orphans.Outcome(u, true, crypto).Success?
    && Orphans.PlanOf(Orphans.Selected(u)) == Orphans.Plan([], [], [])
    && Orphans.Repaired(u) == u
  }

  /** The whole pipeline: a legacy database is carried through exactly when it is balanced; otherwise the first stage
      commits and the second rejects. */
  lemma LegacyPipeline(s: State, crypto: Crypto)
    requires LegacyState(s, crypto) && Lawful(crypto)
    ensures CarriedThrough(s, crypto) <==> Balanced(s)
    ensures Accounts.Outcome(s, true, crypto).Success?
    ensures !Balanced(s) ==> Owned.Outcome(Accounts.Migrated(s, crypto), true, crypto).Failure?
  {
    LegacyStageOne(s, crypto);
    LegacyStageTwo(s, crypto);
    if Balanced(s) {
      Pipeline.MigratedKeys(s, crypto);
      MigratedTyped(s, crypto);
      Pipeline.RepairAfterCutover(Accounts.Migrated(s, crypto), crypto);
      Pipeline.StageThreeQuiet(Accounts.Migrated(s, crypto), crypto);
    }
  }
}
