/** The data migrations against the schema migrations around them: the foreign keys and checks in force, and the
    preconditions on which the contract migrations 0048, 0050 and 0052 insist. */
module SchemaContracts {
  import opened Sequences
  import opened Tables
  import opened Envelopes
  import Accounts = ManagedAccounts
  import AccountsT = ManagedTheorems
  import Owned = OwnedCredentials
  import OwnedT = OwnershipTheorems
  import CutT = CutoverTheorems
  import Orphans = OrphanRepair
  import RepairT = RepairTheorems
  import Pipeline

  // ---- Foreign keys and checks ----

  ghost predicate NamesCredential(s: State, id: string, adapter: Adapter) {
    exists c :: c in s.credentials && c.id == id && c.adapter == adapter
  }

  ghost predicate JobReferences(s: State) {
    forall j :: j in s.jobs && j.managedCredentialId.Some? ==> NamesCredential(s, j.managedCredentialId.value, j.adapter)
  }

  ghost predicate PointerReferences(s: State) {
    forall p :: p in s.providers && p.credentialId.Some? ==> NamesCredential(s, p.credentialId.value, p.adapter)
  }

  ghost predicate OwnerReferences(s: State) {
    forall c :: c in s.credentials && c.providerId.Some? ==>
      exists p :: p in s.providers && p.id == c.providerId.value && p.adapter == c.adapter
  }

  ghost predicate DefaultReferences(s: State) {
    forall d :: d in s.defaults ==> NamesCredential(s, d.credentialId, d.adapter)
  }

  /** `btrim(text) <> ''`. */
  predicate NonBlank(text: string) {
    exists i :: 0 <= i < |text| && text[i] != ' '
  }

  /** The check on `envelope_context_id` of the credentials. */
  ghost predicate ContextsFilled(s: State) {
    forall c :: c in s.credentials && c.contextId.Some? ==> NonBlank(c.contextId.value)
  }

  /** No id is blank: the first stage makes every id a context, which the check then sees. */
  ghost predicate IdsFilled(s: State) {
    forall c :: c in s.credentials ==> NonBlank(c.id)
  }

  lemma StorableAccounts(s: State)
    requires JobReferences(s) && IdsFilled(s)
    ensures AccountsT.NoBlankAccount(s)
  {
    assert forall c :: c in s.credentials ==> c.id != "";
    forall j | j in s.jobs && Accounts.JobAccount(s.credentials, j).Some?
      ensures exists c :: c in s.credentials && c.id == Accounts.JobAccount(s.credentials, j).value
    {
      AccountNames(s, j);
    }
  }

  /** The check on contexts accepts what the first stage writes exactly when no id is blank. */
  lemma ContextsAreIds(s: State, crypto: Crypto)
    requires AccountsT.Clean(s, crypto, true)
    ensures ContextsFilled(Accounts.Migrated(s, crypto)) <==> IdsFilled(s)
  {
    var t := Accounts.Migrated(s, crypto);
    AccountsT.CleanRows(s, crypto, true);
    forall i | 0 <= i < |s.credentials| ensures t.credentials[i].contextId == Some(s.credentials[i].id) {
      assert s.credentials[i] in s.credentials;
    }
    if ContextsFilled(t) {
      forall c | c in s.credentials ensures NonBlank(c.id) {
        var i :| 0 <= i < |s.credentials| && s.credentials[i] == c;
        assert t.credentials[i] in t.credentials;
      }
    }
  }

  lemma AccountNames(s: State, j: Job)
    requires JobReferences(s) && j in s.jobs && Accounts.JobAccount(s.credentials, j).Some?
    ensures exists c :: c in s.credentials && c.id == Accounts.JobAccount(s.credentials, j).value
  {
    if j.managedCredentialId.Some? {
      assert NamesCredential(s, j.managedCredentialId.value, j.adapter);
    } else {
      assert Find(s.credentials, CredentialKey, j.sourceRecordId).value in s.credentials;
    }
  }

  /** Where job references hold and no id is blank, the first stage commits exactly when no check throws. */
  lemma StorableStageOne(s: State, crypto: Crypto)
    requires Lawful(crypto) && JobReferences(s) && IdsFilled(s)
    ensures Accounts.Outcome(s, true, crypto).Success? <==> AccountsT.Clean(s, crypto, true)
  {
    if AccountsT.Clean(s, crypto, true) {
      StorableAccounts(s);
      AccountsT.MigrationVerified(s, crypto);
    }
  }

  lemma {:induction false} DefaultsNamed(defaults: seq<DefaultAccount>, t: State)
    requires UniqueBy(t.credentials, CredentialKey)
    requires forall d :: d in defaults ==> NamesCredential(t, d.credentialId, d.adapter)
    ensures Owned.DefaultsFault(defaults, t.credentials) != Some(Owned.DefaultDangling)
  {
    if defaults != [] {
      var front, d := defaults[..|defaults| - 1], defaults[|defaults| - 1];
      assert defaults == front + [d];
      DefaultsNamed(front, t);
      var c :| c in t.credentials && c.id == d.credentialId && c.adapter == d.adapter;
      FindUnique(t.credentials, CredentialKey, c);
    }
  }

  lemma MigratedNames(s: State, crypto: Crypto, id: string, adapter: Adapter)
    requires NamesCredential(s, id, adapter)
    ensures NamesCredential(Accounts.Migrated(s, crypto), id, adapter)
  {
    var t := Accounts.Migrated(s, crypto);
    var i :| 0 <= i < |s.credentials| && s.credentials[i].id == id && s.credentials[i].adapter == adapter;
    assert t.credentials[i] in t.credentials && t.credentials[i].id == id && t.credentials[i].adapter == adapter;
  }

  lemma MigratedOwner(s: State, crypto: Crypto, d: Credential)
    requires PrimaryKeys(s) && OwnerReferences(s) && d in Accounts.Migrated(s, crypto).credentials
    requires d.providerId.Some? && d.adapter.Managed()
    ensures var found := Find(Owned.Selected(Accounts.Migrated(s, crypto)).providers, ProviderKey, d.providerId.value);
      found.Some? && found.value.adapter == d.adapter
  {
    var t := Accounts.Migrated(s, crypto);
    var i :| 0 <= i < |s.credentials| && t.credentials[i] == d;
    assert s.credentials[i] in s.credentials;
    var j :| 0 <= j < |s.providers| && s.providers[j].id == d.providerId.value && s.providers[j].adapter == d.adapter;
    assert t.providers[j] in t.providers && t.providers[j].id == d.providerId.value && t.providers[j].adapter == d.adapter;
    Pipeline.MigratedKeys(s, crypto);
    FilterUnique(t.providers, IsManaged, ProviderKey);
    FindUnique(Owned.Selected(t).providers, ProviderKey, t.providers[j]);
  }

  /** A planner whose defaults and credentials do not dangle reports no dangling reference of theirs. */
  lemma NotDangling(s: State, crypto: Crypto)
    requires Owned.DefaultsFault(s.defaults, s.credentials) != Some(Owned.DefaultDangling)
    requires forall c :: c in s.credentials ==> Owned.CredentialFault(s.providers, crypto, true, c) != Some(Owned.ProvenanceDangling)
    ensures Owned.PlanFault(s, crypto, true) != Some(Owned.DefaultDangling)
    ensures Owned.PlanFault(s, crypto, true) != Some(Owned.ProvenanceDangling)
  {
    NoDefaultFault(s.defaults, s.credentials);
  }

  lemma {:induction false} NoDefaultFault(defaults: seq<DefaultAccount>, credentials: seq<Credential>)
    ensures Owned.DefaultsFault(defaults, credentials) != Some(Owned.ProvenanceDangling)
  {
    if defaults != [] {
      NoDefaultFault(defaults[..|defaults| - 1], credentials);
    }
  }

  /** Where the foreign keys hold, the first stage leaves the second four reasons: a default or a pin to an account that is
      not live, and live accounts with several owners or with none. */
  lemma StorableResidual(s: State, crypto: Crypto)
    requires PrimaryKeys(s) && Lawful(crypto) && Accounts.Outcome(s, true, crypto).Success?
    requires OwnerReferences(s) && DefaultReferences(s) && forall c :: c in s.credentials ==> c.adapter.Managed()
    ensures var fault := Owned.PlanFault(Owned.Selected(Accounts.Migrated(s, crypto)), crypto, true);
      fault.None? || fault.value.DefaultNotLive? || fault.value.ProviderCredentialNotLive? || fault.value.SharedLive?
      || fault.value.OrphanLive?
  {
    Pipeline.StageOneDischargesStageTwo(s, crypto);
    StorableNotDangling(s, crypto);
  }

  lemma StorableNotDangling(s: State, crypto: Crypto)
    requires PrimaryKeys(s) && OwnerReferences(s) && DefaultReferences(s)
    requires forall c :: c in s.credentials ==> c.adapter.Managed()
    ensures var fault := Owned.PlanFault(Owned.Selected(Accounts.Migrated(s, crypto)), crypto, true);
      fault != Some(Owned.DefaultDangling) && fault != Some(Owned.ProvenanceDangling)
  {
    var t := Accounts.Migrated(s, crypto);
    var sel := Owned.Selected(t);
    Pipeline.MigratedKeys(s, crypto);
    forall d | d in s.defaults ensures NamesCredential(t, d.credentialId, d.adapter) {
      MigratedNames(s, crypto, d.credentialId, d.adapter);
    }
    DefaultsNamed(s.defaults, t);
    forall d | d in t.credentials ensures Owned.CredentialFault(sel.providers, crypto, true, d) != Some(Owned.ProvenanceDangling) {
      MigratedProvenance(s, crypto, d);
    }
    NotDangling(sel, crypto);
  }

  lemma MigratedProvenance(s: State, crypto: Crypto, d: Credential)
    requires PrimaryKeys(s) && OwnerReferences(s) && d in Accounts.Migrated(s, crypto).credentials
    requires forall c :: c in s.credentials ==> c.adapter.Managed()
    ensures Owned.CredentialFault(Owned.Selected(Accounts.Migrated(s, crypto)).providers, crypto, true, d)
         != Some(Owned.ProvenanceDangling)
  {
    var i :| 0 <= i < |s.credentials| && Accounts.Migrated(s, crypto).credentials[i] == d;
    assert s.credentials[i] in s.credentials;
    if Truthy(d.providerId) {
      MigratedOwner(s, crypto, d);
    }
    Pipeline.ProvenanceFound(Owned.Selected(Accounts.Migrated(s, crypto)).providers, crypto, d);
  }

  lemma StorableReferences(s: State, crypto: Crypto)
    requires OwnedT.Accepted(Owned.Selected(s), crypto)
    requires PointerReferences(s) && OwnerReferences(s) && ContextsFilled(s)
    ensures CutT.NoBlankReference(s)
  {
    AcceptedIds(s, crypto);
    forall p | p in s.providers && Owned.Binding(s.defaults, p).Some?
      ensures exists c :: c in s.credentials && c.id == Owned.Binding(s.defaults, p).value
    {
      BindingNames(s, crypto, p);
    }
  }

  lemma AcceptedIds(s: State, crypto: Crypto)
    requires OwnedT.Accepted(Owned.Selected(s), crypto) && ContextsFilled(s)
    ensures forall c :: c in s.credentials ==> c.id != ""
  {
    forall c | c in s.credentials ensures c.id != "" {
      CutT.AcceptedCredential(Owned.Selected(s), crypto, c);
      assert c.contextId == Some(c.id);
    }
  }

  lemma BindingNames(s: State, crypto: Crypto, p: Provider)
    requires OwnedT.Accepted(Owned.Selected(s), crypto) && PointerReferences(s)
    requires p in s.providers && Owned.Binding(s.defaults, p).Some?
    ensures exists c :: c in s.credentials && c.id == Owned.Binding(s.defaults, p).value
  {
    if p.mode == Some(Pinned) {
      assert NamesCredential(s, p.credentialId.value, p.adapter);
    } else {
      OwnedT.PlannerAcceptsRows(Owned.Selected(s), crypto, true);
      var d := Find(s.defaults, DefaultKey, p.adapter).value;
      assert OwnedT.LiveAccount(Owned.Selected(s), d.credentialId, d.adapter);
    }
  }

  /** On tables whose references hold, the second stage commits exactly when the planner accepts. */
  lemma StorableStageTwo(s: State, crypto: Crypto)
    requires PointerReferences(s) && OwnerReferences(s) && ContextsFilled(s)
    ensures Owned.Outcome(s, true, crypto).Success? <==> OwnedT.Accepted(Owned.Selected(s), crypto)
  {
    CutT.OutcomeApplied(s, crypto);
    if OwnedT.Accepted(Owned.Selected(s), crypto) {
      StorableReferences(s, crypto);
      CutT.CutoverVerified(s, crypto);
    }
  }

  // ---- What the contract migrations insist on ----

  /** Migration 0048. */
  ghost predicate Contract0048(t: State) {
    && (forall a :: a in t.attempts ==> !a.status.Starting? && !a.status.Pending? && a.contextId == Some(a.id))
    && (forall j :: j in t.jobs ==>
          (j.status.JobSucceeded? || j.status.JobUnsupported?) && j.accountScopeId.Some? && j.contextId == j.accountScopeId)
    && (forall p :: p in t.providers && IsManaged(p) ==>
          && p.mode.Some?
          && (p.mode == Some(Pinned) ==> p.credentialId.Some?)
          && (p.mode == Some(FollowDefault) ==> p.credentialId.None?))
    && (forall c :: c in t.credentials ==>
          && c.contextId == Some(c.id)
          && (c.status.Connected? ==> c.identityHash.Some?)
          && (c.identityHash.Some? ==> IsIdentityHash(c.identityHash.value)))
    && (forall i, j :: 0 <= i < j < |t.credentials|
                       && !t.credentials[i].status.Disconnected? && !t.credentials[j].status.Disconnected?
                       && t.credentials[i].adapter == t.credentials[j].adapter && t.credentials[i].identityHash.Some? ==>
          t.credentials[i].identityHash != t.credentials[j].identityHash)
  }

  /** The output of a committed first stage passes the preconditions of migration 0048. */
  lemma StageOneMeetsContract(s: State, crypto: Crypto)
    requires Accounts.Outcome(s, true, crypto).Success?
    ensures Contract0048(Accounts.Migrated(s, crypto))
  {
    VerifiedMeets0048(Accounts.Migrated(s, crypto));
  }

  lemma VerifiedMeets0048(t: State)
    requires Accounts.Verified(t)
    ensures Contract0048(t)
  {
    CountZero(t.providers, Accounts.InvalidProvider);
    CountZero(t.credentials, Accounts.InvalidCredential);
    CountZero(t.attempts, IsActive);
    CountZero(t.attempts, Accounts.ContextMissing);
    CountZero(t.jobs, Accounts.InvalidJob);
    NoGroups(t);
  }

  lemma NoGroups(t: State)
    requires |Accounts.DuplicateGroups(t)| == 0
    ensures forall i, j :: 0 <= i < j < |t.credentials| && IsLive(t.credentials[i]) && IsLive(t.credentials[j])
                           && t.credentials[i].adapter == t.credentials[j].adapter && t.credentials[i].identityHash.Some? ==>
              t.credentials[i].identityHash != t.credentials[j].identityHash
  {
    forall i, j | 0 <= i < j < |t.credentials| && Accounts.Group(t.credentials[i]).Some?
      ensures Accounts.Group(t.credentials[i]) != Accounts.Group(t.credentials[j])
    {
      GroupMember(t, i, j);
    }
  }

  lemma GroupMember(t: State, i: nat, j: nat)
    requires i < j < |t.credentials| && Accounts.Group(t.credentials[i]).Some?
    ensures Accounts.Group(t.credentials[i]) == Accounts.Group(t.credentials[j]) ==>
              Accounts.Group(t.credentials[i]).value in Accounts.DuplicateGroups(t)
  {
  }

  /** A Provider and the live account it points at, which names it. */
  predicate Reciprocal(p: Provider, c: Credential) {
    p.credentialId == Some(c.id) && c.providerId == Some(p.id) && c.adapter == p.adapter && !c.status.Disconnected?
  }

  ghost predicate PointsBack(t: State, p: Provider) {
    exists c :: c in t.credentials && Reciprocal(p, c)
  }

  /** Migration 0050. */
  ghost predicate Contract0050(t: State) {
    && (forall a :: a in t.attempts ==> !a.status.Starting? && !a.status.Pending?)
    && (forall j :: j in t.jobs ==> (j.status.JobSucceeded? || j.status.JobUnsupported?) && j.bundle == NO_BUNDLE)
    && t.defaults == []
    && (forall p :: p in t.providers && IsManaged(p) ==>
          p.mode == Some(Pinned) && (p.credentialId.Some? ==> PointsBack(t, p)))
    && OwnerReferences(t)
    && (forall c :: c in t.credentials && !c.status.Disconnected? ==> DirectlyOwned(t, c))
    && (forall i, j :: 0 <= i < j < |t.credentials|
                       && !t.credentials[i].status.Disconnected? && !t.credentials[j].status.Disconnected? ==>
          t.credentials[i].providerId != t.credentials[j].providerId)
  }

  ghost predicate DirectlyOwned(t: State, c: Credential) {
    exists p :: p in t.providers && c.providerId == Some(p.id) && p.adapter == c.adapter && p.credentialId == Some(c.id)
  }

  /** The output of a committed second stage passes the preconditions of migration 0050; in particular no Provider owns two
      live credentials. */
  lemma StageTwoMeetsContract(s: State, crypto: Crypto)
    requires PrimaryKeys(s) && Owned.Outcome(s, true, crypto).Success?
    ensures Contract0050(Owned.Cutover(s))
  {
    CutT.OutcomeApplied(s, crypto);
    OwnedT.IntakeSettled(Owned.Selected(s));
    Pipeline.CutoverKeys(s);
    VerifiedMeets0050(Owned.Cutover(s));
  }

  lemma VerifiedMeets0050(t: State)
    requires PrimaryKeys(t) && Owned.Verified(t) && forall j :: j in t.jobs ==> j.bundle == NO_BUNDLE
    ensures Contract0050(t)
  {
    CountZero(t.providers, p => Owned.InvalidProvider(t, p));
    forall p | p in t.providers && IsManaged(p) && p.credentialId.Some? ensures PointsBack(t, p) {
      assert !Owned.InvalidProvider(t, p);
      var c :| c in t.credentials && Owned.Holds(p, c);
      assert Reciprocal(p, c);
    }
    CountZero(t.credentials, c => Owned.OwnerlessLive(t, c));
    CountZero(t.credentials, c => Owned.BadProvenance(t, c));
    CountZero(t.attempts, IsActive);
    CountZero(t.jobs, IsUnfinished);
    forall c | c in t.credentials && IsLive(c) ensures DirectlyOwned(t, c) {
      assert !Owned.OwnerlessLive(t, c);
    }
    forall i, j | 0 <= i < j < |t.credentials| && IsLive(t.credentials[i]) && IsLive(t.credentials[j])
      ensures t.credentials[i].providerId != t.credentials[j].providerId
    {
      DistinctOwners(t, t.credentials[i], t.credentials[j]);
    }
  }

  lemma DistinctOwners(t: State, c: Credential, d: Credential)
    requires UniqueBy(t.providers, ProviderKey) && DirectlyOwned(t, c) && DirectlyOwned(t, d) && c.id != d.id
    ensures c.providerId != d.providerId
  {
    var p :| p in t.providers && c.providerId == Some(p.id) && p.adapter == c.adapter && p.credentialId == Some(c.id);
    var q :| q in t.providers && d.providerId == Some(q.id) && q.adapter == d.adapter && q.credentialId == Some(d.id);
    if p.id == q.id {
      UniqueRow(t.providers, ProviderKey, p, q);
    }
  }

  /** So ownership is sound when the third stage starts. */
  lemma StageTwoOwnershipSound(s: State, crypto: Crypto)
    requires PrimaryKeys(s) && Owned.Outcome(s, true, crypto).Success?
    ensures RepairT.OwnershipSound(Owned.Cutover(s))
  {
    StageTwoMeetsContract(s, crypto);
    ContractSound(Owned.Cutover(s));
  }

  lemma ContractSound(t: State)
    requires Contract0050(t)
    ensures RepairT.OwnershipSound(t)
  {
    forall p | p in t.providers && RepairT.InUse(p) ensures exists c :: c in t.credentials && RepairT.Reciprocal(p, c) {
      assert PointsBack(t, p);
      var c :| c in t.credentials && Reciprocal(p, c);
      assert RepairT.Reciprocal(p, c);
    }
  }

  /** The Provider in use that `c` names points back at it. */
  ghost predicate OwnedInUse(t: State, c: Credential) {
    exists p :: p in t.providers && !p.status.Deleted? && Reciprocal(p, c)
  }

  ghost predicate OnDeleted(t: State, a: Attempt) {
    exists p :: p in t.providers && p.status.Deleted? && p.id == a.providerId && p.adapter == a.adapter
  }

  /** Migration 0052. */
  ghost predicate Contract0052(t: State) {
    && (forall c :: c in t.credentials && !c.status.Disconnected? ==> OwnedInUse(t, c))
    && (forall p :: p in t.providers && IsManaged(p) && p.credentialId.Some? ==> !p.status.Deleted? && PointsBack(t, p))
    && (forall a :: a in t.attempts && OnDeleted(t, a) ==> !a.status.Starting? && !a.status.Pending?)
  }

  /** Where ownership was sound, the output of a committed third stage passes the preconditions of migration 0052. */
  lemma StageThreeMeetsContract(s: State, crypto: Crypto)
    requires PrimaryKeys(s) && WellTyped(s) && RepairT.OwnershipSound(s) && Orphans.Outcome(s, true, crypto).Success?
    ensures Contract0052(Orphans.Repaired(s))
  {
    RepairT.RepairPreservesOwnership(s);
    VerifiedMeets0052(Orphans.Repaired(s));
  }

  lemma VerifiedMeets0052(t: State)
    requires Orphans.PointerCount(t) == 0 && Orphans.LiveCount(t) == 0 && Orphans.ActiveCount(t) == 0 && RepairT.OwnershipSound(t)
    ensures Contract0052(t)
  {
    CountZero(t.providers, p => Orphans.DeletedPointer(p));
    CountZero(t.credentials, c => Orphans.OwnerlessLive(t, c));
    CountZero(t.attempts, a => Orphans.ActiveOnDeleted(t, a));
    forall p | p in t.providers && IsManaged(p) && p.credentialId.Some? ensures !p.status.Deleted? && PointsBack(t, p) {
      assert !Orphans.DeletedPointer(p) && RepairT.InUse(p);
      var c :| c in t.credentials && RepairT.Reciprocal(p, c);
      assert Reciprocal(p, c);
    }
    forall c | c in t.credentials && IsLive(c) ensures OwnedInUse(t, c) {
      LiveOwned(t, c);
    }
    forall a | a in t.attempts && OnDeleted(t, a) ensures !IsActive(a) {
      assert !Orphans.ActiveOnDeleted(t, a);
    }
  }

  lemma LiveOwned(t: State, c: Credential)
    requires IsLive(c) && !Orphans.OwnerlessLive(t, c)
    ensures OwnedInUse(t, c)
  {
    var p :| p in t.providers && c.providerId == Some(p.id) && p.adapter == c.adapter && !p.status.Deleted?
             && p.credentialId == Some(c.id);
    assert Reciprocal(p, c);
  }
}
