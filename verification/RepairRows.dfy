/** The orphan repair in terms of columns: what the planner accepts, and what every row becomes. */
module RepairRows {
  import opened Sequences
  import opened CanonicalJson
  import opened Tables
  import opened Envelopes
  import opened OrphanRepair
  import opened RepairTheorems

  // ---- What the planner accepts ----

  /** A deleted Provider that still points at `c`. */
  predicate PointsDead(p: Provider, c: Credential) {
    IsManaged(p) && p.status.Deleted? && c.id != "" && p.credentialId == Some(c.id)
  }

  predicate NamedBy(o: Provider, c: Credential) {
    IsManaged(o) && o.id != "" && c.providerId == Some(o.id)
  }

  /** At most one deleted Provider points at `c`; it has `c`'s adapter, and is the Provider `c` names if that one exists. */
  ghost predicate Clear(s: State, c: Credential) {
    forall p :: p in s.providers && PointsDead(p, c) ==>
      && p.adapter == c.adapter
      && (forall o :: o in s.providers && NamedBy(o, c) ==> o.id == p.id)
      && (forall q :: q in s.providers && PointsDead(q, c) ==> p == q)
  }

  lemma OwnerIsNamed(s: State, c: Credential)
    requires PrimaryKeys(s)
    ensures var owner := OwnerOf(Selected(s).providers, c);
      && (owner.Some? ==> owner.value in s.providers && NamedBy(owner.value, c))
      && forall o :: o in s.providers && NamedBy(o, c) ==> owner == Some(o)
  {
    SelectedKeys(s);
    forall o | o in s.providers && NamedBy(o, c) ensures OwnerOf(Selected(s).providers, c) == Some(o) {
      assert o in Selected(s).providers;
      FindUnique(Selected(s).providers, ProviderKey, o);
    }
  }

  lemma ClearIsUnambiguous(s: State, c: Credential)
    requires PrimaryKeys(s)
    ensures Clear(s, c) <==> Unambiguous(Selected(s).providers, c)
  {
    OwnerIsNamed(s, c);
    forall p: Provider ensures p in s.providers && PointsDead(p, c) <==> p in Selected(s).providers && DeadPointer(p, c.id) {
    }
  }

  /** The planner rejects exactly the tables with a live credential that is not clear. */
  lemma PlannerAccepts(s: State)
    requires PrimaryKeys(s)
    ensures PlanFault(Selected(s)).None? <==> forall c :: c in s.credentials && !c.status.Disconnected? ==> Clear(s, c)
  {
    RepairAccepts(s);
    forall c | c in s.credentials ensures Clear(s, c) <==> Unambiguous(Selected(s).providers, c) {
      ClearIsUnambiguous(s, c);
    }
  }

  // ---- What every row becomes ----

  predicate ProviderRepaired(p: Provider, q: Provider) {
    if IsManaged(p) && p.status.Deleted? && p.credentialId.Some?
    then q == p.(credentialId := None, activeCredentialKind := "none", authEpoch := p.authEpoch + 1)
    else q == p
  }

  /** `c` names a Provider in use, of its adapter, that points back. */
  ghost predicate Owned(s: State, c: Credential) {
    exists p :: p in s.providers && NamedBy(p, c) && !p.status.Deleted? && p.adapter == c.adapter && p.credentialId == Some(c.id)
  }

  ghost predicate CredentialRepaired(s: State, c: Credential, d: Credential) {
    if !c.status.Disconnected? && !Owned(s, c)
    then d == c.(providerId := None, status := Disconnected, authEpoch := c.authEpoch + 1, revision := c.revision + 1,
                 bundle := Bundle(None, None, None, None, None))
    else d == c
  }

  /** The repair changes the credential row with the id `id`. */
  ghost predicate Loses(s: State, id: string) {
    exists i :: 0 <= i < |s.credentials| && s.credentials[i].id == id && Repaired(s).credentials[i] != s.credentials[i]
  }

  /** `a` is under way, on a deleted Provider or towards a credential the repair changes. */
  ghost predicate Cancels(s: State, a: Attempt) {
    && (a.status.Starting? || a.status.Pending?)
    && (|| (exists p :: p in s.providers && IsManaged(p) && p.status.Deleted? && p.id == a.providerId)
        || (a.targetCredentialId.Some? && a.targetCredentialId.value != "" && Loses(s, a.targetCredentialId.value)))
  }

  ghost predicate AttemptRepaired(s: State, a: Attempt, b: Attempt) {
    if Cancels(s, a)
    then b == a.(status := Cancelled, revision := a.revision + 1, bundle := Bundle(None, None, None, None, None), flow := None,
                 failureCode := Some("PROVIDER_DELETED"))
    else b == a
  }

  lemma OrphanedIsUnowned(s: State, c: Credential)
    requires Accepted(s) && c in s.credentials
    ensures Orphaned(Selected(s).providers, c) <==> !c.status.Disconnected? && !Owned(s, c)
  {
    OwnerIsNamed(s, c);
    if IsLive(c) {
      RepairIsExact(s, c);
    }
  }

  lemma LosesOrphan(s: State, id: string)
    ensures Loses(s, id) <==> exists c :: c in Selected(s).credentials && c.id == id && Orphaned(Selected(s).providers, c)
  {
    var sel := Selected(s);
    forall i | 0 <= i < |s.credentials|
      ensures Repaired(s).credentials[i] != s.credentials[i] <==> Orphaned(sel.providers, s.credentials[i])
    {
    }
    if c :| c in sel.credentials && c.id == id && Orphaned(sel.providers, c) {
      var i :| 0 <= i < |s.credentials| && s.credentials[i] == c;
    }
    if i :| 0 <= i < |s.credentials| && s.credentials[i].id == id && Repaired(s).credentials[i] != s.credentials[i] {
      assert s.credentials[i] in sel.credentials;
    }
  }

  lemma StrandedIsCancelled(s: State, a: Attempt)
    ensures Stranded(Selected(s), a) <==> Cancels(s, a)
  {
    if Truthy(a.targetCredentialId) {
      LosesOrphan(s, a.targetCredentialId.value);
    }
    forall p: Provider ensures p in Selected(s).providers <==> p in s.providers && IsManaged(p) {
    }
  }

  /** Row by row, what an accepted repair writes: pointers of tombstones go, live credentials without an owner in use are
      disconnected and erased, and exactly the attempts under way on either are cancelled. */
  lemma RepairedRows(s: State)
    requires Accepted(s)
    ensures var t := Repaired(s);
      && |t.providers| == |s.providers| && |t.credentials| == |s.credentials| && |t.attempts| == |s.attempts|
      && (forall i :: 0 <= i < |s.providers| ==> ProviderRepaired(s.providers[i], t.providers[i]))
      && (forall i :: 0 <= i < |s.credentials| ==> CredentialRepaired(s, s.credentials[i], t.credentials[i]))
      && (forall i :: 0 <= i < |s.attempts| ==> AttemptRepaired(s, s.attempts[i], t.attempts[i]))
      && t.defaults == s.defaults && t.jobs == s.jobs
  {
    forall i | 0 <= i < |s.credentials| ensures CredentialRepaired(s, s.credentials[i], Repaired(s).credentials[i]) {
      OrphanedIsUnowned(s, s.credentials[i]);
    }
    forall i | 0 <= i < |s.attempts| ensures AttemptRepaired(s, s.attempts[i], Repaired(s).attempts[i]) {
      StrandedIsCancelled(s, s.attempts[i]);
    }
  }

  /** An attempt's row changes exactly when it is under way, on a deleted Provider or towards a credential that changes. */
  lemma AttemptChanges(s: State, i: nat)
    requires i < |s.attempts|
    ensures Repaired(s).attempts[i] != s.attempts[i] <==> Cancels(s, s.attempts[i])
  {
    StrandedIsCancelled(s, s.attempts[i]);
  }

  // ---- The verifier ----

  /** The verifier passes exactly the tables with no pointer on a tombstone, no live credential without an owner in use that
      points back, and no attempt under way on a deleted Provider of its adapter. */
  lemma VerifierTells(t: State)
    ensures Verified(t) <==>
            && (forall p :: p in t.providers && IsManaged(p) && p.status.Deleted? ==> p.credentialId.None?)
            && (forall c :: c in t.credentials && !c.status.Disconnected? ==>
                  exists p :: p in t.providers && c.providerId == Some(p.id) && p.adapter == c.adapter
                              && !p.status.Deleted? && p.credentialId == Some(c.id))
            && (forall a :: a in t.attempts && (a.status.Starting? || a.status.Pending?) ==>
                  !exists p :: p in t.providers && p.id == a.providerId && p.adapter == a.adapter && p.status.Deleted?)
  {
    CountZero(t.providers, p => DeletedPointer(p));
    CountZero(t.credentials, c => OwnerlessLive(t, c));
    CountZero(t.attempts, a => ActiveOnDeleted(t, a));
  }

  // ---- The receipt and the fingerprint ----

  predicate ProviderDiffers(p: Provider, q: Provider) { q != p }

  predicate CredentialDiffers(c: Credential, d: Credential) { d != c }

  predicate AttemptDiffers(a: Attempt, b: Attempt) { b != a }

  predicate SecretsGo(c: Credential, d: Credential) { c.bundle != NO_BUNDLE && d.bundle == NO_BUNDLE }

  lemma ChangesTell(s: State)
    ensures var t, plan := Repaired(s), PlanOf(Selected(s));
      && |plan.providerTargets| == Differing(s.providers, t.providers, ProviderDiffers)
      && |plan.credentialTargets| == Differing(s.credentials, t.credentials, CredentialDiffers)
      && |plan.attemptTargets| == Differing(s.attempts, t.attempts, AttemptDiffers)
  {
    ReceiptCountsChanges(s);
    CountIsDiffering(s.providers, RepairProvider, p => RepairProvider(p) != p, ProviderDiffers);
    CountIsDiffering(s.credentials, c => RepairCredential(Selected(s), c), c => RepairCredential(Selected(s), c) != c, CredentialDiffers);
    CountIsDiffering(s.attempts, a => RepairAttempt(Selected(s), a), a => RepairAttempt(Selected(s), a) != a, AttemptDiffers);
  }

  lemma ErasedTell(s: State)
    ensures Count(s.credentials, c => HasSecrets(c) && !HasSecrets(RepairCredential(Selected(s), c)))
         == Differing(s.credentials, Repaired(s).credentials, SecretsGo)
  {
    CountIsDiffering(s.credentials, c => RepairCredential(Selected(s), c),
                     c => HasSecrets(c) && !HasSecrets(RepairCredential(Selected(s), c)), SecretsGo);
  }

  lemma SecretsTell(s: State, apply: bool, crypto: Crypto)
    requires PrimaryKeys(s) && (forall a :: a in s.attempts ==> a.adapter.Managed()) && Outcome(s, apply, crypto).Success?
    ensures Outcome(s, apply, crypto).value.credentialSecretsErased == Differing(s.credentials, Repaired(s).credentials, SecretsGo)
  {
    DryRunForecasts(s, crypto);
    ReceiptCountsErased(s, crypto);
    ErasedTell(s);
  }

  /** Every number of a receipt, dry or applied, over the tables before and after. */
  lemma ReceiptTells(s: State, apply: bool, crypto: Crypto)
    requires PrimaryKeys(s) && (forall a :: a in s.attempts ==> a.adapter.Managed()) && Outcome(s, apply, crypto).Success?
    ensures var r, t := Outcome(s, apply, crypto).value, Repaired(s);
      && r.applied == apply
      && r.providerRows == Count(s.providers, IsManaged)
      && r.credentialRows == Count(s.credentials, (c: Credential) => !c.status.Disconnected?)
      && r.attemptRows == Count(s.attempts, (a: Attempt) => a.status.Starting? || a.status.Pending?)
      && r.providerPointersCleared == Differing(s.providers, t.providers, ProviderDiffers)
      && r.credentialsDisconnected == Differing(s.credentials, t.credentials, CredentialDiffers)
      && r.attemptsCancelled == Differing(s.attempts, t.attempts, AttemptDiffers)
      && r.credentialSecretsErased == Differing(s.credentials, t.credentials, SecretsGo)
      && r.changedRows == r.providerPointersCleared + r.credentialsDisconnected + r.attemptsCancelled
      && r.remainingPointers == (if apply then 0 else r.providerPointersCleared)
      && r.remainingLiveCredentials == (if apply then 0 else r.credentialsDisconnected)
      && r.remainingActiveAttempts == (if apply then 0 else r.attemptsCancelled)
  {
    ChangesTell(s);
    SecretsTell(s, apply, crypto);
    FilterSame(s.credentials, IsLive, (c: Credential) => !c.status.Disconnected?);
    FilterSame(s.attempts, IsActive, (a: Attempt) => a.status.Starting? || a.status.Pending?);
  }

  /** The columns of the selected rows that are fingerprinted, before the repair. */
  function ProviderColumns(p: Provider): Entry {
    [Str("provider"), Str(p.id), Str(p.adapter.Name()), Str(p.status.Name()),
     if p.credentialId.Some? then Str(p.credentialId.value) else Null]
  }

  function CredentialColumns(c: Credential): Entry {
    [Str("credential"), Str(c.id), if c.providerId.Some? then Str(c.providerId.value) else Null, Str(c.adapter.Name()),
     Str(c.status.Name()), Num(c.authEpoch), Num(c.revision), Flag(c.bundle != NO_BUNDLE)]
  }

  function AttemptColumns(a: Attempt): Entry {
    [Str("attempt"), Str(a.id), Str(a.providerId), Str(a.adapter.Name()),
     if a.targetCredentialId.Some? then Str(a.targetCredentialId.value) else Null, Str(a.status.Name()), Num(a.revision)]
  }

  function Columns(s: State): seq<Entry> {
    MapRows(Filter(s.providers, IsManaged), ProviderColumns)
    + MapRows(Filter(s.credentials, IsLive), CredentialColumns)
    + MapRows(Filter(s.attempts, IsActive), AttemptColumns)
  }

  /** The fingerprint is taken over the rows the repair looked at. */
  lemma FingerprintTells(s: State, apply: bool, crypto: Crypto)
    requires Outcome(s, apply, crypto).Success?
    ensures Outcome(s, apply, crypto).value.fingerprint == crypto.sha256(Preimage(Columns(s)))
  {
    EntriesAreColumns(s);
  }

  lemma EntriesAreColumns(s: State)
    ensures Entries(Selected(s)) == Columns(s)
  {
    MapAgree(Filter(s.providers, IsManaged), ProviderEntry, ProviderColumns);
    MapAgree(Filter(s.credentials, IsLive), CredentialEntry, CredentialColumns);
    MapAgree(Filter(s.attempts, IsActive), AttemptEntry, AttemptColumns);
  }

  // ---- The reported reason ----

  /** What is wrong with `c` when the planner reports `fault`. */
  ghost predicate Defect(s: State, c: Credential, fault: Fault) {
    && !c.status.Disconnected?
    && match fault
       case MultiplePointers => exists p, q :: p in s.providers && q in s.providers && p != q && PointsDead(p, c) && PointsDead(q, c)
       case PointerAdapterMismatched => exists p :: p in s.providers && PointsDead(p, c) && p.adapter != c.adapter
       case ProvenanceDisagrees =>
         exists p, o :: p in s.providers && o in s.providers && PointsDead(p, c) && NamedBy(o, c) && o.id != p.id
       case _ => false
  }

  lemma CredentialReason(s: State, c: Credential)
    requires PrimaryKeys(s) && CredentialFault(Selected(s).providers, c).Some?
    ensures Defect(s, c, CredentialFault(Selected(s).providers, c).value)
  {
    var providers := Selected(s).providers;
    var pointers := PointerOwners(providers, c.id);
    OwnerIsNamed(s, c);
    SelectedKeys(s);
    FilterUnique(providers, p => DeadPointer(p, c.id), ProviderKey);
    assert pointers[0] in pointers;
    if |pointers| > 1 {
      assert pointers[1] in pointers && ProviderKey(pointers[0]) != ProviderKey(pointers[1]);
    }
  }

  lemma {:induction false} CredentialsReason(s: State, credentials: seq<Credential>)
    requires PrimaryKeys(s) && UniqueBy(credentials, CredentialKey) && CredentialsFault(Selected(s).providers, credentials).Some?
    ensures exists c :: c in credentials && Defect(s, c, CredentialsFault(Selected(s).providers, credentials).value)
  {
    var front, c := credentials[..|credentials| - 1], credentials[|credentials| - 1];
    UniqueExtend(credentials, CredentialKey);
    assert c in credentials && forall x :: x in front ==> x in credentials;
    if CredentialsFault(Selected(s).providers, front).Some? {
      CredentialsReason(s, front);
    } else {
      CredentialReason(s, c);
    }
  }

  /** A reported failure is there: some live credential has the defect the planner names. */
  lemma FailureIsJustified(s: State, apply: bool, crypto: Crypto)
    requires PrimaryKeys(s) && (forall a :: a in s.attempts ==> a.adapter.Managed()) && Outcome(s, apply, crypto).Failure?
    ensures exists c :: c in s.credentials && Defect(s, c, Outcome(s, apply, crypto).error)
  {
    var sel := Selected(s);
    SelectedKeys(s);
    ProvidersAccepted(sel.providers);
    AttemptsAccepted(sel.attempts);
    if PlanFault(sel).None? {
      RepairVerified(s);
    } else {
      CredentialsReason(s, sel.credentials);
    }
  }
}
