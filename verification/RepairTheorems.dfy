/** What the orphan repair accepts, disconnects, preserves and reports. */
module RepairTheorems {
  import opened Sequences
  import opened Tables
  import opened Envelopes
  import opened OrphanRepair

  lemma {:induction false} ProvidersAccepted(providers: seq<Provider>)
    ensures ProvidersFault(providers).None? <==>
            UniqueBy(providers, ProviderKey) && forall p :: p in providers ==> IsManaged(p)
  {
    if providers != [] {
      var n := |providers| - 1;
      ProvidersAccepted(providers[..n]);
      assert providers == providers[..n] + [providers[n]];
      assert forall p :: p in providers <==> p in providers[..n] || p == providers[n];
      UniqueExtend(providers, ProviderKey);
    }
  }

  ghost predicate AllFaultless(providers: seq<Provider>, credentials: seq<Credential>) {
    forall c :: c in credentials ==> CredentialFault(providers, c).None?
  }

  lemma FaultlessExtend(providers: seq<Provider>, credentials: seq<Credential>)
    requires credentials != []
    ensures var front, c := credentials[..|credentials| - 1], credentials[|credentials| - 1];
      AllFaultless(providers, credentials) <==> AllFaultless(providers, front) && CredentialFault(providers, c).None?
  {
    assert credentials == credentials[..|credentials| - 1] + [credentials[|credentials| - 1]];
  }

  lemma {:induction false} CredentialsAccepted(providers: seq<Provider>, credentials: seq<Credential>)
    ensures CredentialsFault(providers, credentials).None? <==>
            UniqueBy(credentials, CredentialKey) && AllFaultless(providers, credentials)
  {
    if credentials != [] {
      CredentialsAccepted(providers, credentials[..|credentials| - 1]);
      FaultlessExtend(providers, credentials);
      UniqueExtend(credentials, CredentialKey);
    }
  }

  lemma {:induction false} AttemptsAccepted(attempts: seq<Attempt>)
    ensures AttemptsFault(attempts).None? <==> UniqueBy(attempts, AttemptKey)
  {
    if attempts != [] {
      AttemptsAccepted(attempts[..|attempts| - 1]);
      UniqueExtend(attempts, AttemptKey);
    }
  }

  /** At most one tombstone points at `c`; it has `c`'s adapter, and is the Provider `c` names if there is one. */
  ghost predicate Unambiguous(providers: seq<Provider>, c: Credential) {
    forall p :: p in providers && DeadPointer(p, c.id) ==>
      && p.adapter == c.adapter
      && (OwnerOf(providers, c).Some? ==> OwnerOf(providers, c).value.id == p.id)
      && (forall q :: q in providers && DeadPointer(q, c.id) ==> p == q)
  }

  lemma CredentialFaultUnambiguous(providers: seq<Provider>, c: Credential)
    requires UniqueBy(providers, ProviderKey) && IsLive(c)
    ensures CredentialFault(providers, c).None? <==> Unambiguous(providers, c)
  {
    var pointers := PointerOwners(providers, c.id);
    FilterUnique(providers, p => DeadPointer(p, c.id), ProviderKey);
    CountZero(providers, p => DeadPointer(p, c.id));
    if |pointers| > 1 {
      assert pointers[0] in pointers && pointers[1] in pointers;
      assert ProviderKey(pointers[0]) != ProviderKey(pointers[1]);
    } else if |pointers| == 1 {
      assert pointers[0] in pointers;
      forall p | p in providers && DeadPointer(p, c.id) ensures p == pointers[0] {
        assert p in pointers;
      }
    }
  }

  lemma SelectedKeys(s: State)
    requires PrimaryKeys(s)
    ensures UniqueBy(Selected(s).providers, ProviderKey)
    ensures UniqueBy(Selected(s).credentials, CredentialKey)
    ensures UniqueBy(Selected(s).attempts, AttemptKey)
  {
    FilterUnique(s.providers, IsManaged, ProviderKey);
    FilterUnique(s.credentials, IsLive, CredentialKey);
    FilterUnique(s.attempts, IsActive, AttemptKey);
  }

  /** On stored tables the planner rejects exactly the live credentials whose tombstone pointers are ambiguous. */
  lemma RepairAccepts(s: State)
    requires PrimaryKeys(s)
    ensures PlanFault(Selected(s)).None? <==>
            forall c :: c in s.credentials && IsLive(c) ==> Unambiguous(Selected(s).providers, c)
  {
    var sel := Selected(s);
    SelectedKeys(s);
    ProvidersAccepted(sel.providers);
    CredentialsAccepted(sel.providers, sel.credentials);
    AttemptsAccepted(sel.attempts);
    forall c | c in sel.credentials
      ensures CredentialFault(sel.providers, c).None? <==> Unambiguous(sel.providers, c)
    {
      CredentialFaultUnambiguous(sel.providers, c);
    }
  }

  ghost predicate Accepted(s: State) {
    PrimaryKeys(s) && PlanFault(Selected(s)).None?
  }

  /** An accepted repair disconnects precisely the live credentials without a valid owner. */
  lemma RepairIsExact(s: State, c: Credential)
    requires Accepted(s) && c in s.credentials && IsLive(c)
    ensures Orphaned(Selected(s).providers, c) <==> !ValidOwner(OwnerOf(Selected(s).providers, c), c)
  {
    var providers := Selected(s).providers;
    RepairAccepts(s);
    if PointerOwners(providers, c.id) != [] {
      var p := PointerOwners(providers, c.id)[0];
      assert p in PointerOwners(providers, c.id);
      if ValidOwner(OwnerOf(providers, c), c) {
        SelectedKeys(s);
        UniqueRow(providers, ProviderKey, p, OwnerOf(providers, c).value);
        assert false;
      }
    }
  }

  lemma KeptOwner(s: State, c: Credential) returns (p: Provider)
    requires Accepted(s) && c in s.credentials && IsLive(c) && !Orphaned(Selected(s).providers, c)
    ensures p in s.providers && IsManaged(p) && !p.status.Deleted? && p.adapter == c.adapter
    ensures c.providerId == Some(p.id) && p.id != "" && p.credentialId == Some(c.id)
    ensures p in Repaired(s).providers
  {
    p := OwnerOf(Selected(s).providers, c).value;
    RepairedProvider(s, p);
  }

  lemma RepairedProvider(s: State, p: Provider)
    requires p in s.providers
    ensures RepairProvider(p) in Repaired(s).providers
  {
    var i :| 0 <= i < |s.providers| && s.providers[i] == p;
    assert Repaired(s).providers[i] == RepairProvider(p);
  }

  lemma RepairedCredential(s: State, c: Credential)
    requires c in s.credentials
    ensures RepairCredential(Selected(s), c) in Repaired(s).credentials
  {
    var i :| 0 <= i < |s.credentials| && s.credentials[i] == c;
    assert Repaired(s).credentials[i] == RepairCredential(Selected(s), c);
  }

  lemma PointersCleared(s: State)
    ensures PointerCount(Repaired(s)) == 0
  {
    CountZero(Repaired(s).providers, p => DeletedPointer(p));
  }

  lemma LiveOwned(s: State)
    requires Accepted(s)
    ensures LiveCount(Repaired(s)) == 0
  {
    var t := Repaired(s);
    CountZero(t.credentials, c => OwnerlessLive(t, c));
    forall d | d in t.credentials && IsLive(d) ensures !OwnerlessLive(t, d) {
      var i :| 0 <= i < |s.credentials| && t.credentials[i] == d;
      var p := KeptOwner(s, s.credentials[i]);
    }
  }

  lemma AttemptsEnded(s: State)
    requires forall a :: a in s.attempts ==> a.adapter.Managed()
    ensures ActiveCount(Repaired(s)) == 0
  {
    var t := Repaired(s);
    CountZero(t.attempts, a => ActiveOnDeleted(t, a));
    forall b | b in t.attempts ensures !ActiveOnDeleted(t, b) {
      var i :| 0 <= i < |s.attempts| && t.attempts[i] == b;
      NoActiveOnTombstone(s, s.attempts[i]);
    }
  }

  /** Applying an accepted plan drives all three verifier counts to zero. */
  lemma RepairVerified(s: State)
    requires Accepted(s) && forall a :: a in s.attempts ==> a.adapter.Managed()
    ensures Verified(Repaired(s))
  {
    PointersCleared(s);
    LiveOwned(s);
    AttemptsEnded(s);
  }

  lemma NoActiveOnTombstone(s: State, a: Attempt)
    requires a in s.attempts && a.adapter.Managed()
    ensures !ActiveOnDeleted(Repaired(s), RepairAttempt(Selected(s), a))
  {
    var t, b := Repaired(s), RepairAttempt(Selected(s), a);
    forall q | q in t.providers && q.id == b.providerId && q.adapter == b.adapter && q.status.Deleted?
      ensures !IsActive(b)
    {
      var i :| 0 <= i < |s.providers| && t.providers[i] == q;
      assert s.providers[i] in Selected(s).providers && s.providers[i].id == a.providerId;
    }
  }

  // ---- What the repair preserves ----

  /** `p` points at the live credential `c` of its adapter, and `c` points back. */
  predicate Reciprocal(p: Provider, c: Credential) {
    p.credentialId == Some(c.id) && c.providerId == Some(p.id) && c.adapter == p.adapter && IsLive(c)
  }

  predicate InUse(p: Provider) {
    IsManaged(p) && !p.status.Deleted? && p.credentialId.Some?
  }

  ghost predicate OwnershipSound(s: State) {
    forall p :: p in s.providers && InUse(p) ==> exists c :: c in s.credentials && Reciprocal(p, c)
  }

  lemma PairUntouched(s: State, p: Provider, c: Credential)
    requires Accepted(s) && WellTyped(s) && p in s.providers && c in s.credentials && InUse(p) && Reciprocal(p, c)
    ensures RepairProvider(p) == p && RepairCredential(Selected(s), c) == c
    ensures p in Repaired(s).providers && c in Repaired(s).credentials
  {
    SelectedKeys(s);
    FindUnique(Selected(s).providers, ProviderKey, p);
    RepairIsExact(s, c);
    RepairedProvider(s, p);
    RepairedCredential(s, c);
  }

  /** Sound ownership survives any accepted repair, with both rows of every pair unchanged. */
  lemma RepairPreservesOwnership(s: State)
    requires Accepted(s) && WellTyped(s) && OwnershipSound(s)
    ensures OwnershipSound(Repaired(s))
    ensures forall p, c :: p in s.providers && c in s.credentials && InUse(p) && Reciprocal(p, c) ==>
              p in Repaired(s).providers && c in Repaired(s).credentials
  {
    forall p, c | p in s.providers && c in s.credentials && InUse(p) && Reciprocal(p, c)
      ensures p in Repaired(s).providers && c in Repaired(s).credentials
    {
      PairUntouched(s, p, c);
    }
    forall q | q in Repaired(s).providers && InUse(q) ensures exists c :: c in Repaired(s).credentials && Reciprocal(q, c) {
      var i :| 0 <= i < |s.providers| && Repaired(s).providers[i] == q;
      assert s.providers[i] == q && q in s.providers;
      var c :| c in s.credentials && Reciprocal(q, c);
      PairUntouched(s, q, c);
    }
  }

  /** No attempt left active names a managed tombstone, or a credential this run disconnected. */
  lemma NoStrandedAttempt(s: State, b: Attempt)
    requires WellTyped(s) && b in Repaired(s).attempts && IsActive(b)
    ensures forall p :: p in s.providers && IsManaged(p) && p.status.Deleted? ==> p.id != b.providerId
    ensures forall c :: c in s.credentials && RepairCredential(Selected(s), c) != c ==> b.targetCredentialId != Some(c.id)
  {
    var sel := Selected(s);
    var i :| 0 <= i < |s.attempts| && Repaired(s).attempts[i] == b;
    assert b == s.attempts[i] && !Stranded(sel, b);
    forall p | p in s.providers && IsManaged(p) && p.status.Deleted? ensures p.id != b.providerId {
      assert p in sel.providers;
    }
    forall c | c in s.credentials && RepairCredential(sel, c) != c ensures b.targetCredentialId != Some(c.id) {
      assert c in sel.credentials && Orphaned(sel.providers, c);
    }
  }

  // ---- Running it again ----

  lemma AgainProvider(s: State, p: Provider)
    requires PrimaryKeys(s) && p in Repaired(s).providers && IsManaged(p)
    ensures !Tombstone(p)
    ensures UniqueBy(Selected(Repaired(s)).providers, ProviderKey)
    ensures Find(Selected(Repaired(s)).providers, ProviderKey, p.id) == Some(p)
  {
    RepairedKeys(s);
    SelectedKeys(Repaired(s));
    FindUnique(Selected(Repaired(s)).providers, ProviderKey, p);
  }

  lemma RepairedKeys(s: State)
    requires PrimaryKeys(s)
    ensures PrimaryKeys(Repaired(s))
  {
    var t := Repaired(s);
    assert forall i :: 0 <= i < |s.providers| ==> ProviderKey(t.providers[i]) == ProviderKey(s.providers[i]);
    assert forall i :: 0 <= i < |s.credentials| ==> CredentialKey(t.credentials[i]) == CredentialKey(s.credentials[i]);
    assert forall i :: 0 <= i < |s.attempts| ==> AttemptKey(t.attempts[i]) == AttemptKey(s.attempts[i]);
  }

  lemma NoPointerLeft(s: State, id: string)
    requires PrimaryKeys(s)
    ensures var providers := Selected(Repaired(s)).providers;
      PointerOwners(providers, id) == [] && forall p :: p in providers ==> !DeadPointer(p, id)
  {
    var providers := Selected(Repaired(s)).providers;
    forall p | p in providers ensures !DeadPointer(p, id) {
      AgainProvider(s, p);
    }
    CountZero(providers, p => DeadPointer(p, id));
  }

  lemma AgainOwned(s: State, d: Credential)
    requires Accepted(s) && d in Repaired(s).credentials && IsLive(d)
    ensures ValidOwner(OwnerOf(Selected(Repaired(s)).providers, d), d)
  {
    var i :| 0 <= i < |s.credentials| && Repaired(s).credentials[i] == d;
    var p := KeptOwner(s, s.credentials[i]);
    AgainProvider(s, p);
  }

  lemma AgainCredential(s: State, d: Credential)
    requires Accepted(s) && d in Repaired(s).credentials
    ensures !Orphaned(Selected(Repaired(s)).providers, d)
    ensures Unambiguous(Selected(Repaired(s)).providers, d)
  {
    NoPointerLeft(s, d.id);
    if IsLive(d) {
      AgainOwned(s, d);
    }
  }

  lemma AgainAttempt(s: State, b: Attempt)
    requires Accepted(s) && b in Repaired(s).attempts
    ensures !Stranded(Selected(Repaired(s)), b)
  {
    var again := Selected(Repaired(s));
    var i :| 0 <= i < |s.attempts| && Repaired(s).attempts[i] == b;
    forall c | c in again.credentials ensures !Orphaned(again.providers, c) {
      AgainCredential(s, c);
    }
    if IsActive(b) {
      assert !Stranded(Selected(s), s.attempts[i]);
      NoTombstoneOf(s, s.attempts[i]);
    }
  }

  lemma NoTombstoneOf(s: State, a: Attempt)
    requires IsActive(a) && !Stranded(Selected(s), a)
    ensures forall q :: q in Selected(Repaired(s)).providers && q.id == a.providerId ==> !q.status.Deleted?
  {
    forall q | q in Selected(Repaired(s)).providers && q.id == a.providerId ensures !q.status.Deleted? {
      var j :| 0 <= j < |s.providers| && Repaired(s).providers[j] == q;
      assert s.providers[j] in Selected(s).providers;
    }
  }

  /** The repaired tables plan an empty repair. */
  lemma RepairTwice(s: State)
    requires Accepted(s)
    ensures PlanFault(Selected(Repaired(s))).None?
    ensures PlanOf(Selected(Repaired(s))) == Plan([], [], [])
  {
    var again := Selected(Repaired(s));
    RepairedKeys(s);
    forall c | c in Repaired(s).credentials && IsLive(c) ensures Unambiguous(again.providers, c) {
      AgainCredential(s, c);
    }
    RepairAccepts(Repaired(s));
    forall p | p in again.providers ensures !Tombstone(p) {
      AgainProvider(s, p);
    }
    forall c | c in again.credentials ensures !Orphaned(again.providers, c) {
      AgainCredential(s, c);
    }
    forall b | b in again.attempts ensures !Stranded(again, b) {
      AgainAttempt(s, b);
    }
    CountZero(again.providers, p => Tombstone(p));
    CountZero(again.credentials, c => Orphaned(again.providers, c));
    CountZero(again.attempts, a => Stranded(again, a));
  }

  // ---- What each row becomes, in terms of the plan's target ids ----

  predicate TargetsProvider(plan: Plan, id: string) {
    exists t :: t in plan.providerTargets && t.providerId == id
  }

  predicate TargetsCredential(plan: Plan, id: string) {
    exists t :: t in plan.credentialTargets && t.credentialId == id
  }

  predicate TargetsAttempt(plan: Plan, id: string) {
    exists t :: t in plan.attemptTargets && t.attemptId == id
  }

  lemma TargetRow<T(!new), U(!new)>(rows: seq<T>, hit: T -> bool, target: T -> U, x: T)
    requires x in rows && hit(x)
    ensures target(x) in MapRows(Filter(rows, hit), target)
  {
    var kept := Filter(rows, hit);
    assert x in kept;
    var i :| 0 <= i < |kept| && kept[i] == x;
    assert MapRows(kept, target)[i] == target(x);
  }

  lemma RowOfTarget<T(!new), U(!new)>(rows: seq<T>, hit: T -> bool, target: T -> U, t: U) returns (x: T)
    requires t in MapRows(Filter(rows, hit), target)
    ensures x in rows && hit(x) && target(x) == t
  {
    var kept := Filter(rows, hit);
    var i :| 0 <= i < |kept| && MapRows(kept, target)[i] == t;
    x := kept[i];
    assert x in kept;
  }

  lemma CredentialTargeted(s: State, c: Credential)
    requires PrimaryKeys(s) && c in s.credentials
    ensures TargetsCredential(PlanOf(Selected(s)), c.id) <==> Orphaned(Selected(s).providers, c)
  {
    var sel := Selected(s);
    var hit := (c: Credential) => Orphaned(sel.providers, c);
    if hit(c) {
      TargetRow(sel.credentials, hit, CredentialTargetOf, c);
    }
    if TargetsCredential(PlanOf(sel), c.id) {
      var t :| t in PlanOf(sel).credentialTargets && t.credentialId == c.id;
      var x := RowOfTarget(sel.credentials, hit, CredentialTargetOf, t);
      UniqueRow(s.credentials, CredentialKey, x, c);
    }
  }

  lemma ProviderTargeted(s: State, p: Provider)
    requires PrimaryKeys(s) && p in s.providers
    ensures TargetsProvider(PlanOf(Selected(s)), p.id) <==> IsManaged(p) && Tombstone(p)
  {
    var sel := Selected(s);
    if IsManaged(p) && Tombstone(p) {
      TargetRow(sel.providers, p => Tombstone(p), ProviderTargetOf, p);
    }
    if TargetsProvider(PlanOf(sel), p.id) {
      var t :| t in PlanOf(sel).providerTargets && t.providerId == p.id;
      var x := RowOfTarget(sel.providers, p => Tombstone(p), ProviderTargetOf, t);
      UniqueRow(s.providers, ProviderKey, x, p);
    }
  }

  lemma AttemptTargeted(s: State, a: Attempt)
    requires PrimaryKeys(s) && a in s.attempts
    ensures TargetsAttempt(PlanOf(Selected(s)), a.id) <==> Stranded(Selected(s), a)
  {
    var sel := Selected(s);
    var hit := (a: Attempt) => Stranded(sel, a);
    if hit(a) {
      TargetRow(sel.attempts, hit, AttemptTargetOf, a);
    }
    if TargetsAttempt(PlanOf(sel), a.id) {
      var t :| t in PlanOf(sel).attemptTargets && t.attemptId == a.id;
      var x := RowOfTarget(sel.attempts, hit, AttemptTargetOf, t);
      UniqueRow(s.attempts, AttemptKey, x, a);
    }
  }

  /** No row appears or disappears; rows the plan does not name are untouched; on those it names, epochs and revisions
      rise by exactly one, pointers go and secrets are erased. */
  lemma RepairEffects(s: State)
    requires PrimaryKeys(s)
    ensures var t, plan := Repaired(s), PlanOf(Selected(s));
      && |t.providers| == |s.providers| && |t.credentials| == |s.credentials| && |t.attempts| == |s.attempts|
      && t.defaults == s.defaults && t.jobs == s.jobs
      && (forall i :: 0 <= i < |s.providers| ==>
            var p, q := s.providers[i], t.providers[i];
            if TargetsProvider(plan, p.id)
            then q == p.(credentialId := None, activeCredentialKind := "none", authEpoch := p.authEpoch + 1) else q == p)
      && (forall i :: 0 <= i < |s.credentials| ==>
            var c, d := s.credentials[i], t.credentials[i];
            if TargetsCredential(plan, c.id)
            then d.bundle == NO_BUNDLE && d == c.(providerId := None, status := Disconnected, authEpoch := c.authEpoch + 1,
                                                 revision := c.revision + 1, bundle := NO_BUNDLE)
            else d == c)
      && (forall i :: 0 <= i < |s.attempts| ==>
            var a, b := s.attempts[i], t.attempts[i];
            if TargetsAttempt(plan, a.id)
            then b == a.(status := Cancelled, revision := a.revision + 1, bundle := NO_BUNDLE, flow := None,
                         failureCode := Some("PROVIDER_DELETED"))
            else b == a)
  {
    forall i | 0 <= i < |s.providers|
      ensures TargetsProvider(PlanOf(Selected(s)), s.providers[i].id) <==> IsManaged(s.providers[i]) && Tombstone(s.providers[i])
    {
      ProviderTargeted(s, s.providers[i]);
    }
    forall i | 0 <= i < |s.credentials|
      ensures TargetsCredential(PlanOf(Selected(s)), s.credentials[i].id) <==> Orphaned(Selected(s).providers, s.credentials[i])
    {
      CredentialTargeted(s, s.credentials[i]);
    }
    forall i | 0 <= i < |s.attempts|
      ensures TargetsAttempt(PlanOf(Selected(s)), s.attempts[i].id) <==> Stranded(Selected(s), s.attempts[i])
    {
      AttemptTargeted(s, s.attempts[i]);
    }
  }

  // ---- What the receipt reports ----

  lemma OwnerlessIsOrphaned(s: State, c: Credential)
    requires Accepted(s) && WellTyped(s) && c in s.credentials
    ensures OwnerlessLive(s, c) <==> Orphaned(Selected(s).providers, c)
  {
    var providers := Selected(s).providers;
    if IsLive(c) {
      RepairIsExact(s, c);
      SelectedKeys(s);
      var owner := OwnerOf(providers, c);
      if ValidOwner(owner, c) {
        assert owner.value in s.providers && c.providerId == Some(owner.value.id);
      }
      if !OwnerlessLive(s, c) {
        var p :| p in s.providers && c.providerId == Some(p.id) && p.adapter == c.adapter
                 && !p.status.Deleted? && p.credentialId == Some(c.id);
        FindUnique(providers, ProviderKey, p);
      }
    }
  }

  /** The planned numbers forecast the verifier's counts on the tables before the repair. */
  lemma PlanForecastsVerifier(s: State)
    requires Accepted(s) && WellTyped(s)
    ensures |ProviderTargets(Selected(s))| == PointerCount(s)
    ensures |CredentialTargets(Selected(s))| == LiveCount(s)
    ensures |AttemptTargets(Selected(s))| >= ActiveCount(s)
  {
    var sel := Selected(s);
    FilterFilter(s.providers, IsManaged, p => Tombstone(p), p => DeletedPointer(p));
    forall c | c in s.credentials ensures OwnerlessLive(s, c) == (IsLive(c) && Orphaned(sel.providers, c)) {
      OwnerlessIsOrphaned(s, c);
    }
    FilterFilter(s.credentials, IsLive, c => Orphaned(sel.providers, c), c => OwnerlessLive(s, c));
    FilterFilter(s.attempts, IsActive, a => Stranded(sel, a), a => Stranded(sel, a));
    forall a | a in s.attempts && ActiveOnDeleted(s, a) ensures Stranded(sel, a) {
      var p :| p in s.providers && p.id == a.providerId && p.adapter == a.adapter && p.status.Deleted?;
      assert p in sel.providers;
    }
    FilterSubset(s.attempts, a => ActiveOnDeleted(s, a), a => Stranded(sel, a));
  }

  /** The remaining-work numbers of both kinds of receipt against the verifier: after an applied run they are the
      counts on the repaired tables, after a dry run the counts on the untouched ones (attempts: an upper bound). */
  lemma ReceiptMatchesVerifier(s: State, apply: bool, crypto: Crypto)
    requires PrimaryKeys(s) && WellTyped(s) && Outcome(s, apply, crypto).Success?
    ensures var r, t := Outcome(s, apply, crypto).value, if apply then Repaired(s) else s;
      && r.remainingPointers == PointerCount(t)
      && r.remainingLiveCredentials == LiveCount(t)
      && r.remainingActiveAttempts >= ActiveCount(t)
  {
    PlanForecastsVerifier(s);
  }

  /** Each changed-row number is the number of rows that differ afterwards. */
  lemma ReceiptCountsChanges(s: State)
    ensures |ProviderTargets(Selected(s))| == Count(s.providers, p => RepairProvider(p) != p)
    ensures |CredentialTargets(Selected(s))| == Count(s.credentials, c => RepairCredential(Selected(s), c) != c)
    ensures |AttemptTargets(Selected(s))| == Count(s.attempts, a => RepairAttempt(Selected(s), a) != a)
  {
    var sel := Selected(s);
    FilterFilter(s.providers, IsManaged, p => Tombstone(p), p => RepairProvider(p) != p);
    FilterFilter(s.credentials, IsLive, c => Orphaned(sel.providers, c), c => RepairCredential(sel, c) != c);
    FilterFilter(s.attempts, IsActive, a => Stranded(sel, a), a => RepairAttempt(sel, a) != a);
  }

  lemma TargetIdsAre(s: State, c: Credential)
    requires PrimaryKeys(s) && c in s.credentials
    ensures var ids := set t | t in PlanOf(Selected(s)).credentialTargets :: t.credentialId;
      c.id in ids <==> Orphaned(Selected(s).providers, c)
  {
    CredentialTargeted(s, c);
  }

  /** The erased-secrets number is the number of credentials that lose a bundle. */
  lemma ReceiptCountsErased(s: State, crypto: Crypto)
    requires PrimaryKeys(s) && Outcome(s, true, crypto).Success?
    ensures Outcome(s, true, crypto).value.credentialSecretsErased
         == Count(s.credentials, c => HasSecrets(c) && !HasSecrets(RepairCredential(Selected(s), c)))
  {
    var sel := Selected(s);
    var ids := set t | t in PlanOf(sel).credentialTargets :: t.credentialId;
    forall c | c in s.credentials
      ensures (HasSecrets(c) && !HasSecrets(RepairCredential(sel, c))) == (IsLive(c) && c.id in ids && HasSecrets(c))
    {
      TargetIdsAre(s, c);
    }
    FilterFilter(s.credentials, IsLive, (c: Credential) => c.id in ids && HasSecrets(c),
                 c => HasSecrets(c) && !HasSecrets(RepairCredential(sel, c)));
  }

  /** A dry-run receipt with its mode switched and nothing left to do. */
  function Finished(r: Receipt): Receipt {
    r.(applied := true, remainingPointers := 0, remainingLiveCredentials := 0, remainingActiveAttempts := 0)
  }

  /** A dry run that succeeds is followed by an apply run that succeeds, with the same numbers and fingerprint. */
  lemma DryRunForecasts(s: State, crypto: Crypto)
    requires PrimaryKeys(s) && (forall a :: a in s.attempts ==> a.adapter.Managed())
    ensures Outcome(s, true, crypto).Success? <==> Outcome(s, false, crypto).Success?
    ensures Outcome(s, false, crypto).Success? ==> Outcome(s, true, crypto).value == Finished(Outcome(s, false, crypto).value)
  {
    if PlanFault(Selected(s)).None? {
      RepairVerified(s);
    }
  }

  // ---- Running again ----

  lemma UntouchedProviders(u: State)
    requires ProviderTargets(Selected(u)) == []
    ensures Repaired(u).providers == u.providers
  {
    ReceiptCountsChanges(u);
    CountZero(u.providers, p => RepairProvider(p) != p);
    assert forall i :: 0 <= i < |u.providers| ==> u.providers[i] in u.providers;
  }

  lemma UntouchedCredentials(u: State)
    requires CredentialTargets(Selected(u)) == []
    ensures Repaired(u).credentials == u.credentials
  {
    ReceiptCountsChanges(u);
    CountZero(u.credentials, c => RepairCredential(Selected(u), c) != c);
    assert forall i :: 0 <= i < |u.credentials| ==> u.credentials[i] in u.credentials;
  }

  lemma UntouchedAttempts(u: State)
    requires AttemptTargets(Selected(u)) == []
    ensures Repaired(u).attempts == u.attempts
  {
    ReceiptCountsChanges(u);
    CountZero(u.attempts, a => RepairAttempt(Selected(u), a) != a);
    assert forall i :: 0 <= i < |u.attempts| ==> u.attempts[i] in u.attempts;
  }

  ghost predicate ManagedAttempts(s: State) {
    forall a :: a in s.attempts ==> a.adapter.Managed()
  }

  /** An empty plan is carried out by changing nothing, and reported as such. */
  lemma EmptyRepair(u: State, crypto: Crypto)
    requires PrimaryKeys(u) && ManagedAttempts(u)
    requires PlanFault(Selected(u)).None? && PlanOf(Selected(u)) == Plan([], [], [])
    ensures Repaired(u) == u
    ensures Outcome(u, true, crypto).Success? && Outcome(u, true, crypto).value.changedRows == 0
  {
    RepairVerified(u);
    UntouchedProviders(u);
    UntouchedCredentials(u);
    UntouchedAttempts(u);
  }

  lemma RepairedAttempts(s: State)
    requires ManagedAttempts(s)
    ensures ManagedAttempts(Repaired(s))
  {
    forall a | a in Repaired(s).attempts ensures a.adapter.Managed() {
      var i :| 0 <= i < |s.attempts| && Repaired(s).attempts[i] == a;
      assert s.attempts[i] in s.attempts;
    }
  }

  lemma CommittedAccepted(s: State, crypto: Crypto)
    requires PrimaryKeys(s) && Outcome(s, true, crypto).Success?
    ensures Accepted(s)
  {
  }

  /** A committed repair can be run again, on whatever tables it started: it succeeds and changes nothing. */
  lemma RerunIsNoOp(s: State, crypto: Crypto)
    requires PrimaryKeys(s) && ManagedAttempts(s) && Outcome(s, true, crypto).Success?
    ensures Repaired(Repaired(s)) == Repaired(s)
    ensures Outcome(Repaired(s), true, crypto).Success? && Outcome(Repaired(s), true, crypto).value.changedRows == 0
  {
    CommittedAccepted(s, crypto);
    AgainEmpty(s, crypto, Repaired(s));
  }

  lemma AgainEmpty(s: State, crypto: Crypto, t: State)
    requires Accepted(s) && ManagedAttempts(s) && t == Repaired(s)
    ensures Repaired(t) == t && Outcome(t, true, crypto).Success? && Outcome(t, true, crypto).value.changedRows == 0
  {
    RepairTwice(s);
    RepairedKeys(s);
    RepairedAttempts(s);
    EmptyRepair(t, crypto);
  }
}
