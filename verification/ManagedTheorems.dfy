/** The managed-account migration against its verifier, its dry run, and a second run. */
module ManagedTheorems {
  import opened Sequences
  import opened Text
  import opened Tables
  import opened Envelopes
  import opened ManagedAccounts

  // ---- What a clean pass over the rows means ----

  ghost predicate AllTransform(credentials: seq<Credential>, crypto: Crypto, apply: bool) {
    forall c :: c in credentials ==> Transform(c, crypto, apply).Success?
  }

  lemma TransformExtend(credentials: seq<Credential>, crypto: Crypto, apply: bool)
    requires credentials != []
    ensures var front, c := credentials[..|credentials| - 1], credentials[|credentials| - 1];
      AllTransform(credentials, crypto, apply) <==> AllTransform(front, crypto, apply) && Transform(c, crypto, apply).Success?
  {
    assert credentials == credentials[..|credentials| - 1] + [credentials[|credentials| - 1]];
  }

  lemma {:induction false} CredentialsAccepted(credentials: seq<Credential>, crypto: Crypto, apply: bool)
    ensures CredentialsFault(credentials, crypto, apply).None? <==>
            AllTransform(credentials, crypto, apply) && DistinctKeys(credentials, c => NewKey(c, crypto))
  {
    if credentials != [] {
      CredentialsAccepted(credentials[..|credentials| - 1], crypto, apply);
      TransformExtend(credentials, crypto, apply);
      DistinctExtend(credentials, c => NewKey(c, crypto));
    }
  }

  lemma DistinctExtend<T(!new), K(!new)>(rows: seq<T>, key: T -> Option<K>)
    requires rows != []
    ensures var front, last := rows[..|rows| - 1], rows[|rows| - 1];
      DistinctKeys(rows, key) <==>
      DistinctKeys(front, key) && !(key(last).Some? && exists x :: x in front && key(x) == key(last))
  {
    var n := |rows| - 1;
    var front, last := rows[..n], rows[n];
    assert forall i :: 0 <= i < n ==> rows[i] == front[i] && front[i] in front;
    if key(last).Some? && exists x :: x in front && key(x) == key(last) {
      var x :| x in front && key(x) == key(last);
      var i :| 0 <= i < n && front[i] == x;
      assert key(rows[i]).Some? && key(rows[i]) == key(rows[n]);
    }
  }

  ghost predicate Clean(s: State, crypto: Crypto, apply: bool) {
    MigrationFault(s, crypto, apply).None?
  }

  lemma CleanRows(s: State, crypto: Crypto, apply: bool)
    requires Clean(s, crypto, apply)
    ensures forall p :: p in s.providers && IsManaged(p) ==> ProviderFault(s.credentials, p).None?
    ensures forall c :: c in s.credentials ==> Transform(c, crypto, apply).Success?
    ensures DistinctKeys(s.credentials, c => NewKey(c, crypto))
    ensures DistinctKeys(s.credentials, OwnerKey)
    ensures forall j :: j in s.jobs ==> j.status.Terminal() && j.bundle == NO_BUNDLE && JobFault(s.credentials, j).None?
  {
    CredentialsAccepted(s.credentials, crypto, apply);
    CountZero(s.jobs, IsUnfinished);
    CountZero(s.jobs, HasMaterial);
    assert forall j: Job :: !HasMaterial(j) <==> j.bundle == NO_BUNDLE;
  }

  // ---- One credential ----

  /** An enveloped row that transforms: the bundle behind its envelope, before and after. */
  lemma Opened(c: Credential, crypto: Crypto) returns (e: Envelope, b: TokenBundle)
    requires Lawful(crypto) && Transform(c, crypto, true).Success? && c.bundle.Present() == 5
    ensures EnvelopeFrom(c.bundle).Some? && crypto.decrypt(EnvelopeFrom(c.bundle).value, ContextOf(c, SourceContext(c))) == Some(b)
    ensures EnvelopeFrom(MigrateCredential(crypto, c).bundle) == Some(e)
    ensures crypto.decrypt(e, ContextOf(c, c.id)) == Some(b)
    ensures IdentityHash(crypto, c.adapter, b) == NewHash(c, crypto) && NewHash(c, crypto).Some?
    ensures IsIdentityHash(NewHash(c, crypto).value)
    ensures Trim(c.id) != ""
    ensures SourceContext(c) != c.id ==> crypto.encrypt(b, ContextOf(c, c.id)) == Some(e) && ValidContext(ContextOf(c, c.id))
  {
    TransformDry(c, crypto);
    var source := EnvelopeFrom(c.bundle).value;
    b := crypto.decrypt(source, ContextOf(c, SourceContext(c))).value;
    if SourceContext(c) != c.id {
      e := crypto.encrypt(b, ContextOf(c, c.id)).value;
      assert crypto.decrypt(e, ContextOf(c, c.id)) == Some(b);
      assert Filled(e);
    } else {
      e := source;
    }
  }

  /** What a stored row decrypts to in the context `providerId`. */
  function Secret(crypto: Crypto, c: Credential, providerId: string): Option<TokenBundle> {
    if EnvelopeFrom(c.bundle).None? then None else crypto.decrypt(EnvelopeFrom(c.bundle).value, ContextOf(c, providerId))
  }

  /** Nothing of an account is lost: row by row the migration keeps id, owner, adapter, status, epoch and revision, and the
      token bundle that was readable in the old context is the one readable in the row's own context. */
  lemma MigrationKeepsAccounts(s: State, crypto: Crypto)
    requires Lawful(crypto) && Clean(s, crypto, true)
    ensures |Migrated(s, crypto).credentials| == |s.credentials|
    ensures forall i :: 0 <= i < |s.credentials| ==>
              var c, d := s.credentials[i], Migrated(s, crypto).credentials[i];
              && d == c.(contextId := Some(c.id), identityHash := d.identityHash, bundle := d.bundle)
              && d.bundle.Present() == c.bundle.Present()
              && (c.bundle.Present() == 5 ==>
                    && Secret(crypto, c, SourceContext(c)).Some?
                    && Secret(crypto, d, d.id) == Secret(crypto, c, SourceContext(c))
                    && d.identityHash == IdentityHash(crypto, c.adapter, Secret(crypto, c, SourceContext(c)).value))
  {
    CleanRows(s, crypto, true);
    forall i | 0 <= i < |s.credentials|
      ensures var c, d := s.credentials[i], MigrateCredential(crypto, s.credentials[i]);
        && d == c.(contextId := Some(c.id), identityHash := d.identityHash, bundle := d.bundle)
        && d.bundle.Present() == c.bundle.Present()
        && (c.bundle.Present() == 5 ==>
              && Secret(crypto, c, SourceContext(c)).Some?
              && Secret(crypto, d, d.id) == Secret(crypto, c, SourceContext(c))
              && d.identityHash == IdentityHash(crypto, c.adapter, Secret(crypto, c, SourceContext(c)).value))
    {
      assert s.credentials[i] in s.credentials;
      KeepsAccount(s.credentials[i], crypto);
    }
  }

  lemma KeepsAccount(c: Credential, crypto: Crypto)
    requires Lawful(crypto) && Transform(c, crypto, true).Success?
    ensures var d := MigrateCredential(crypto, c);
      && d == c.(contextId := Some(c.id), identityHash := d.identityHash, bundle := d.bundle)
      && d.bundle.Present() == c.bundle.Present()
      && (c.bundle.Present() == 5 ==>
            && Secret(crypto, c, SourceContext(c)).Some?
            && Secret(crypto, d, d.id) == Secret(crypto, c, SourceContext(c))
            && d.identityHash == IdentityHash(crypto, c.adapter, Secret(crypto, c, SourceContext(c)).value))
  {
    TransformDry(c, crypto);
    if c.bundle.Present() == 5 {
      var e, b := Opened(c, crypto);
    }
  }

  lemma MigratedCredentialValid(c: Credential, crypto: Crypto)
    requires Lawful(crypto) && Transform(c, crypto, true).Success?
    ensures !InvalidCredential(MigrateCredential(crypto, c))
    ensures MigrateCredential(crypto, c).identityHash == NewHash(c, crypto)
    ensures Group(MigrateCredential(crypto, c)) == NewKey(c, crypto)
  {
    TransformDry(c, crypto);
    if c.bundle.Present() == 5 {
      var e, b := Opened(c, crypto);
    }
  }

  /** Encryption is the only step an apply run adds to a dry run's checks, and it succeeds. */
  lemma TransformApply(c: Credential, crypto: Crypto)
    requires Lawful(crypto)
    ensures Transform(c, crypto, true).Success? <==> Transform(c, crypto, false).Success?
    ensures Transform(c, crypto, false).Failure? ==> Transform(c, crypto, true) == Transform(c, crypto, false)
  {
    if c.bundle.Present() == 5 && EnvelopeFrom(c.bundle).Some? {
      var b := crypto.decrypt(EnvelopeFrom(c.bundle).value, ContextOf(c, SourceContext(c)));
      if b.Some? {
        Reencrypts(c, b.value, crypto);
      }
    }
  }

  lemma Reencrypts(c: Credential, b: TokenBundle, crypto: Crypto)
    requires Lawful(crypto) && ValidContext(ContextOf(c, SourceContext(c))) && crypto.accepts(b)
    ensures Reencrypt(c, b, crypto).Success?
  {
    assert ValidContext(ContextOf(c, c.id));
  }

  // ---- The verifier ----

  /** No revocation job names the blank account, which the epoch check skips as falsy. */
  ghost predicate NoBlankAccount(s: State) {
    forall j :: j in s.jobs ==> JobAccount(s.credentials, j) != Some("")
  }

  lemma NoDuplicateGroups(s: State, crypto: Crypto)
    requires Lawful(crypto) && Clean(s, crypto, true)
    ensures DuplicateGroups(Migrated(s, crypto)) == {}
  {
    CleanRows(s, crypto, true);
    var t := Migrated(s, crypto);
    forall i, j | 0 <= i < j < |t.credentials| && Group(t.credentials[i]).Some?
      ensures Group(t.credentials[i]) != Group(t.credentials[j])
    {
      MigratedCredentialValid(s.credentials[i], crypto);
      MigratedCredentialValid(s.credentials[j], crypto);
    }
  }

  lemma ProvidersVerified(s: State)
    requires forall p :: p in s.providers && IsManaged(p) ==> ProviderFault(s.credentials, p).None?
    ensures Count(MigratedProviders(s), InvalidProvider) == 0
  {
    var providers := MigratedProviders(s);
    CountZero(providers, InvalidProvider);
    forall i | 0 <= i < |providers| ensures !InvalidProvider(providers[i]) {
      assert s.providers[i] in s.providers;
    }
  }

  lemma CredentialsVerified(s: State, crypto: Crypto)
    requires Lawful(crypto) && AllTransform(s.credentials, crypto, true)
    ensures Count(MigratedCredentials(s, crypto), InvalidCredential) == 0
  {
    var credentials := MigratedCredentials(s, crypto);
    CountZero(credentials, InvalidCredential);
    forall i | 0 <= i < |credentials| ensures !InvalidCredential(credentials[i]) {
      assert s.credentials[i] in s.credentials;
      MigratedCredentialValid(s.credentials[i], crypto);
    }
  }

  lemma AttemptsVerified(s: State)
    ensures Count(MigratedAttempts(s), IsActive) == 0 && Count(MigratedAttempts(s), ContextMissing) == 0
  {
    CountZero(MigratedAttempts(s), IsActive);
    CountZero(MigratedAttempts(s), ContextMissing);
  }

  /** When no check throws, the written tables pass all six counts, except for a job naming the blank account. */
  lemma MigrationVerified(s: State, crypto: Crypto)
    requires Lawful(crypto) && Clean(s, crypto, true)
    ensures Verified(Migrated(s, crypto)) <==> NoBlankAccount(s)
  {
    CleanRows(s, crypto, true);
    ProvidersVerified(s);
    CredentialsVerified(s, crypto);
    AttemptsVerified(s);
    JobsVerified(s);
    NoDuplicateGroups(s, crypto);
  }

  lemma JobsVerified(s: State)
    requires forall j :: j in s.jobs ==> j.status.Terminal() && JobFault(s.credentials, j).None?
    ensures Count(MigratedJobs(s), InvalidJob) == 0 <==> NoBlankAccount(s)
  {
    var jobs := MigratedJobs(s);
    CountZero(jobs, InvalidJob);
    forall i | 0 <= i < |jobs| ensures InvalidJob(jobs[i]) <==> JobAccount(s.credentials, s.jobs[i]) == Some("") {
      assert s.jobs[i] in s.jobs;
    }
    if Count(jobs, InvalidJob) == 0 {
      forall j | j in s.jobs ensures JobAccount(s.credentials, j) != Some("") {
        var i :| 0 <= i < |s.jobs| && s.jobs[i] == j;
        assert jobs[i] in jobs;
      }
    }
  }

  // ---- The dry run ----

  lemma DryRunClean(s: State, crypto: Crypto)
    requires Lawful(crypto)
    ensures Clean(s, crypto, true) <==> Clean(s, crypto, false)
  {
    CredentialsAccepted(s.credentials, crypto, true);
    CredentialsAccepted(s.credentials, crypto, false);
    forall c | c in s.credentials ensures Transform(c, crypto, true).Success? <==> Transform(c, crypto, false).Success? {
      TransformApply(c, crypto);
    }
  }

  /** A dry run's receipt with its mode switched and no attempt left to end. */
  function Finished(r: Receipt): Receipt {
    r.(applied := true, remainingActiveAttempts := 0)
  }

  /** A successful dry run forecasts the apply run, which can then fail only over a job naming the blank account. */
  lemma DryRunForecasts(s: State, crypto: Crypto)
    requires Lawful(crypto) && Outcome(s, false, crypto).Success?
    ensures Outcome(s, true, crypto).Success? <==> NoBlankAccount(s)
    ensures NoBlankAccount(s) ==> Outcome(s, true, crypto).value == Finished(Outcome(s, false, crypto).value)
  {
    DryRunClean(s, crypto);
    MigrationVerified(s, crypto);
  }

  // ---- The counters ----

  /** A re-encrypted envelope is a new one: the old one opens in the old context only. */
  lemma ReencryptedDiffers(c: Credential, crypto: Crypto)
    requires Lawful(crypto) && ContextBound(crypto) && Transform(c, crypto, true).Success?
    requires c.bundle.Present() == 5 && SourceContext(c) != c.id
    ensures MigrateCredential(crypto, c) != c
  {
    TransformDry(c, crypto);
    var e, b := Opened(c, crypto);
    assert ContextOf(c, SourceContext(c)) != ContextOf(c, c.id);
    assert crypto.decrypt(e, ContextOf(c, SourceContext(c))).None?;
  }

  lemma TouchedIsChanged(c: Credential, crypto: Crypto)
    requires Lawful(crypto) && ContextBound(crypto) && Transform(c, crypto, true).Success?
    ensures Touched(Plan(c, crypto)) <==> MigrateCredential(crypto, c) != c
  {
    TransformDry(c, crypto);
    if c.bundle.Present() == 5 && SourceContext(c) != c.id {
      ReencryptedDiffers(c, crypto);
    }
  }

  lemma CredentialsChanged(credentials: seq<Credential>, crypto: Crypto)
    requires Lawful(crypto) && ContextBound(crypto) && forall c :: c in credentials ==> Transform(c, crypto, true).Success?
    ensures TallyCredentials(crypto, credentials).changed == Count(credentials, c => MigrateCredential(crypto, c) != c)
  {
    forall c | c in credentials ensures Touched(Plan(c, crypto)) == (MigrateCredential(crypto, c) != c) {
      TouchedIsChanged(c, crypto);
    }
    FilterSame(credentials, c => Touched(Plan(c, crypto)), c => MigrateCredential(crypto, c) != c);
  }

  lemma ProvidersChanged(s: State)
    ensures TallyProviders(s.credentials, Selected(s).providers).changed
         == Count(s.providers, p => MigrateProvider(s.credentials, p) != p)
  {
    FilterFilter(s.providers, IsManaged, p => ProviderChanges(s.credentials, p), p => MigrateProvider(s.credentials, p) != p);
  }

  lemma HistoriesChanged(s: State)
    ensures TallyAttempts(s.attempts).changed == Count(s.attempts, a => MigrateAttempt(a) != a)
    ensures Count(s.jobs, j => JobChanges(s.credentials, j)) == Count(s.jobs, j => MigrateJob(s.credentials, j) != j)
  {
    FilterSame(s.attempts, AttemptChanges, a => MigrateAttempt(a) != a);
    FilterSame(s.jobs, j => JobChanges(s.credentials, j), j => MigrateJob(s.credentials, j) != j);
  }

  /** The receipt's changed-row numbers are the numbers of rows that differ afterwards. */
  lemma ReportCountsChanges(s: State, crypto: Crypto)
    requires Lawful(crypto) && ContextBound(crypto) && Clean(s, crypto, true)
    ensures var r := Report(Selected(s), true, crypto);
      && r.providers.changed == Count(s.providers, p => MigrateProvider(s.credentials, p) != p)
      && r.credentials.changed == Count(s.credentials, c => MigrateCredential(crypto, c) != c)
      && r.attempts.changed == Count(s.attempts, a => MigrateAttempt(a) != a)
      && r.revocationRowsChanged == Count(s.jobs, j => MigrateJob(s.credentials, j) != j)
  {
    CleanRows(s, crypto, true);
    ProvidersChanged(s);
    CredentialsChanged(s.credentials, crypto);
    HistoriesChanged(s);
  }

  /** `b` is `a` after the run: ended if it was active, and either untouched or one revision on without secrets. */
  predicate AttemptClosed(a: Attempt, b: Attempt) {
    && b.id == a.id && b.providerId == a.providerId && b.adapter == a.adapter && b.targetCredentialId == a.targetCredentialId
    && !IsActive(b) && b.contextId == Some(b.id)
    && (IsActive(a) ==> b.status.Cancelled? && b.failureCode.None?)
    && (!IsActive(a) ==> b.status == a.status && b.failureCode == a.failureCode)
    && (b == a || (b.revision == a.revision + 1 && b.bundle == NO_BUNDLE && b.flow.None?))
    && (b == a <==> !IsActive(a) && a.contextId == Some(a.id))
  }

  lemma AttemptRow(a: Attempt)
    ensures AttemptClosed(a, MigrateAttempt(a))
  {
  }

  lemma AttemptTallies(attempts: seq<Attempt>)
    ensures var tally := TallyAttempts(attempts);
      && tally.terminated == Count(attempts, a => MigrateAttempt(a).status != a.status)
      && tally.backfilled == Count(attempts, a => MigrateAttempt(a).contextId != a.contextId)
      && tally.changed == Count(attempts, a => MigrateAttempt(a).revision != a.revision)
  {
    FilterSame(attempts, IsActive, a => MigrateAttempt(a).status != a.status);
    FilterSame(attempts, ContextMissing, a => MigrateAttempt(a).contextId != a.contextId);
    FilterSame(attempts, AttemptChanges, a => MigrateAttempt(a).revision != a.revision);
  }

  predicate HoldsSecrets(a: Attempt) {
    a.bundle != NO_BUNDLE
  }

  lemma AttemptSecrets(attempts: seq<Attempt>)
    ensures Count(MapRows(attempts, MigrateAttempt), a => HoldsSecrets(a))
         == Count(attempts, a => HoldsSecrets(a) && MigrateAttempt(a) == a)
  {
    FilterMap(attempts, MigrateAttempt, a => HoldsSecrets(a) && MigrateAttempt(a) == a, a => HoldsSecrets(a));
  }

  /** What the attempt counters of the receipt count: the rows whose status changes, those whose context changes, and those
      that move on by a revision. No attempt stays active, and only untouched ones still hold secrets. */
  lemma MigrationClosesAttempts(s: State, crypto: Crypto)
    ensures var t, r := Migrated(s, crypto), Report(Selected(s), true, crypto);
      && r.attempts.terminated == Count(s.attempts, a => MigrateAttempt(a).status != a.status)
      && r.attempts.backfilled == Count(s.attempts, a => MigrateAttempt(a).contextId != a.contextId)
      && r.attempts.changed == Count(s.attempts, a => MigrateAttempt(a).revision != a.revision)
      && Count(t.attempts, a => HoldsSecrets(a)) == Count(s.attempts, a => HoldsSecrets(a) && MigrateAttempt(a) == a)
      && |t.attempts| == |s.attempts|
      && forall i :: 0 <= i < |s.attempts| ==> AttemptClosed(s.attempts[i], t.attempts[i])
  {
    AttemptTallies(s.attempts);
    AttemptSecrets(s.attempts);
    forall i | 0 <= i < |s.attempts| ensures AttemptClosed(s.attempts[i], MigratedAttempts(s)[i]) {
      AttemptRow(s.attempts[i]);
    }
  }

  // ---- The second run ----

  lemma {:induction false} FindMap<T(!new), K(!new)>(rows: seq<T>, key: T -> K, f: T -> T, id: K)
    requires forall x :: x in rows ==> key(f(x)) == key(x)
    ensures Find(MapRows(rows, f), key, id)
         == match Find(rows, key, id) case None => None case Some(x) => Some(f(x))
  {
    if rows != [] {
      var n := |rows| - 1;
      assert MapRows(rows, f)[..n] == MapRows(rows[..n], f);
      assert rows[n] in rows && forall x :: x in rows[..n] ==> x in rows;
      FindMap(rows[..n], key, f, id);
    }
  }

  /** Rows keep id, adapter, status, owner and epoch. */
  lemma FindMigrated(s: State, crypto: Crypto, id: string)
    ensures Find(Migrated(s, crypto).credentials, CredentialKey, id)
         == match Find(s.credentials, CredentialKey, id)
            case None => None
            case Some(c) => Some(MigrateCredential(crypto, c))
  {
    FindMap(s.credentials, CredentialKey, c => MigrateCredential(crypto, c), id);
  }

  /** A migrated row transforms again exactly when its envelope, if any, sits under a trimmed id; then nothing changes. */
  lemma TransformAgain(c: Credential, crypto: Crypto)
    requires Lawful(crypto) && ContextBound(crypto) && Transform(c, crypto, true).Success?
    ensures var d := MigrateCredential(crypto, c);
      && (Transform(d, crypto, true).Success? <==> (c.bundle.Present() == 5 ==> Trimmed(c.id)))
      && (Transform(d, crypto, true).Success? ==>
            && MigrateCredential(crypto, d) == d
            && NewHash(d, crypto) == NewHash(c, crypto)
            && !Touched(Plan(d, crypto)))
  {
    var d := MigrateCredential(crypto, c);
    TransformDry(c, crypto);
    TransformApply(d, crypto);
    if c.bundle.Present() == 5 {
      TrimIsTrimmed(c.id);
      var e, b := Opened(c, crypto);
      assert SourceContext(d) == Trim(c.id);
      if Trim(c.id) == c.id {
        TrimmedAgain(c, crypto, e, b);
      } else {
        SourceTrimmed(c);
        assert ContextOf(c, Trim(c.id)) != ContextOf(c, c.id);
        assert crypto.decrypt(e, ContextOf(c, Trim(c.id))).None?;
      }
    }
  }

  lemma TrimmedAgain(c: Credential, crypto: Crypto, e: Envelope, b: TokenBundle)
    requires Lawful(crypto) && Transform(c, crypto, true).Success? && c.bundle.Present() == 5
    requires Trim(c.id) == c.id && c.id != ""
    requires EnvelopeFrom(MigrateCredential(crypto, c).bundle) == Some(e)
    requires crypto.decrypt(e, ContextOf(c, c.id)) == Some(b)
    requires IdentityHash(crypto, c.adapter, b) == NewHash(c, crypto) && NewHash(c, crypto).Some?
    ensures forall apply :: Transform(MigrateCredential(crypto, c), crypto, apply)
                         == Success(Transformed(None, NewHash(c, crypto), false, false, false))
  {
    TransformDry(c, crypto);
    var d := MigrateCredential(crypto, c);
    assert SourceContext(d) == c.id;
    assert d.identityHash == NewHash(c, crypto);
  }

  lemma SourceTrimmed(c: Credential)
    ensures SourceContext(c) == c.id ==> Trim(c.id) == c.id
  {
    if c.contextId.Some? { TrimIsTrimmed(c.contextId.value); }
    if c.providerId.Some? { TrimIsTrimmed(c.providerId.value); }
  }

  lemma ProviderAgain(s: State, crypto: Crypto, p: Provider)
    requires p in s.providers && IsManaged(p) && ProviderFault(s.credentials, p).None?
    ensures var t, q := Migrated(s, crypto), MigrateProvider(s.credentials, p);
      && ProviderFault(t.credentials, q).None?
      && BindProvider(t.credentials, q) == q
      && DesiredMode(t.credentials, q) == DesiredMode(s.credentials, p)
      && DesiredPointer(t.credentials, q) == DesiredPointer(s.credentials, p)
  {
    var pointer := DesiredPointer(s.credentials, p);
    if Truthy(pointer) {
      FindMigrated(s, crypto, pointer.value);
    }
  }

  lemma JobAgain(s: State, crypto: Crypto, j: Job)
    requires JobFault(s.credentials, j).None?
    ensures var t, k := Migrated(s, crypto), MigrateJob(s.credentials, j);
      && JobFault(t.credentials, k).None?
      && MigrateJob(t.credentials, k) == k
      && JobAccount(t.credentials, k) == JobAccount(s.credentials, j)
  {
    FindMigrated(s, crypto, j.sourceRecordId);
  }

  /** Every stored envelope sits under an id without surrounding white space. */
  ghost predicate TrimmedIds(s: State) {
    forall c :: c in s.credentials && c.bundle.Present() == 5 ==> Trimmed(c.id)
  }

  lemma AgainBindings(s: State, crypto: Crypto)
    requires Clean(s, crypto, true)
    ensures BindingsFault(Migrated(s, crypto)).None?
  {
    CleanRows(s, crypto, true);
    var t := Migrated(s, crypto);
    CountZero(t.jobs, IsUnfinished);
    CountZero(t.jobs, HasMaterial);
    forall j | j in t.jobs ensures !IsUnfinished(j) && !HasMaterial(j) {
      var i :| 0 <= i < |s.jobs| && t.jobs[i] == j;
      assert s.jobs[i] in s.jobs;
    }
    SameOwners(s, crypto);
    forall q | q in t.providers && IsManaged(q) ensures ProviderFault(t.credentials, q).None? {
      var i :| 0 <= i < |s.providers| && t.providers[i] == q;
      ProviderAgain(s, crypto, s.providers[i]);
    }
  }

  lemma SameOwners(s: State, crypto: Crypto)
    requires DistinctKeys(s.credentials, OwnerKey)
    ensures DistinctKeys(Migrated(s, crypto).credentials, OwnerKey)
  {
    var t := Migrated(s, crypto);
    forall i, j | 0 <= i < j < |t.credentials| && OwnerKey(t.credentials[i]).Some?
      ensures OwnerKey(t.credentials[i]) != OwnerKey(t.credentials[j])
    {
      assert OwnerKey(t.credentials[i]) == OwnerKey(s.credentials[i]);
      assert OwnerKey(t.credentials[j]) == OwnerKey(s.credentials[j]);
    }
  }

  lemma AgainLegacyKeys(s: State, crypto: Crypto)
    requires Lawful(crypto) && Clean(s, crypto, true)
    ensures DistinctKeys(Migrated(s, crypto).credentials, LegacyKey)
  {
    CleanRows(s, crypto, true);
    var t := Migrated(s, crypto);
    forall i, j | 0 <= i < j < |t.credentials| && LegacyKey(t.credentials[i]).Some?
      ensures LegacyKey(t.credentials[i]) != LegacyKey(t.credentials[j])
    {
      MigratedCredentialValid(s.credentials[i], crypto);
      MigratedCredentialValid(s.credentials[j], crypto);
    }
  }

  lemma AgainNewKey(c: Credential, crypto: Crypto)
    requires Lawful(crypto) && ContextBound(crypto) && Transform(c, crypto, true).Success?
    requires c.bundle.Present() == 5 ==> Trimmed(c.id)
    ensures NewKey(MigrateCredential(crypto, c), crypto) == NewKey(c, crypto)
  {
    TransformAgain(c, crypto);
  }

  lemma AgainNewKeys(s: State, crypto: Crypto)
    requires Lawful(crypto) && ContextBound(crypto) && Clean(s, crypto, true) && TrimmedIds(s)
    ensures DistinctKeys(Migrated(s, crypto).credentials, c => NewKey(c, crypto))
  {
    CleanRows(s, crypto, true);
    var t := Migrated(s, crypto);
    forall i, j | 0 <= i < j < |t.credentials| && NewKey(t.credentials[i], crypto).Some?
      ensures NewKey(t.credentials[i], crypto) != NewKey(t.credentials[j], crypto)
    {
      assert s.credentials[i] in s.credentials && s.credentials[j] in s.credentials;
      AgainNewKey(s.credentials[i], crypto);
      AgainNewKey(s.credentials[j], crypto);
    }
  }

  lemma AgainJobs(s: State, crypto: Crypto)
    requires forall j :: j in s.jobs ==> JobFault(s.credentials, j).None?
    ensures var t := Migrated(s, crypto); FirstFault(t.jobs, j => JobFault(t.credentials, j)).None?
  {
    var t := Migrated(s, crypto);
    forall k | k in t.jobs ensures JobFault(t.credentials, k).None? {
      var i :| 0 <= i < |s.jobs| && t.jobs[i] == k;
      assert s.jobs[i] in s.jobs;
      JobAgain(s, crypto, s.jobs[i]);
    }
  }

  lemma AgainRows(s: State, crypto: Crypto)
    requires Lawful(crypto) && ContextBound(crypto) && AllTransform(s.credentials, crypto, true)
    ensures AllTransform(Migrated(s, crypto).credentials, crypto, true) <==> TrimmedIds(s)
  {
    var t := Migrated(s, crypto);
    forall i | 0 <= i < |s.credentials|
      ensures Transform(t.credentials[i], crypto, true).Success? <==>
              (s.credentials[i].bundle.Present() == 5 ==> Trimmed(s.credentials[i].id))
    {
      assert s.credentials[i] in s.credentials;
      TransformAgain(s.credentials[i], crypto);
    }
    AgainTransforms(s, t, crypto);
  }

  /** Whether the second run gets through is decided by the ids alone. */
  lemma AgainClean(s: State, crypto: Crypto)
    requires Lawful(crypto) && ContextBound(crypto) && Clean(s, crypto, true)
    ensures Clean(Migrated(s, crypto), crypto, true) <==> TrimmedIds(s)
  {
    CleanRows(s, crypto, true);
    AgainBindings(s, crypto);
    AgainLegacyKeys(s, crypto);
    if TrimmedIds(s) {
      AgainNewKeys(s, crypto);
    }
    CredentialsAccepted(Migrated(s, crypto).credentials, crypto, true);
    AgainRows(s, crypto);
    AgainJobs(s, crypto);
  }

  lemma AgainTransforms(s: State, t: State, crypto: Crypto)
    requires |t.credentials| == |s.credentials|
    requires forall i :: 0 <= i < |s.credentials| ==>
               (Transform(t.credentials[i], crypto, true).Success? <==>
                (s.credentials[i].bundle.Present() == 5 ==> Trimmed(s.credentials[i].id)))
    ensures (forall d :: d in t.credentials ==> Transform(d, crypto, true).Success?) <==> TrimmedIds(s)
  {
    if forall d :: d in t.credentials ==> Transform(d, crypto, true).Success? {
      forall c | c in s.credentials && c.bundle.Present() == 5 ensures Trimmed(c.id) {
        var i :| 0 <= i < |s.credentials| && s.credentials[i] == c;
        assert t.credentials[i] in t.credentials;
      }
    }
  }

  lemma AgainProvidersSame(s: State, crypto: Crypto)
    requires Clean(s, crypto, true)
    ensures MigratedProviders(Migrated(s, crypto)) == Migrated(s, crypto).providers
  {
    var t := Migrated(s, crypto);
    CleanRows(s, crypto, true);
    forall i | 0 <= i < |s.providers| ensures MigrateProvider(t.credentials, t.providers[i]) == t.providers[i] {
      assert s.providers[i] in s.providers;
      if IsManaged(s.providers[i]) {
        ProviderAgain(s, crypto, s.providers[i]);
      }
    }
  }

  lemma AgainCredentialsSame(s: State, crypto: Crypto)
    requires Lawful(crypto) && ContextBound(crypto) && Clean(s, crypto, true) && TrimmedIds(s)
    ensures MigratedCredentials(Migrated(s, crypto), crypto) == Migrated(s, crypto).credentials
  {
    var t := Migrated(s, crypto);
    CleanRows(s, crypto, true);
    forall i | 0 <= i < |s.credentials| ensures MigrateCredential(crypto, t.credentials[i]) == t.credentials[i] {
      assert s.credentials[i] in s.credentials;
      TransformAgain(s.credentials[i], crypto);
    }
  }

  lemma AgainJobsSame(s: State, crypto: Crypto)
    requires Clean(s, crypto, true)
    ensures MigratedJobs(Migrated(s, crypto)) == Migrated(s, crypto).jobs
  {
    var t := Migrated(s, crypto);
    CleanRows(s, crypto, true);
    forall i | 0 <= i < |s.jobs| ensures MigrateJob(t.credentials, t.jobs[i]) == t.jobs[i] {
      assert s.jobs[i] in s.jobs;
      JobAgain(s, crypto, s.jobs[i]);
    }
  }

  lemma AgainSame(s: State, crypto: Crypto)
    requires Lawful(crypto) && ContextBound(crypto) && Clean(s, crypto, true) && TrimmedIds(s)
    ensures Migrated(Migrated(s, crypto), crypto) == Migrated(s, crypto)
  {
    AgainProvidersSame(s, crypto);
    AgainCredentialsSame(s, crypto);
    assert MigratedAttempts(Migrated(s, crypto)) == Migrated(s, crypto).attempts;
    AgainJobsSame(s, crypto);
  }

  lemma AgainProviderEntries(s: State, crypto: Crypto)
    requires Clean(s, crypto, true)
    ensures var t := Migrated(s, crypto);
      MapRows(Selected(t).providers, p => ProviderEntry(t.credentials, p))
      == MapRows(Selected(s).providers, p => ProviderEntry(s.credentials, p))
  {
    var t := Migrated(s, crypto);
    CleanRows(s, crypto, true);
    FilterMap(s.providers, p => MigrateProvider(s.credentials, p), IsManaged, IsManaged);
    forall i | 0 <= i < |Selected(s).providers|
      ensures ProviderEntry(t.credentials, Selected(t).providers[i]) == ProviderEntry(s.credentials, Selected(s).providers[i])
    {
      assert Selected(s).providers[i] in Selected(s).providers;
      ProviderAgain(s, crypto, Selected(s).providers[i]);
    }
  }

  lemma AgainCredentialEntries(s: State, crypto: Crypto)
    requires Lawful(crypto) && ContextBound(crypto) && Clean(s, crypto, true) && TrimmedIds(s)
    ensures MapRows(MigratedCredentials(s, crypto), c => CredentialEntry(crypto, c))
         == MapRows(s.credentials, c => CredentialEntry(crypto, c))
  {
    CleanRows(s, crypto, true);
    forall i | 0 <= i < |s.credentials|
      ensures CredentialEntry(crypto, MigratedCredentials(s, crypto)[i]) == CredentialEntry(crypto, s.credentials[i])
    {
      assert s.credentials[i] in s.credentials;
      TransformAgain(s.credentials[i], crypto);
    }
  }

  lemma AgainJobEntries(s: State, crypto: Crypto)
    requires Clean(s, crypto, true)
    ensures MapRows(MigratedJobs(s), j => JobEntry(MigratedCredentials(s, crypto), j))
         == MapRows(s.jobs, j => JobEntry(s.credentials, j))
  {
    CleanRows(s, crypto, true);
    forall i | 0 <= i < |s.jobs|
      ensures JobEntry(MigratedCredentials(s, crypto), MigratedJobs(s)[i]) == JobEntry(s.credentials, s.jobs[i])
    {
      assert s.jobs[i] in s.jobs;
      JobAgain(s, crypto, s.jobs[i]);
    }
  }

  lemma AgainAttemptEntries(s: State)
    ensures MapRows(MigratedAttempts(s), AttemptEntry) == MapRows(s.attempts, AttemptEntry)
  {
  }

  lemma AgainEntries(s: State, crypto: Crypto)
    requires Lawful(crypto) && ContextBound(crypto) && Clean(s, crypto, true) && TrimmedIds(s)
    ensures Entries(Selected(Migrated(s, crypto)), crypto) == Entries(Selected(s), crypto)
  {
    AgainProviderEntries(s, crypto);
    AgainCredentialEntries(s, crypto);
    AgainAttemptEntries(s);
    AgainJobEntries(s, crypto);
  }

  /** Rows that the migration maps to themselves are not counted as changed. */
  lemma FixpointTallies(t: State, crypto: Crypto)
    requires MigratedProviders(t) == t.providers && MigratedJobs(t) == t.jobs
    ensures TallyProviders(t.credentials, Selected(t).providers).changed == 0
    ensures Count(t.jobs, j => JobChanges(t.credentials, j)) == 0
  {
    CountZero(Selected(t).providers, p => ProviderChanges(t.credentials, p));
    forall q | q in Selected(t).providers ensures !ProviderChanges(t.credentials, q) {
      var i :| 0 <= i < |t.providers| && t.providers[i] == q;
      assert MigratedProviders(t)[i] == q;
    }
    CountZero(t.jobs, j => JobChanges(t.credentials, j));
    forall k | k in t.jobs ensures !JobChanges(t.credentials, k) {
      var i :| 0 <= i < |t.jobs| && t.jobs[i] == k;
      assert MigratedJobs(t)[i] == k;
    }
  }

  lemma AgainUntouched(s: State, crypto: Crypto)
    requires Lawful(crypto) && ContextBound(crypto) && Clean(s, crypto, true) && TrimmedIds(s)
    ensures TallyCredentials(crypto, MigratedCredentials(s, crypto)).changed == 0
  {
    var credentials := MigratedCredentials(s, crypto);
    CleanRows(s, crypto, true);
    CountZero(credentials, c => Touched(Plan(c, crypto)));
    forall d | d in credentials ensures !Touched(Plan(d, crypto)) {
      var i :| 0 <= i < |s.credentials| && credentials[i] == d;
      assert s.credentials[i] in s.credentials;
      TransformAgain(s.credentials[i], crypto);
    }
  }

  lemma AgainUnchanged(s: State, crypto: Crypto)
    requires Lawful(crypto) && ContextBound(crypto) && Clean(s, crypto, true) && TrimmedIds(s)
    ensures Report(Selected(Migrated(s, crypto)), true, crypto).changedRows == 0
  {
    AgainSame(s, crypto);
    AgainUntouched(s, crypto);
    FixpointTallies(Migrated(s, crypto), crypto);
    CountZero(MigratedAttempts(s), AttemptChanges);
  }

  /** Re-running a committed migration succeeds exactly when every stored envelope sits under a trimmed id; it then
      changes no row and reports the same fingerprint. */
  lemma RerunIsNoOp(s: State, crypto: Crypto)
    requires Lawful(crypto) && ContextBound(crypto) && Outcome(s, true, crypto).Success?
    ensures Outcome(Migrated(s, crypto), true, crypto).Success? <==> TrimmedIds(s)
    ensures TrimmedIds(s) ==>
              && Migrated(Migrated(s, crypto), crypto) == Migrated(s, crypto)
              && Outcome(Migrated(s, crypto), true, crypto).value.changedRows == 0
              && Outcome(Migrated(s, crypto), true, crypto).value.fingerprint == Outcome(s, true, crypto).value.fingerprint
  {
    AgainClean(s, crypto);
    if TrimmedIds(s) {
      AgainSame(s, crypto);
      AgainEntries(s, crypto);
      AgainUnchanged(s, crypto);
    }
  }
}
