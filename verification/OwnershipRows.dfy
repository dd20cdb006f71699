/** The ownership cutover in terms of columns: what the planner accepts, and what every row becomes. */
module OwnershipRows {
  import opened Sequences
  import opened CanonicalJson
  import opened Tables
  import opened Envelopes
  import opened OwnedCredentials
  import opened OwnershipTheorems
  import opened CutoverTheorems

  // ---- What the planner accepts ----

  ghost predicate NamesProvider(s: State, id: string, adapter: Adapter) {
    exists p :: p in s.providers && p.id == id && p.adapter == adapter
  }

  /** The five envelope columns are complete, of version 1, and open in the row's own context. */
  predicate OpensHere(c: Credential, crypto: Crypto) {
    && c.bundle.formatVersion == Some(1)
    && c.bundle.keyId.Some? && c.bundle.ciphertext.Some? && c.bundle.nonce.Some? && c.bundle.tag.Some?
    && crypto.decrypt(Envelope(1, c.bundle.keyId.value, c.bundle.ciphertext.value, c.bundle.nonce.value, c.bundle.tag.value),
                      Context(c.id, c.adapter, c.id, c.revision)).Some?
  }

  /** A credential row the planner has nothing against: its owner, if it names one, is a selected Provider of its adapter, its
      context is its own id, a connected one has an identity and an envelope, and an envelope opens. */
  ghost predicate CredentialSound(s: State, crypto: Crypto, validateEnvelopes: bool, c: Credential) {
    && (Truthy(c.providerId) ==> NamesProvider(s, c.providerId.value, c.adapter))
    && c.contextId == Some(c.id)
    && (c.status.Connected? ==> Truthy(c.identityHash))
    && (Truthy(c.identityHash) ==> IsIdentityHash(c.identityHash.value))
    && (validateEnvelopes ==> (c.bundle == NO_BUNDLE && !c.status.Connected?) || OpensHere(c, crypto))
  }

  ghost predicate CredentialsSound(s: State, crypto: Crypto, validateEnvelopes: bool) {
    forall c :: c in s.credentials ==> CredentialSound(s, crypto, validateEnvelopes, c)
  }

  lemma EnvelopeAccepted(c: Credential, crypto: Crypto)
    requires c.contextId == Some(c.id)
    ensures EnvelopeFault(c, crypto).None? <==> (c.bundle == NO_BUNDLE && !c.status.Connected?) || OpensHere(c, crypto)
  {
  }

  lemma OwnerAccepted(s: State, c: Credential)
    requires UniqueBy(s.providers, ProviderKey) && Truthy(c.providerId)
    ensures NamesProvider(s, c.providerId.value, c.adapter) <==>
            var owner := Find(s.providers, ProviderKey, c.providerId.value); owner.Some? && owner.value.adapter == c.adapter
  {
    if NamesProvider(s, c.providerId.value, c.adapter) {
      var p :| p in s.providers && p.id == c.providerId.value && p.adapter == c.adapter;
      FindUnique(s.providers, ProviderKey, p);
    }
  }

  lemma CredentialAccepted(s: State, crypto: Crypto, validateEnvelopes: bool, c: Credential)
    requires UniqueBy(s.providers, ProviderKey)
    ensures CredentialFault(s.providers, crypto, validateEnvelopes, c).None? <==> CredentialSound(s, crypto, validateEnvelopes, c)
  {
    if Truthy(c.providerId) {
      OwnerAccepted(s, c);
    }
    if c.contextId == Some(c.id) {
      EnvelopeAccepted(c, crypto);
    }
  }

  /** The Provider in use `p` uses the account `id`: pinned to it, or through the default row of its adapter. */
  ghost predicate Uses(s: State, p: Provider, id: string) {
    && !p.status.Deleted? && id != ""
    && if p.mode == Some(Pinned) then p.credentialId == Some(id)
       else exists d :: d in s.defaults && d.adapter == p.adapter && d.credentialId == id
  }

  /** A Provider in use has a mode, no pointer of its own when it follows the default, and uses live accounts only. */
  ghost predicate UseSound(s: State, p: Provider) {
    p.status.Deleted?
    || (&& p.mode.Some?
        && (p.mode == Some(FollowDefault) ==> p.credentialId.None?)
        && forall id :: Uses(s, p, id) ==> LiveAccount(s, id, p.adapter))
  }

  /** No account is used by two Providers. */
  ghost predicate OneUser(s: State) {
    forall p, q, id :: p in s.providers && q in s.providers && Uses(s, p, id) && Uses(s, q, id) ==> p == q
  }

  /** Every live account is used. */
  ghost predicate EveryUsed(s: State) {
    forall c :: c in s.credentials && IsLive(c) ==> exists p :: p in s.providers && Uses(s, p, c.id)
  }

  lemma UsesClaims(s: State, p: Provider, id: string)
    requires UniqueBy(s.defaults, DefaultKey)
    ensures Uses(s, p, id) <==> Claims(s.defaults, p, id)
  {
    if exists d :: d in s.defaults && d.adapter == p.adapter && d.credentialId == id {
      var d :| d in s.defaults && d.adapter == p.adapter && d.credentialId == id;
      FindUnique(s.defaults, DefaultKey, d);
    }
  }

  lemma UseAccepted(s: State, p: Provider)
    requires UniqueBy(s.defaults, DefaultKey)
    ensures UseSound(s, p) <==> BindingSound(s, p)
  {
    forall id ensures Uses(s, p, id) <==> Claims(s.defaults, p, id) {
      UsesClaims(s, p, id);
    }
    if !p.status.Deleted? && Truthy(Binding(s.defaults, p)) {
      assert Claims(s.defaults, p, Binding(s.defaults, p).value);
    }
  }

  lemma UsersAccepted(s: State)
    requires UniqueBy(s.defaults, DefaultKey)
    ensures OneUser(s) <==> Injective(s)
    ensures EveryUsed(s) <==> Covering(s)
  {
    forall p, id ensures Uses(s, p, id) <==> Claims(s.defaults, p, id) {
      UsesClaims(s, p, id);
    }
  }

  /** The planner accepts exactly the snapshots, by their columns, in which Providers in use and live accounts are paired one to
      one and every row is in order. */
  lemma PlannerAcceptsOneToOne(s: State, crypto: Crypto, validateEnvelopes: bool)
    ensures PlanFault(s, crypto, validateEnvelopes).None? <==>
            && Settled(s)
            && DefaultsSound(s)
            && CredentialsSound(s, crypto, validateEnvelopes)
            && (forall p :: p in s.providers ==> UseSound(s, p))
            && OneUser(s)
            && EveryUsed(s)
  {
    PlannerAcceptsRows(s, crypto, validateEnvelopes);
    if Settled(s) && DefaultsSound(s) {
      forall c | c in s.credentials
        ensures CredentialFault(s.providers, crypto, validateEnvelopes, c).None? <==> CredentialSound(s, crypto, validateEnvelopes, c)
      {
        CredentialAccepted(s, crypto, validateEnvelopes, c);
      }
      forall p | p in s.providers ensures UseSound(s, p) <==> BindingSound(s, p) {
        UseAccepted(s, p);
      }
      UsersAccepted(s);
    }
  }

  // ---- What every row becomes ----

  /** `q` is the Provider row `p` after the cutover: pinned, to what it was effectively bound to; a tombstone to nothing. */
  ghost predicate ProviderCut(s: State, p: Provider, q: Provider) {
    if !IsManaged(p) then q == p
    else
      && q == p.(mode := Some(Pinned), credentialId := q.credentialId)
      && (p.status.Deleted? ==> q.credentialId.None?)
      && (!p.status.Deleted? && p.mode == Some(Pinned) ==> q.credentialId == p.credentialId)
      && (!p.status.Deleted? && p.mode != Some(Pinned) ==>
            forall id :: q.credentialId == Some(id) <==> exists d :: d in s.defaults && d.adapter == p.adapter && d.credentialId == id)
  }

  /** `d` is the credential row `c` after the cutover: a live one is owned by the Provider that uses it. */
  ghost predicate CredentialCut(s: State, c: Credential, d: Credential) {
    && d == c.(providerId := d.providerId)
    && (!IsLive(c) ==> d == c)
    && (IsLive(c) ==> exists p :: p in s.providers && IsManaged(p) && Uses(s, p, c.id) && d.providerId == Some(p.id))
  }

  lemma DefaultBinding(s: State, p: Provider, id: string)
    requires UniqueBy(s.defaults, DefaultKey) && p.mode != Some(Pinned)
    ensures Binding(s.defaults, p) == Some(id) <==> exists d :: d in s.defaults && d.adapter == p.adapter && d.credentialId == id
  {
    if exists d :: d in s.defaults && d.adapter == p.adapter && d.credentialId == id {
      var d :| d in s.defaults && d.adapter == p.adapter && d.credentialId == id;
      FindUnique(s.defaults, DefaultKey, d);
    }
  }

  lemma ProviderIsCut(s: State, p: Provider)
    requires UniqueBy(s.defaults, DefaultKey)
    ensures ProviderCut(s, p, CutProvider(s.defaults, p))
  {
    if p.mode != Some(Pinned) {
      forall id
        ensures Binding(s.defaults, p) == Some(id) <==> exists d :: d in s.defaults && d.adapter == p.adapter && d.credentialId == id
      {
        DefaultBinding(s, p, id);
      }
    }
  }

  lemma CredentialIsCut(s: State, crypto: Crypto, c: Credential)
    requires Accepted(Selected(s), crypto) && UniqueBy(s.defaults, DefaultKey) && c in s.credentials
    ensures CredentialCut(s, c, CutCredential(Selected(s), c))
  {
    if IsLive(c) {
      var p := OwnerOf(Selected(s), crypto, c);
      UsesClaims(s, p, c.id);
    }
  }

  lemma AcceptedDefaults(s: State, crypto: Crypto)
    requires Accepted(Selected(s), crypto)
    ensures UniqueBy(s.defaults, DefaultKey)
  {
    PlannerAcceptsRows(Selected(s), crypto, true);
  }

  /** Row by row, what a cutover of an accepted snapshot writes; defaults are emptied and histories stay. */
  lemma CutoverRows(s: State, crypto: Crypto)
    requires Accepted(Selected(s), crypto)
    ensures var t := Cutover(s);
      && |t.providers| == |s.providers| && |t.credentials| == |s.credentials|
      && (forall i :: 0 <= i < |s.providers| ==> ProviderCut(s, s.providers[i], t.providers[i]))
      && (forall i :: 0 <= i < |s.credentials| ==> CredentialCut(s, s.credentials[i], t.credentials[i]))
      && t.defaults == [] && t.attempts == s.attempts && t.jobs == s.jobs
  {
    AcceptedDefaults(s, crypto);
    forall i | 0 <= i < |s.providers| ensures ProviderCut(s, s.providers[i], Cutover(s).providers[i]) {
      ProviderIsCut(s, s.providers[i]);
    }
    forall i | 0 <= i < |s.credentials| ensures CredentialCut(s, s.credentials[i], Cutover(s).credentials[i]) {
      CredentialIsCut(s, crypto, s.credentials[i]);
    }
  }

  // ---- The verifier ----

  /** Owner and account name each other, across one adapter, and the account is live. */
  predicate Paired(p: Provider, c: Credential) {
    p.credentialId == Some(c.id) && c.providerId == Some(p.id) && p.adapter == c.adapter && !c.status.Disconnected?
  }

  /** The verifier passes exactly the tables in which every managed Provider is pinned, to nothing or to its paired account,
      every live account is named by the Provider it names, owners exist, and nothing is left to follow or to finish. */
  lemma VerifierTells(t: State)
    ensures Verified(t) <==>
            && (forall p :: p in t.providers && IsManaged(p) ==>
                  p.mode == Some(Pinned) && (p.credentialId.Some? ==> exists c :: c in t.credentials && Paired(p, c)))
            && (forall c :: c in t.credentials && !c.status.Disconnected? ==> exists p :: p in t.providers && Paired(p, c))
            && (forall c :: c in t.credentials && c.providerId.Some? ==> NamesProvider(t, c.providerId.value, c.adapter))
            && t.defaults == []
            && (forall a :: a in t.attempts ==> !a.status.Starting? && !a.status.Pending?)
            && (forall j :: j in t.jobs ==> j.status.JobSucceeded? || j.status.JobUnsupported?)
  {
    CountZero(t.providers, p => InvalidProvider(t, p));
    CountZero(t.credentials, c => OwnerlessLive(t, c));
    CountZero(t.credentials, c => BadProvenance(t, c));
    CountZero(t.attempts, IsActive);
    CountZero(t.jobs, IsUnfinished);
    forall p | p in t.providers
      ensures InvalidProvider(t, p) <==>
              IsManaged(p) && !(p.mode == Some(Pinned) && (p.credentialId.Some? ==> exists c :: c in t.credentials && Paired(p, c)))
    {
      InvalidIsUnpaired(t, p);
    }
    forall c | c in t.credentials
      ensures OwnerlessLive(t, c) <==> !c.status.Disconnected? && !exists p :: p in t.providers && Paired(p, c)
    {
      OwnerlessIsUnpaired(t, c);
    }
    forall c | c in t.credentials
      ensures BadProvenance(t, c) <==> c.providerId.Some? && !NamesProvider(t, c.providerId.value, c.adapter)
    {
    }
  }

  lemma InvalidIsUnpaired(t: State, p: Provider)
    ensures InvalidProvider(t, p) <==>
            IsManaged(p) && !(p.mode == Some(Pinned) && (p.credentialId.Some? ==> exists c :: c in t.credentials && Paired(p, c)))
  {
    forall c ensures Holds(p, c) <==> Paired(p, c) {
    }
  }

  lemma OwnerlessIsUnpaired(t: State, c: Credential)
    ensures OwnerlessLive(t, c) <==> !c.status.Disconnected? && !exists p :: p in t.providers && Paired(p, c)
  {
    if !c.status.Disconnected? {
      forall p: Provider ensures c.providerId == Some(p.id) && p.adapter == c.adapter && p.credentialId == Some(c.id) <==> Paired(p, c) {
      }
    }
  }

  // ---- The receipt and the fingerprint ----

  predicate ProviderDiffers(p: Provider, q: Provider) { q != p }

  predicate CredentialDiffers(c: Credential, d: Credential) { d != c }

  predicate HasPointer(q: Provider) { IsManaged(q) && q.credentialId.Some? }

  predicate NoPointer(q: Provider) { IsManaged(q) && q.credentialId.None? }

  lemma ChangesTell(s: State)
    ensures var t, plan := Cutover(s), PlanOf(Selected(s));
      && plan.providerRowsChanged == Differing(s.providers, t.providers, ProviderDiffers)
      && plan.credentialRowsChanged == Differing(s.credentials, t.credentials, CredentialDiffers)
  {
    PlanCountsChanges(s);
    CountIsDiffering(s.providers, p => CutProvider(s.defaults, p), p => CutProvider(s.defaults, p) != p, ProviderDiffers);
    CountIsDiffering(s.credentials, c => CutCredential(Selected(s), c), c => CutCredential(Selected(s), c) != c, CredentialDiffers);
  }

  lemma PointersTell(s: State)
    ensures var t, plan := Cutover(s), PlanOf(Selected(s));
      && plan.providersDirectBound == Count(t.providers, HasPointer)
      && plan.providersWithoutCredential == Count(t.providers, NoPointer)
  {
    var rows, cut := Selected(s).providers, (p: Provider) => CutProvider(s.defaults, p);
    FilterMap(rows, p => TargetOf(s.defaults, p), p => HasPointer(CutProvider(s.defaults, p)), (t: ProviderTarget) => t.credentialId.Some?);
    FilterMap(rows, p => TargetOf(s.defaults, p), p => NoPointer(CutProvider(s.defaults, p)), (t: ProviderTarget) => t.credentialId.None?);
    FilterFilter(s.providers, IsManaged, p => HasPointer(CutProvider(s.defaults, p)), p => HasPointer(CutProvider(s.defaults, p)));
    FilterFilter(s.providers, IsManaged, p => NoPointer(CutProvider(s.defaults, p)), p => NoPointer(CutProvider(s.defaults, p)));
    FilterMap(s.providers, cut, p => HasPointer(CutProvider(s.defaults, p)), HasPointer);
    FilterMap(s.providers, cut, p => NoPointer(CutProvider(s.defaults, p)), NoPointer);
  }

  /** Every number of a receipt, dry or applied, over the tables before and after. */
  lemma ReceiptTells(s: State, apply: bool, crypto: Crypto)
    requires Outcome(s, apply, crypto).Success?
    ensures var r, t := Outcome(s, apply, crypto).value, Cutover(s);
      && r.applied == apply
      && r.providerRows == Count(s.providers, IsManaged) && r.credentialRows == |s.credentials|
      && r.defaultRows == |s.defaults| && r.attemptRows == |s.attempts| && r.revocationJobRows == |s.jobs|
      && r.sourceRowCount == r.providerRows + r.credentialRows + r.defaultRows + r.attemptRows + r.revocationJobRows
      && r.providerRowsChanged == Differing(s.providers, t.providers, ProviderDiffers)
      && r.credentialRowsChanged == Differing(s.credentials, t.credentials, CredentialDiffers)
      && r.defaultRowsChanged == |s.defaults|
      && r.changedRows == r.providerRowsChanged + r.credentialRowsChanged + r.defaultRowsChanged
      && r.providersDirectBound == Count(t.providers, HasPointer)
      && r.providersWithoutCredential == Count(t.providers, NoPointer)
      && r.liveCredentialRows == Count(t.credentials, (d: Credential) => !d.status.Disconnected?)
      && r.disconnectedCredentialRows == Count(t.credentials, (d: Credential) => d.status.Disconnected?)
  {
    ChangesTell(s);
    PointersTell(s);
    CredentialCounts(Selected(s), crypto);
    LiveStays(s);
  }

  lemma LiveStays(s: State)
    ensures Count(Cutover(s).credentials, (d: Credential) => !d.status.Disconnected?) == Count(s.credentials, IsLive)
    ensures Count(Cutover(s).credentials, (d: Credential) => d.status.Disconnected?) == Count(s.credentials, (c: Credential) => !IsLive(c))
  {
    var cut := (c: Credential) => CutCredential(Selected(s), c);
    FilterMap(s.credentials, cut, IsLive, (d: Credential) => !d.status.Disconnected?);
    FilterMap(s.credentials, cut, (c: Credential) => !IsLive(c), (d: Credential) => d.status.Disconnected?);
  }

  /** The columns of the written rows that are fingerprinted. */
  function ProviderColumns(q: Provider): Entry {
    [Str("provider"), Str(q.id), if q.credentialId.Some? then Str(q.credentialId.value) else Null]
  }

  function CredentialColumns(d: Credential): Entry {
    [Str("credential"), Str(d.id), Str(d.adapter.Name()), Str(d.status.Name()), Num(d.authEpoch), Num(d.revision),
     if d.providerId.Some? then Str(d.providerId.value) else Null, if d.identityHash.Some? then Str(d.identityHash.value) else Null]
  }

  function AttemptColumns(a: Attempt): Entry {
    [Str("attempt"), Str(a.id), Str(a.status.Name())]
  }

  function JobColumns(j: Job): Entry {
    [Str("revocation"), Str(j.id), Str(j.status.Name())]
  }

  function Columns(t: State): seq<Entry> {
    MapRows(Filter(t.providers, IsManaged), ProviderColumns) + MapRows(t.credentials, CredentialColumns)
    + MapRows(t.attempts, AttemptColumns) + MapRows(t.jobs, JobColumns)
  }

  lemma ProviderEntries(s: State)
    ensures MapRows(ProviderTargets(Selected(s)), ProviderEntry) == MapRows(Filter(Cutover(s).providers, IsManaged), ProviderColumns)
  {
    var rows := Selected(s).providers;
    SelectedCutover(s);
    forall i | 0 <= i < |rows|
      ensures ProviderEntry(ProviderTargets(Selected(s))[i]) == ProviderColumns(CutProvider(s.defaults, rows[i]))
    {
      assert rows[i] in rows;
    }
  }

  lemma EntriesAreColumns(s: State)
    ensures Entries(Selected(s)) == Columns(Cutover(s))
  {
    ProviderEntries(s);
    MapComposed(s.credentials, c => CutCredential(Selected(s), c), CredentialColumns,
                c => CredentialEntry(c, CutCredential(Selected(s), c).providerId));
    MapAgree(s.attempts, AttemptEntry, AttemptColumns);
    MapAgree(s.jobs, JobEntry, JobColumns);
  }

  /** Dry or applied, the fingerprint is taken over the columns the run writes or would write. */
  lemma FingerprintTells(s: State, apply: bool, crypto: Crypto)
    requires Outcome(s, apply, crypto).Success?
    ensures Outcome(s, apply, crypto).value.fingerprint == crypto.sha256(Preimage(Columns(Cutover(s))))
  {
    EntriesAreColumns(s);
  }

  // ---- The reported reason ----

  ghost predicate SharedAccount(s: State, c: Credential) {
    IsLive(c) && exists p, q :: p in s.providers && q in s.providers && p != q && Uses(s, p, c.id) && Uses(s, q, c.id)
  }

  ghost predicate UnusedAccount(s: State, c: Credential) {
    IsLive(c) && forall p :: p in s.providers ==> !Uses(s, p, c.id)
  }

  /** What is wrong with `c` when its check fails for `fault`. */
  ghost predicate CredentialDefect(s: State, crypto: Crypto, c: Credential, fault: Fault) {
    match fault
    case ProvenanceDangling => Truthy(c.providerId) && !NamesProvider(s, c.providerId.value, c.adapter)
    case ContextInvalid => c.contextId != Some(c.id) || (c.bundle.Present() == 5 && c.bundle.formatVersion != Some(1))
    case IdentityMissing => c.status.Connected? && !Truthy(c.identityHash)
    case IdentityHashInvalid => Truthy(c.identityHash) && !IsIdentityHash(c.identityHash.value)
    case EnvelopeIncomplete => c.bundle != NO_BUNDLE && c.bundle.Present() != 5
    case EnvelopeMissing => c.status.Connected? && c.bundle == NO_BUNDLE
    case DecryptionFailed => c.bundle.Present() == 5 && c.bundle.formatVersion == Some(1) && !OpensHere(c, crypto)
    case _ => false
  }

  ghost predicate ProviderDefect(s: State, p: Provider, fault: Fault) {
    && !p.status.Deleted?
    && match fault
       case FollowDefaultPointer => p.mode == Some(FollowDefault) && p.credentialId.Some?
       case BindingModeMissing => p.mode.None?
       case ProviderCredentialDangling =>
         exists id :: Uses(s, p, id) && forall c :: c in s.credentials && c.id == id ==> c.adapter != p.adapter
       case ProviderCredentialNotLive =>
         exists id :: Uses(s, p, id) && exists c :: c in s.credentials && c.id == id && c.adapter == p.adapter && !IsLive(c)
       case _ => false
  }

  ghost predicate DefaultDefect(s: State, d: DefaultAccount, fault: Fault) {
    match fault
    case DefaultDangling => forall c :: c in s.credentials && c.id == d.credentialId ==> c.adapter != d.adapter
    case DefaultNotLive => exists c :: c in s.credentials && c.id == d.credentialId && c.adapter == d.adapter && !IsLive(c)
    case _ => false
  }

  /** What is wrong with the selected rows when the planner reports `fault`. */
  ghost predicate Justified(s: State, crypto: Crypto, fault: Fault) {
    match fault
    case ActiveAttempts(n) => n > 0 && n == Count(s.attempts, (a: Attempt) => a.status.Starting? || a.status.Pending?)
    case NonTerminalJobs(n) => n > 0 && n == Count(s.jobs, (j: Job) => !j.status.Terminal())
    case JobRetainedMaterial => exists j :: j in s.jobs && j.bundle != NO_BUNDLE
    case DuplicateProvider => !UniqueBy(s.providers, ProviderKey)
    case DuplicateCredential => !UniqueBy(s.credentials, CredentialKey)
    case DuplicateDefault => !UniqueBy(s.defaults, DefaultKey)
    case DefaultDangling => exists d :: d in s.defaults && DefaultDefect(s, d, fault)
    case DefaultNotLive => exists d :: d in s.defaults && DefaultDefect(s, d, fault)
    case SharedLive(n) => n > 0 && n == Count(s.credentials, c => SharedAccount(s, c))
    case OrphanLive(n) => n > 0 && n == Count(s.credentials, c => UnusedAccount(s, c))
    case VerificationFailed => false
    case _ =>
      || (exists c :: c in s.credentials && CredentialDefect(s, crypto, c, fault))
      || (exists p :: p in s.providers && ProviderDefect(s, p, fault))
  }

  lemma IntakeReason(s: State, crypto: Crypto)
    requires IntakeFault(s).Some?
    ensures Justified(s, crypto, IntakeFault(s).value)
  {
    CountZero(s.jobs, HasMaterial);
    FilterSame(s.attempts, IsActive, (a: Attempt) => a.status.Starting? || a.status.Pending?);
    FilterSame(s.jobs, IsUnfinished, (j: Job) => !j.status.Terminal());
  }

  lemma DefaultReason(s: State, d: DefaultAccount)
    requires UniqueBy(s.credentials, CredentialKey)
    ensures var found := Find(s.credentials, CredentialKey, d.credentialId);
      && (found.None? || found.value.adapter != d.adapter ==> DefaultDefect(s, d, DefaultDangling))
      && (found.Some? && found.value.adapter == d.adapter && !IsLive(found.value) ==> DefaultDefect(s, d, DefaultNotLive))
  {
    forall c | c in s.credentials && c.id == d.credentialId ensures Find(s.credentials, CredentialKey, d.credentialId) == Some(c) {
      FindUnique(s.credentials, CredentialKey, c);
    }
  }

  lemma {:induction false} DefaultsReason(defaults: seq<DefaultAccount>, s: State, crypto: Crypto)
    requires UniqueBy(s.credentials, CredentialKey) && DefaultsFault(defaults, s.credentials).Some?
    ensures var fault := DefaultsFault(defaults, s.credentials).value;
      if fault.DuplicateDefault? then !UniqueBy(defaults, DefaultKey)
      else (fault.DefaultDangling? || fault.DefaultNotLive?) && exists d :: d in defaults && DefaultDefect(s, d, fault)
  {
    var front, d := defaults[..|defaults| - 1], defaults[|defaults| - 1];
    assert d in defaults && forall x :: x in front ==> x in defaults;
    UniqueExtend(defaults, DefaultKey);
    if DefaultsFault(front, s.credentials).Some? {
      DefaultsReason(front, s, crypto);
    } else {
      DefaultReason(s, d);
    }
  }

  lemma CredentialReason(s: State, crypto: Crypto, validateEnvelopes: bool, c: Credential)
    requires UniqueBy(s.providers, ProviderKey) && CredentialFault(s.providers, crypto, validateEnvelopes, c).Some?
    ensures CredentialDefect(s, crypto, c, CredentialFault(s.providers, crypto, validateEnvelopes, c).value)
  {
    if Truthy(c.providerId) {
      OwnerAccepted(s, c);
    }
  }

  lemma ProviderReason(s: State, p: Provider)
    requires UniqueBy(s.credentials, CredentialKey) && UniqueBy(s.defaults, DefaultKey) && ProviderFault(s, p).Some?
    ensures ProviderDefect(s, p, ProviderFault(s, p).value)
  {
    if Truthy(Binding(s.defaults, p)) {
      var id := Binding(s.defaults, p).value;
      UsesClaims(s, p, id);
      forall c | c in s.credentials && c.id == id ensures Find(s.credentials, CredentialKey, id) == Some(c) {
        FindUnique(s.credentials, CredentialKey, c);
      }
    }
  }

  lemma UserCounts(s: State, c: Credential)
    requires UniqueBy(s.providers, ProviderKey) && UniqueBy(s.defaults, DefaultKey)
    ensures IsLive(c) && Owners(s, c) > 1 <==> SharedAccount(s, c)
    ensures IsLive(c) && Owners(s, c) == 0 <==> UnusedAccount(s, c)
  {
    OneClaimant(s, c.id);
    forall p ensures Uses(s, p, c.id) <==> Claims(s.defaults, p, c.id) {
      UsesClaims(s, p, c.id);
    }
  }

  lemma LiveReason(s: State)
    requires UniqueBy(s.providers, ProviderKey) && UniqueBy(s.defaults, DefaultKey)
    ensures SharedCount(s, s.credentials) == Count(s.credentials, c => SharedAccount(s, c))
    ensures OrphanCount(s, s.credentials) == Count(s.credentials, c => UnusedAccount(s, c))
  {
    forall c | c in s.credentials
      ensures (IsLive(c) && Owners(s, c) > 1) == SharedAccount(s, c) && (IsLive(c) && Owners(s, c) == 0) == UnusedAccount(s, c)
    {
      UserCounts(s, c);
    }
    FilterSame(s.credentials, c => IsLive(c) && Owners(s, c) > 1, c => SharedAccount(s, c));
    FilterSame(s.credentials, c => IsLive(c) && Owners(s, c) == 0, c => UnusedAccount(s, c));
  }

  lemma RowReason(s: State, crypto: Crypto, validateEnvelopes: bool)
    requires IntakeFault(s).None? && RowFault(s, crypto, validateEnvelopes).Some?
    ensures Justified(s, crypto, RowFault(s, crypto, validateEnvelopes).value)
  {
    var fault := RowFault(s, crypto, validateEnvelopes);
    if DefaultsFault(s.defaults, s.credentials).Some? {
      DefaultsReason(s.defaults, s, crypto);
    } else {
      DefaultsFaultSound(s.defaults, s);
      if exists c :: c in s.credentials && CredentialFault(s.providers, crypto, validateEnvelopes, c) == fault {
        var c :| c in s.credentials && CredentialFault(s.providers, crypto, validateEnvelopes, c) == fault;
        CredentialReason(s, crypto, validateEnvelopes, c);
      } else {
        var p :| p in s.providers && ProviderFault(s, p) == fault;
        ProviderReason(s, p);
      }
    }
  }

  /** The checks in their order; the checks of single credentials are one stage, and so are those of single Providers. */
  function Stage(fault: Fault): nat {
    match fault
    case ActiveAttempts(_) => 1
    case NonTerminalJobs(_) => 2
    case JobRetainedMaterial => 3
    case DuplicateProvider => 4
    case DuplicateCredential => 5
    case DuplicateDefault => 6
    case DefaultDangling => 6
    case DefaultNotLive => 6
    case FollowDefaultPointer => 8
    case BindingModeMissing => 8
    case ProviderCredentialDangling => 8
    case ProviderCredentialNotLive => 8
    case SharedLive(_) => 9
    case OrphanLive(_) => 10
    case VerificationFailed => 11
    case _ => 7
  }

  /** The check of stage `k` has nothing to report. */
  ghost predicate Passes(s: State, crypto: Crypto, validateEnvelopes: bool, k: nat) {
    match k
    case 1 => forall a :: a in s.attempts ==> !a.status.Starting? && !a.status.Pending?
    case 2 => forall j :: j in s.jobs ==> j.status.Terminal()
    case 3 => forall j :: j in s.jobs ==> j.bundle == NO_BUNDLE
    case 4 => UniqueBy(s.providers, ProviderKey)
    case 5 => UniqueBy(s.credentials, CredentialKey)
    case 6 => DefaultsSound(s)
    case 7 => CredentialsSound(s, crypto, validateEnvelopes)
    case 8 => forall p :: p in s.providers ==> UseSound(s, p)
    case 9 => forall c :: c in s.credentials ==> !SharedAccount(s, c)
    case _ => true
  }

  lemma IntakeOrder(s: State, crypto: Crypto, validateEnvelopes: bool, k: nat)
    requires k <= 5 && (IntakeFault(s).Some? ==> k < Stage(IntakeFault(s).value))
    ensures Passes(s, crypto, validateEnvelopes, k)
  {
    CountZero(s.attempts, IsActive);
    CountZero(s.jobs, IsUnfinished);
    CountZero(s.jobs, HasMaterial);
    assert forall j: Job :: !HasMaterial(j) <==> j.bundle == NO_BUNDLE;
  }

  lemma {:induction false} DefaultsStage(defaults: seq<DefaultAccount>, credentials: seq<Credential>)
    requires DefaultsFault(defaults, credentials).Some?
    ensures Stage(DefaultsFault(defaults, credentials).value) == 6
  {
    var n := |defaults| - 1;
    if DefaultsFault(defaults[..n], credentials).Some? {
      DefaultsStage(defaults[..n], credentials);
    }
  }

  ghost function CredentialsFirst(s: State, crypto: Crypto, validateEnvelopes: bool): Option<Fault> {
    FirstFault(s.credentials, c => CredentialFault(s.providers, crypto, validateEnvelopes, c))
  }

  ghost function ProvidersFirst(s: State): Option<Fault> {
    FirstFault(s.providers, p => ProviderFault(s, p))
  }

  lemma CredentialStage(s: State, crypto: Crypto, validateEnvelopes: bool, c: Credential)
    ensures var fault := CredentialFault(s.providers, crypto, validateEnvelopes, c); fault.Some? ==> Stage(fault.value) == 7
  {
  }

  lemma CredentialsStage(s: State, crypto: Crypto, validateEnvelopes: bool)
    requires CredentialsFirst(s, crypto, validateEnvelopes).Some?
    ensures Stage(CredentialsFirst(s, crypto, validateEnvelopes).value) == 7
  {
    var c :| c in s.credentials
          && CredentialFault(s.providers, crypto, validateEnvelopes, c) == CredentialsFirst(s, crypto, validateEnvelopes);
    CredentialStage(s, crypto, validateEnvelopes, c);
  }

  lemma ProvidersStage(s: State)
    requires ProvidersFirst(s).Some?
    ensures Stage(ProvidersFirst(s).value) == 8
  {
    var p :| p in s.providers && ProviderFault(s, p) == ProvidersFirst(s);
  }

  /** Which of the checks have passed, by the stage of the one that failed. */
  lemma StageOfFault(s: State, crypto: Crypto, validateEnvelopes: bool)
    requires PlanFault(s, crypto, validateEnvelopes).Some?
    ensures var stage := Stage(PlanFault(s, crypto, validateEnvelopes).value);
      && (IntakeFault(s).Some? ==> PlanFault(s, crypto, validateEnvelopes) == IntakeFault(s) && stage <= 5)
      && (stage > 6 ==> DefaultsFault(s.defaults, s.credentials).None?)
      && (stage > 7 ==> CredentialsFirst(s, crypto, validateEnvelopes).None?)
      && (stage > 8 ==> ProvidersFirst(s).None?)
      && (stage > 9 ==> SharedCount(s, s.credentials) == 0)
  {
    if DefaultsFault(s.defaults, s.credentials).Some? {
      DefaultsStage(s.defaults, s.credentials);
    } else if CredentialsFirst(s, crypto, validateEnvelopes).Some? {
      CredentialsStage(s, crypto, validateEnvelopes);
    } else if ProvidersFirst(s).Some? {
      ProvidersStage(s);
    }
  }

  lemma CredentialsPassed(s: State, crypto: Crypto, validateEnvelopes: bool)
    requires UniqueBy(s.providers, ProviderKey) && CredentialsFirst(s, crypto, validateEnvelopes).None?
    ensures CredentialsSound(s, crypto, validateEnvelopes)
  {
    forall c | c in s.credentials ensures CredentialSound(s, crypto, validateEnvelopes, c) {
      CredentialAccepted(s, crypto, validateEnvelopes, c);
    }
  }

  lemma ProvidersPassed(s: State)
    requires UniqueBy(s.credentials, CredentialKey) && UniqueBy(s.defaults, DefaultKey) && ProvidersFirst(s).None?
    ensures forall p :: p in s.providers ==> UseSound(s, p)
  {
    forall p | p in s.providers ensures UseSound(s, p) {
      UseAccepted(s, p);
      ProviderFaultSound(s, p);
    }
  }

  lemma NoneSharedRow(s: State)
    requires UniqueBy(s.providers, ProviderKey) && UniqueBy(s.defaults, DefaultKey) && SharedCount(s, s.credentials) == 0
    ensures forall c :: c in s.credentials ==> !SharedAccount(s, c)
  {
    LiveReason(s);
    CountZero(s.credentials, c => SharedAccount(s, c));
  }

  lemma CheckPassed(s: State, crypto: Crypto, validateEnvelopes: bool, k: nat)
    requires PlanFault(s, crypto, validateEnvelopes).Some? && k < Stage(PlanFault(s, crypto, validateEnvelopes).value)
    ensures Passes(s, crypto, validateEnvelopes, k)
  {
    StageOfFault(s, crypto, validateEnvelopes);
    if k <= 5 {
      IntakeOrder(s, crypto, validateEnvelopes, k);
    } else {
      IntakeOrder(s, crypto, validateEnvelopes, 4);
      IntakeOrder(s, crypto, validateEnvelopes, 5);
      DefaultsFaultSound(s.defaults, s);
      match k {
        case 7 => CredentialsPassed(s, crypto, validateEnvelopes);
        case 8 => ProvidersPassed(s);
        case 9 => NoneSharedRow(s);
        case _ =>
      }
    }
  }

  /** The reported failure is the first in the order of the checks. */
  lemma FailureIsFirst(s: State, crypto: Crypto, validateEnvelopes: bool)
    requires PlanFault(s, crypto, validateEnvelopes).Some?
    ensures forall k: nat :: k < Stage(PlanFault(s, crypto, validateEnvelopes).value) ==> Passes(s, crypto, validateEnvelopes, k)
  {
    forall k: nat | k < Stage(PlanFault(s, crypto, validateEnvelopes).value) ensures Passes(s, crypto, validateEnvelopes, k) {
      CheckPassed(s, crypto, validateEnvelopes, k);
    }
  }

  /** A reported failure is there: the selected rows have the defect the planner names, as often as it says. */
  lemma FailureIsJustified(s: State, crypto: Crypto, validateEnvelopes: bool)
    requires PlanFault(s, crypto, validateEnvelopes).Some?
    ensures Justified(s, crypto, PlanFault(s, crypto, validateEnvelopes).value)
  {
    if IntakeFault(s).Some? {
      IntakeReason(s, crypto);
    } else if RowFault(s, crypto, validateEnvelopes).Some? {
      RowReason(s, crypto, validateEnvelopes);
    } else {
      DefaultsFaultSound(s.defaults, s);
      LiveReason(s);
    }
  }
}
