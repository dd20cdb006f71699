/** Legacy databases on both sides of the pipeline theorem, for every lawful encryption (of the example tokens). */
module PipelineExample {
  import opened Sequences
  import opened Text
  import opened Tables
  import opened Envelopes
  import Accounts = ManagedAccounts
  import AccountsT = ManagedTheorems
  import Owned = OwnedCredentials
  import opened LegacyDatabases

  /** One Provider and the credential that names it. */
  function Single(p: Provider, c: Credential): State {
    State([p], [c], [], [], [])
  }

  lemma SingleLegacy(p: Provider, c: Credential, crypto: Crypto)
    requires IsManaged(p) && p.mode.None? && p.credentialId.None? && p.id != ""
    requires c.providerId == Some(p.id) && c.adapter == p.adapter && c.authEpoch >= 1 && c.id != "" && Readable(c, crypto)
    ensures LegacyState(Single(p, c), crypto)
    ensures Balanced(Single(p, c)) <==> (IsLive(c) <==> !p.status.Deleted?)
  {
    var s := Single(p, c);
    assert p in s.providers && c in s.credentials;
    assert forall q :: q in s.providers <==> q == p;
  }

  function Owner(status: ProviderStatus): Provider {
    Provider("p", GithubCopilot, status, None, None, 1, "managed_oauth")
  }

  const TOKENS := CopilotBundle(7, "login", "tokens")

  /** A connected account is carried through. */
  lemma ConnectedCarried(crypto: Crypto) returns (s: State)
    requires Lawful(crypto) && crypto.accepts(TOKENS)
    ensures LegacyState(s, crypto) && |s.credentials| == 1 && s.credentials[0].status.Connected? && CarriedThrough(s, crypto)
  {
    var c := Sealed(crypto, "c");
    SingleLegacy(Owner(Active), c, crypto);
    s := Single(Owner(Active), c);
    LegacyPipeline(s, crypto);
  }

  /** A connected account under any id, with its tokens encrypted under the owner's name. */
  lemma Sealed(crypto: Crypto, id: string) returns (c: Credential)
    requires Lawful(crypto) && crypto.accepts(TOKENS) && Trim(id) != ""
    ensures c.id == id && c.providerId == Some("p") && c.adapter == GithubCopilot && c.status.Connected? && c.authEpoch == 1
    ensures c.bundle.Present() == 5 && Readable(c, crypto)
  {
    var x := Context("p", GithubCopilot, id, 1);
    TrimIsTrimmed("p");
    var e := crypto.encrypt(TOKENS, x).value;
    c := Credential(id, Some("p"), GithubCopilot, Connected, 1, 1, None, BundleOf(e), None);
    SealedReadable(c, crypto, "p", e, TOKENS);
  }

  lemma SealedReadable(c: Credential, crypto: Crypto, owner: string, e: Envelope, b: TokenBundle)
    requires Lawful(crypto) && c.contextId.None? && c.providerId == Some(owner) && owner != "" && Trimmed(owner)
    requires c.bundle == BundleOf(e) && crypto.decrypt(e, Context(owner, c.adapter, c.id, c.revision)) == Some(b)
    requires CanonicalIdentity(c.adapter, b).Some?
    ensures Readable(c, crypto)
  {
    assert Filled(e);
    assert StoredEnvelope(c.bundle) == e;
  }

  function LostAccount(): Credential {
    Credential("c", Some("p"), GithubCopilot, Disconnected, 1, 1, None, NO_BUNDLE, None)
  }

  /** A disconnected account that still names its deleted Provider is carried through; under a Provider in use the first
      stage commits and the second rejects. */
  lemma DisconnectedCases(crypto: Crypto, status: ProviderStatus)
    requires Lawful(crypto)
    ensures var s := Single(Owner(status), LostAccount());
      && LegacyState(s, crypto)
      && (CarriedThrough(s, crypto) <==> status.Deleted?)
      && Accounts.Outcome(s, true, crypto).Success?
      && (!status.Deleted? ==> Owned.Outcome(Accounts.Migrated(s, crypto), true, crypto).Failure?)
  {
    SingleLegacy(Owner(status), LostAccount(), crypto);
    LegacyPipeline(Single(Owner(status), LostAccount()), crypto);
  }

  /** An account whose id begins with a space migrates once and is rejected the second time. */
  lemma SpacedIdExample(crypto: Crypto) returns (s: State)
    requires Lawful(crypto) && ContextBound(crypto) && crypto.accepts(TOKENS)
    ensures Accounts.Outcome(s, true, crypto).Success?
    ensures Accounts.Outcome(Accounts.Migrated(s, crypto), true, crypto).Failure?
  {
    SpacedTrim();
    var c := Sealed(crypto, " c");
    SingleLegacy(Owner(Active), c, crypto);
    s := Single(Owner(Active), c);
    LegacyStageOne(s, crypto);
    AccountsT.RerunIsNoOp(s, crypto);
    assert c in s.credentials && !Trimmed(c.id);
  }

  lemma SpacedTrim()
    ensures Trim(" c") == "c"
  {
    assert " c"[1..] == "c";
    TrimIsTrimmed("c");
    assert TrimStart(" c") == TrimStart("c");
  }
}
