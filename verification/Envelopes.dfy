/** Credential envelopes and account identities. Encryption and hashing are parameters; what the
    migrations rely on is the predicate `Lawful`. */
module Envelopes {
  import opened Sequences
  import opened Text
  import opened CanonicalJson
  import opened Tables

  datatype Envelope = Envelope(formatVersion: int, keyId: string, ciphertext: string, nonce: string, tag: string)

  /** The authenticated context of a stored credential; the record kind is always "credential" here. */
  datatype Context = Context(providerId: string, adapter: Adapter, recordId: string, revision: int)

  /** A decrypted, schema-checked token bundle; `secrets` stands for its tokens, scopes and expiries. */
  datatype TokenBundle =
    | CodexBundle(subject: string, chatgptAccountId: string, secrets: string)
    | XaiBundle(subject: string, secrets: string)
    | CopilotBundle(numericId: int, login: string, secrets: string)
  {
    function Product(): Adapter {
      match this
      case CodexBundle(_, _, _) => Codex
      case XaiBundle(_, _) => Xai
      case CopilotBundle(_, _, _) => GithubCopilot
    }
  }

  /** `accepts` is the schema of token bundles, which encryption and decryption both check. */
  datatype Crypto = Crypto(
    accepts: TokenBundle -> bool,
    decrypt: (Envelope, Context) -> Option<TokenBundle>,
    encrypt: (TokenBundle, Context) -> Option<Envelope>,
    hmac: string -> string,
    sha256: string -> string)

  predicate ValidContext(x: Context) {
    Trim(x.providerId) != "" && Trim(x.recordId) != "" && 1 <= x.revision <= MAX_SAFE_INTEGER && x.adapter.Managed()
  }

  predicate Filled(e: Envelope) {
    e.formatVersion == 1 && e.keyId != "" && e.ciphertext != "" && e.nonce != "" && e.tag != ""
  }

  predicate IsHexDigest(h: string) {
    |h| == 64 && forall i :: 0 <= i < 64 ==> IsDigit(h[i]) || 'a' <= h[i] <= 'f'
  }

  const HASH_PREFIX := "hmac-sha256:"

  /** `/^hmac-sha256:[0-9a-f]{64}$/`. */
  predicate IsIdentityHash(h: string) {
    |h| == |HASH_PREFIX| + 64 && h[..|HASH_PREFIX|] == HASH_PREFIX && IsHexDigest(h[|HASH_PREFIX|..])
  }

  /** Envelopes decrypt only in a valid context, with every field present and to a bundle the schema accepts; encrypting an
      accepted bundle in a valid context succeeds and decrypts to the same bundle in that context; digests are 64 lower-case
      hex digits. */
  ghost predicate Lawful(crypto: Crypto) {
    && (forall e, x :: crypto.decrypt(e, x).Some? ==>
          ValidContext(x) && Filled(e) && crypto.accepts(crypto.decrypt(e, x).value))
    && (forall b, x :: crypto.accepts(b) && ValidContext(x) ==>
          && crypto.encrypt(b, x).Some?
          && crypto.decrypt(crypto.encrypt(b, x).value, x) == Some(b))
    && (forall m :: IsHexDigest(crypto.hmac(m)))
  }

  /** Authenticated context: an envelope made in one context does not open in another. */
  ghost predicate ContextBound(crypto: Crypto) {
    forall b, x, y :: ValidContext(x) && crypto.encrypt(b, x).Some? && crypto.decrypt(crypto.encrypt(b, x).value, y).Some? ==> x == y
  }

  function BundleOf(e: Envelope): Bundle {
    Bundle(Some(e.formatVersion), Some(e.keyId), Some(e.ciphertext), Some(e.nonce), Some(e.tag))
  }

  /** `canonicalManagedAccountIdentity`; None is its thrown error. */
  function CanonicalIdentity(adapter: Adapter, b: TokenBundle): Option<string> {
    if b.Product() != adapter then None
    else
      match b
      case CodexBundle(subject, account, _) =>
        if Trim(subject) == "" || Trim(account) == "" then None
        else Some("{\"chatgptAccountId\":" + Quote(Trim(account)) + ",\"subject\":" + Quote(Trim(subject)) + "}")
      case XaiBundle(subject, _) =>
        if Trim(subject) == "" then None else Some("{\"subject\":" + Quote(Trim(subject)) + "}")
      case CopilotBundle(numericId, _, _) =>
        if numericId < 0 then None
        else Some("{\"host\":\"github.com\",\"numericId\":" + Quote(Number(numericId)) + "}")
  }

  /** The text whose keyed hash identifies an account: adapter, NUL, canonical identity. */
  function IdentityPreimage(adapter: Adapter, identity: string): string {
    adapter.Name() + ['\0'] + identity
  }

  /** `managedAccountIdentityHash`. */
  function IdentityHash(crypto: Crypto, adapter: Adapter, b: TokenBundle): (hash: Option<string>)
    ensures hash.Some? && Lawful(crypto) ==> IsIdentityHash(hash.value)
  {
    match CanonicalIdentity(adapter, b)
    case None => None
    case Some(identity) =>
      var digest := crypto.hmac(IdentityPreimage(adapter, identity));
      assert (HASH_PREFIX + digest)[|HASH_PREFIX|..] == digest;
      Some(HASH_PREFIX + digest)
  }

  /** The hashed text of each product's accounts, where the identity has nothing to escape. */
  lemma CodexText(subject: string, account: string, secrets: string)
    requires Trim(subject) != "" && Trim(account) != "" && Plain(Trim(subject)) && Plain(Trim(account))
    ensures var identity := CanonicalIdentity(Codex, CodexBundle(subject, account, secrets));
      && identity == Some("{\"chatgptAccountId\":" + ("\"" + Trim(account) + "\"") + ",\"subject\":" + ("\"" + Trim(subject) + "\"") + "}")
      && IdentityPreimage(Codex, identity.value) == "codex" + ['\0'] + identity.value
  {
    QuotePlain(Trim(subject));
    QuotePlain(Trim(account));
  }

  lemma XaiText(subject: string, secrets: string)
    requires Trim(subject) != "" && Plain(Trim(subject))
    ensures var identity := CanonicalIdentity(Xai, XaiBundle(subject, secrets));
      && identity == Some("{\"subject\":" + ("\"" + Trim(subject) + "\"") + "}")
      && IdentityPreimage(Xai, identity.value) == "xai" + ['\0'] + identity.value
  {
    QuotePlain(Trim(subject));
  }

  lemma CopilotText(numericId: nat, login: string, secrets: string)
    ensures var identity := CanonicalIdentity(GithubCopilot, CopilotBundle(numericId, login, secrets));
      && identity == Some("{\"host\":\"github.com\",\"numericId\":" + ("\"" + Digits(numericId) + "\"") + "}")
      && IdentityPreimage(GithubCopilot, identity.value) == "github_copilot" + ['\0'] + identity.value
  {
    QuotePlain(Digits(numericId));
  }

  /** What of a bundle identifies its account, after trimming. */
  datatype Identity = CodexAccount(subject: string, chatgptAccountId: string) | XaiAccount(subject: string) | CopilotAccount(numericId: int)

  function IdentityOf(b: TokenBundle): Identity {
    match b
    case CodexBundle(subject, account, _) => CodexAccount(Trim(subject), Trim(account))
    case XaiBundle(subject, _) => XaiAccount(Trim(subject))
    case CopilotBundle(numericId, _, _) => CopilotAccount(numericId)
  }

  predicate NoNul(s: string) {
    forall i :: 0 <= i < |s| ==> s[i] != '\0'
  }

  /** A NUL ends what comes before it. */
  lemma NulPrefix(m: string, n: string, x: string, y: string)
    requires NoNul(m) && NoNul(n) && m + ['\0'] + x == n + ['\0'] + y
    ensures m == n && x == y
  {
    var u, v := m + ['\0'] + x, n + ['\0'] + y;
    assert u[|m|] == '\0' && v[|n|] == '\0';
    assert forall i :: 0 <= i < |m| ==> u[i] == m[i];
    assert forall i :: 0 <= i < |n| ==> v[i] == n[i];
    assert |m| == |n|;
    assert u[..|m|] == m && v[..|n|] == n && u[|m| + 1..] == x && v[|n| + 1..] == y;
  }

  lemma AdapterNames(a: Adapter, b: Adapter)
    requires a.Name() == b.Name()
    ensures a == b
  {
    assert a.Name()[0] == b.Name()[0] && |a.Name()| == |b.Name()|;
    assert a.Name()[1] == b.Name()[1];
  }

  lemma AdapterPrefix(a: Adapter, b: Adapter, x: string, y: string)
    requires IdentityPreimage(a, x) == IdentityPreimage(b, y)
    ensures a == b && x == y
  {
    assert NoNul(a.Name()) && NoNul(b.Name());
    NulPrefix(a.Name(), b.Name(), x, y);
    AdapterNames(a, b);
  }

  /** Two accounts hash the same text only when adapter and trimmed identity coincide. */
  lemma IdentityPreimageInjective(a: Adapter, b: Adapter, x: TokenBundle, y: TokenBundle)
    requires CanonicalIdentity(a, x).Some? && CanonicalIdentity(b, y).Some?
    ensures IdentityPreimage(a, CanonicalIdentity(a, x).value) == IdentityPreimage(b, CanonicalIdentity(b, y).value)
       <==> a == b && IdentityOf(x) == IdentityOf(y)
  {
    if IdentityPreimage(a, CanonicalIdentity(a, x).value) == IdentityPreimage(b, CanonicalIdentity(b, y).value) {
      AdapterPrefix(a, b, CanonicalIdentity(a, x).value, CanonicalIdentity(b, y).value);
      match x {
        case CodexBundle(s, t, _) =>
          var front := "{\"chatgptAccountId\":";
          var middle := ",\"subject\":";
          CodexIdentityPrefix(front, middle, Trim(t), Trim(y.chatgptAccountId), Trim(s), Trim(y.subject));
        case XaiBundle(s, _) =>
          FrontPrefix("{\"subject\":", Trim(s), Trim(y.subject), "}", "}");
        case CopilotBundle(n, _, _) =>
          FrontPrefix("{\"host\":\"github.com\",\"numericId\":", Number(n), Number(y.numericId), "}", "}");
          assert Value(Digits(n)) == Value(Digits(y.numericId));
      }
    }
  }

  lemma FrontPrefix(front: string, s: string, t: string, a: string, b: string)
    requires front + Quote(s) + a == front + Quote(t) + b
    ensures s == t && a == b
  {
    assert (front + Quote(s) + a)[|front|..] == Quote(s) + a;
    assert (front + Quote(t) + b)[|front|..] == Quote(t) + b;
    QuotePrefix(s, t, a, b);
  }

  lemma CodexIdentityPrefix(front: string, middle: string, s: string, t: string, x: string, y: string)
    requires front + Quote(s) + middle + Quote(x) + "}" == front + Quote(t) + middle + Quote(y) + "}"
    ensures s == t && x == y
  {
    var a, b := middle + Quote(x) + "}", middle + Quote(y) + "}";
    Regroup(front + Quote(s), middle, Quote(x), "}");
    Regroup(front + Quote(t), middle, Quote(y), "}");
    assert middle + (Quote(x) + "}") == a && middle + (Quote(y) + "}") == b;
    FrontPrefix(front, s, t, a, b);
    FrontPrefix(middle, x, y, "}", "}");
  }

  // ---- The assumptions about encryption and hashing are consistent ----

  function BundleEntry(b: TokenBundle): Entry {
    match b
    case CodexBundle(subject, account, secrets) => [Num(0), Str(subject), Str(account), Str(secrets)]
    case XaiBundle(subject, secrets) => [Num(1), Str(subject), Str(secrets)]
    case CopilotBundle(numericId, login, secrets) => [Num(2), Num(numericId), Str(login), Str(secrets)]
  }

  function ContextEntry(x: Context): Entry {
    [Str(x.providerId), Str(x.adapter.Name()), Str(x.recordId), Num(x.revision)]
  }

  predicate Within(s: string, most: nat) {
    1 <= |s| <= most
  }

  /** What `providerTokenBundleSchema` demands of the identity in a bundle. */
  predicate HasIdentity(b: TokenBundle) {
    match b
    case CodexBundle(subject, account, _) => Within(subject, 1024) && Within(account, 1024)
    case XaiBundle(subject, _) => Within(subject, 1024)
    case CopilotBundle(numericId, login, _) => 1 <= numericId <= MAX_SAFE_INTEGER && Within(login, 256)
  }

  /** A transparent envelope: the bundle and its context, written out. */
  function Sealed(b: TokenBundle, x: Context): Envelope {
    Envelope(1, "key", Preimage([BundleEntry(b), ContextEntry(x)]), "nonce", "tag")
  }

  lemma SealedInjective(b: TokenBundle, x: Context, c: TokenBundle, y: Context)
    requires Sealed(b, x) == Sealed(c, y)
    ensures b == c && x == y
  {
    var p, q := [BundleEntry(b), ContextEntry(x)], [BundleEntry(c), ContextEntry(y)];
    PreimageInjective(p, q);
    assert p[0] == q[0] && p[1] == q[1];
    var i, j := BundleEntry(b), BundleEntry(c);
    assert i[0] == j[0] && i[1] == j[1] && i[2] == j[2];
    assert |i| == 4 ==> i[3] == j[3];
    var m, n := ContextEntry(x), ContextEntry(y);
    assert m[0] == n[0] && m[1] == n[1] && m[2] == n[2] && m[3] == n[3];
    AdapterNames(x.adapter, y.adapter);
  }

  ghost function Unseal(e: Envelope, x: Context): Option<TokenBundle> {
    if ValidContext(x) && exists b :: HasIdentity(b) && Sealed(b, x) == e then
      var b :| HasIdentity(b) && Sealed(b, x) == e;
      Some(b)
    else None
  }

  function ZeroDigest(): (h: string)
    ensures IsHexDigest(h)
  {
    seq(64, i => '0')
  }

  /** An instance that accepts exactly the bundles whose identity the schema accepts. */
  lemma LawfulIsConsistent() returns (crypto: Crypto)
    ensures Lawful(crypto) && ContextBound(crypto) && forall b :: crypto.accepts(b) <==> HasIdentity(b)
  {
    crypto := Crypto(b => HasIdentity(b), (e, x) => Unseal(e, x),
                     (b, x) => if HasIdentity(b) && ValidContext(x) then Some(Sealed(b, x)) else None,
                     m => ZeroDigest(), m => ZeroDigest());
    forall b, x | crypto.accepts(b) && ValidContext(x) ensures crypto.decrypt(crypto.encrypt(b, x).value, x) == Some(b) {
      var c := Unseal(Sealed(b, x), x).value;
      SealedInjective(b, x, c, x);
    }
    forall b, x, y | crypto.encrypt(b, x).Some? && crypto.decrypt(crypto.encrypt(b, x).value, y).Some? ensures x == y {
      var c := Unseal(Sealed(b, x), y).value;
      SealedInjective(b, x, c, y);
    }
    forall e, x | crypto.decrypt(e, x).Some? ensures ValidContext(x) && Filled(e) && HasIdentity(crypto.decrypt(e, x).value) {
      var b :| HasIdentity(b) && Sealed(b, x) == e;
    }
  }
}
