/**
 * The credential adapters of the asynchronous handler: each one turns its
 * stored secret into an access token on `get_token(*scopes)`, and the handler
 * constructor wraps the two azure-core credential shapes into adapters.
 */
module Credentials {
  import opened Common
  import opened Errors

  /** The token type every Service Bus adapter announces (`token_type`). */
  const SasTokenType := "servicebus.windows.net:sastoken"

  const NoScopeMessage := "No token scope provided."

  datatype AccessToken = AccessToken(token: string, expiresOn: int)

  /** azure-core's `AzureNamedKeyCredential`, owned by the caller, who may replace its name and key. */
  class NamedKeyCredential {
    var name: string
    var key: string
  }

  /** azure-core's `AzureSasCredential`, owned by the caller, who may replace its signature. */
  class SasCredential {
    var signature: string
  }

  /**
   * The four adapter classes of the handler module. The two that wrap an
   * azure-core credential keep the caller's object, not a copy of its secret.
   */
  datatype ServiceBusCredential =
    | SasToken(token: string, expiry: int)                  // ServiceBusSASTokenCredential
    | SharedKey(policy: string, key: string)                // ServiceBusSharedKeyCredential
    | NamedKeyAdapter(namedKey: NamedKeyCredential)         // ServiceBusAzureNamedKeyTokenCredentialAsync
    | SasCredentialAdapter(sasCredential: SasCredential)    // ServiceBusAzureSasTokenCredentialAsync

  /** The caller's object an adapter reads its secret from at each `get_token`. */
  function Held(c: ServiceBusCredential): set<object>
  {
    match c
    case NamedKeyAdapter(k) => {k}
    case SasCredentialAdapter(k) => {k}
    case _ => {}
  }

  /** What the handler keeps as `_credential`: one of its own adapters or a
      caller's token credential, whose `get_token` is not part of this model. */
  datatype Credential =
    | Adapter(adapter: ServiceBusCredential)
    | UserTokenCredential(id: string)

  /** What a caller may pass to the handler constructor. */
  datatype CredentialArg =
    | AzureSasCredential(sas: SasCredential)
    | AzureNamedKeyCredential(named: NamedKeyCredential)
    | TokenCredential(credential: Credential)

  /**
   * The two helpers of the synchronous handler module the adapters call:
   * `_generate_sas_token(uri, policy, key)` and
   * `parse_sas_credential(credential) -> (signature, expiry)`.
   */
  datatype SasTools = SasTools(
    generateSasToken: (string, string, string) -> AccessToken,
    parseSasCredential: string -> (string, int))

  function TokenType(c: ServiceBusCredential): (t: string)
    ensures t == SasTokenType
  {
    match c
    case SasToken(_, _) => SasTokenType
    case SharedKey(_, _) => SasTokenType
    case NamedKeyAdapter(_) => SasTokenType
    case SasCredentialAdapter(_) => SasTokenType
  }

  /**
   * `get_token(*scopes)` of the four adapters. The wrapping adapters read the
   * caller's credential as it is at the time of the call.
   */
  function GetToken(c: ServiceBusCredential, scopes: seq<string>, tools: SasTools): (r: Result<AccessToken, Exception>)
    reads Held(c)
    ensures c.SasToken? ==> r == Ok(AccessToken(c.token, c.expiry))
    ensures (c.SharedKey? || c.NamedKeyAdapter?) ==> (r.Err? <==> scopes == [])
    ensures r.Err? ==> r.error == ValueError(NoScopeMessage)
    ensures c.SharedKey? && scopes != [] ==> r == Ok(tools.generateSasToken(scopes[0], c.policy, c.key))
    ensures c.NamedKeyAdapter? && scopes != [] ==>
      r == Ok(tools.generateSasToken(scopes[0], c.namedKey.name, c.namedKey.key))
    ensures c.SasCredentialAdapter? ==>
      r.Ok? && (r.value.token, r.value.expiresOn) == tools.parseSasCredential(c.sasCredential.signature)
  {
    match c
    case SasToken(token, expiry) => Ok(AccessToken(token, expiry))
    case SharedKey(policy, key) =>
      if scopes == [] then Err(ValueError(NoScopeMessage))
      else Ok(tools.generateSasToken(scopes[0], policy, key))
    case NamedKeyAdapter(named) =>
      if scopes == [] then Err(ValueError(NoScopeMessage))
      else Ok(tools.generateSasToken(scopes[0], named.name, named.key))
    case SasCredentialAdapter(sas) =>
      var (sig, expiry) := tools.parseSasCredential(sas.signature);
      Ok(AccessToken(sig, expiry))
  }

  /** Only the first scope matters: more scopes after it change nothing. */
  lemma GetTokenUsesFirstScopeOnly(c: ServiceBusCredential, scope: string, more: seq<string>, tools: SasTools)
    ensures GetToken(c, [scope] + more, tools) == GetToken(c, [scope], tools)
  {
  }

  /** The stored-token adapters never look at the scopes. */
  lemma StoredTokensIgnoreScopes(c: ServiceBusCredential, scopes1: seq<string>, scopes2: seq<string>, tools: SasTools)
    requires c.SasToken? || c.SasCredentialAdapter?
    ensures GetToken(c, scopes1, tools) == GetToken(c, scopes2, tools)
    ensures GetToken(c, scopes1, tools).Ok?
  {
  }

  /**
   * The handler constructor's credential wrapping: an azure-core credential
   * is wrapped in the adapter for its kind, which holds that very object.
   */
  function WrapCredential(arg: CredentialArg): (c: Credential)
    ensures arg.AzureSasCredential? ==> c.Adapter? && c.adapter.SasCredentialAdapter? && c.adapter.sasCredential == arg.sas
    ensures arg.AzureNamedKeyCredential? ==> c.Adapter? && c.adapter.NamedKeyAdapter? && c.adapter.namedKey == arg.named
    ensures arg.TokenCredential? ==> c == arg.credential
  {
    match arg
    case AzureSasCredential(sas) => Adapter(SasCredentialAdapter(sas))
    case AzureNamedKeyCredential(named) => Adapter(NamedKeyAdapter(named))
    case TokenCredential(credential) => credential
  }

  /**
   * A wrapped named key produces exactly the token that a shared key with the
   * name and key the caller's credential holds at the time of the call signs.
   */
  lemma NamedKeyWrappingSignsWithTheKey(named: NamedKeyCredential, scope: string, tools: SasTools)
    ensures WrapCredential(AzureNamedKeyCredential(named)).Adapter?
    ensures GetToken(WrapCredential(AzureNamedKeyCredential(named)).adapter, [scope], tools)
         == GetToken(SharedKey(named.name, named.key), [scope], tools)
  {
  }
}
