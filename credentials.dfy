/**
 * Credentials and credentials providers, as values. A provider is what the SDK
 * resolves credentials from; only its shape is modelled, not its resolution.
 */
module Credentials {
  import opened Outcomes

  /** AWS credentials: anonymous, a key pair, or a key pair with a session token. */
  datatype Credentials =
    | Anonymous
    | Basic(accessKey: string, secretKey: string)
    | Session(accessKey: string, secretKey: string, sessionToken: string)

  /** The access key the credentials carry; anonymous credentials carry none. */
  function AccessKeyOf(c: Credentials): Option<string> {
    if c.Anonymous? then None else Some(c.accessKey)
  }

  function SecretKeyOf(c: Credentials): Option<string> {
    if c.Anonymous? then None else Some(c.secretKey)
  }

  function SessionTokenOf(c: Credentials): Option<string> {
    if c.Session? then Some(c.sessionToken) else None
  }

  /**
   * A credentials provider: a static one around fixed credentials, one reading a named
   * local profile, a chain of providers, or a provider contributed by another module
   * (the SDK default chain, the Lambda environment, a test provider and so on), named
   * by what it is.
   */
  datatype CredentialsProvider =
    | StaticProvider(credentials: Credentials)
    | ProfileProvider(profileName: string)
    | ProviderChain(providers: seq<CredentialsProvider>)
    | Contributed(name: string)

  /** A contributed provider with its priority: lower orders come first in a chain. */
  datatype OrderedProvider = OrderedProvider(provider: CredentialsProvider, order: int)

  /** The priorities AwsModuleExtender gives the providers it can contribute. */
  const DefaultCredentialsProviderOrder: int := 10
  const LambdaCredentialsProviderOrder: int := DefaultCredentialsProviderOrder + 10
  const InstanceCredentialsProviderOrder: int := LambdaCredentialsProviderOrder + 10
  const ContainerCredentialsProviderOrder: int := InstanceCredentialsProviderOrder + 10
}
