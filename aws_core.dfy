/**
 * The common AWS configuration: a default region and a credentials provider
 * (AwsConfig), and the v1 factory that builds it from 'accessKey', 'secretKey' and
 * 'defaultRegion' (AwsConfigFactory).
 */
module AwsCore {
  import opened Outcomes
  import opened Credentials

  /** An AWS region, by its name ("us-east-1"). */
  datatype Region = Region(name: string)

  /**
   * Regions.fromName: the SDK knows a fixed list of region names and rejects any other.
   * The list is the SDK's, so it is a parameter here.
   */
  function RegionFromName(name: string, knownRegions: set<string>): (r: Result<Region>)
    ensures r.Ok? <==> name in knownRegions
    ensures r.Ok? ==> r.value.name == name
    ensures r.Err? ==> r.error == IllegalArgument(name)
  {
    if name in knownRegions then Ok(Region(name)) else Err(IllegalArgument(name))
  }

  /** AwsConfig: both fields are fixed at construction. */
  datatype AwsConfig = AwsConfig(defaultRegion: Option<Region>, credentialsProvider: CredentialsProvider)

  /** The AwsConfig constructor: the provider must be present, the region may be absent. */
  function NewAwsConfig(defaultRegion: Option<Region>, credentialsProvider: Option<CredentialsProvider>)
    : (r: Result<AwsConfig>)
    ensures r.Ok? <==> credentialsProvider.Some?
    ensures r.Ok? ==> r.value.credentialsProvider == credentialsProvider.value
    ensures r.Ok? ==> r.value.defaultRegion == defaultRegion
    ensures credentialsProvider.None? ==> r == Err(NullPointer(""))
  {
    match credentialsProvider
    case None => Err(NullPointer(""))
    case Some(p) => Ok(AwsConfig(defaultRegion, p))
  }

  const MissingAccessKeyMessage: string := "'secretKey' is set, but 'accessKey' is not"
  const MissingSecretKeyMessage: string := "'accessKey' is set, but 'secretKey' is not"

  /** The v1 AwsConfigFactory. */
  class AwsConfigFactory {
    var accessKey: Option<string>
    var secretKey: Option<string>
    var defaultRegion: Option<string>

    constructor ()
      ensures accessKey.None? && secretKey.None? && defaultRegion.None?
    {
      accessKey, secretKey, defaultRegion := None, None, None;
    }

    method SetAccessKey(accessKey: Option<string>)
      modifies this
      ensures this.accessKey == accessKey
      ensures secretKey == old(secretKey) && defaultRegion == old(defaultRegion)
    {
      this.accessKey := accessKey;
    }

    method SetSecretKey(secretKey: Option<string>)
      modifies this
      ensures this.secretKey == secretKey
      ensures accessKey == old(accessKey) && defaultRegion == old(defaultRegion)
    {
      this.secretKey := secretKey;
    }

    method SetDefaultRegion(defaultRegion: Option<string>)
      modifies this
      ensures this.defaultRegion == defaultRegion
      ensures accessKey == old(accessKey) && secretKey == old(secretKey)
    {
      this.defaultRegion := defaultRegion;
    }

    /**
     * createCredentials: no keys means anonymous credentials, both keys a basic pair with
     * exactly those values, and one key alone an IllegalStateException naming the missing one.
     */
    function CreateCredentials(): (r: Result<Credentials>)
      reads this
      ensures accessKey.None? && secretKey.None? ==> r == Ok(Anonymous)
      ensures r.Ok? && !r.value.Anonymous? <==> accessKey.Some? && secretKey.Some?
      ensures r.Ok? ==> AccessKeyOf(r.value) == accessKey && SecretKeyOf(r.value) == secretKey
      ensures r.Ok? ==> !r.value.Session?
      ensures accessKey.None? && secretKey.Some? ==> r == Err(IllegalState(MissingAccessKeyMessage))
      ensures accessKey.Some? && secretKey.None? ==> r == Err(IllegalState(MissingSecretKeyMessage))
    {
      if accessKey.None? && secretKey.None? then Ok(Anonymous)
      else if accessKey.Some? && secretKey.Some? then Ok(Basic(accessKey.value, secretKey.value))
      else if accessKey.None? then Err(IllegalState(MissingAccessKeyMessage))
      else Err(IllegalState(MissingSecretKeyMessage))
    }

    /** createCredentialsProvider: a static provider around those credentials. */
    function CreateCredentialsProvider(): (r: Result<CredentialsProvider>)
      reads this
      ensures r.Ok? <==> CreateCredentials().Ok?
      ensures r.Ok? ==> r.value == StaticProvider(CreateCredentials().value)
      ensures r.Err? ==> r.error == CreateCredentials().error
    {
      match CreateCredentials()
      case Err(e) => Err(e)
      case Ok(c) => Ok(StaticProvider(c))
    }

    /** createDefaultRegion: absent exactly when 'defaultRegion' is unset; an unknown name fails. */
    function CreateDefaultRegion(knownRegions: set<string>): (r: Result<Option<Region>>)
      reads this
      ensures defaultRegion.None? ==> r == Ok(None)
      ensures r.Ok? && r.value.None? <==> defaultRegion.None?
      ensures r.Ok? && r.value.Some? ==> Some(r.value.value.name) == defaultRegion
      ensures defaultRegion.Some? ==> (r.Err? <==> defaultRegion.value !in knownRegions)
    {
      match defaultRegion
      case None => Ok(None)
      case Some(name) =>
        match RegionFromName(name, knownRegions)
        case Err(e) => Err(e)
        case Ok(region) => Ok(Some(region))
    }

    /**
     * createConfig: pairs that region with that provider. Java evaluates the region
     * argument first, so an unknown region is reported before a credentials error.
     */
    function CreateConfig(knownRegions: set<string>): (r: Result<AwsConfig>)
      reads this
      ensures r.Ok? <==> CreateDefaultRegion(knownRegions).Ok? && CreateCredentialsProvider().Ok?
      ensures r.Ok? ==> r.value.defaultRegion == CreateDefaultRegion(knownRegions).value
      ensures r.Ok? ==> r.value.credentialsProvider == CreateCredentialsProvider().value
      ensures CreateDefaultRegion(knownRegions).Err? ==> r == Err(CreateDefaultRegion(knownRegions).error)
      ensures CreateDefaultRegion(knownRegions).Ok? && CreateCredentialsProvider().Err? ==>
                r == Err(CreateCredentialsProvider().error)
    {
      match CreateDefaultRegion(knownRegions)
      case Err(e) => Err(e)
      case Ok(region) =>
        match CreateCredentialsProvider()
        case Err(e) => Err(e)
        case Ok(provider) => NewAwsConfig(region, Some(provider))
    }
  }
}
