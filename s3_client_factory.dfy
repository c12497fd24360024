/**
 * S3ClientFactory: makes S3 clients from the common AWS configuration and an optional
 * endpoint override, either directly or through a builder that can override the
 * endpoint and the region per client.
 */
module S3ClientFactories {
  import opened Outcomes
  import opened AwsCore
  import opened ServiceFactory

  /** A built S3 client, known by the settings its SDK builder received. */
  datatype S3Client = S3Client(settings: V2Settings)

  /**
   * The settings a builder with this state gives a client: the config's credentials, the
   * endpoint override if set, and the builder's region, else the config's default region,
   * else none.
   */
  function ClientSettings(config: AwsConfig, endpointOverride: Option<Uri>, region: Option<Region>): (s: V2Settings)
    ensures s.credentials == Some(config.credentialsProvider)
    ensures s.endpointOverride == endpointOverride
    ensures region.Some? ==> s.region == region
    ensures region.None? ==> s.region == config.defaultRegion
  {
    V2Settings(Some(config.credentialsProvider), endpointOverride,
               if region.Some? then region else config.defaultRegion)
  }

  class S3ClientFactory {
    const config: AwsConfig
    const endpointOverride: Option<Uri>

    constructor (config: AwsConfig, endpointOverride: Option<Uri>)
      ensures this.config == config && this.endpointOverride == endpointOverride
    {
      this.config := config;
      this.endpointOverride := endpointOverride;
    }

    /** newBuilder: the factory's endpoint override, no region of its own. */
    method NewBuilder() returns (b: Builder)
      ensures fresh(b)
      ensures b.config == config && b.endpointOverride == endpointOverride && b.region.None?
    {
      b := new Builder(config, endpointOverride);
    }

    /** newClient: the same client as newBuilder().build(). */
    method NewClient() returns (c: S3Client)
      ensures c.settings == ClientSettings(config, endpointOverride, None)
      ensures c.settings.region == config.defaultRegion
    {
      var b := NewBuilder();
      c := b.Build();
    }
  }

  /** S3ClientFactory.Builder. */
  class Builder {
    const config: AwsConfig
    var region: Option<Region>
    var endpointOverride: Option<Uri>

    constructor (config: AwsConfig, endpointOverride: Option<Uri>)
      ensures this.config == config && this.endpointOverride == endpointOverride && region.None?
    {
      this.config := config;
      this.endpointOverride := endpointOverride;
      region := None;
    }

    /**
     * endpointOverride: an absent argument is a NullPointerException and leaves the builder
     * as it was; otherwise it replaces the override and the builder is returned.
     */
    method SetEndpointOverride(endpointOverride: Option<Uri>) returns (r: Result<Builder>)
      modifies this
      ensures endpointOverride.None? ==> r == Err(NullPointer("")) && this.endpointOverride == old(this.endpointOverride)
      ensures endpointOverride.Some? ==> r == Ok(this) && this.endpointOverride == endpointOverride
      ensures region == old(region)
    {
      if endpointOverride.None? {
        return Err(NullPointer(""));
      }
      this.endpointOverride := endpointOverride;
      r := Ok(this);
    }

    /** region: the same rule for the region. */
    method SetRegion(region: Option<Region>) returns (r: Result<Builder>)
      modifies this
      ensures region.None? ==> r == Err(NullPointer("")) && this.region == old(this.region)
      ensures region.Some? ==> r == Ok(this) && this.region == region
      ensures endpointOverride == old(endpointOverride)
    {
      if region.None? {
        return Err(NullPointer(""));
      }
      this.region := region;
      r := Ok(this);
    }

    /** build: applies the settings to a fresh SDK builder and builds the client. */
    method Build() returns (c: S3Client)
      ensures c.settings == ClientSettings(config, endpointOverride, region)
      ensures c.settings.credentials == Some(config.credentialsProvider)
      ensures c.settings.endpointOverride.Some? <==> endpointOverride.Some?
    {
      var awsBuilder := new V2ClientBuilder();
      awsBuilder.ApplyCredentialsProvider(config.credentialsProvider);
      if endpointOverride.Some? {
        awsBuilder.ApplyEndpointOverride(endpointOverride.value);
      }
      var region := if this.region.Some? then this.region else config.defaultRegion;
      if region.Some? {
        awsBuilder.ApplyRegion(region.value);
      }
      c := S3Client(awsBuilder.Settings());
    }
  }

  /** A region set on the builder beats the config's default region; without one, the default applies. */
  lemma BuilderRegionWins(config: AwsConfig, endpointOverride: Option<Uri>, r: Region)
    requires config.defaultRegion.Some? && config.defaultRegion.value != r
    ensures ClientSettings(config, endpointOverride, Some(r)).region == Some(r)
    ensures ClientSettings(config, endpointOverride, None).region == config.defaultRegion
    ensures ClientSettings(config, endpointOverride, Some(r)) != ClientSettings(config, endpointOverride, None)
  {
  }
}
