/**
 * The common part of every AWS client factory, in its v1 and v2 forms. An SDK client
 * builder is modelled as the record of the settings applied to it. The two versions
 * differ in one rule: v1 applies the default region only when no service endpoint is
 * set, v2 applies it whenever it is present.
 */
module ServiceFactory {
  import opened Outcomes
  import opened Credentials
  import opened AwsCore

  /** A v1 endpoint configuration: a service endpoint and the region to sign requests for. */
  datatype EndpointConfiguration = EndpointConfiguration(serviceEndpoint: string, signingRegion: Option<string>)

  /** What has been applied to a v1 client builder. */
  datatype V1Settings = V1Settings(
    credentials: Option<CredentialsProvider>,
    endpointConfiguration: Option<EndpointConfiguration>,
    region: Option<Region>)

  /** An endpoint URI, as text. */
  type Uri = string

  /** What has been applied to a v2 client builder. */
  datatype V2Settings = V2Settings(
    credentials: Option<CredentialsProvider>,
    endpointOverride: Option<Uri>,
    region: Option<Region>)

  const NoV1Settings := V1Settings(None, None, None)
  const NoV2Settings := V2Settings(None, None, None)

  /** AwsClientBuilder (v1): each `with` call records one setting and returns the builder. */
  class V1ClientBuilder {
    var credentials: Option<CredentialsProvider>
    var endpointConfiguration: Option<EndpointConfiguration>
    var region: Option<Region>

    constructor ()
      ensures Settings() == NoV1Settings
    {
      credentials, endpointConfiguration, region := None, None, None;
    }

    function Settings(): V1Settings
      reads this
    {
      V1Settings(credentials, endpointConfiguration, region)
    }

    method WithCredentials(p: CredentialsProvider)
      modifies this
      ensures Settings() == old(Settings()).(credentials := Some(p))
    {
      credentials := Some(p);
    }

    method WithEndpointConfiguration(e: EndpointConfiguration)
      modifies this
      ensures Settings() == old(Settings()).(endpointConfiguration := Some(e))
    {
      endpointConfiguration := Some(e);
    }

    method WithRegion(r: Region)
      modifies this
      ensures Settings() == old(Settings()).(region := Some(r))
    {
      region := Some(r);
    }
  }

  /**
   * The settings the v1 configure leaves on a builder: the config's credentials always;
   * the endpoint configuration if there is one and then no region; otherwise the default
   * region if the config has one. Settings configure does not touch keep their value.
   */
  function V1Configured(s: V1Settings, endpoint: Option<EndpointConfiguration>, config: AwsConfig): (r: V1Settings)
    ensures r.credentials == Some(config.credentialsProvider)
    ensures endpoint.Some? ==> r.endpointConfiguration == endpoint && r.region == s.region
    ensures endpoint.None? ==> r.endpointConfiguration == s.endpointConfiguration
    ensures endpoint.None? && config.defaultRegion.Some? ==> r.region == config.defaultRegion
    ensures endpoint.None? && config.defaultRegion.None? ==> r.region == s.region
  {
    var withCredentials := s.(credentials := Some(config.credentialsProvider));
    if endpoint.Some? then withCredentials.(endpointConfiguration := endpoint)
    else if config.defaultRegion.Some? then withCredentials.(region := config.defaultRegion)
    else withCredentials
  }

  /** The v1 AwsServiceFactory: an optional service endpoint and signing region. */
  class AwsServiceFactory {
    var serviceEndpoint: Option<string>
    var signingRegion: Option<string>

    constructor ()
      ensures serviceEndpoint.None? && signingRegion.None?
    {
      serviceEndpoint, signingRegion := None, None;
    }

    method SetServiceEndpoint(serviceEndpoint: Option<string>)
      modifies this
      ensures this.serviceEndpoint == serviceEndpoint && signingRegion == old(signingRegion)
    {
      this.serviceEndpoint := serviceEndpoint;
    }

    method SetSigningRegion(signingRegion: Option<string>)
      modifies this
      ensures this.signingRegion == signingRegion && serviceEndpoint == old(serviceEndpoint)
    {
      this.signingRegion := signingRegion;
    }

    /** createEndpointConfig: absent exactly when no endpoint is set; the signing region rides along. */
    function CreateEndpointConfig(): (r: Option<EndpointConfiguration>)
      reads this
      ensures r.None? <==> serviceEndpoint.None?
      ensures r.Some? ==> r.value.serviceEndpoint == serviceEndpoint.value && r.value.signingRegion == signingRegion
    {
      if serviceEndpoint.Some? then Some(EndpointConfiguration(serviceEndpoint.value, signingRegion)) else None
    }

    /** configure: applies the settings to the builder it is given and hands that builder back. */
    method Configure(builder: V1ClientBuilder, config: AwsConfig) returns (b: V1ClientBuilder)
      modifies builder
      ensures b == builder
      ensures builder.Settings() == V1Configured(old(builder.Settings()), CreateEndpointConfig(), config)
    {
      builder.WithCredentials(config.credentialsProvider);
      var endpointConfig := CreateEndpointConfig();
      if endpointConfig.Some? {
        builder.WithEndpointConfiguration(endpointConfig.value);
      } else if config.defaultRegion.Some? {
        builder.WithRegion(config.defaultRegion.value);
      }
      b := builder;
    }
  }

  /** SdkClientBuilder (v2): each setter records one setting and returns the builder. */
  class V2ClientBuilder {
    var credentials: Option<CredentialsProvider>
    var endpointOverride: Option<Uri>
    var region: Option<Region>

    constructor ()
      ensures Settings() == NoV2Settings
    {
      credentials, endpointOverride, region := None, None, None;
    }

    function Settings(): V2Settings
      reads this
    {
      V2Settings(credentials, endpointOverride, region)
    }

    method ApplyCredentialsProvider(p: CredentialsProvider)
      modifies this
      ensures Settings() == old(Settings()).(credentials := Some(p))
    {
      credentials := Some(p);
    }

    method ApplyEndpointOverride(u: Uri)
      modifies this
      ensures Settings() == old(Settings()).(endpointOverride := Some(u))
    {
      endpointOverride := Some(u);
    }

    method ApplyRegion(r: Region)
      modifies this
      ensures Settings() == old(Settings()).(region := Some(r))
    {
      region := Some(r);
    }
  }

  /**
   * The settings the v2 configure leaves on a builder: the config's credentials always,
   * the endpoint override if set, and the default region if present, each independently.
   */
  function V2Configured(s: V2Settings, endpointOverride: Option<Uri>, config: AwsConfig): (r: V2Settings)
    ensures r.credentials == Some(config.credentialsProvider)
    ensures endpointOverride.Some? ==> r.endpointOverride == endpointOverride
    ensures endpointOverride.None? ==> r.endpointOverride == s.endpointOverride
    ensures config.defaultRegion.Some? ==> r.region == config.defaultRegion
    ensures config.defaultRegion.None? ==> r.region == s.region
  {
    var withCredentials := s.(credentials := Some(config.credentialsProvider));
    var withEndpoint := if endpointOverride.Some? then withCredentials.(endpointOverride := endpointOverride)
                        else withCredentials;
    if config.defaultRegion.Some? then withEndpoint.(region := config.defaultRegion) else withEndpoint
  }

  /** The v2 AwsServiceFactory: an optional endpoint override. */
  class AwsServiceFactoryV2 {
    var endpointOverride: Option<Uri>

    constructor ()
      ensures endpointOverride.None?
    {
      endpointOverride := None;
    }

    method SetEndpointOverride(endpointOverride: Option<Uri>)
      modifies this
      ensures this.endpointOverride == endpointOverride
    {
      this.endpointOverride := endpointOverride;
    }

    /** configure: applies the settings to the builder it is given and hands that builder back. */
    method Configure(builder: V2ClientBuilder, config: AwsConfig) returns (b: V2ClientBuilder)
      modifies builder
      ensures b == builder
      ensures builder.Settings() == V2Configured(old(builder.Settings()), endpointOverride, config)
    {
      builder.ApplyCredentialsProvider(config.credentialsProvider);
      if endpointOverride.Some? {
        builder.ApplyEndpointOverride(endpointOverride.value);
      }
      if config.defaultRegion.Some? {
        builder.ApplyRegion(config.defaultRegion.value);
      }
      b := builder;
    }
  }

  /**
   * With an endpoint set on a fresh builder, v1 drops the default region while v2 keeps it;
   * without one, both apply it.
   */
  lemma RegionRuleDiffers(config: AwsConfig, endpoint: EndpointConfiguration, uri: Uri)
    requires config.defaultRegion.Some?
    ensures V1Configured(NoV1Settings, Some(endpoint), config).region.None?
    ensures V2Configured(NoV2Settings, Some(uri), config).region == config.defaultRegion
    ensures V1Configured(NoV1Settings, None, config).region == V2Configured(NoV2Settings, None, config).region
  {
  }
}
