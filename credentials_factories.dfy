/**
 * The two configurable credentials factories of the v2 module: explicit keys
 * ("explicit") and a local profile ("profile"). Neither consults the injector it is
 * handed, so the model does not take one.
 */
module CredentialsFactories {
  import opened Outcomes
  import opened Credentials

  const BothKeysMissingMessage: string := "'accessKey' and 'secretKey' are not set"
  const AccessKeyMissingMessage: string := "'accessKey' is not set"
  const SecretKeyMissingMessage: string := "'secretKey' is not set"

  /** ExplicitCredentialsProviderFactory: an access key, a secret key and an optional session token. */
  class ExplicitCredentialsProviderFactory {
    var accessKey: Option<string>
    var secretKey: Option<string>
    var sessionToken: Option<string>

    constructor ()
      ensures accessKey.None? && secretKey.None? && sessionToken.None?
    {
      accessKey, secretKey, sessionToken := None, None, None;
    }

    method SetAccessKey(accessKey: Option<string>)
      modifies this
      ensures this.accessKey == accessKey
      ensures secretKey == old(secretKey) && sessionToken == old(sessionToken)
    {
      this.accessKey := accessKey;
    }

    method SetSecretKey(secretKey: Option<string>)
      modifies this
      ensures this.secretKey == secretKey
      ensures accessKey == old(accessKey) && sessionToken == old(sessionToken)
    {
      this.secretKey := secretKey;
    }

    method SetSessionToken(sessionToken: Option<string>)
      modifies this
      ensures this.sessionToken == sessionToken
      ensures accessKey == old(accessKey) && secretKey == old(secretKey)
    {
      this.sessionToken := sessionToken;
    }

    /**
     * create: both keys are required, each missing key reported by name; the result is a
     * static provider whose credentials carry exactly the configured values, session
     * credentials when a token is set and basic ones otherwise.
     */
    function Create(): (r: Result<CredentialsProvider>)
      reads this
      ensures r.Ok? <==> accessKey.Some? && secretKey.Some?
      ensures accessKey.None? && secretKey.None? ==> r == Err(NullPointer(BothKeysMissingMessage))
      ensures accessKey.None? && secretKey.Some? ==> r == Err(NullPointer(AccessKeyMissingMessage))
      ensures accessKey.Some? && secretKey.None? ==> r == Err(NullPointer(SecretKeyMissingMessage))
      ensures r.Ok? ==> r.value.StaticProvider?
      ensures r.Ok? ==> var c := r.value.credentials;
                AccessKeyOf(c) == accessKey && SecretKeyOf(c) == secretKey && SessionTokenOf(c) == sessionToken
      ensures r.Ok? ==> (r.value.credentials.Session? <==> sessionToken.Some?)
      ensures r.Ok? ==> !r.value.credentials.Anonymous?
    {
      if accessKey.None? && secretKey.None? then Err(NullPointer(BothKeysMissingMessage))
      else if accessKey.None? then Err(NullPointer(AccessKeyMissingMessage))
      else if secretKey.None? then Err(NullPointer(SecretKeyMissingMessage))
      else
        var credentials :=
          if sessionToken.Some? then Session(accessKey.value, secretKey.value, sessionToken.value)
          else Basic(accessKey.value, secretKey.value);
        Ok(StaticProvider(credentials))
    }
  }

  const DefaultProfileName: string := "default"

  /** The profile a factory with this setting reads: only an absent name is defaulted. */
  function ProfileName(profile: Option<string>): (name: string)
    ensures profile.Some? ==> name == profile.value
    ensures profile.None? ==> name == DefaultProfileName
  {
    if profile.Some? then profile.value else DefaultProfileName
  }

  /** ProfileCredentialsProviderFactory: a named profile from the local AWS credentials file. */
  class ProfileCredentialsProviderFactory {
    var profile: Option<string>

    constructor ()
      ensures profile.None?
    {
      profile := None;
    }

    /** setProfile: the last name set is the one create uses. */
    method SetProfile(profile: Option<string>)
      modifies this
      ensures this.profile == profile
      ensures Create() == ProfileProvider(ProfileName(profile))
    {
      this.profile := profile;
    }

    /** create: a profile provider for the configured name, "default" when none is set. */
    function Create(): (r: CredentialsProvider)
      reads this
      ensures r.ProfileProvider?
      ensures profile.Some? ==> r.profileName == profile.value
      ensures profile.None? ==> r.profileName == DefaultProfileName
    {
      ProfileProvider(ProfileName(profile))
    }
  }

  /** The empty string is a profile name like any other. */
  lemma EmptyProfileIsKept()
    ensures ProfileName(Some("")) == "" && ProfileName(None) == "default"
  {
  }
}
