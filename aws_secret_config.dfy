/**
 * AwsSecretConfigFactory: the variant of a configured secret without a transformer.
 * Its update reads the secret, requires a JSON object and merges the object's fields
 * under the merge path, with the same messages and the same prefix rule as
 * AwsSecretFactory.
 */
module AwsSecretConfig {
  import opened Outcomes
  import opened Json
  import opened ConfigTree
  import opened AwsSecret

  /** With no transformer named, the registry a secret is updated against plays no part. */
  lemma NoTransformerIgnoresRegistry(awsName: Option<string>, mergePath: Option<string>, store: SecretStore,
                                     reader: JsonReader, transformers: map<string, Transformer>)
    ensures SecretProperties(SecretDescriptor(awsName, mergePath, None), store, reader, transformers)
            == SecretProperties(SecretDescriptor(awsName, mergePath, None), store, reader, map[])
  {
  }

  /** The pipeline without a transformer: read, parse, flatten. */
  lemma ReadParseFlatten(awsName: Option<string>, mergePath: Option<string>, store: SecretStore, reader: JsonReader)
    ensures var r := SecretProperties(SecretDescriptor(awsName, mergePath, None), store, reader, map[]);
      && (awsName.None? ==> r == Err(NullPointer(MissingAwsNameMessage)))
      && (awsName.Some? && awsName.value !in store ==> r == Err(SecretNotFound(awsName.value)))
      && (awsName.Some? && awsName.value in store ==>
            r == match ParseSecret(awsName.value, reader, store[awsName.value])
                 case Err(e) => Err(e)
                 case Ok(parsed) => Ok(Properties(mergePath, parsed)))
  {
  }

  class AwsSecretConfigFactory {
    var awsName: Option<string>
    var mergePath: Option<string>

    constructor ()
      ensures awsName.None? && mergePath.None?
    {
      awsName, mergePath := None, None;
    }

    /** The secret this factory describes: never a transformer. */
    function Descriptor(): (d: SecretDescriptor)
      reads this
      ensures d.awsName == awsName && d.mergePath == mergePath && d.jsonTransformer.None?
    {
      SecretDescriptor(awsName, mergePath, None)
    }

    method SetAwsName(awsName: Option<string>) returns (self: AwsSecretConfigFactory)
      modifies this
      ensures self == this
      ensures this.awsName == awsName && mergePath == old(mergePath)
    {
      this.awsName := awsName;
      self := this;
    }

    method SetMergePath(mergePath: Option<string>) returns (self: AwsSecretConfigFactory)
      modifies this
      ensures self == this
      ensures this.mergePath == mergePath && awsName == old(awsName)
    {
      this.mergePath := mergePath;
      self := this;
    }

    /** updateConfiguration: the update of the secret this factory describes. */
    method UpdateConfiguration(store: SecretStore, reader: JsonReader, mutableInput: Json)
      returns (r: Result<Json>, ghost order: seq<string>)
      ensures SecretUpdate(Descriptor(), store, reader, map[], mutableInput, order, r)
      ensures awsName.None? ==> r == Err(NullPointer(MissingAwsNameMessage))
      ensures r.Ok? ==> awsName.Some? && awsName.value in store
    {
      r, order := UpdateConfigSecret(awsName, mergePath, store, reader, mutableInput);
    }
  }

  /**
   * The update of a transformer-less secret with this name and merge path: read,
   * parse, merge; a failure at either of the first two steps is returned unchanged.
   */
  method UpdateConfigSecret(awsName: Option<string>, mergePath: Option<string>, store: SecretStore,
                            reader: JsonReader, mutableInput: Json)
    returns (r: Result<Json>, ghost order: seq<string>)
    ensures SecretUpdate(SecretDescriptor(awsName, mergePath, None), store, reader, map[], mutableInput, order, r)
    ensures awsName.None? ==> r == Err(NullPointer(MissingAwsNameMessage))
    ensures r.Ok? ==> awsName.Some? && awsName.value in store
  {
    order := [];
    var secret := ReadSecret(awsName, store);
    if secret.Err? {
      return Err(secret.error), order;
    }
    var parsed := ParseSecret(awsName.value, reader, secret.value);
    if parsed.Err? {
      return Err(parsed.error), order;
    }
    var merged;
    merged, order := MergeSecret(mergePath, mutableInput, parsed.value);
    r := Ok(merged);
  }
}
