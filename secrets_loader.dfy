/**
 * The v2 AwsSecretsConfigurationLoader: the last configuration loader in the chain.
 * It reads its own settings from the tree it is given, and when there are secrets to
 * load it builds the AWS configuration and folds the secrets over the tree.
 */
module SecretsLoader {
  import opened Outcomes
  import opened Json
  import opened AwsSecret
  import opened AwsCore
  import opened SecretsFold

  /**
   * ORDER: one hundred after the properties loader, so this loader runs after it. The
   * second ensures spells out the constant itself; the first is what the offset is for.
   */
  function LoaderOrder(propertiesLoaderOrder: int): (order: int)
    ensures order > propertiesLoaderOrder
    ensures order - propertiesLoaderOrder == 100
  {
    propertiesLoaderOrder + 100
  }

  class AwsSecretsConfigurationLoader {
    const transformers: map<string, Transformer>
    const propertiesLoaderOrder: int

    constructor (transformers: map<string, Transformer>, propertiesLoaderOrder: int)
      ensures this.transformers == transformers && this.propertiesLoaderOrder == propertiesLoaderOrder
    {
      this.transformers := transformers;
      this.propertiesLoaderOrder := propertiesLoaderOrder;
    }

    /** getOrder: ORDER, so this loader sorts after the properties loader. */
    function GetOrder(): (order: int)
      ensures order == LoaderOrder(propertiesLoaderOrder)
      ensures order > propertiesLoaderOrder
    {
      LoaderOrder(propertiesLoaderOrder)
    }

    /**
     * updateConfiguration. `secretsFactory` is the factory bound from the "awssecrets"
     * part of the tree, and `createConfig` builds the AwsConfig from its "aws" part,
     * resolving credentials on the way. With no secrets the tree comes back unchanged and
     * no configuration is built (`configBuilt` reports whether it was); otherwise a
     * failure to build it is the result, and else the fold of the secrets with this
     * loader's transformers. `createConfig` is a pure function value, so building the
     * configuration has no effect of its own; `configBuilt` is the ghost record of whether
     * this method reaches that call, set beside it.
     */
    method UpdateConfiguration(mutableInput: Json, secretsFactory: AwsSecretsFactory,
                               createConfig: () -> Result<AwsConfig>, reader: JsonReader, store: SecretStore)
      returns (r: Result<Json>, ghost configBuilt: bool, ghost orders: seq<seq<string>>)
      ensures configBuilt <==> !secretsFactory.IsEmpty()
      ensures secretsFactory.IsEmpty() ==> r == Ok(mutableInput)
      ensures !secretsFactory.IsEmpty() && createConfig().Err? ==> r == Err(createConfig().error)
      ensures !secretsFactory.IsEmpty() && createConfig().Ok? ==>
                FoldUpdate(secretsFactory.Descriptors(), store, reader, transformers, mutableInput, orders, r)
    {
      orders := [];
      configBuilt := false;
      if secretsFactory.IsEmpty() {
        return Ok(mutableInput), configBuilt, orders;
      }
      configBuilt := true;
      var config := createConfig();
      if config.Err? {
        return Err(config.error), configBuilt, orders;
      }
      ghost var client;
      r, client, orders := secretsFactory.UpdateConfiguration(mutableInput, config.value, reader, transformers, store);
    }
  }
}
