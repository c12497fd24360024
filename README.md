# bootique-aws: configuration decisions, modelled in Dafny

This project models the configuration logic of the Bootique AWS integration. It covers five parts.

- **Secret merge pipeline.** A configured secret goes through five steps:
  - It is read from the secrets store by name or ARN.
  - It must parse to a JSON object.
  - It may be passed through a named transformer.
  - Its fields are flattened into `mergePath.field → text` properties.
  - Those properties are merged into the application's configuration tree.

  A list of secrets is folded over the tree in list order. An empty list leaves the tree alone: no client is created and no AWS configuration is built. The v2 configuration loader wraps this fold. It runs one hundred positions after the properties loader.
- **RDS → Hikari transformer.** It turns an RDS secret into `username`, `password` and `jdbc:{engine}://{host}[:{port}][/{dbname}]`. It warns when `engine` or `host` is missing.
- **Credentials decisions.**
  - The v2 provider chain: none is an error, one is unwrapped, many are sorted by order.
  - The explicit-keys factory and the profile factory.
  - The v1 `AwsConfigFactory`, which yields anonymous, basic or partial-key errors.
  - The `AwsConfig` value.
- **Endpoint and region precedence.** This covers the v1 and v2 `AwsServiceFactory.configure` and `S3ClientFactory` with its `Builder`. An SDK builder is modelled as the record of the settings applied to it.
- **`S3TesterLifecycleManager`.** A single-attach state machine. It records the buckets it creates and the callbacks it runs as an event trace.

Layout, one module per file:

| File | Contents |
|---|---|
| `outcomes.dfy` | `Option`, `Result` and the exception kinds |
| `json.dfy` | The JSON value and Jackson's `asText` |
| `config_tree.dfy` | Dotted paths, the leaf-set merge and its order-independent meaning |
| `rds_transformer.dfy` | The RDS transformer |
| `aws_secret.dfy` | One secret with a transformer |
| `aws_secret_config.dfy` | One secret without a transformer |
| `secrets_fold.dfy` | The two list factories and the fold lemmas |
| `secrets_loader.dfy` | The v2 loader |
| `credentials.dfy` | Credentials values |
| `provider_chain.dfy` | The v2 chain factory |
| `credentials_factories.dfy` | The explicit and profile factories |
| `aws_core.dfy` | `AwsConfig` and the v1 `AwsConfigFactory` |
| `service_factory.dfy` | Both service factories and the builders |
| `s3_client_factory.dfy` | `S3ClientFactory` and its `Builder` |
| `s3_tester.dfy` | The lifecycle manager |

Exceptions become `Err` values of `Outcomes.Failure`, tagged with the Java exception kind and the source's message.

Java `null` becomes `None`.

Classes with setters become Dafny classes. The setters have `modifies` clauses, and the getters become `reads` functions.

Foreign pieces become parameters:
- The secrets store is a `map<string, string>`.
- Jackson's `readTree` is a function `string -> Option<Json>`.
- The SDK's list of region names is a `set<string>`.
- Binding configuration objects from the tree isn't modelled. The loader receives the bound `AwsSecretsFactory` and a `() -> Result<AwsConfig>`.

Bootique's `InPlacePropertiesMerger` is foreign code. It is specified by its observable behaviour:
- `SetAt` sets a leaf at a dotted path.
- Missing intermediate objects are created on the way.
- Siblings are kept.

The merger walks a `HashMap`, so its order of iteration is unspecified. Every method that merges therefore returns a ghost `order`. Its contract holds for every order. The lemmas `MergeMeaning` and `SecretMergeMeaning` state what is true whatever the order is:
- every unshadowed key receives its value;
- every path no key touches keeps its node.

Where the Dafny names differ from the source:
- `CreateConfig` models `AwsConfigFactory.createConfig()`. Java evaluates the region argument before the credentials argument, so an unknown region is reported first.
- `S3ClientFactories.Builder.SetEndpointOverride`/`SetRegion` are `Builder.endpointOverride`/`region`.
- `ServiceFactory.V2ClientBuilder.Apply*` are the SDK builder's `credentialsProvider`/`endpointOverride`/`region`.
- The two list factories' loops (`ApplySecrets`, `ApplyConfigSecrets`) run over the values their element factories describe (`SecretDescriptor`). No factory is changed during the loop, so each element's `updateConfiguration` is the update of its descriptor.

## Model

| member | source | states |
|---|---|---|
| Json.TypeOf | bootique-aws-secrets/src/main/java/io/bootique/aws/secrets/AwsSecretFactory.java:103-104 | The node type is OBJECT exactly for objects and ARRAY exactly for arrays |
| Json.AsText | bootique-aws-secrets/src/main/java/io/bootique/aws/secrets/AwsSecretFactory.java:134 | A string node gives its text; containers give ""; booleans give "true"/"false"; null gives "null" |
| Json.NatTextRoundTrip | bootique-aws-secrets/src/main/java/io/bootique/aws/secrets/AwsSecretFactory.java:134 | The decimal text of a number reads back as that number |
| ConfigTree.SplitDotted | bootique-aws-secrets/src/main/java/io/bootique/aws/secrets/AwsSecretFactory.java:129-134 | `a + "." + b` splits into the segments of `a` followed by those of `b` |
| ConfigTree.SplitJoin | bootique-aws-secrets/src/main/java/io/bootique/aws/secrets/AwsSecretFactory.java:129-134 | Splitting undoes joining for segments without dots |
| ConfigTree.SetAtThenLookup | bootique-aws-secrets/src/main/java/io/bootique/aws/secrets/AwsSecretFactory.java:139 | After a leaf-set, the path reads the value set |
| ConfigTree.SetAtKeepsDisjoint | bootique-aws-secrets/src/main/java/io/bootique/aws/secrets/AwsSecretFactory.java:139 | A leaf-set leaves every path that is not a prefix of it, nor prefixed by it, unchanged; siblings are kept |
| ConfigTree.EnumerationLength | bootique-aws-secrets/src/main/java/io/bootique/aws/secrets/AwsSecretFactory.java:139 | An order of the merge lists every property exactly once, so it is as long as the property map |
| ConfigTree.ApplySetsUnshadowed | bootique-aws-secrets/src/main/java/io/bootique/aws/secrets/AwsSecretFactory.java:139 | In any order, a key whose path no other key overlaps ends up with its value |
| ConfigTree.ApplyKeepsUntouched | bootique-aws-secrets/src/main/java/io/bootique/aws/secrets/AwsSecretFactory.java:139 | In any order, a path disjoint from every key's path keeps its node |
| ConfigTree.MergeMeaning | bootique-aws-secrets/src/test/java/io/bootique/aws/secrets/AwsSecretsConfigurationLoaderIT.java:84-106 | Whatever the merge order: unshadowed keys get their value as text, untouched paths keep their node |
| ConfigTree.MergeProperties | bootique-aws-secrets/src/main/java/io/bootique/aws/secrets/AwsSecretFactory.java:139 | The merge sets each property exactly once, in the order it reports, and its result is that sequence of leaf-sets |
| RdsTransformer.ToJdbcUrl | bootique-aws-secrets/src/main/java/io/bootique/aws/secrets/transformer/RDSToHikariDataSourceTransformer.java:66-100 | The builder's text is `jdbc:{engine}://{host}` plus optional `:{port}` and `/{dbname}`; a URL comes back exactly when no warning is issued |
| RdsTransformer.FromSecret | bootique-aws-secrets/src/main/java/io/bootique/aws/secrets/transformer/RDSToHikariDataSourceTransformer.java:44-64 | The conditional puts build the Hikari object; the warnings are the URL's single warning, if any |
| RdsTransformer.HikariCopiesCredentials | bootique-aws-secrets/src/main/java/io/bootique/aws/secrets/transformer/RDSToHikariDataSourceTransformer.java:48-56 | `username` and `password` are in the output, as text, exactly when they are in the secret |
| RdsTransformer.HikariKeys | bootique-aws-secrets/src/main/java/io/bootique/aws/secrets/transformer/RDSToHikariDataSourceTransformer.java:46-63 | The output is an object with no keys but username, password and jdbcUrl; jdbcUrl is present exactly when engine and host are |
| RdsTransformer.JdbcUrlShape | bootique-aws-secrets/src/main/java/io/bootique/aws/secrets/transformer/RDSToHikariDataSourceTransformer.java:83-97 | The URL starts with `jdbc:{engine}://{host}`; the port segment follows the host; the dbname segment ends the URL; with neither, the URL is just the base |
| RdsTransformer.WarningOrder | bootique-aws-secrets/src/main/java/io/bootique/aws/secrets/transformer/RDSToHikariDataSourceTransformer.java:71-81 | A missing engine warns about the engine; otherwise a missing host warns about the host; no warning exactly when a URL is built |
| RdsTransformer.RdsExample | bootique-aws-secrets/src/test/java/io/bootique/aws/secrets/transformers/RDSToHikariDataSourceTransformerIT.java:58-63 | The test's RDS secret yields exactly rds_user, rds_password and `jdbc:fakedb://rdshost:7890/mydb` |
| AwsSecret.DefaultTransformers | bootique-aws-secrets/src/main/java/io/bootique/aws/secrets/AwsSecretsModule.java:59 | The only transformer registered by default is "rds-to-hikari-datasource" |
| AwsSecret.ReadSecret | bootique-aws-secrets/src/main/java/io/bootique/aws/secrets/AwsSecretFactory.java:86-93 | No name is a NullPointerException with its message, and the store is not consulted; otherwise the named secret, or not-found |
| AwsSecret.ParseSecret | bootique-aws-secrets/src/main/java/io/bootique/aws/secrets/AwsSecretFactory.java:95-108 | Succeeds exactly for text that parses to an object; unparsable text and non-objects fail with messages naming the secret (and the node type) |
| AwsSecret.ParseErrorsNameTheSecret | bootique-aws-secrets/src/main/java/io/bootique/aws/secrets/AwsSecretFactory.java:97-105 | Both parse messages carry the secret's name right after the opening quote |
| AwsSecret.NormalizeSecret | bootique-aws-secrets/src/main/java/io/bootique/aws/secrets/AwsSecretFactory.java:110-124 | No transformer passes the secret through; a registered one is applied; an unknown name fails and lists the known names |
| AwsSecret.Prefix | bootique-aws-secrets/src/main/java/io/bootique/aws/secrets/AwsSecretFactory.java:129 | `mergePath + "."` for a non-empty merge path, "" for an absent or empty one |
| AwsSecret.PropertyPath | bootique-aws-secrets/src/main/java/io/bootique/aws/secrets/AwsSecretFactory.java:129-134 | Each property's path is the merge path's segments followed by the field name's segments |
| AwsSecret.PropertiesMeaning | bootique-aws-secrets/src/main/java/io/bootique/aws/secrets/AwsSecretFactory.java:130-135 | Exactly one property `prefix + field → asText(value)` per field, and nothing else |
| AwsSecret.FlatSecretUnshadowed | bootique-aws-secrets/src/main/java/io/bootique/aws/secrets/AwsSecretFactory.java:128-135 | In a one-level secret whose field names have no dots, no property shadows another |
| AwsSecret.FlattenFields | bootique-aws-secrets/src/main/java/io/bootique/aws/secrets/AwsSecretFactory.java:130-135 | The loop over the fields builds exactly the flattened property map |
| AwsSecret.FlattenInsert | bootique-aws-secrets/src/main/java/io/bootique/aws/secrets/AwsSecretFactory.java:130-135 | Adding one more field adds exactly its one property to the flattened map |
| AwsSecret.MergeSecret | bootique-aws-secrets/src/main/java/io/bootique/aws/secrets/AwsSecretFactory.java:126-140 | Each unshadowed field lands below the merge path as text, and every path no property touches keeps its node |
| AwsSecret.SecretMergeMeaning | bootique-aws-secrets/src/main/java/io/bootique/aws/secrets/AwsSecretFactory.java:139 | What merging a secret means in every merge order |
| AwsSecret.MergeIntoEmptyExample | bootique-aws-secrets/src/main/java/io/bootique/aws/secrets/AwsSecretFactory.java:126-140 | `{"a": "v"}` merged at "x.y" into an empty tree yields exactly `{x: {y: {a: "v"}}}` |
| AwsSecret.AwsSecretFactory.SetAwsName | bootique-aws-secrets/src/main/java/io/bootique/aws/secrets/AwsSecretFactory.java:52-56 | Sets the name only and returns the factory itself |
| AwsSecret.AwsSecretFactory.SetMergePath | bootique-aws-secrets/src/main/java/io/bootique/aws/secrets/AwsSecretFactory.java:58-62 | Sets the merge path only and returns the factory itself |
| AwsSecret.AwsSecretFactory.SetJsonTransformer | bootique-aws-secrets/src/main/java/io/bootique/aws/secrets/AwsSecretFactory.java:64-69 | Sets the transformer name only and returns the factory itself |
| AwsSecret.AwsSecretFactory.UpdateConfiguration | bootique-aws-secrets/src/main/java/io/bootique/aws/secrets/AwsSecretFactory.java:71-84 | The update proceeds read, parse, normalize, merge, and the first failure is the result; no name fails with the NullPointerException; success implies the secret exists |
| AwsSecret.UpdateSecret | bootique-aws-secrets/src/main/java/io/bootique/aws/secrets/AwsSecretFactory.java:71-84 | The update of one secret description, whose steps and failures are those of SecretProperties followed by the merge in the order it reports |
| AwsSecretConfig.NoTransformerIgnoresRegistry | bootique-aws-secrets/src/main/java/io/bootique/aws/secrets/AwsSecretConfigFactory.java:69-71 | Without a transformer, the registry plays no part |
| AwsSecretConfig.ReadParseFlatten | bootique-aws-secrets/src/main/java/io/bootique/aws/secrets/AwsSecretConfigFactory.java:69-107 | The update without a transformer is read, parse, flatten, with the same errors and prefix rule |
| AwsSecretConfig.AwsSecretConfigFactory.Descriptor | bootique-aws-secrets/src/main/java/io/bootique/aws/secrets/AwsSecretConfigFactory.java:46-47 | The secret it describes has the given name and merge path and never a transformer |
| AwsSecretConfig.AwsSecretConfigFactory.SetAwsName | bootique-aws-secrets/src/main/java/io/bootique/aws/secrets/AwsSecretConfigFactory.java:49-53 | Sets the name only and returns the factory itself |
| AwsSecretConfig.AwsSecretConfigFactory.SetMergePath | bootique-aws-secrets/src/main/java/io/bootique/aws/secrets/AwsSecretConfigFactory.java:55-59 | Sets the merge path only and returns the factory itself |
| AwsSecretConfig.AwsSecretConfigFactory.UpdateConfiguration | bootique-aws-secrets/src/main/java/io/bootique/aws/secrets/AwsSecretConfigFactory.java:61-72 | The update proceeds read, parse, merge, with no transformer; no name is the NullPointerException; success implies the secret exists |
| AwsSecretConfig.UpdateConfigSecret | bootique-aws-secrets/src/main/java/io/bootique/aws/secrets/AwsSecretConfigFactory.java:61-72 | The same update for a name and merge path with no transformer, so with an empty registry |
| SecretsFold.FirstFailure | bootique-aws-secrets/src/main/java/io/bootique/aws/secrets/AwsSecretsFactory.java:69-71 | Absent exactly when every secret's update succeeds |
| SecretsFold.FoldAppend | bootique-aws-secrets/src/main/java/io/bootique/aws/secrets/AwsSecretsFactory.java:69-71 | One more loop iteration extends the fold by that secret's update on the tree so far |
| SecretsFold.FoldStops | bootique-aws-secrets/src/main/java/io/bootique/aws/secrets/AwsSecretsFactory.java:69-71 | Once a secret fails, the later secrets are never applied |
| SecretsFold.FoldStep | bootique-aws-secrets/src/main/java/io/bootique/aws/secrets/AwsSecretsFactory.java:69-71 | A successful step extends the fold; a failing step is the whole fold |
| SecretsFold.FoldFailsWithFirstFailure | bootique-aws-secrets/src/main/java/io/bootique/aws/secrets/AwsSecretsFactory.java:69-71 | The fold fails exactly when some secret fails, and then with the first failure in list order |
| SecretsFold.LastSecretWins | bootique-aws-secrets/src/main/java/io/bootique/aws/secrets/AwsSecretsFactory.java:69-74 | A key the last secret writes ends with that secret's value, whatever earlier secrets wrote there |
| SecretsFold.FoldSplit | bootique-aws-secrets/src/main/java/io/bootique/aws/secrets/AwsSecretsFactory.java:69-71 | A successful loop splits at any iteration: the first secrets lead to an intermediate tree, and folding the rest from it gives the result |
| SecretsFold.LatestWriterWins | bootique-aws-secrets/src/main/java/io/bootique/aws/secrets/AwsSecretsFactory.java:69-74 | A later secret wins: a key secret j writes, unshadowed within it, ends with j's value when no later secret writes to or through its path |
| SecretsFold.FoldKeepsUntouched | bootique-aws-secrets/src/main/java/io/bootique/aws/secrets/AwsSecretsFactory.java:69-74 | A path no secret's properties touch ends with its original node |
| SecretsFold.DescriptorsOf | bootique-aws-secrets/src/main/java/io/bootique/aws/secrets/AwsSecretsFactory.java:69 | The secrets are taken in list order, one each |
| SecretsFold.SecretOutcomes | bootique-aws-secrets/src/main/java/io/bootique/aws/secrets/AwsSecretsFactory.java:69-71 | One property outcome per secret, in list order, each that secret's own |
| SecretsFold.ApplySecrets | bootique-aws-secrets/src/main/java/io/bootique/aws/secrets/AwsSecretsFactory.java:69-71 | The loop over the secrets is the fold of their outcomes: it merges each secret into the tree so far, fails exactly when some secret fails, and then with the first failure in list order |
| SecretsFold.FoldSecret | bootique-aws-secrets/src/main/java/io/bootique/aws/secrets/AwsSecretsFactory.java:70 | One iteration: a success extends the fold by one step; a failure is the result of the whole fold and is the first failure |
| SecretsFold.SecretStep | bootique-aws-secrets/src/main/java/io/bootique/aws/secrets/AwsSecretsFactory.java:70 | The update of the i-th secret is the i-th step of the fold |
| SecretsFold.FoldAll | bootique-aws-secrets/src/main/java/io/bootique/aws/secrets/AwsSecretsFactory.java:69-74 | A loop that applied every secret without failure has computed the whole fold, and no secret fails |
| SecretsFold.AwsSecretsFactory.SetSecrets | bootique-aws-secrets/src/main/java/io/bootique/aws/secrets/AwsSecretsFactory.java:45-48 | Replaces the list |
| SecretsFold.AwsSecretsFactory.IsEmpty | bootique-aws-secrets/src/main/java/io/bootique/aws/secrets/AwsSecretsFactory.java:50-52 | True exactly for an absent or empty list, that is, exactly when there is no secret to apply |
| SecretsFold.AwsSecretsFactory.CreateSecretsManager | bootique-aws-secrets/src/main/java/io/bootique/aws/secrets/AwsSecretsFactory.java:54-56 | The client is built from a new builder configured by the common v1 rule |
| SecretsFold.AwsSecretsFactory.UpdateConfiguration | bootique-aws-secrets/src/main/java/io/bootique/aws/secrets/AwsSecretsFactory.java:58-75 | Empty leaves the tree unchanged and creates no client; otherwise there is exactly one client and the secrets are folded in list order |
| SecretsFold.ConfigDescriptorsOf | bootique-aws-secrets/src/main/java/io/bootique/aws/secrets/AwsSecretConfigsFactory.java:54 | The secrets are taken in list order, one each |
| SecretsFold.ApplyConfigSecrets | bootique-aws-secrets/src/main/java/io/bootique/aws/secrets/AwsSecretConfigsFactory.java:54-56 | The loop over secrets without transformers is the same fold, with an empty registry, and fails exactly with the first failing secret's error |
| SecretsFold.FoldConfigSecret | bootique-aws-secrets/src/main/java/io/bootique/aws/secrets/AwsSecretConfigsFactory.java:55 | One iteration of that loop, as one step of the fold |
| SecretsFold.AwsSecretConfigsFactory.SetSecrets | bootique-aws-secrets/src/main/java/io/bootique/aws/secrets/AwsSecretConfigsFactory.java:38-41 | Replaces the list |
| SecretsFold.AwsSecretConfigsFactory.IsEmpty | bootique-aws-secrets/src/main/java/io/bootique/aws/secrets/AwsSecretConfigsFactory.java:43-45 | True exactly for an absent or empty list |
| SecretsFold.AwsSecretConfigsFactory.UpdateConfiguration | bootique-aws-secrets/src/main/java/io/bootique/aws/secrets/AwsSecretConfigsFactory.java:47-60 | Empty leaves the tree unchanged; otherwise the fold in list order, every secret using the same store and reader |
| SecretsFold.TwoSecretsFold | bootique-aws-secrets/src/test/java/io/bootique/aws/secrets/AwsSecretsConfigurationLoaderIT.java:84-92 | The test's two secrets give their property maps, merged one after the other |
| SecretsFold.TwoSecretsExample | bootique-aws-secrets/src/test/java/io/bootique/aws/secrets/AwsSecretsConfigurationLoaderIT.java:84-106 | a.user stays a_uname; a.password becomes y_secret; b.c.user and b.c.password come from the second secret; this holds in every merge order |
| SecretsLoader.LoaderOrder | bootique-aws2-secrets/src/main/java/io/bootique/aws2/secrets/AwsSecretsConfigurationLoader.java:41-42 | ORDER is the properties loader's order plus 100, so it sorts after it |
| SecretsLoader.AwsSecretsConfigurationLoader.GetOrder | bootique-aws2-secrets/src/main/java/io/bootique/aws2/secrets/AwsSecretsConfigurationLoader.java:62-65 | Returns ORDER |
| SecretsLoader.AwsSecretsConfigurationLoader.UpdateConfiguration | bootique-aws2-secrets/src/main/java/io/bootique/aws2/secrets/AwsSecretsConfigurationLoader.java:67-85 | Empty gives the input tree, and the AWS configuration is built exactly when there are secrets; a configuration failure is the result; otherwise the fold with the loader's transformers |
| ProviderChain.InsertByOrder | bootique-aws2/src/main/java/io/bootique/aws2/credentials/CredentialsProviderChainFactory.java:56-57 | Insertion keeps the sequence sorted by order and adds exactly the one provider |
| ProviderChain.SortByOrder | bootique-aws2/src/main/java/io/bootique/aws2/credentials/CredentialsProviderChainFactory.java:56-57 | A sorted permutation of the providers |
| ProviderChain.ProvidersPermutation | bootique-aws2/src/main/java/io/bootique/aws2/credentials/CredentialsProviderChainFactory.java:56-59 | Mapping to the providers keeps a permutation a permutation |
| ProviderChain.CreateProviderChain | bootique-aws2/src/main/java/io/bootique/aws2/credentials/CredentialsProviderChainFactory.java:46-62 | None exactly for no providers; one provider is unwrapped; two or more give a chain with each provider exactly once |
| ProviderChain.Create | bootique-aws2/src/main/java/io/bootique/aws2/credentials/CredentialsProviderChainFactory.java:32-44 | IllegalStateException with its message exactly when nothing was contributed; otherwise the helper's provider, never absent |
| ProviderChain.ChainIsSorted | bootique-aws2/src/main/java/io/bootique/aws2/credentials/CredentialsProviderChainFactory.java:56-61 | The chain lists the providers of a permutation of the set sorted by ascending order |
| ProviderChain.LowestOrderFirst | bootique-aws2/src/main/java/io/bootique/aws2/credentials/CredentialsProviderChainFactory.java:57 | The provider with strictly the lowest order heads the chain |
| ProviderChain.ExampleOrdering | bootique-aws2/src/test/java/io/bootique/aws2/AwsModuleIT.java:78-94 | Orders 5, 2 and 6, in any iteration order, put the order-2 provider first |
| CredentialsFactories.ExplicitCredentialsProviderFactory.SetAccessKey | bootique-aws2/src/main/java/io/bootique/aws2/credentials/ExplicitCredentialsProviderFactory.java:38-41 | Sets the access key only |
| CredentialsFactories.ExplicitCredentialsProviderFactory.SetSecretKey | bootique-aws2/src/main/java/io/bootique/aws2/credentials/ExplicitCredentialsProviderFactory.java:43-46 | Sets the secret key only |
| CredentialsFactories.ExplicitCredentialsProviderFactory.SetSessionToken | bootique-aws2/src/main/java/io/bootique/aws2/credentials/ExplicitCredentialsProviderFactory.java:48-51 | Sets the session token only |
| CredentialsFactories.ExplicitCredentialsProviderFactory.Create | bootique-aws2/src/main/java/io/bootique/aws2/credentials/ExplicitCredentialsProviderFactory.java:53-69 | Succeeds exactly when both keys are set, and each missing-key case has its message. The result is a static provider with exactly the configured values: session credentials exactly when a token is set |
| CredentialsFactories.ProfileName | bootique-aws2/src/main/java/io/bootique/aws2/credentials/ProfileCredentialsProviderFactory.java:47 | Only an absent name is defaulted to "default" |
| CredentialsFactories.EmptyProfileIsKept | bootique-aws2/src/main/java/io/bootique/aws2/credentials/ProfileCredentialsProviderFactory.java:47 | The empty name is used as given |
| CredentialsFactories.ProfileCredentialsProviderFactory.SetProfile | bootique-aws2/src/main/java/io/bootique/aws2/credentials/ProfileCredentialsProviderFactory.java:40-43 | The last name set is the one create uses |
| CredentialsFactories.ProfileCredentialsProviderFactory.Create | bootique-aws2/src/main/java/io/bootique/aws2/credentials/ProfileCredentialsProviderFactory.java:45-49 | A profile provider for the configured name, or for "default" |
| AwsCore.RegionFromName | bootique-aws/src/main/java/io/bootique/aws/AwsConfigFactory.java:78 | Known names give their region; others give IllegalArgumentException |
| AwsCore.NewAwsConfig | bootique-aws/src/main/java/io/bootique/aws/AwsConfig.java:37-54 | An absent provider is rejected; the getters return the constructor's arguments, and the region may be absent |
| AwsCore.AwsConfigFactory.SetAccessKey | bootique-aws/src/main/java/io/bootique/aws/AwsConfigFactory.java:34-37 | Sets the access key only |
| AwsCore.AwsConfigFactory.SetSecretKey | bootique-aws/src/main/java/io/bootique/aws/AwsConfigFactory.java:39-42 | Sets the secret key only |
| AwsCore.AwsConfigFactory.SetDefaultRegion | bootique-aws/src/main/java/io/bootique/aws/AwsConfigFactory.java:44-48 | Sets the region name only |
| AwsCore.AwsConfigFactory.CreateCredentials | bootique-aws/src/main/java/io/bootique/aws/AwsConfigFactory.java:59-75 | No keys gives anonymous credentials; both give a basic pair with exactly those values; one key alone gives IllegalStateException naming the missing one |
| AwsCore.AwsConfigFactory.CreateCredentialsProvider | bootique-aws/src/main/java/io/bootique/aws/AwsConfigFactory.java:54-57 | A static provider around those credentials, or their error |
| AwsCore.AwsConfigFactory.CreateDefaultRegion | bootique-aws/src/main/java/io/bootique/aws/AwsConfigFactory.java:77-79 | Absent exactly when unset; otherwise the named region, or an error for an unknown name |
| AwsCore.AwsConfigFactory.CreateConfig | bootique-aws/src/main/java/io/bootique/aws/AwsConfigFactory.java:50-52 | Pairs exactly that region with that provider; the region error is reported first |
| ServiceFactory.V1Configured | bootique-aws/src/main/java/io/bootique/aws/AwsServiceFactory.java:52-65 | Credentials are always applied; an endpoint configuration excludes the region; without one, the default region is applied if present |
| ServiceFactory.AwsServiceFactory.SetServiceEndpoint | bootique-aws/src/main/java/io/bootique/aws/AwsServiceFactory.java:39-42 | Sets the endpoint only |
| ServiceFactory.AwsServiceFactory.SetSigningRegion | bootique-aws/src/main/java/io/bootique/aws/AwsServiceFactory.java:44-47 | Sets the signing region only |
| ServiceFactory.AwsServiceFactory.CreateEndpointConfig | bootique-aws/src/main/java/io/bootique/aws/AwsServiceFactory.java:67-69 | Absent exactly when no endpoint is set; otherwise the endpoint paired with the signing region |
| ServiceFactory.AwsServiceFactory.Configure | bootique-aws/src/main/java/io/bootique/aws/AwsServiceFactory.java:52-65 | The builder it was given, with the v1 rule applied and nothing else changed |
| ServiceFactory.V2Configured | bootique-aws2/src/main/java/io/bootique/aws2/AwsServiceFactory.java:46-56 | Credentials always; the endpoint override exactly when set; the default region whenever present |
| ServiceFactory.AwsServiceFactoryV2.SetEndpointOverride | bootique-aws2/src/main/java/io/bootique/aws2/AwsServiceFactory.java:38-41 | Sets the override |
| ServiceFactory.AwsServiceFactoryV2.Configure | bootique-aws2/src/main/java/io/bootique/aws2/AwsServiceFactory.java:46-56 | The builder it was given, with the v2 rule applied |
| ServiceFactory.RegionRuleDiffers | bootique-aws/src/main/java/io/bootique/aws/AwsServiceFactory.java:57-62 | With an endpoint, v1 drops the default region while v2 keeps it; without one, both apply it |
| S3ClientFactories.ClientSettings | bootique-aws2-s3/src/main/java/io/bootique/aws2/s3/S3ClientFactory.java:82-98 | Credentials always; the override if set; the region is the builder's, else the config default, else none |
| S3ClientFactories.S3ClientFactory.constructor | bootique-aws2-s3/src/main/java/io/bootique/aws2/s3/S3ClientFactory.java:39-42 | Keeps the config and the override |
| S3ClientFactories.S3ClientFactory.NewBuilder | bootique-aws2-s3/src/main/java/io/bootique/aws2/s3/S3ClientFactory.java:48-50 | A new builder with the factory's override and no region |
| S3ClientFactories.S3ClientFactory.NewClient | bootique-aws2-s3/src/main/java/io/bootique/aws2/s3/S3ClientFactory.java:44-46 | The same client as `newBuilder().build()`, so with the config's default region |
| S3ClientFactories.Builder.constructor | bootique-aws2-s3/src/main/java/io/bootique/aws2/s3/S3ClientFactory.java:58-61 | Starts with the given override and no region |
| S3ClientFactories.Builder.SetEndpointOverride | bootique-aws2-s3/src/main/java/io/bootique/aws2/s3/S3ClientFactory.java:63-71 | Absent is a NullPointerException and leaves the builder unchanged; otherwise replaces the override and returns the builder |
| S3ClientFactories.Builder.SetRegion | bootique-aws2-s3/src/main/java/io/bootique/aws2/s3/S3ClientFactory.java:73-80 | The same rule for the region |
| S3ClientFactories.Builder.Build | bootique-aws2-s3/src/main/java/io/bootique/aws2/s3/S3ClientFactory.java:82-98 | A new SDK builder gets exactly the precedence settings |
| S3ClientFactories.BuilderRegionWins | bootique-aws2-s3/src/main/java/io/bootique/aws2/s3/S3ClientFactory.java:92 | A builder region beats a different default region |
| S3Tester.BucketCreations | bootique-aws2-s3-junit5/src/main/java/io/bootique/aws2/s3/junit5/S3TesterLifecycleManager.java:72 | One creation per name, in order, all by the same client |
| S3Tester.Runs | bootique-aws2-s3-junit5/src/main/java/io/bootique/aws2/s3/junit5/S3TesterLifecycleManager.java:74 | One run per callback, in order, with the same factory |
| S3Tester.S3TesterLifecycleManager.constructor | bootique-aws2-s3-junit5/src/main/java/io/bootique/aws2/s3/junit5/S3TesterLifecycleManager.java:46-51 | Not attached, no factory, not in a test, all lists empty |
| S3Tester.S3TesterLifecycleManager.BeforeMethod | bootique-aws2-s3-junit5/src/main/java/io/bootique/aws2/s3/junit5/S3TesterLifecycleManager.java:53-60 | Enters a test; the before-each callbacks run in order only once a factory is set |
| S3Tester.S3TesterLifecycleManager.AfterMethod | bootique-aws2-s3-junit5/src/main/java/io/bootique/aws2/s3/junit5/S3TesterLifecycleManager.java:62-64 | Leaves the test; nothing else changes |
| S3Tester.S3TesterLifecycleManager.OnS3ClientFactoryInit | bootique-aws2-s3-junit5/src/main/java/io/bootique/aws2/s3/junit5/S3TesterLifecycleManager.java:66-80 | A second call fails before anything changes. The first stores the factory and creates every bucket in order with one new client (only if there are buckets); then it runs the after-buckets callbacks, and inside a test the before-each callbacks |
| S3Tester.S3TesterLifecycleManager.RunAll | bootique-aws2-s3-junit5/src/main/java/io/bootique/aws2/s3/junit5/S3TesterLifecycleManager.java:74 | Each callback runs once, in order, with the stored factory |
| S3Tester.S3TesterLifecycleManager.CreateBuckets | bootique-aws2-s3-junit5/src/main/java/io/bootique/aws2/s3/junit5/S3TesterLifecycleManager.java:87-91 | Appends the names in argument order |
| S3Tester.S3TesterLifecycleManager.RunAfterBucketsCreated | bootique-aws2-s3-junit5/src/main/java/io/bootique/aws2/s3/junit5/S3TesterLifecycleManager.java:93-95 | Appends to its own list only |
| S3Tester.S3TesterLifecycleManager.RunBeforeEachTest | bootique-aws2-s3-junit5/src/main/java/io/bootique/aws2/s3/junit5/S3TesterLifecycleManager.java:97-99 | Appends to its own list only |
| S3Tester.S3TesterLifecycleManager.CheckUnused | bootique-aws2-s3-junit5/src/main/java/io/bootique/aws2/s3/junit5/S3TesterLifecycleManager.java:105-110 | The first claim succeeds and marks the manager attached; later claims fail with IllegalStateException and change nothing |

## Left out

- Network and SDK calls are not modelled: `getSecretValue`, client `build()`, and bucket creation. The store is a map; a client is the record of its builder's settings; a bucket creation is an event.
- The SDK's exceptions are modelled by kind only. A secret missing from the store is `SecretNotFound`, not the SDK's `ResourceNotFoundException`. An unknown region is `IllegalArgument(name)`. `requireNonNull` without a message is `NullPointer("")`.
- The unknown-transformer message is kept as a value naming the transformer and the set of known names, not as the Java text.
- Jackson is not modelled. `readTree` is a parameter. Numbers are integers, and floating-point numbers are out.
- Jackson's `MissingNode` is not modelled. `readTree("")` returns it, so the source fails an empty secret text with "AWS secret '…' is not a JSON object: MISSING". The model's reader can only fail to parse (`None`) or return one of the six node types of `NodeType`, so that failure cannot arise.
- Binary secrets are not modelled. For them `getSecretString()` is null, and `readTree(null)` throws an IllegalArgumentException that is not an IOException, so it escapes `parseSecret` unwrapped. The store is a `map<string, string>` with a text for every secret, so it has no such case.
- `InPlacePropertiesMerger` is specified, not copied: it is a leaf-set at a dotted path that creates intermediates and keeps siblings. A non-object node on the way is replaced by an object. The tree is a value, so in-place aliasing of `mutableInput` is not modelled.
- Nested secret fields are not flattened, because the source restricts secrets to one level. A nested field's value is `asText` of the container, which is "".
- The order in which a `HashMap` and a `HashSet` are walked is not modelled. The merge order is a ghost out-parameter that every contract quantifies over. Contributed providers arrive as a sequence in any order. Ties between providers of equal order keep that sequence order; the source leaves them unspecified.
- The loader's configuration binding is not modelled: the `JsonConfigurationFactory` reading of "awssecrets" and "aws". The bound secrets factory and the configuration builder are parameters.
- The v2 secrets factory, the v2 `AwsConfigFactory` and `CredentialsConfigFactory` are not part of this model. The v2 loader drives the v1-shaped fold, and one `AwsConfig` value serves both versions.
- The v1 `AwsSecretsConfigurationLoader` and `AwsSecretsManagerFactory` are left out. They call members their collaborators do not have, so they cannot run as written.
- At run time, a provider chain tries each provider until one succeeds. That resolution loop is the SDK's; only the order the factory produces is modelled.
- The credentials factories never read the injector they are given, so the model does not take one.
- The `String` overloads of `Builder.endpointOverride` and `Builder.region` are not modelled. They add failures the typed overloads do not have: `URI.create` throws IllegalArgumentException on malformed text, and `Region.of` throws IllegalArgumentException on blank text and its own null-pointer message on null. The typed overloads, which are modelled, only ever fail with `NullPointer("")`.
- `AwsSecretsFactory` inherits from `AwsServiceFactory` in the source; here it holds a service factory (`service`) instead.
- `S3TesterLifecycleManager`'s `AtomicBoolean` is a plain boolean, and concurrency is out. A `null` factory passed to `onS3ClientFactoryInit` is not modelled: the factory is always an object. Callbacks and bucket creations that throw are not modelled.
- Left out as glue or test harness: DI and module wiring, `S3Tester`, `S3TestFactory`, `S3ClientFactoryFactory`, `AwsTester` and logging. The RDS transformer's stderr lines are its `warnings` result.
- The provider priorities 10/20/30/40 of `AwsModuleExtender` are constants in `credentials.dfy`. The extender itself is glue.
