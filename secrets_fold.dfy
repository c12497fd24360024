/**
 * AwsSecretsFactory and AwsSecretConfigsFactory: a list of configured secrets, applied
 * to the configuration tree one after the other, each to the tree the previous one
 * returned. An absent or empty list leaves the tree as it is and, for
 * AwsSecretsFactory, builds no secrets-manager client.
 */
module SecretsFold {
  import opened Outcomes
  import opened Json
  import opened ConfigTree
  import opened AwsSecret
  import opened AwsSecretConfig
  import opened AwsCore
  import opened ServiceFactory

  /** What each secret contributes, in list order: its properties or its failure. */
  function SecretOutcomes(ds: seq<SecretDescriptor>, store: SecretStore, reader: JsonReader,
                    transformers: map<string, Transformer>): (steps: seq<Result<map<string, string>>>)
    ensures |steps| == |ds|
    ensures forall i :: 0 <= i < |ds| ==> steps[i] == SecretProperties(ds[i], store, reader, transformers)
  {
    if ds == [] then [] else [SecretProperties(ds[0], store, reader, transformers)] + SecretOutcomes(ds[1..], store, reader, transformers)
  }

  /**
   * Folding update steps over `t`: each step's properties are merged, in the order
   * `orders` reports for it, into the tree the previous steps produced; the first
   * failure ends the fold and is the result.
   */
  ghost predicate Fold(steps: seq<Result<map<string, string>>>, t: Json, orders: seq<seq<string>>, r: Result<Json>)
    decreases |steps|
  {
    if steps == [] then orders == [] && r == Ok(t)
    else
      match steps[0]
      case Err(e) => orders == [] && r == Err(e)
      case Ok(props) =>
        && |orders| >= 1
        && IsEnumeration(orders[0], props.Keys)
        && Fold(steps[1..], ApplyInOrder(t, props, orders[0]), orders[1..], r)
  }

  /** Folding the secrets `ds` over `t`: the fold of what each of them contributes. */
  ghost predicate FoldUpdate(ds: seq<SecretDescriptor>, store: SecretStore, reader: JsonReader,
                             transformers: map<string, Transformer>, t: Json, orders: seq<seq<string>>,
                             r: Result<Json>)
  {
    Fold(SecretOutcomes(ds, store, reader, transformers), t, orders, r)
  }

  /** The first failing step's failure, if any step fails. */
  function FirstFailure(steps: seq<Result<map<string, string>>>): (f: Option<Failure>)
    ensures f.None? <==> forall i :: 0 <= i < |steps| ==> steps[i].Ok?
    ensures f.Some? ==> exists i :: 0 <= i < |steps| && steps[i] == Err(f.value)
  {
    if steps == [] then None
    else
      match steps[0]
      case Err(e) => Some(e)
      case Ok(_) =>
        var rest := FirstFailure(steps[1..]);
        assert forall i :: 1 <= i < |steps| ==> steps[i] == steps[1..][i - 1];
        rest
  }

  /** Extending a fold that succeeded so far by one more step. */
  lemma {:induction false} FoldAppend(steps: seq<Result<map<string, string>>>, s: Result<map<string, string>>,
                                      t: Json, orders: seq<seq<string>>, mid: Json, order: seq<string>,
                                      r: Result<Json>)
    requires Fold(steps, t, orders, Ok(mid))
    requires StepUpdate(s, mid, order, r)
    ensures Fold(steps + [s], t, if s.Ok? then orders + [order] else orders, r)
    decreases |steps|
  {
    var more := if s.Ok? then orders + [order] else orders;
    if steps == [] {
      assert [] + [s] == [s];
      assert [s][1..] == [];
      if s.Ok? {
        assert more[1..] == [];
      }
    } else {
      assert (steps + [s])[0] == steps[0];
      assert (steps + [s])[1..] == steps[1..] + [s];
      var props := steps[0].value;
      FoldAppend(steps[1..], s, ApplyInOrder(t, props, orders[0]), orders[1..], mid, order, r);
      assert more[0] == orders[0];
      assert more[1..] == if s.Ok? then orders[1..] + [order] else orders[1..];
    }
  }

  /** The fold fails exactly when some step fails, and then with the first failure. */
  lemma {:induction false} FoldFailsWithFirstFailure(steps: seq<Result<map<string, string>>>, t: Json,
                                                     orders: seq<seq<string>>, r: Result<Json>)
    requires Fold(steps, t, orders, r)
    ensures r.Err? <==> FirstFailure(steps).Some?
    ensures r.Err? ==> r.error == FirstFailure(steps).value
    decreases |steps|
  {
    if steps != [] && steps[0].Ok? {
      FoldFailsWithFirstFailure(steps[1..], ApplyInOrder(t, steps[0].value, orders[0]), orders[1..], r);
    }
  }

  /**
   * The last step wins: a key the last step writes, and that no other key of its
   * own shadows, ends up with that step's value, whatever earlier steps wrote there.
   */
  lemma {:induction false} LastSecretWins(steps: seq<Result<map<string, string>>>, t: Json,
                                          orders: seq<seq<string>>, r: Result<Json>, key: string)
    requires |steps| >= 1
    requires Fold(steps, t, orders, r) && r.Ok?
    requires var last := steps[|steps| - 1]; last.Ok? && key in last.value && Unshadowed(last.value, key)
    ensures Lookup(r.value, PathOf(key)) == Some(JString(steps[|steps| - 1].value[key]))
    decreases |steps|
  {
    var props := steps[0].value;
    if |steps| == 1 {
      MergeMeaning(t, props, orders[0]);
    } else {
      assert steps[1..][|steps[1..]| - 1] == steps[|steps| - 1];
      LastSecretWins(steps[1..], ApplyInOrder(t, props, orders[0]), orders[1..], r, key);
    }
  }

  /**
   * A successful fold splits at any point: the first `n` steps lead to some tree `mid`,
   * and the remaining steps, folded from `mid`, lead to the result.
   */
  lemma {:induction false} FoldSplit(steps: seq<Result<map<string, string>>>, t: Json,
                                     orders: seq<seq<string>>, r: Result<Json>, n: nat)
    returns (mid: Json, first: seq<seq<string>>, rest: seq<seq<string>>)
    requires n <= |steps|
    requires Fold(steps, t, orders, r) && r.Ok?
    ensures Fold(steps[..n], t, first, Ok(mid))
    ensures Fold(steps[n..], mid, rest, r)
    ensures orders == first + rest
    decreases n
  {
    if n == 0 {
      assert steps[n..] == steps;
      mid, first, rest := t, [], orders;
    } else {
      var props := steps[0].value;
      var first';
      mid, first', rest := FoldSplit(steps[1..], ApplyInOrder(t, props, orders[0]), orders[1..], r, n - 1);
      first := [orders[0]] + first';
      assert steps[..n][0] == steps[0];
      assert steps[..n][1..] == steps[1..][..n - 1];
      assert first[1..] == first';
      assert steps[n..] == steps[1..][n - 1..];
      assert orders == [orders[0]] + orders[1..];
    }
  }

  /**
   * A later secret wins: a key step `j` writes, unshadowed by the other keys of its own,
   * ends up with step `j`'s value when no later step writes to or through its path.
   */
  lemma LatestWriterWins(steps: seq<Result<map<string, string>>>, t: Json,
                         orders: seq<seq<string>>, r: Result<Json>, j: nat, key: string)
    requires j < |steps|
    requires Fold(steps, t, orders, r) && r.Ok?
    requires steps[j].Ok? && key in steps[j].value && Unshadowed(steps[j].value, key)
    requires forall i :: j < i < |steps| && steps[i].Ok? ==> Untouched(steps[i].value, PathOf(key))
    ensures Lookup(r.value, PathOf(key)) == Some(JString(steps[j].value[key]))
  {
    var mid, first, rest := FoldSplit(steps, t, orders, r, j + 1);
    WriterIsLastOfPrefix(steps, t, first, mid, j, key);
    UntouchedSuffix(steps, j, steps[j + 1..], PathOf(key));
    FoldKeepsUntouched(steps[j + 1..], mid, rest, r, PathOf(key));
  }

  /** Up to and including step `j`, step `j` is the last writer. */
  lemma WriterIsLastOfPrefix(steps: seq<Result<map<string, string>>>, t: Json,
                             first: seq<seq<string>>, mid: Json, j: nat, key: string)
    requires j < |steps|
    requires Fold(steps[..j + 1], t, first, Ok(mid))
    requires steps[j].Ok? && key in steps[j].value && Unshadowed(steps[j].value, key)
    ensures Lookup(mid, PathOf(key)) == Some(JString(steps[j].value[key]))
  {
    var prefix := steps[..j + 1];
    assert prefix[|prefix| - 1] == steps[j];
    LastSecretWins(prefix, t, first, Ok(mid), key);
  }

  /** The steps after `j`, re-indexed from zero, still leave the path untouched. */
  lemma UntouchedSuffix(steps: seq<Result<map<string, string>>>, j: nat, later: seq<Result<map<string, string>>>, p: Path)
    requires j < |steps| && later == steps[j + 1..]
    requires forall i :: j < i < |steps| && steps[i].Ok? ==> Untouched(steps[i].value, p)
    ensures forall i :: 0 <= i < |later| && later[i].Ok? ==> Untouched(later[i].value, p)
  {
    forall i | 0 <= i < |later| && later[i].Ok? ensures Untouched(later[i].value, p) {
      assert later[i] == steps[j + 1 + i];
    }
  }

  /** A path no step's properties write to or through keeps its node. */
  lemma {:induction false} FoldKeepsUntouched(steps: seq<Result<map<string, string>>>, t: Json,
                                              orders: seq<seq<string>>, r: Result<Json>, p: Path)
    requires Fold(steps, t, orders, r) && r.Ok?
    requires forall i :: 0 <= i < |steps| && steps[i].Ok? ==> Untouched(steps[i].value, p)
    ensures Lookup(r.value, p) == Lookup(t, p)
    decreases |steps|
  {
    if steps != [] {
      var props := steps[0].value;
      MergeMeaning(t, props, orders[0]);
      forall i | 0 <= i < |steps[1..]| && steps[1..][i].Ok? ensures Untouched(steps[1..][i].value, p) {
        assert steps[1..][i] == steps[i + 1];
      }
      FoldKeepsUntouched(steps[1..], ApplyInOrder(t, props, orders[0]), orders[1..], r, p);
    }
  }

  /** A secrets-manager client, known by the settings its builder received. */
  datatype SecretsManagerClient = SecretsManagerClient(settings: V1Settings)

  /** The secrets of a list of configured secrets, in list order. */
  function DescriptorsOf(fs: seq<AwsSecretFactory>): (ds: seq<SecretDescriptor>)
    reads fs
    ensures |ds| == |fs|
    ensures forall i :: 0 <= i < |fs| ==> ds[i] == fs[i].Descriptor()
  {
    if fs == [] then [] else [fs[0].Descriptor()] + DescriptorsOf(fs[1..])
  }

  class AwsSecretsFactory {
    /** The client settings every AWS service factory has: endpoint and signing region. */
    const service: AwsServiceFactory
    var secrets: Option<seq<AwsSecretFactory>>

    constructor (service: AwsServiceFactory)
      ensures this.service == service && secrets.None?
    {
      this.service := service;
      secrets := None;
    }

    method SetSecrets(secrets: Option<seq<AwsSecretFactory>>)
      modifies this
      ensures this.secrets == secrets
    {
      this.secrets := secrets;
    }

    /** The configured secrets, none when the list is absent. */
    function Descriptors(): seq<SecretDescriptor>
      reads this, if secrets.Some? then secrets.value else []
    {
      if secrets.Some? then DescriptorsOf(secrets.value) else []
    }

    /** isEmpty: no list, or an empty one; in both cases there is no secret to apply. */
    function IsEmpty(): (b: bool)
      reads this, if secrets.Some? then secrets.value else []
      ensures b <==> secrets.None? || secrets.value == []
      ensures b <==> Descriptors() == []
    {
      secrets.None? || secrets.value == []
    }

    /** createSecretsManager: a client whose builder the common configure has set up. */
    method CreateSecretsManager(config: AwsConfig) returns (client: SecretsManagerClient)
      ensures client.settings == V1Configured(NoV1Settings, service.CreateEndpointConfig(), config)
      ensures client.settings.credentials == Some(config.credentialsProvider)
    {
      var builder := new V1ClientBuilder();
      builder := service.Configure(builder, config);
      client := SecretsManagerClient(builder.Settings());
    }

    /**
     * updateConfiguration: with no secrets, the tree unchanged and no client; otherwise
     * one client, shared by every secret, and the secrets folded over the tree in list
     * order. `client` reports the client made.
     */
    method UpdateConfiguration(mutableInput: Json, config: AwsConfig, reader: JsonReader,
                               transformers: map<string, Transformer>, store: SecretStore)
      returns (r: Result<Json>, ghost client: Option<SecretsManagerClient>, ghost orders: seq<seq<string>>)
      ensures FoldUpdate(Descriptors(), store, reader, transformers, mutableInput, orders, r)
      ensures IsEmpty() ==> r == Ok(mutableInput)
      ensures client.Some? <==> !IsEmpty()
      ensures client.Some? ==> client.value.settings == V1Configured(NoV1Settings, service.CreateEndpointConfig(), config)
    {
      client := None;
      orders := [];
      if IsEmpty() {
        return Ok(mutableInput), client, orders;
      }
      var secretsManager := CreateSecretsManager(config);
      client := Some(secretsManager);
      r, orders := ApplySecrets(DescriptorsOf(secrets.value), store, reader, transformers, mutableInput);
    }
  }

  /**
   * The fold loop of AwsSecretsFactory.updateConfiguration, over the secrets the
   * configured list describes: each secret applied to the tree the previous one returned.
   */
  method ApplySecrets(ds: seq<SecretDescriptor>, store: SecretStore, reader: JsonReader,
                      transformers: map<string, Transformer>, mutableInput: Json)
    returns (r: Result<Json>, ghost orders: seq<seq<string>>)
    ensures FoldUpdate(ds, store, reader, transformers, mutableInput, orders, r)
    ensures r.Err? <==> FirstFailure(SecretOutcomes(ds, store, reader, transformers)).Some?
    ensures r.Err? ==> r.error == FirstFailure(SecretOutcomes(ds, store, reader, transformers)).value
  {
    orders := [];
    var tree := mutableInput;
    var i := 0;
    while i < |ds|
      invariant 0 <= i <= |ds|
      invariant Fold(SecretOutcomes(ds, store, reader, transformers)[..i], mutableInput, orders, Ok(tree))
    {
      var step, order := FoldSecret(ds, store, reader, transformers, i, mutableInput, orders, tree);
      if step.Err? {
        return step, orders;
      }
      orders := orders + [order];
      tree := step.value;
      i := i + 1;
    }
    FoldAll(ds, store, reader, transformers, mutableInput, orders, tree);
    r := Ok(tree);
  }

  /** The update of the i-th secret, as one more step of the fold. */
  method FoldSecret(ds: seq<SecretDescriptor>, store: SecretStore, reader: JsonReader,
                    transformers: map<string, Transformer>, i: nat, ghost t: Json,
                    ghost orders: seq<seq<string>>, tree: Json)
    returns (step: Result<Json>, ghost order: seq<string>)
    requires i < |ds|
    requires Fold(SecretOutcomes(ds, store, reader, transformers)[..i], t, orders, Ok(tree))
    ensures step.Ok? ==> Fold(SecretOutcomes(ds, store, reader, transformers)[..i + 1], t, orders + [order], step)
    ensures step.Err? ==> FoldUpdate(ds, store, reader, transformers, t, orders, step)
    ensures step.Err? ==> FirstFailure(SecretOutcomes(ds, store, reader, transformers)).Some? && step.error == FirstFailure(SecretOutcomes(ds, store, reader, transformers)).value
  {
    step, order := UpdateSecret(ds[i], store, reader, transformers, tree);
    SecretStep(ds, store, reader, transformers, i, t, orders, tree, order, step);
  }

  /** The update of the i-th secret as one more step of the fold. */
  lemma SecretStep(ds: seq<SecretDescriptor>, store: SecretStore, reader: JsonReader,
                   transformers: map<string, Transformer>, i: nat, t: Json, orders: seq<seq<string>>,
                   tree: Json, order: seq<string>, step: Result<Json>)
    requires i < |ds|
    requires Fold(SecretOutcomes(ds, store, reader, transformers)[..i], t, orders, Ok(tree))
    requires SecretUpdate(ds[i], store, reader, transformers, tree, order, step)
    ensures step.Ok? ==> Fold(SecretOutcomes(ds, store, reader, transformers)[..i + 1], t, orders + [order], step)
    ensures step.Err? ==> FoldUpdate(ds, store, reader, transformers, t, orders, step)
    ensures step.Err? ==> FirstFailure(SecretOutcomes(ds, store, reader, transformers)).Some? && step.error == FirstFailure(SecretOutcomes(ds, store, reader, transformers)).value
  {
    var steps := SecretOutcomes(ds, store, reader, transformers);
    assert steps[i] == SecretProperties(ds[i], store, reader, transformers);
    FoldStep(steps, i, t, orders, tree, order, step);
    if step.Err? {
      FoldFailsWithFirstFailure(steps, t, orders, step);
    }
  }

  /** A fold over every secret that has not failed is the whole fold. */
  lemma FoldAll(ds: seq<SecretDescriptor>, store: SecretStore, reader: JsonReader,
                transformers: map<string, Transformer>, t: Json, orders: seq<seq<string>>, tree: Json)
    requires Fold(SecretOutcomes(ds, store, reader, transformers)[..|ds|], t, orders, Ok(tree))
    ensures FoldUpdate(ds, store, reader, transformers, t, orders, Ok(tree))
    ensures FirstFailure(SecretOutcomes(ds, store, reader, transformers)).None?
  {
    var steps := SecretOutcomes(ds, store, reader, transformers);
    assert steps[..|ds|] == steps;
    FoldFailsWithFirstFailure(steps, t, orders, Ok(tree));
  }

  /** One more step: the fold so far extended by it, or, when it fails, the whole fold. */
  lemma FoldStep(steps: seq<Result<map<string, string>>>, i: nat, t: Json, orders: seq<seq<string>>,
                 tree: Json, order: seq<string>, step: Result<Json>)
    requires i < |steps|
    requires Fold(steps[..i], t, orders, Ok(tree))
    requires StepUpdate(steps[i], tree, order, step)
    ensures step.Ok? ==> Fold(steps[..i + 1], t, orders + [order], step)
    ensures step.Err? ==> Fold(steps, t, orders, step)
  {
    assert steps[..i + 1] == steps[..i] + [steps[i]];
    FoldAppend(steps[..i], steps[i], t, orders, tree, order, step);
    if step.Err? {
      FoldStops(steps, i + 1, t, orders, step);
    }
  }

  /** A fold whose first `n` steps already failed is the whole fold: the rest are never applied. */
  lemma {:induction false} FoldStops(steps: seq<Result<map<string, string>>>, n: nat, t: Json,
                                     orders: seq<seq<string>>, r: Result<Json>)
    requires n <= |steps|
    requires Fold(steps[..n], t, orders, r) && r.Err?
    ensures Fold(steps, t, orders, r)
    decreases n
  {
    assert n > 0;
    assert steps[..n][0] == steps[0];
    if steps[0].Ok? {
      assert steps[..n][1..] == steps[1..][..n - 1];
      FoldStops(steps[1..], n - 1, ApplyInOrder(t, steps[0].value, orders[0]), orders[1..], r);
    }
  }

  /** The secrets of a list of transformer-less configured secrets, in list order. */
  function ConfigDescriptorsOf(fs: seq<AwsSecretConfigFactory>): (ds: seq<SecretDescriptor>)
    reads fs
    ensures |ds| == |fs|
    ensures forall i :: 0 <= i < |fs| ==> ds[i] == fs[i].Descriptor()
  {
    if fs == [] then [] else [fs[0].Descriptor()] + ConfigDescriptorsOf(fs[1..])
  }

  class AwsSecretConfigsFactory {
    var secrets: Option<seq<AwsSecretConfigFactory>>

    constructor ()
      ensures secrets.None?
    {
      secrets := None;
    }

    method SetSecrets(secrets: Option<seq<AwsSecretConfigFactory>>)
      modifies this
      ensures this.secrets == secrets
    {
      this.secrets := secrets;
    }

    function Descriptors(): seq<SecretDescriptor>
      reads this, if secrets.Some? then secrets.value else []
    {
      if secrets.Some? then ConfigDescriptorsOf(secrets.value) else []
    }

    /** isEmpty: no list, or an empty one. */
    function IsEmpty(): (b: bool)
      reads this, if secrets.Some? then secrets.value else []
      ensures b <==> secrets.None? || secrets.value == []
      ensures b <==> Descriptors() == []
    {
      secrets.None? || secrets.value == []
    }

    /**
     * updateConfiguration: the secrets folded over the tree in list order, every one read
     * from the same store and parsed by the same reader; no transformer applies.
     */
    method UpdateConfiguration(store: SecretStore, reader: JsonReader, mutableInput: Json)
      returns (r: Result<Json>, ghost orders: seq<seq<string>>)
      ensures FoldUpdate(Descriptors(), store, reader, map[], mutableInput, orders, r)
      ensures IsEmpty() ==> r == Ok(mutableInput)
    {
      orders := [];
      if IsEmpty() {
        return Ok(mutableInput), orders;
      }
      r, orders := ApplyConfigSecrets(ConfigDescriptorsOf(secrets.value), store, reader, mutableInput);
    }
  }

  /**
   * The fold loop of AwsSecretConfigsFactory.updateConfiguration, over the secrets the
   * configured list describes, none of which names a transformer.
   */
  method ApplyConfigSecrets(ds: seq<SecretDescriptor>, store: SecretStore, reader: JsonReader, mutableInput: Json)
    returns (r: Result<Json>, ghost orders: seq<seq<string>>)
    requires forall j :: 0 <= j < |ds| ==> ds[j].jsonTransformer.None?
    ensures FoldUpdate(ds, store, reader, map[], mutableInput, orders, r)
    ensures r.Err? <==> FirstFailure(SecretOutcomes(ds, store, reader, map[])).Some?
    ensures r.Err? ==> r.error == FirstFailure(SecretOutcomes(ds, store, reader, map[])).value
  {
    orders := [];
    var tree := mutableInput;
    var i := 0;
    while i < |ds|
      invariant 0 <= i <= |ds|
      invariant Fold(SecretOutcomes(ds, store, reader, map[])[..i], mutableInput, orders, Ok(tree))
    {
      var step, order := FoldConfigSecret(ds, store, reader, i, mutableInput, orders, tree);
      if step.Err? {
        return step, orders;
      }
      orders := orders + [order];
      tree := step.value;
      i := i + 1;
    }
    FoldAll(ds, store, reader, map[], mutableInput, orders, tree);
    r := Ok(tree);
  }

  /** The update of the i-th config secret, as one more step of the fold. */
  method FoldConfigSecret(ds: seq<SecretDescriptor>, store: SecretStore, reader: JsonReader,
                          i: nat, ghost t: Json, ghost orders: seq<seq<string>>, tree: Json)
    returns (step: Result<Json>, ghost order: seq<string>)
    requires i < |ds| && ds[i].jsonTransformer.None?
    requires Fold(SecretOutcomes(ds, store, reader, map[])[..i], t, orders, Ok(tree))
    ensures step.Ok? ==> Fold(SecretOutcomes(ds, store, reader, map[])[..i + 1], t, orders + [order], step)
    ensures step.Err? ==> FoldUpdate(ds, store, reader, map[], t, orders, step)
    ensures step.Err? ==> FirstFailure(SecretOutcomes(ds, store, reader, map[])).Some? && step.error == FirstFailure(SecretOutcomes(ds, store, reader, map[])).value
  {
    step, order := UpdateConfigSecret(ds[i].awsName, ds[i].mergePath, store, reader, tree);
    assert SecretDescriptor(ds[i].awsName, ds[i].mergePath, None) == ds[i];
    SecretStep(ds, store, reader, map[], i, t, orders, tree, order, step);
  }

  /*
   * The two-secret scenario of the loader's integration test: a base tree holding
   * a.user and a.password, the secret "secret1" merged at "a" and the secret "secret2",
   * looked up by its ARN, merged at "b.c".
   */
  const Secret1Text: string := "{\"password\":\"y_secret\"}"
  const Secret2Text: string := "{\"password\":\"z_secret\", \"user\":\"z_uname\"}"
  const Secret2Arn: string := "arn:aws:secretsmanager:us-east-1:000000000000:secret:secret2"
  const Secret1Json: Json := JObject(map["password" := JString("y_secret")])
  const Secret2Json: Json := JObject(map["password" := JString("z_secret"), "user" := JString("z_uname")])
  const ExampleStore: SecretStore := map["secret1" := Secret1Text, Secret2Arn := Secret2Text]
  const ExampleSecrets: seq<SecretDescriptor> :=
    [SecretDescriptor(Some("secret1"), Some("a"), None), SecretDescriptor(Some(Secret2Arn), Some("b.c"), None)]

  /**
   * Whatever order the merger takes: a.user keeps its base value, a.password is taken
   * from the first secret, and b.c.user and b.c.password from the second.
   */
  lemma TwoSecretsExample(reader: JsonReader, t: Json, orders: seq<seq<string>>, r: Result<Json>)
    requires reader(Secret1Text) == Some(Secret1Json) && reader(Secret2Text) == Some(Secret2Json)
    requires Lookup(t, ["a", "user"]) == Some(JString("a_uname"))
    requires FoldUpdate(ExampleSecrets, ExampleStore, reader, map[], t, orders, r)
    ensures r.Ok?
    ensures Lookup(r.value, ["a", "user"]) == Some(JString("a_uname"))
    ensures Lookup(r.value, ["a", "password"]) == Some(JString("y_secret"))
    ensures Lookup(r.value, ["b", "c", "user"]) == Some(JString("z_uname"))
    ensures Lookup(r.value, ["b", "c", "password"]) == Some(JString("z_secret"))
  {
    var p1, p2 := TwoSecretsFold(reader, t, orders, r);
    var t1 := ApplyInOrder(t, p1, orders[0]);
    FirstSecretMerge(t, p1, orders[0]);
    SecondSecretMerge(t1, p2, orders[1]);
  }

  lemma FirstSecretMerge(t: Json, p1: map<string, string>, order: seq<string>)
    requires p1 == map["a.password" := "y_secret"] && IsEnumeration(order, p1.Keys)
    ensures Lookup(ApplyInOrder(t, p1, order), ["a", "user"]) == Lookup(t, ["a", "user"])
    ensures Lookup(ApplyInOrder(t, p1, order), ["a", "password"]) == Some(JString("y_secret"))
  {
    PathOfAPassword();
    DisjointAt(["a", "user"], ["a", "password"], 1);
    OneKeyMerge(t, "a.password", "y_secret", order, ["a", "password"], ["a", "user"]);
  }

  /** Merging a one-property map: its path gets the value, a disjoint path keeps its node. */
  lemma OneKeyMerge(t: Json, k: string, v: string, order: seq<string>, kp: Path, q: Path)
    requires IsEnumeration(order, {k}) && PathOf(k) == kp && Disjoint(q, kp)
    ensures Lookup(ApplyInOrder(t, map[k := v], order), kp) == Some(JString(v))
    ensures Lookup(ApplyInOrder(t, map[k := v], order), q) == Lookup(t, q)
  {
    var props := map[k := v];
    assert props.Keys == {k};
    MergeMeaning(t, props, order);
    assert Unshadowed(props, k);
    assert Untouched(props, q);
  }

  lemma SecondSecretMerge(t: Json, p2: map<string, string>, order: seq<string>)
    requires p2 == map["b.c.password" := "z_secret", "b.c.user" := "z_uname"] && IsEnumeration(order, p2.Keys)
    ensures Lookup(ApplyInOrder(t, p2, order), ["a", "user"]) == Lookup(t, ["a", "user"])
    ensures Lookup(ApplyInOrder(t, p2, order), ["a", "password"]) == Lookup(t, ["a", "password"])
    ensures Lookup(ApplyInOrder(t, p2, order), ["b", "c", "user"]) == Some(JString("z_uname"))
    ensures Lookup(ApplyInOrder(t, p2, order), ["b", "c", "password"]) == Some(JString("z_secret"))
  {
    PathOfBcPassword();
    PathOfBcUser();
    DisjointAt(["b", "c", "password"], ["b", "c", "user"], 2);
    DisjointAt(["a", "user"], ["b", "c", "password"], 0);
    DisjointAt(["a", "user"], ["b", "c", "user"], 0);
    DisjointAt(["a", "password"], ["b", "c", "password"], 0);
    DisjointAt(["a", "password"], ["b", "c", "user"], 0);
    TwoKeyMerge(t, "b.c.password", "z_secret", "b.c.user", "z_uname", order,
                ["b", "c", "password"], ["b", "c", "user"], ["a", "user"]);
    TwoKeyMerge(t, "b.c.password", "z_secret", "b.c.user", "z_uname", order,
                ["b", "c", "password"], ["b", "c", "user"], ["a", "password"]);
  }

  /** Merging a two-property map with disjoint paths: both paths get their values, a path disjoint from both keeps its node. */
  lemma TwoKeyMerge(t: Json, k1: string, v1: string, k2: string, v2: string, order: seq<string>,
                    kp1: Path, kp2: Path, q: Path)
    requires k1 != k2 && IsEnumeration(order, {k1, k2})
    requires PathOf(k1) == kp1 && PathOf(k2) == kp2
    requires Disjoint(kp1, kp2) && Disjoint(q, kp1) && Disjoint(q, kp2)
    ensures Lookup(ApplyInOrder(t, map[k1 := v1, k2 := v2], order), kp1) == Some(JString(v1))
    ensures Lookup(ApplyInOrder(t, map[k1 := v1, k2 := v2], order), kp2) == Some(JString(v2))
    ensures Lookup(ApplyInOrder(t, map[k1 := v1, k2 := v2], order), q) == Lookup(t, q)
  {
    var props := map[k1 := v1, k2 := v2];
    assert props.Keys == {k1, k2};
    MergeMeaning(t, props, order);
    assert Unshadowed(props, k1);
    assert Unshadowed(props, k2);
    assert Untouched(props, q);
  }

  /** The example fold is the first secret's merge followed by the second's. */
  lemma TwoSecretsFold(reader: JsonReader, t: Json, orders: seq<seq<string>>, r: Result<Json>)
    returns (p1: map<string, string>, p2: map<string, string>)
    requires reader(Secret1Text) == Some(Secret1Json) && reader(Secret2Text) == Some(Secret2Json)
    requires FoldUpdate(ExampleSecrets, ExampleStore, reader, map[], t, orders, r)
    ensures p1 == map["a.password" := "y_secret"]
    ensures p2 == map["b.c.password" := "z_secret", "b.c.user" := "z_uname"]
    ensures |orders| == 2 && IsEnumeration(orders[0], p1.Keys) && IsEnumeration(orders[1], p2.Keys)
    ensures r == Ok(ApplyInOrder(ApplyInOrder(t, p1, orders[0]), p2, orders[1]))
  {
    p1, p2 := ExampleOutcomes(reader);
    FoldTwo(p1, p2, t, orders, r);
  }

  /** Both example secrets are read, parsed and flattened without failure. */
  lemma ExampleOutcomes(reader: JsonReader) returns (p1: map<string, string>, p2: map<string, string>)
    requires reader(Secret1Text) == Some(Secret1Json) && reader(Secret2Text) == Some(Secret2Json)
    ensures p1 == map["a.password" := "y_secret"]
    ensures p2 == map["b.c.password" := "z_secret", "b.c.user" := "z_uname"]
    ensures SecretOutcomes(ExampleSecrets, ExampleStore, reader, map[]) == [Ok(p1), Ok(p2)]
  {
    p1 := Secret1Outcome(reader);
    p2 := Secret2Outcome(reader);
    TwoOutcomes(ExampleSecrets, ExampleStore, reader, map[]);
  }

  lemma TwoOutcomes(ds: seq<SecretDescriptor>, store: SecretStore, reader: JsonReader,
                    transformers: map<string, Transformer>)
    requires |ds| == 2
    ensures SecretOutcomes(ds, store, reader, transformers)
            == [SecretProperties(ds[0], store, reader, transformers), SecretProperties(ds[1], store, reader, transformers)]
  {
    var o := SecretOutcomes(ds, store, reader, transformers);
    assert o == [o[0], o[1]];
  }

  lemma Secret1Outcome(reader: JsonReader) returns (p: map<string, string>)
    requires reader(Secret1Text) == Some(Secret1Json)
    ensures p == map["a.password" := "y_secret"]
    ensures SecretProperties(ExampleSecrets[0], ExampleStore, reader, map[]) == Ok(p)
  {
    p := Secret1Properties();
    ExampleReads(reader);
  }

  lemma Secret2Outcome(reader: JsonReader) returns (p: map<string, string>)
    requires reader(Secret2Text) == Some(Secret2Json)
    ensures p == map["b.c.password" := "z_secret", "b.c.user" := "z_uname"]
    ensures SecretProperties(ExampleSecrets[1], ExampleStore, reader, map[]) == Ok(p)
  {
    p := Secret2Properties();
    ExampleReads(reader);
  }

  /** A fold of two successful steps is the first merge followed by the second. */
  lemma FoldTwo(p1: map<string, string>, p2: map<string, string>, t: Json, orders: seq<seq<string>>,
                r: Result<Json>)
    requires Fold([Ok(p1), Ok(p2)], t, orders, r)
    ensures |orders| == 2 && IsEnumeration(orders[0], p1.Keys) && IsEnumeration(orders[1], p2.Keys)
    ensures r == Ok(ApplyInOrder(ApplyInOrder(t, p1, orders[0]), p2, orders[1]))
  {
    var steps: seq<Result<map<string, string>>> := [Ok(p1), Ok(p2)];
    assert steps[0] == Ok(p1) && steps[1..] == [Ok(p2)];
    var t1 := ApplyInOrder(t, p1, orders[0]);
    assert Fold([Ok(p2)], t1, orders[1..], r);
    assert [Ok(p2)][1..] == [];
    assert Fold([], ApplyInOrder(t1, p2, orders[1]), orders[2..], r);
  }

  lemma ExampleReads(reader: JsonReader)
    ensures ReadSecret(Some("secret1"), ExampleStore) == Ok(Secret1Text)
    ensures ReadSecret(Some(Secret2Arn), ExampleStore) == Ok(Secret2Text)
    ensures reader(Secret1Text) == Some(Secret1Json) ==> ParseSecret("secret1", reader, Secret1Text) == Ok(Secret1Json)
    ensures reader(Secret2Text) == Some(Secret2Json) ==> ParseSecret(Secret2Arn, reader, Secret2Text) == Ok(Secret2Json)
  {
  }

  lemma Secret1Properties() returns (p: map<string, string>)
    ensures p == Properties(Some("a"), Secret1Json) == map["a.password" := "y_secret"]
  {
    p := Properties(Some("a"), Secret1Json);
    assert Prefix(Some("a")) == "a.";
    FlattenOne("a.", Fields(Secret1Json), "password");
    assert "a." + "password" == "a.password";
  }

  lemma Secret2Properties() returns (p: map<string, string>)
    ensures p == Properties(Some("b.c"), Secret2Json) == map["b.c.password" := "z_secret", "b.c.user" := "z_uname"]
  {
    p := Properties(Some("b.c"), Secret2Json);
    assert Prefix(Some("b.c")) == "b.c.";
    assert Fields(Secret2Json).Keys == {"password", "user"};
    FlattenTwo("b.c.", Fields(Secret2Json), "password", "user");
    assert "b.c." + "password" == "b.c.password";
    assert "b.c." + "user" == "b.c.user";
  }

  /** Flattening a one-field object gives exactly its property. */
  lemma FlattenOne(prefix: string, f: map<string, Json>, k: string)
    requires f.Keys == {k}
    ensures Flatten(prefix, f) == map[prefix + k := AsText(f[k])]
  {
    FlattenAt(prefix, f, k);
    var a := Flatten(prefix, f);
    forall pk | pk in a ensures pk == prefix + k {
      var k' :| k' in f && pk == prefix + k';
    }
    assert a.Keys == {prefix + k};
  }

  /** Flattening a two-field object gives exactly its two properties. */
  lemma FlattenTwo(prefix: string, f: map<string, Json>, k1: string, k2: string)
    requires f.Keys == {k1, k2}
    ensures Flatten(prefix, f) == map[prefix + k1 := AsText(f[k1]), prefix + k2 := AsText(f[k2])]
  {
    FlattenAt(prefix, f, k1);
    FlattenAt(prefix, f, k2);
    var a := Flatten(prefix, f);
    forall pk | pk in a ensures pk == prefix + k1 || pk == prefix + k2 {
      var k :| k in f && pk == prefix + k;
    }
    assert a.Keys == {prefix + k1, prefix + k2};
  }

  lemma PathOfAPassword()
    ensures PathOf("a.password") == ["a", "password"]
  {
    TwoSegments("a", "password");
    assert "a" + "." + "password" == "a.password";
  }

  lemma PathOfBcPassword()
    ensures PathOf("b.c.password") == ["b", "c", "password"]
  {
    ThreeSegments("b", "c", "password");
    assert "b" + "." + "c" + "." + "password" == "b.c.password";
  }

  lemma PathOfBcUser()
    ensures PathOf("b.c.user") == ["b", "c", "user"]
  {
    ThreeSegments("b", "c", "user");
    assert "b" + "." + "c" + "." + "user" == "b.c.user";
  }

  lemma TwoSegments(x: string, y: string)
    requires '.' !in x && '.' !in y
    ensures PathOf(x + "." + y) == [x, y]
  {
    SplitDotted(x, y);
    SplitNoDot(x);
    SplitNoDot(y);
  }

  lemma ThreeSegments(x: string, y: string, z: string)
    requires '.' !in x && '.' !in y && '.' !in z
    ensures PathOf(x + "." + y + "." + z) == [x, y, z]
  {
    TwoSegments(y, z);
    assert x + "." + y + "." + z == x + "." + (y + "." + z);
    SplitDotted(x, y + "." + z);
    SplitNoDot(x);
  }
}
