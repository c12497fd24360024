/**
 * AwsSecretFactory: one configured secret. Its configuration update reads the
 * secret from the store, requires it to parse as a JSON object, optionally runs a
 * named transformer over it, flattens its fields into dotted properties under the
 * merge path and merges those into the configuration tree.
 */
module AwsSecret {
  import opened Outcomes
  import opened Json
  import opened ConfigTree
  import RdsTransformer

  /** What a secrets-manager client can fetch: secret id (name or ARN) to secret string. */
  type SecretStore = map<string, string>

  /** Jackson's readTree: None when the text is not JSON (an IOException). */
  type JsonReader = string -> Option<Json>

  /** A registered AwsJsonTransformer. */
  datatype Transformer = RdsToHikari | Custom(fromSecret: Json -> Json)

  function Transform(t: Transformer, secret: Json): Json {
    match t
    case RdsToHikari => RdsTransformer.HikariConfig(secret)
    case Custom(f) => f(secret)
  }

  /** The transformers the secrets module registers by default. */
  function DefaultTransformers(): (m: map<string, Transformer>)
    ensures m.Keys == {RdsTransformer.TransformerName}
  {
    map[RdsTransformer.TransformerName := RdsToHikari]
  }

  /** The three configuration properties of one secret. */
  datatype SecretDescriptor = SecretDescriptor(
    awsName: Option<string>, mergePath: Option<string>, jsonTransformer: Option<string>)

  const MissingAwsNameMessage: string := "No secret 'awsName' specified. Must be either a name or an ARN"

  /** readSecret: requires a name and asks the store for it; the store is not consulted without a name. */
  function ReadSecret(awsName: Option<string>, store: SecretStore): (r: Result<string>)
    ensures awsName.None? ==> r == Err(NullPointer(MissingAwsNameMessage))
    ensures r.Ok? <==> awsName.Some? && awsName.value in store
    ensures r.Ok? ==> r.value == store[awsName.value]
    ensures awsName.Some? && awsName.value !in store ==> r == Err(SecretNotFound(awsName.value))
  {
    match awsName
    case None => Err(NullPointer(MissingAwsNameMessage))
    case Some(id) => if id in store then Ok(store[id]) else Err(SecretNotFound(id))
  }

  function ParseFailureMessage(awsName: string): string {
    "Error parsing AWS secret '" + awsName + "' to JSON"
  }

  function NotAnObjectMessage(awsName: string, t: NodeType): string {
    "AWS secret '" + awsName + "' is not a JSON object: " + TypeName(t)
  }

  /** parseSecret: the secret text must parse, and to an object. */
  function ParseSecret(awsName: string, reader: JsonReader, secret: string): (r: Result<Json>)
    ensures r.Ok? <==> reader(secret).Some? && reader(secret).value.JObject?
    ensures r.Ok? ==> r.value == reader(secret).value
    ensures reader(secret).None? ==> r == Err(Runtime(ParseFailureMessage(awsName)))
    ensures reader(secret).Some? && !reader(secret).value.JObject? ==>
              r == Err(Runtime(NotAnObjectMessage(awsName, TypeOf(reader(secret).value))))
  {
    match reader(secret)
    case None => Err(Runtime(ParseFailureMessage(awsName)))
    case Some(parsed) =>
      if TypeOf(parsed) != OBJECT then Err(Runtime(NotAnObjectMessage(awsName, TypeOf(parsed))))
      else Ok(parsed)
  }

  /** Both parse errors name the secret, right after the opening quote. */
  lemma ParseErrorsNameTheSecret(awsName: string, t: NodeType)
    ensures var m := ParseFailureMessage(awsName);
      m[|"Error parsing AWS secret '"|..|"Error parsing AWS secret '"| + |awsName|] == awsName
    ensures var m := NotAnObjectMessage(awsName, t);
      m[|"AWS secret '"|..|"AWS secret '"| + |awsName|] == awsName
  {
    var p1, s1 := "Error parsing AWS secret '", "' to JSON";
    assert ParseFailureMessage(awsName) == p1 + awsName + s1;
    assert (p1 + awsName + s1)[|p1|..|p1| + |awsName|] == awsName;
    var p2, s2 := "AWS secret '", "' is not a JSON object: " + TypeName(t);
    assert NotAnObjectMessage(awsName, t) == p2 + awsName + s2;
    assert (p2 + awsName + s2)[|p2|..|p2| + |awsName|] == awsName;
  }

  /** normalizeSecret: no transformer passes the secret through; a registered one is applied; any other name fails. */
  function NormalizeSecret(jsonTransformer: Option<string>, transformers: map<string, Transformer>, secret: Json)
    : (r: Result<Json>)
    ensures jsonTransformer.None? ==> r == Ok(secret)
    ensures jsonTransformer.Some? && jsonTransformer.value in transformers ==>
              r == Ok(Transform(transformers[jsonTransformer.value], secret))
    ensures jsonTransformer.Some? && jsonTransformer.value !in transformers ==>
              r == Err(UnknownTransformer(jsonTransformer.value, transformers.Keys))
  {
    match jsonTransformer
    case None => Ok(secret)
    case Some(name) =>
      if name in transformers then Ok(Transform(transformers[name], secret))
      else Err(UnknownTransformer(name, transformers.Keys))
  }

  /** The key prefix: the merge path and a dot, or nothing for an absent or empty merge path. */
  function Prefix(mergePath: Option<string>): (r: string)
    ensures mergePath.Some? && |mergePath.value| > 0 ==> r == mergePath.value + "."
    ensures mergePath.None? || mergePath.value == "" ==> r == ""
  {
    if mergePath.Some? && |mergePath.value| > 0 then mergePath.value + "." else ""
  }

  /** The path segments of the merge path: none for the root. */
  function MergePathSegments(mergePath: Option<string>): Path {
    if mergePath.Some? && |mergePath.value| > 0 then Split(mergePath.value) else []
  }

  /** Every property is written below the merge path, at the segments of its field name. */
  lemma {:induction false} PropertyPath(mergePath: Option<string>, key: string)
    ensures PathOf(Prefix(mergePath) + key) == MergePathSegments(mergePath) + Split(key)
  {
    if mergePath.Some? && |mergePath.value| > 0 {
      SplitDotted(mergePath.value, key);
    } else {
      assert "" + key == key;
    }
  }

  /** One property per field of the secret: prefix + name to the value as text. */
  function Properties(mergePath: Option<string>, secret: Json): map<string, string> {
    Flatten(Prefix(mergePath), Fields(secret))
  }

  function Flatten(prefix: string, f: map<string, Json>): map<string, string> {
    PrefixInjective(prefix);
    map k | k in f :: prefix + k := AsText(f[k])
  }

  lemma FlattenAt(prefix: string, f: map<string, Json>, k: string)
    requires k in f
    ensures prefix + k in Flatten(prefix, f) && Flatten(prefix, f)[prefix + k] == AsText(f[k])
  {
    PrefixInjective(prefix);
  }

  /** Flattening one more field adds exactly its property. */
  lemma FlattenInsert(prefix: string, h: map<string, Json>, name: string, v: Json)
    requires name !in h
    ensures Flatten(prefix, h[name := v]) == Flatten(prefix, h)[prefix + name := AsText(v)]
  {
    var g := h[name := v];
    var a, b := Flatten(prefix, g), Flatten(prefix, h)[prefix + name := AsText(v)];
    FlattenAt(prefix, g, name);
    forall pk | pk in a ensures pk in b && a[pk] == b[pk] {
      var k :| k in g && pk == prefix + k;
      FlattenAt(prefix, g, k);
      if k != name {
        FlattenAt(prefix, h, k);
      }
    }
    forall pk | pk in b ensures pk in a {
      if pk != prefix + name {
        var k :| k in h && pk == prefix + k;
        FlattenAt(prefix, g, k);
      }
    }
    assert a.Keys == b.Keys;
  }

  lemma PrefixInjective(pre: string)
    ensures forall a: string, b: string :: pre + a == pre + b ==> a == b
  {
    forall a: string, b: string | pre + a == pre + b ensures a == b {
      assert (pre + a)[|pre|..] == a;
      assert (pre + b)[|pre|..] == b;
    }
  }

  /** The property map has exactly one entry per field of the secret and nothing else. */
  lemma PropertiesMeaning(mergePath: Option<string>, secret: Json)
    ensures var f, props := Fields(secret), Properties(mergePath, secret);
      && (forall k :: k in f ==> Prefix(mergePath) + k in props && props[Prefix(mergePath) + k] == AsText(f[k]))
      && (forall pk :: pk in props ==> Prefix(mergePath) <= pk && pk[|Prefix(mergePath)|..] in f)
      && |props| == |f|
  {
    var f, pre := Fields(secret), Prefix(mergePath);
    var props := Flatten(pre, f);
    forall k | k in f ensures pre + k in props && props[pre + k] == AsText(f[k]) {
      FlattenAt(pre, f, k);
    }
    forall pk | pk in props ensures pre <= pk && pk[|pre|..] in f {
      var k :| k in f && pk == pre + k;
      assert pk[|pre|..] == k;
    }
    assert props.Keys == set k | k in f.Keys :: pre + k;
    PrefixBijection(pre, f.Keys, props.Keys);
  }

  lemma PrefixBijection(pre: string, keys: set<string>, prefixed: set<string>)
    requires prefixed == set k | k in keys :: pre + k
    ensures |prefixed| == |keys|
    decreases |keys|
  {
    if keys != {} {
      var k :| k in keys;
      var rest := set x | x in keys - {k} :: pre + x;
      assert prefixed == rest + {pre + k};
      assert pre + k !in rest by {
        forall x | x in keys - {k} ensures pre + x != pre + k {
          assert (pre + x)[|pre|..] == x;
          assert (pre + k)[|pre|..] == k;
        }
      }
      PrefixBijection(pre, keys - {k}, rest);
    }
  }

  /** Field names without a dot never shadow one another. */
  predicate FlatKeys(secret: Json) {
    forall k :: k in Fields(secret) ==> '.' !in k
  }

  lemma FlatSecretUnshadowed(mergePath: Option<string>, secret: Json, key: string)
    requires FlatKeys(secret) && key in Fields(secret)
    ensures Unshadowed(Properties(mergePath, secret), Prefix(mergePath) + key)
  {
    var props, pre, segs := Properties(mergePath, secret), Prefix(mergePath), MergePathSegments(mergePath);
    forall pk | pk in props && pk != pre + key ensures Disjoint(PathOf(pre + key), PathOf(pk)) {
      var k :| k in Fields(secret) && pk == pre + k;
      PropertyPath(mergePath, key);
      PropertyPath(mergePath, k);
      SplitNoDot(key);
      SplitNoDot(k);
      assert k != key;
      assert (segs + [key])[|segs|] == key;
      assert (segs + [k])[|segs|] == k;
    }
  }

  /**
   * mergeSecret: fills the property map field by field, then merges it into the tree.
   * Every unshadowed field lands below the merge path as text; every path no property
   * writes to or through keeps its node.
   */
  method MergeSecret(mergePath: Option<string>, mutableInput: Json, secret: Json)
    returns (r: Json, ghost order: seq<string>)
    ensures IsEnumeration(order, Properties(mergePath, secret).Keys)
    ensures r == ApplyInOrder(mutableInput, Properties(mergePath, secret), order)
    ensures forall k :: k in Fields(secret) && Unshadowed(Properties(mergePath, secret), Prefix(mergePath) + k) ==>
              Lookup(r, MergePathSegments(mergePath) + Split(k)) == Some(JString(AsText(Fields(secret)[k])))
    ensures forall p :: Untouched(Properties(mergePath, secret), p) ==> Lookup(r, p) == Lookup(mutableInput, p)
  {
    var prefix := if mergePath.Some? && |mergePath.value| > 0 then mergePath.value + "." else "";
    var properties := FlattenFields(prefix, Fields(secret));
    r, order := MergeProperties(mutableInput, properties);
    SecretMergeMeaning(mergePath, mutableInput, secret, order);
  }

  /** The loop of mergeSecret: one property per field, the prefixed name to the value's text. */
  method FlattenFields(prefix: string, fields: map<string, Json>) returns (properties: map<string, string>)
    ensures properties == Flatten(prefix, fields)
  {
    properties := map[];
    var it := fields.Keys;
    ghost var seen: map<string, Json> := map[];
    assert Flatten(prefix, seen) == map[];
    while it != {}
      invariant it <= fields.Keys
      invariant seen.Keys == fields.Keys - it
      invariant forall k :: k in seen ==> seen[k] == fields[k]
      invariant properties == Flatten(prefix, seen)
      decreases it
    {
      var name :| name in it;
      FlattenInsert(prefix, seen, name, fields[name]);
      properties := properties[prefix + name := AsText(fields[name])];
      seen := seen[name := fields[name]];
      it := it - {name};
    }
    assert seen == fields;
  }

  /** What merging a secret's properties means, whatever order the merger takes. */
  lemma SecretMergeMeaning(mergePath: Option<string>, t: Json, secret: Json, order: seq<string>)
    requires IsEnumeration(order, Properties(mergePath, secret).Keys)
    ensures forall k :: k in Fields(secret) && Unshadowed(Properties(mergePath, secret), Prefix(mergePath) + k) ==>
              Lookup(ApplyInOrder(t, Properties(mergePath, secret), order), MergePathSegments(mergePath) + Split(k))
              == Some(JString(AsText(Fields(secret)[k])))
    ensures forall p :: Untouched(Properties(mergePath, secret), p) ==>
              Lookup(ApplyInOrder(t, Properties(mergePath, secret), order), p) == Lookup(t, p)
  {
    var props, fields := Properties(mergePath, secret), Fields(secret);
    MergeMeaning(t, props, order);
    forall k | k in fields && Unshadowed(props, Prefix(mergePath) + k)
      ensures Lookup(ApplyInOrder(t, props, order), MergePathSegments(mergePath) + Split(k))
              == Some(JString(AsText(fields[k])))
    {
      PropertyPath(mergePath, k);
      FlattenAt(Prefix(mergePath), fields, k);
    }
  }

  /** The properties a secret contributes, or the failure that stops its update. */
  function SecretProperties(d: SecretDescriptor, store: SecretStore, reader: JsonReader,
                            transformers: map<string, Transformer>): Result<map<string, string>>
  {
    match ReadSecret(d.awsName, store)
    case Err(e) => Err(e)
    case Ok(text) =>
      match ParseSecret(d.awsName.value, reader, text)
      case Err(e) => Err(e)
      case Ok(parsed) =>
        match NormalizeSecret(d.jsonTransformer, transformers, parsed)
        case Err(e) => Err(e)
        case Ok(normalized) => Ok(Properties(d.mergePath, normalized))
  }

  /** One update step: the step's properties merged in some order, or its failure. */
  ghost predicate StepUpdate(step: Result<map<string, string>>, t: Json, order: seq<string>, r: Result<Json>)
  {
    match step
    case Err(e) => r == Err(e)
    case Ok(props) => IsEnumeration(order, props.Keys) && r == Ok(ApplyInOrder(t, props, order))
  }

  /** A secret's update: its properties merged in some order, or its failure. */
  ghost predicate SecretUpdate(d: SecretDescriptor, store: SecretStore, reader: JsonReader,
                               transformers: map<string, Transformer>, t: Json, order: seq<string>, r: Result<Json>)
  {
    StepUpdate(SecretProperties(d, store, reader, transformers), t, order, r)
  }

  class AwsSecretFactory {
    var awsName: Option<string>
    var mergePath: Option<string>
    var jsonTransformer: Option<string>

    constructor ()
      ensures awsName.None? && mergePath.None? && jsonTransformer.None?
    {
      awsName, mergePath, jsonTransformer := None, None, None;
    }

    function Descriptor(): SecretDescriptor
      reads this
    {
      SecretDescriptor(awsName, mergePath, jsonTransformer)
    }

    method SetAwsName(awsName: Option<string>) returns (self: AwsSecretFactory)
      modifies this
      ensures self == this
      ensures Descriptor() == old(Descriptor()).(awsName := awsName)
    {
      this.awsName := awsName;
      self := this;
    }

    method SetMergePath(mergePath: Option<string>) returns (self: AwsSecretFactory)
      modifies this
      ensures self == this
      ensures Descriptor() == old(Descriptor()).(mergePath := mergePath)
    {
      this.mergePath := mergePath;
      self := this;
    }

    method SetJsonTransformer(jsonTransformer: Option<string>) returns (self: AwsSecretFactory)
      modifies this
      ensures self == this
      ensures Descriptor() == old(Descriptor()).(jsonTransformer := jsonTransformer)
    {
      this.jsonTransformer := jsonTransformer;
      self := this;
    }

    /** updateConfiguration: the update of the secret this factory describes. */
    method UpdateConfiguration(store: SecretStore, reader: JsonReader, transformers: map<string, Transformer>,
                               mutableInput: Json)
      returns (r: Result<Json>, ghost order: seq<string>)
      ensures SecretUpdate(Descriptor(), store, reader, transformers, mutableInput, order, r)
      ensures awsName.None? ==> r == Err(NullPointer(MissingAwsNameMessage))
      ensures r.Ok? ==> awsName.Some? && awsName.value in store
    {
      r, order := UpdateSecret(Descriptor(), store, reader, transformers, mutableInput);
    }
  }

  /**
   * The update of a secret with these properties: read, parse, normalize, merge; a
   * failure at any step is returned unchanged.
   */
  method UpdateSecret(d: SecretDescriptor, store: SecretStore, reader: JsonReader,
                      transformers: map<string, Transformer>, mutableInput: Json)
    returns (r: Result<Json>, ghost order: seq<string>)
    ensures SecretUpdate(d, store, reader, transformers, mutableInput, order, r)
    ensures d.awsName.None? ==> r == Err(NullPointer(MissingAwsNameMessage))
    ensures r.Ok? ==> d.awsName.Some? && d.awsName.value in store
  {
    order := [];
    var secret := ReadSecret(d.awsName, store);
    if secret.Err? {
      return Err(secret.error), order;
    }
    var parsed := ParseSecret(d.awsName.value, reader, secret.value);
    if parsed.Err? {
      return Err(parsed.error), order;
    }
    var normalized := NormalizeSecret(d.jsonTransformer, transformers, parsed.value);
    if normalized.Err? {
      return Err(normalized.error), order;
    }
    var merged;
    merged, order := MergeSecret(d.mergePath, mutableInput, normalized.value);
    r := Ok(merged);
  }

  /** {"a": "v"} merged at "x.y" into an empty tree yields exactly {x: {y: {a: "v"}}}. */
  lemma MergeIntoEmptyExample(order: seq<string>)
    requires IsEnumeration(order, Properties(Some("x.y"), JObject(map["a" := JString("v")])).Keys)
    ensures ApplyInOrder(EmptyObject, Properties(Some("x.y"), JObject(map["a" := JString("v")])), order)
            == JObject(map["x" := JObject(map["y" := JObject(map["a" := JString("v")])])])
  {
    ExampleProperties();
    SingletonEnumeration(order, "x.y.a");
    ExamplePath();
    var props := map["x.y.a" := "v"];
    assert ApplyInOrder(EmptyObject, props, ["x.y.a"]) == SetAt(EmptyObject, ["x", "y", "a"], JString("v"));
  }

  lemma ExampleProperties()
    ensures Properties(Some("x.y"), JObject(map["a" := JString("v")])) == map["x.y.a" := "v"]
  {
    var f := map["a" := JString("v")];
    assert Prefix(Some("x.y")) == "x.y.";
    FlattenAt("x.y.", f, "a");
    assert "x.y." + "a" == "x.y.a";
    assert AsText(JString("v")) == "v";
  }

  lemma SingletonEnumeration(order: seq<string>, k: string)
    requires IsEnumeration(order, {k})
    ensures order == [k]
  {
    assert k in order;
    EnumerationLength(order, {k});
    assert order[0] in order;
  }

  lemma ExamplePath()
    ensures PathOf("x.y.a") == ["x", "y", "a"]
  {
    SplitJoin(["x", "y", "a"]);
    assert Join(["x", "y", "a"]) == "x.y.a";
  }
}
