/**
 * S3TesterLifecycleManager: the state behind an S3 test helper. Buckets and callbacks
 * are registered up front; the manager is attached to exactly one runtime when that
 * runtime's S3 client factory is created, at which point it creates the buckets and
 * runs the callbacks. What it does to the outside world (bucket creations, callback
 * runs) is recorded, in order, in `events`.
 */
module S3Tester {
  import opened Outcomes
  import opened S3ClientFactories

  /** A registered Consumer<S3ClientFactory>, known by its identity. */
  datatype Callback = Callback(id: nat)

  datatype Event =
    | BucketCreated(client: S3Client, bucket: string)
    | CallbackRan(callback: Callback, factory: S3ClientFactory)

  /** The bucket creations one client performs for these names, in order. */
  function BucketCreations(client: S3Client, names: seq<string>): (r: seq<Event>)
    ensures |r| == |names|
    ensures forall i :: 0 <= i < |names| ==> r[i] == BucketCreated(client, names[i])
  {
    if names == [] then [] else [BucketCreated(client, names[0])] + BucketCreations(client, names[1..])
  }

  /** Each callback run once with this factory, in registration order. */
  function Runs(callbacks: seq<Callback>, factory: S3ClientFactory): (r: seq<Event>)
    ensures |r| == |callbacks|
    ensures forall i :: 0 <= i < |callbacks| ==> r[i] == CallbackRan(callbacks[i], factory)
  {
    if callbacks == [] then [] else [CallbackRan(callbacks[0], factory)] + Runs(callbacks[1..], factory)
  }

  const AlreadyConnectedMessage: string :=
    "S3Tester is already connected to another BQRuntime. " +
    "To fix this error use one S3Tester per BQRuntime."

  class S3TesterLifecycleManager {
    var attachedToRuntime: bool
    var bucketNames: seq<string>
    var afterBucketsCreated: seq<Callback>
    var beforeEachTest: seq<Callback>
    var clientFactory: Option<S3ClientFactory>
    var withinTestMethod: bool
    var events: seq<Event>

    /** The manager is attached exactly when it has a factory, and nothing happens before that. */
    ghost predicate Valid()
      reads this
    {
      && (attachedToRuntime <==> clientFactory.Some?)
      && (clientFactory.None? ==> events == [])
    }

    constructor ()
      ensures Valid()
      ensures !attachedToRuntime && clientFactory.None? && !withinTestMethod
      ensures bucketNames == [] && afterBucketsCreated == [] && beforeEachTest == [] && events == []
    {
      attachedToRuntime := false;
      beforeEachTest := [];
      afterBucketsCreated := [];
      bucketNames := [];
      clientFactory := None;
      withinTestMethod := false;
      events := [];
    }

    /** isStarted: a factory has been set. */
    predicate IsStarted()
      reads this
    {
      clientFactory.Some?
    }

    /** beforeMethod: enters a test and, once started, runs the before-each callbacks in order. */
    method BeforeMethod()
      requires Valid()
      modifies this
      ensures Valid()
      ensures withinTestMethod
      ensures attachedToRuntime == old(attachedToRuntime) && clientFactory == old(clientFactory)
      ensures events == old(events) + (if IsStarted() then Runs(beforeEachTest, clientFactory.value) else [])
      ensures bucketNames == old(bucketNames) && afterBucketsCreated == old(afterBucketsCreated)
      ensures beforeEachTest == old(beforeEachTest)
    {
      withinTestMethod := true;
      if IsStarted() {
        RunAll(beforeEachTest);
      }
    }

    /** afterMethod: leaves the test and changes nothing else. */
    method AfterMethod()
      requires Valid()
      modifies this
      ensures Valid()
      ensures !withinTestMethod
      ensures attachedToRuntime == old(attachedToRuntime) && clientFactory == old(clientFactory)
      ensures bucketNames == old(bucketNames) && afterBucketsCreated == old(afterBucketsCreated)
      ensures beforeEachTest == old(beforeEachTest) && events == old(events)
    {
      withinTestMethod := false;
    }

    /**
     * onS3ClientFactoryInit: a second call fails before anything changes, so the first
     * factory is kept. The first call stores the factory; creates every registered bucket,
     * in order, with one new client (and makes no client when there are none); runs the
     * after-buckets callbacks; and, inside a test, the before-each callbacks skipped so far.
     */
    method OnS3ClientFactoryInit(factory: S3ClientFactory) returns (r: Result<()>)
      requires Valid()
      modifies this
      ensures Valid()
      ensures old(attachedToRuntime) ==> r == Err(IllegalState(AlreadyConnectedMessage))
      ensures old(attachedToRuntime) ==> clientFactory == old(clientFactory) && events == old(events)
      ensures !old(attachedToRuntime) ==> r == Ok(()) && attachedToRuntime && clientFactory == Some(factory)
      ensures !old(attachedToRuntime) ==>
                events == old(events)
                          + (if bucketNames == [] then []
                             else BucketCreations(S3Client(ClientSettings(factory.config, factory.endpointOverride, None)),
                                                  bucketNames))
                          + Runs(afterBucketsCreated, factory)
                          + (if withinTestMethod then Runs(beforeEachTest, factory) else [])
      ensures bucketNames == old(bucketNames) && afterBucketsCreated == old(afterBucketsCreated)
      ensures beforeEachTest == old(beforeEachTest) && withinTestMethod == old(withinTestMethod)
    {
      r := CheckUnused();
      if r.Err? {
        return;
      }
      clientFactory := Some(factory);
      if bucketNames != [] {
        var client := factory.NewClient();
        var i := 0;
        while i < |bucketNames|
          invariant 0 <= i <= |bucketNames|
          invariant events == old(events) + BucketCreations(client, bucketNames[..i])
          invariant attachedToRuntime && clientFactory == Some(factory)
          invariant bucketNames == old(bucketNames) && afterBucketsCreated == old(afterBucketsCreated)
          invariant beforeEachTest == old(beforeEachTest) && withinTestMethod == old(withinTestMethod)
        {
          assert bucketNames[..i + 1] == bucketNames[..i] + [bucketNames[i]];
          BucketCreationsAppend(client, bucketNames[..i], bucketNames[i]);
          events := events + [BucketCreated(client, bucketNames[i])];
          i := i + 1;
        }
        assert bucketNames[..i] == bucketNames;
      }
      RunAll(afterBucketsCreated);
      if withinTestMethod {
        RunAll(beforeEachTest);
      }
    }

    /** Runs each callback once with the stored factory, in order, recording each run. */
    method RunAll(callbacks: seq<Callback>)
      requires clientFactory.Some?
      modifies this
      ensures attachedToRuntime == old(attachedToRuntime) && clientFactory == old(clientFactory)
      ensures events == old(events) + Runs(callbacks, clientFactory.value)
      ensures bucketNames == old(bucketNames) && afterBucketsCreated == old(afterBucketsCreated)
      ensures beforeEachTest == old(beforeEachTest) && withinTestMethod == old(withinTestMethod)
    {
      var i := 0;
      while i < |callbacks|
        invariant 0 <= i <= |callbacks|
        invariant attachedToRuntime == old(attachedToRuntime) && clientFactory == old(clientFactory)
        invariant events == old(events) + Runs(callbacks[..i], clientFactory.value)
        invariant bucketNames == old(bucketNames) && afterBucketsCreated == old(afterBucketsCreated)
        invariant beforeEachTest == old(beforeEachTest) && withinTestMethod == old(withinTestMethod)
      {
        assert callbacks[..i + 1] == callbacks[..i] + [callbacks[i]];
        RunsAppend(callbacks[..i], callbacks[i], clientFactory.value);
        events := events + [CallbackRan(callbacks[i], clientFactory.value)];
        i := i + 1;
      }
      assert callbacks[..i] == callbacks;
    }

    /** createBuckets: appends the names in argument order. */
    method CreateBuckets(names: seq<string>)
      requires Valid()
      modifies this
      ensures Valid()
      ensures bucketNames == old(bucketNames) + names
      ensures attachedToRuntime == old(attachedToRuntime) && clientFactory == old(clientFactory)
      ensures afterBucketsCreated == old(afterBucketsCreated) && beforeEachTest == old(beforeEachTest)
      ensures withinTestMethod == old(withinTestMethod) && events == old(events)
    {
      var i := 0;
      while i < |names|
        invariant 0 <= i <= |names|
        invariant bucketNames == old(bucketNames) + names[..i]
        invariant attachedToRuntime == old(attachedToRuntime) && clientFactory == old(clientFactory)
        invariant afterBucketsCreated == old(afterBucketsCreated) && beforeEachTest == old(beforeEachTest)
        invariant withinTestMethod == old(withinTestMethod) && events == old(events)
      {
        assert names[..i + 1] == names[..i] + [names[i]];
        bucketNames := bucketNames + [names[i]];
        i := i + 1;
      }
      assert names[..i] == names;
    }

    /** runAfterBucketsCreated: registers a callback for after bucket creation. */
    method RunAfterBucketsCreated(callback: Callback)
      requires Valid()
      modifies this
      ensures Valid()
      ensures afterBucketsCreated == old(afterBucketsCreated) + [callback]
      ensures attachedToRuntime == old(attachedToRuntime) && clientFactory == old(clientFactory)
      ensures bucketNames == old(bucketNames) && beforeEachTest == old(beforeEachTest)
      ensures withinTestMethod == old(withinTestMethod) && events == old(events)
    {
      afterBucketsCreated := afterBucketsCreated + [callback];
    }

    /** runBeforeEachTest: registers a callback for the start of every test. */
    method RunBeforeEachTest(callback: Callback)
      requires Valid()
      modifies this
      ensures Valid()
      ensures beforeEachTest == old(beforeEachTest) + [callback]
      ensures attachedToRuntime == old(attachedToRuntime) && clientFactory == old(clientFactory)
      ensures bucketNames == old(bucketNames) && afterBucketsCreated == old(afterBucketsCreated)
      ensures withinTestMethod == old(withinTestMethod) && events == old(events)
    {
      beforeEachTest := beforeEachTest + [callback];
    }

    /**
     * checkUnused: claims the manager for the first runtime; any later claim fails and
     * changes nothing. It is a step inside onS3ClientFactoryInit: the first claim leaves the
     * manager attached without a factory, outside Valid(), until the caller stores the factory.
     */
    method CheckUnused() returns (r: Result<()>)
      modifies this
      ensures attachedToRuntime
      ensures old(attachedToRuntime) ==> r == Err(IllegalState(AlreadyConnectedMessage))
      ensures !old(attachedToRuntime) ==> r == Ok(())
      ensures clientFactory == old(clientFactory) && events == old(events)
      ensures bucketNames == old(bucketNames) && afterBucketsCreated == old(afterBucketsCreated)
      ensures beforeEachTest == old(beforeEachTest) && withinTestMethod == old(withinTestMethod)
    {
      if attachedToRuntime {
        return Err(IllegalState(AlreadyConnectedMessage));
      }
      attachedToRuntime := true;
      r := Ok(());
    }
  }

  lemma BucketCreationsAppend(client: S3Client, names: seq<string>, n: string)
    ensures BucketCreations(client, names + [n]) == BucketCreations(client, names) + [BucketCreated(client, n)]
  {
  }

  lemma RunsAppend(callbacks: seq<Callback>, c: Callback, factory: S3ClientFactory)
    ensures Runs(callbacks + [c], factory) == Runs(callbacks, factory) + [CallbackRan(c, factory)]
  {
  }
}
