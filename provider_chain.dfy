/**
 * CredentialsProviderChainFactory: the fallback used when no credentials are configured.
 * The contributed providers arrive as a set, given here as a sequence in the set's
 * (unspecified) iteration order. None gives an error, one is used as is, and two or
 * more become a chain sorted by ascending order.
 */
module ProviderChain {
  import opened Outcomes
  import opened Credentials

  predicate SortedByOrder(s: seq<OrderedProvider>) {
    forall i, j :: 0 <= i < j < |s| ==> s[i].order <= s[j].order
  }

  /** Inserts `p` before the first element of higher order, after those of equal or lower order. */
  function InsertByOrder(p: OrderedProvider, sorted: seq<OrderedProvider>): (r: seq<OrderedProvider>)
    requires SortedByOrder(sorted)
    ensures SortedByOrder(r)
    ensures multiset(r) == multiset(sorted) + multiset{p}
    ensures forall x :: x in r ==> x == p || x in sorted
    ensures |r| == |sorted| + 1
    decreases |sorted|
  {
    if sorted == [] then [p]
    else if p.order <= sorted[0].order then [p] + sorted
    else
      var rest := InsertByOrder(p, sorted[1..]);
      assert sorted == [sorted[0]] + sorted[1..];
      InsertBelow(p, sorted, rest);
      ConsSorted(sorted[0], rest);
      [sorted[0]] + rest
  }

  /** A sorted sequence stays sorted under a head no higher than any of its elements. */
  lemma ConsSorted(h: OrderedProvider, s: seq<OrderedProvider>)
    requires SortedByOrder(s)
    requires forall i :: 0 <= i < |s| ==> h.order <= s[i].order
    ensures SortedByOrder([h] + s)
  {
    forall i, j | 0 <= i < j < |[h] + s| ensures ([h] + s)[i].order <= ([h] + s)[j].order {
      if i > 0 {
        assert ([h] + s)[i] == s[i - 1];
      }
      assert ([h] + s)[j] == s[j - 1];
    }
  }

  /** What is inserted past the head of a sorted sequence lies no lower than that head. */
  lemma InsertBelow(p: OrderedProvider, sorted: seq<OrderedProvider>, rest: seq<OrderedProvider>)
    requires SortedByOrder(sorted) && sorted != [] && sorted[0].order < p.order
    requires forall x :: x in rest ==> x == p || x in sorted[1..]
    ensures forall i :: 0 <= i < |rest| ==> sorted[0].order <= rest[i].order
  {
    forall i | 0 <= i < |rest| ensures sorted[0].order <= rest[i].order {
      assert rest[i] in rest;
      if rest[i] != p {
        var k :| 0 <= k < |sorted[1..]| && sorted[1..][k] == rest[i];
        assert sorted[k + 1] == rest[i];
      }
    }
  }

  /** The providers sorted by ascending order: a sorted permutation of the input. */
  function SortByOrder(ps: seq<OrderedProvider>): (r: seq<OrderedProvider>)
    ensures SortedByOrder(r)
    ensures multiset(r) == multiset(ps)
    ensures |r| == |ps|
    decreases |ps|
  {
    if ps == [] then []
    else
      assert ps == [ps[0]] + ps[1..];
      InsertByOrder(ps[0], SortByOrder(ps[1..]))
  }

  /** The ordered providers' providers, in the same order. */
  function Providers(s: seq<OrderedProvider>): (r: seq<CredentialsProvider>)
    ensures |r| == |s|
    ensures forall i :: 0 <= i < |s| ==> r[i] == s[i].provider
  {
    if s == [] then [] else [s[0].provider] + Providers(s[1..])
  }

  lemma {:induction false} ProvidersAppend(a: seq<OrderedProvider>, b: seq<OrderedProvider>)
    ensures Providers(a + b) == Providers(a) + Providers(b)
  {
    assert Providers(a + b) == Providers(a) + Providers(b);
  }

  /** Two permutations of each other give two permutations of the same providers. */
  lemma {:induction false} ProvidersPermutation(a: seq<OrderedProvider>, b: seq<OrderedProvider>)
    requires multiset(a) == multiset(b)
    ensures multiset(Providers(a)) == multiset(Providers(b))
    decreases |a|
  {
    if a != [] {
      var x := a[0];
      assert x in multiset(b);
      var j :| 0 <= j < |b| && b[j] == x;
      var b' := RemoveAt(b, j);
      var a' := ConsOf(a);
      ProvidersPermutation(a', b');
    }
  }

  /** The head and tail of a non-empty sequence, and of its providers. */
  lemma ConsOf(a: seq<OrderedProvider>) returns (a': seq<OrderedProvider>)
    requires a != []
    ensures a' == a[1..]
    ensures multiset(a') == multiset(a) - multiset{a[0]}
    ensures multiset(Providers(a)) == multiset{a[0].provider} + multiset(Providers(a'))
  {
    a' := a[1..];
    assert a == [a[0]] + a';
    assert Providers(a) == [a[0].provider] + Providers(a');
  }

  /** Removing the j-th element removes it, and its provider, from the multisets. */
  lemma RemoveAt(b: seq<OrderedProvider>, j: nat) returns (b': seq<OrderedProvider>)
    requires j < |b|
    ensures b' == b[..j] + b[j + 1..]
    ensures multiset(b') == multiset(b) - multiset{b[j]}
    ensures multiset(Providers(b)) == multiset{b[j].provider} + multiset(Providers(b'))
  {
    b' := b[..j] + b[j + 1..];
    assert b == b[..j] + [b[j]] + b[j + 1..];
    assert multiset(b) == multiset(b[..j]) + multiset{b[j]} + multiset(b[j + 1..]);
    ProvidersAppend(b[..j] + [b[j]], b[j + 1..]);
    ProvidersAppend(b[..j], [b[j]]);
    ProvidersAppend(b[..j], b[j + 1..]);
  }

  /** createCredentialsProviderChain: none for an empty set, the only provider unwrapped, else a sorted chain. */
  function CreateProviderChain(ps: seq<OrderedProvider>): (r: Option<CredentialsProvider>)
    ensures r.None? <==> ps == []
    ensures |ps| == 1 ==> r == Some(ps[0].provider)
    ensures |ps| >= 2 ==> r.Some? && r.value.ProviderChain? && |r.value.providers| == |ps|
    ensures |ps| >= 2 ==> multiset(r.value.providers) == multiset(Providers(ps))
  {
    if ps == [] then None
    else if |ps| == 1 then Some(ps[0].provider)
    else
      var sorted := SortByOrder(ps);
      ProvidersPermutation(sorted, ps);
      Some(ProviderChain(Providers(sorted)))
  }

  const NoProvidersMessage: string :=
    "No credentials providers available via injection, " +
    "and no explicit configuration was provided (profile or access/secret key"

  /** create: the chain, or IllegalStateException when nothing was contributed; never an absent provider. */
  function Create(ps: seq<OrderedProvider>): (r: Result<CredentialsProvider>)
    ensures r.Err? <==> ps == []
    ensures ps == [] ==> r == Err(IllegalState(NoProvidersMessage))
    ensures r.Ok? ==> Some(r.value) == CreateProviderChain(ps)
  {
    match CreateProviderChain(ps)
    case None => Err(IllegalState(NoProvidersMessage))
    case Some(p) => Ok(p)
  }

  /**
   * A chain lists the providers of a sorted permutation of the contributed set; its i-th
   * provider comes from a provider of no higher order than the one behind the j-th, i < j.
   */
  lemma ChainIsSorted(ps: seq<OrderedProvider>)
    requires |ps| >= 2
    ensures exists s :: SortedByOrder(s) && multiset(s) == multiset(ps) &&
                        CreateProviderChain(ps) == Some(ProviderChain(Providers(s)))
  {
    var s := SortByOrder(ps);
    assert SortedByOrder(s) && multiset(s) == multiset(ps);
  }

  /** A provider whose order is strictly the lowest heads the chain. */
  lemma LowestOrderFirst(ps: seq<OrderedProvider>, p: OrderedProvider)
    requires |ps| >= 2 && p in ps
    requires forall q :: q in ps && q != p ==> p.order < q.order
    ensures CreateProviderChain(ps).value.providers[0] == p.provider
  {
    var s := SortByOrder(ps);
    assert multiset(s) == multiset(ps);
    assert p in multiset(s);
    var k :| 0 <= k < |s| && s[k] == p;
    assert s[0] in multiset(ps);
    assert s[0] in ps;
    assert s[0].order <= s[k].order;
  }

  /** Orders 5, 2 and 6, in whatever order the set yields them: the order-2 provider comes first. */
  lemma ExampleOrdering(ps: seq<OrderedProvider>)
    requires multiset(ps) == multiset{OrderedProvider(Contributed("tcp1"), 5),
                                      OrderedProvider(Contributed("tcp2"), 2),
                                      OrderedProvider(Contributed("tcp3"), 6)}
    ensures CreateProviderChain(ps).Some? && CreateProviderChain(ps).value.ProviderChain?
    ensures CreateProviderChain(ps).value.providers[0] == Contributed("tcp2")
  {
    var p := OrderedProvider(Contributed("tcp2"), 2);
    assert |multiset(ps)| == 3;
    assert p in multiset(ps);
    forall q | q in ps && q != p ensures p.order < q.order {
      assert q in multiset(ps);
    }
    LowestOrderFirst(ps, p);
  }
}
