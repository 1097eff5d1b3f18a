/** The route key under which a client's descriptor is registered
    (client.go `getRouteKey`): the lower-cased method, an underscore, the path. */
module Route {
  import opened Base
  import opened Text

  function RouteKey(httpMethod: string, path: string): (key: string)
    ensures |key| == |httpMethod| + 1 + |path|
    ensures key[..|httpMethod|] == Lower(httpMethod)
    ensures key[|httpMethod|] == '_'
    ensures key[|httpMethod| + 1..] == path
  {
    Lower(httpMethod) + "_" + path
  }

  /** Splits a key at its first underscore: the inverse of `RouteKey` for
      methods that contain no underscore. */
  function SplitAtUnderscore(key: string): (r: Option<(string, string)>)
    ensures r.Some? ==> r.value.0 + "_" + r.value.1 == key && '_' !in r.value.0
    ensures r.None? <==> '_' !in key
  {
    if key == [] then None
    else if key[0] == '_' then Some(([], key[1..]))
    else match SplitAtUnderscore(key[1..])
      case None => None
      case Some(parts) => Some(([key[0]] + parts.0, parts.1))
  }

  lemma {:induction false} SplitOfJoin(a: string, b: string)
    requires '_' !in a
    ensures SplitAtUnderscore(a + "_" + b) == Some((a, b))
  {
    if a != [] {
      assert (a + "_" + b)[1..] == a[1..] + "_" + b;
      SplitOfJoin(a[1..], b);
      assert [a[0]] + a[1..] == a;
    } else {
      assert (a + "_" + b)[1..] == b;
    }
  }

  /** Splitting a route key recovers the lower-cased method and the path. */
  lemma SplitRouteKey(httpMethod: string, path: string)
    requires '_' !in httpMethod
    ensures SplitAtUnderscore(RouteKey(httpMethod, path)) == Some((Lower(httpMethod), path))
  {
    LowerKeepsAbsent(httpMethod, '_');
    SplitOfJoin(Lower(httpMethod), path);
  }

  /** For methods without an underscore, two routes share a key exactly when
      their methods agree up to case and their paths are equal. */
  lemma SameKeyIffSameRoute(m1: string, p1: string, m2: string, p2: string)
    requires '_' !in m1 && '_' !in m2
    ensures RouteKey(m1, p1) == RouteKey(m2, p2) <==> Lower(m1) == Lower(m2) && p1 == p2
  {
    SplitRouteKey(m1, p1);
    SplitRouteKey(m2, p2);
  }

  /** Method case does not matter: "GET /users" and "get /users" share one entry. */
  lemma RouteKeyIgnoresMethodCase(httpMethod: string, path: string)
    ensures RouteKey(Upper(httpMethod), path) == RouteKey(httpMethod, path)
  {
    LowerOfUpper(httpMethod);
  }

  /** Without the underscore-free hypothesis the key is not injective. */
  lemma UnderscoreMethodsCollide()
    ensures RouteKey("a_b", "c") == RouteKey("a", "b_c")
  {
    assert Lower("a_b") == "a_b";
    assert Lower("a") == "a";
  }
}
