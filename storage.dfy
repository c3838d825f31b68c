/** The named-route list of the useStorage hook (src/useStorage.tsx): an
    in-memory list of `{name, points}` mirrored into the browser's local
    storage under the key "routes". Writing appends (a name may occur more
    than once); deleting drops every entry with the given name. */
module Storage {
  import opened Page
  import opened Sequences

  datatype StoredRoute = StoredRoute(name: string, points: Route)

  /** The local-storage key the list is kept under. */
  const RoutesKey := "routes"

  /** `routes.filter(({ name }) => name !== n)`. */
  function Without(rs: seq<StoredRoute>, n: string): (r: seq<StoredRoute>)
    ensures |r| <= |rs|
    ensures forall e :: e in r ==> e in rs && e.name != n
    ensures forall e :: e in rs && e.name != n ==> e in r
  {
    if rs == [] then []
    else if rs[0].name != n then [rs[0]] + Without(rs[1..], n)
    else Without(rs[1..], n)
  }

  /** Deleting keeps the surviving entries in their original relative order. */
  lemma {:induction false} WithoutKeepsOrder(rs: seq<StoredRoute>, n: string)
    ensures IsSubsequence(Without(rs, n), rs)
    decreases |rs|
  {
    if rs != [] {
      WithoutKeepsOrder(rs[1..], n);
      if rs[0].name != n {
        assert Without(rs, n)[1..] == Without(rs[1..], n);
      }
    }
  }

  /** Deleting keeps every entry whose name differs, as many times as it
      occurred, and no entry with the deleted name. */
  lemma {:induction false} WithoutCounts(rs: seq<StoredRoute>, n: string, e: StoredRoute)
    ensures multiset(Without(rs, n))[e] == if e.name == n then 0 else multiset(rs)[e]
    decreases |rs|
  {
    if rs != [] {
      WithoutCounts(rs[1..], n, e);
      assert rs == [rs[0]] + rs[1..];
      if rs[0].name != n {
        assert Without(rs, n) == [rs[0]] + Without(rs[1..], n);
      }
    }
  }

  /** Deleting a name that no entry carries changes nothing. */
  lemma {:induction false} WithoutAbsent(rs: seq<StoredRoute>, n: string)
    requires forall i :: 0 <= i < |rs| ==> rs[i].name != n
    ensures Without(rs, n) == rs
    decreases |rs|
  {
    if rs != [] {
      WithoutAbsent(rs[1..], n);
    }
  }

  /** Filtering distributes over concatenation. */
  lemma {:induction false} WithoutAppend(a: seq<StoredRoute>, b: seq<StoredRoute>, n: string)
    ensures Without(a + b, n) == Without(a, n) + Without(b, n)
    decreases |a|
  {
    if a == [] {
      assert a + b == b;
    } else {
      assert (a + b)[0] == a[0];
      assert (a + b)[1..] == a[1..] + b;
      WithoutAppend(a[1..], b, n);
    }
  }

  /** Deleting a name removes what writing under that name added, and every
      earlier entry of that name too. */
  lemma DeleteUndoesWrite(rs: seq<StoredRoute>, r: StoredRoute)
    ensures Without(rs + [r], r.name) == Without(rs, r.name)
  {
    WithoutAppend(rs, [r], r.name);
  }

  /** Writing is not an upsert: an existing entry of the same name stays, and
      the name then occurs once more than before. */
  lemma WriteKeepsDuplicates(rs: seq<StoredRoute>, r: StoredRoute)
    ensures multiset(rs + [r])[r] == multiset(rs)[r] + 1
    ensures forall i :: 0 <= i < |rs| ==> (rs + [r])[i] == rs[i]
  {
  }

  /** The hook's state: the in-memory list and the local-storage cells. */
  class RouteStore {
    var routes: seq<StoredRoute>
    var local: map<string, seq<StoredRoute>>

    /** The persisted list equals the in-memory list. */
    predicate Persisted()
      reads this
    {
      RoutesKey in local && local[RoutesKey] == routes
    }

    /** The hook's state at its first render: an empty list, over whatever
        storage holds. Right after that render the mount effect calls
        ReadRoutes, which then takes the stored list if there is one. */
    constructor (local: map<string, seq<StoredRoute>>)
      ensures routes == [] && this.local == local
    {
      routes := [];
      this.local := local;
    }

    /** readRoutes: take the stored list, if there is one. */
    method ReadRoutes()
      modifies this`routes
      ensures RoutesKey in local ==> routes == local[RoutesKey]
      ensures RoutesKey !in local ==> routes == old(routes)
    {
      if RoutesKey !in local {
        return;
      }
      routes := local[RoutesKey];
    }

    /** writeRoute: append `r` and persist the new list. */
    method WriteRoute(r: StoredRoute)
      modifies this
      ensures routes == old(routes) + [r]
      ensures Persisted()
      ensures forall k :: k != RoutesKey ==>
        (k in local <==> k in old(local)) && (k in local ==> local[k] == old(local)[k])
    {
      var rr := routes + [r];
      routes := rr;
      local := local[RoutesKey := rr];
    }

    /** deleteRoute: drop every entry named `n` and persist the new list. */
    method DeleteRoute(n: string)
      modifies this
      ensures routes == Without(old(routes), n)
      ensures Persisted()
      ensures forall k :: k != RoutesKey ==>
        (k in local <==> k in old(local)) && (k in local ==> local[k] == old(local)[k])
    {
      var rr := Without(routes, n);
      routes := rr;
      local := local[RoutesKey := rr];
    }
  }
}
