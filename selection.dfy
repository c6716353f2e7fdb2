/**
 * Nearest-destination selection: the straight-line radius prefilter that
 * narrows the candidates before the walking-distance service is asked, and
 * the scan that picks the candidate with the smallest walking distance.
 */
module Selection {
  import opened Destinations

  /** Straight-line cutoff, in metres; a candidate exactly this far away is kept. */
  const RadiusMetres: real := 700.0

  /**
   * Straight-line distance in metres from the origin to a point. The source
   * computes it with the haversine formula over floats; the model keeps it
   * abstract, so nothing below depends on the formula.
   */
  type Distance = (LatLng, LatLng) -> real

  /**
   * The prefilter's test. A null coordinate takes part in the arithmetic as
   * 0. An undefined coordinate makes the distance NaN, and `NaN <= 700` is
   * false, so such a destination is never kept.
   */
  predicate Nearby(dist: Distance, origin: LatLng, d: Destination)
  {
    d.location.Complete() && dist(origin, d.location.Point()) <= RadiusMetres
  }

  /** A destination whose latitude is null is kept when the point at latitude 0 would be. */
  lemma NullLatitudeCountsAsZero(dist: Distance, origin: LatLng, name: string, lng: real)
    ensures Nearby(dist, origin, Destination(name, Location(Null, Num(lng))))
        <==> dist(origin, LatLng(0.0, lng)) <= RadiusMetres
  {
  }

  /** A destination with an undefined coordinate is never kept. */
  lemma UndefinedNeverNearby(dist: Distance, origin: LatLng, d: Destination)
    requires d.location.lat.Undefined? || d.location.lng.Undefined?
    ensures !Nearby(dist, origin, d)
  {
  }

  /** `destinations.filter(dest => distance <= 700)`: the candidates within the radius, in order. */
  function Prefilter(dist: Distance, origin: LatLng, ds: seq<Destination>): (r: seq<Destination>)
    ensures |r| <= |ds|
    ensures forall d :: d in r <==> d in ds && Nearby(dist, origin, d)
  {
    if ds == [] then []
    else (if Nearby(dist, origin, ds[0]) then [ds[0]] else []) + Prefilter(dist, origin, ds[1..])
  }

  /** `r` is `s` with some elements removed and the rest in their original order. */
  predicate IsSubsequence<T(==)>(r: seq<T>, s: seq<T>)
    decreases |s|
  {
    r == [] || (s != [] && ((r[0] == s[0] && IsSubsequence(r[1..], s[1..])) || IsSubsequence(r, s[1..])))
  }

  /** A subsequence holds no value more often than the sequence it is taken from. */
  lemma {:induction false} SubsequenceCount<T>(r: seq<T>, s: seq<T>, x: T)
    requires IsSubsequence(r, s)
    ensures multiset(r)[x] <= multiset(s)[x]
    decreases |s|
  {
    if r != [] {
      assert s == [s[0]] + s[1..];
      if r[0] == s[0] && IsSubsequence(r[1..], s[1..]) {
        assert r == [r[0]] + r[1..];
        SubsequenceCount(r[1..], s[1..], x);
      } else {
        SubsequenceCount(r, s[1..], x);
      }
    }
  }

  /** The prefilter keeps the relative order of the candidates. */
  lemma {:induction false} PrefilterIsSubsequence(dist: Distance, origin: LatLng, ds: seq<Destination>)
    ensures IsSubsequence(Prefilter(dist, origin, ds), ds)
    decreases |ds|
  {
    if ds != [] {
      var rest := Prefilter(dist, origin, ds[1..]);
      PrefilterIsSubsequence(dist, origin, ds[1..]);
      if Nearby(dist, origin, ds[0]) {
        assert Prefilter(dist, origin, ds) == [ds[0]] + rest;
        assert ([ds[0]] + rest)[1..] == rest;
      } else {
        assert Prefilter(dist, origin, ds) == rest;
      }
    }
  }

  /**
   * Each candidate within the radius is kept as many times as it occurs,
   * every other candidate is dropped.
   */
  lemma {:induction false} PrefilterCount(dist: Distance, origin: LatLng, ds: seq<Destination>, d: Destination)
    ensures multiset(Prefilter(dist, origin, ds))[d]
         == if Nearby(dist, origin, d) then multiset(ds)[d] else 0
    decreases |ds|
  {
    if ds != [] {
      PrefilterCount(dist, origin, ds[1..], d);
      assert ds == [ds[0]] + ds[1..];
    }
  }

  /**
   * The prefilter's result is the only subsequence of the candidates that
   * holds exactly the candidates within the radius: together with
   * PrefilterIsSubsequence and PrefilterCount this characterises it.
   */
  lemma {:induction false} PrefilterUnique(dist: Distance, origin: LatLng, ds: seq<Destination>, r: seq<Destination>)
    requires IsSubsequence(r, ds)
    requires forall d :: multiset(r)[d] == if Nearby(dist, origin, d) then multiset(ds)[d] else 0
    ensures r == Prefilter(dist, origin, ds)
    decreases |ds|
  {
    if ds == [] {
      assert r == [];
    } else {
      var x, rest := ds[0], ds[1..];
      assert ds == [x] + rest;
      if Nearby(dist, origin, x) {
        assert multiset(r)[x] == multiset(rest)[x] + 1;
        assert r != [];
        if !(r[0] == x && IsSubsequence(r[1..], rest)) {
          SubsequenceCount(r, rest, x);
          assert false;
        }
        assert r == [x] + r[1..];
        forall d ensures multiset(r[1..])[d] == if Nearby(dist, origin, d) then multiset(rest)[d] else 0 {
          assert multiset(r)[d] == multiset(r[1..])[d] + (if d == x then 1 else 0);
        }
        PrefilterUnique(dist, origin, rest, r[1..]);
      } else {
        assert x !in r by {
          assert multiset(r)[x] == 0;
        }
        assert IsSubsequence(r, rest);
        forall d ensures multiset(r)[d] == if Nearby(dist, origin, d) then multiset(rest)[d] else 0 {
          if d != x {
            assert multiset(ds)[d] == multiset(rest)[d];
          }
        }
        PrefilterUnique(dist, origin, rest, r);
      }
    }
  }

  /** Filtering the primary list followed by the appended points filters each part in turn. */
  lemma {:induction false} PrefilterAppend(dist: Distance, origin: LatLng, a: seq<Destination>, b: seq<Destination>)
    ensures Prefilter(dist, origin, a + b) == Prefilter(dist, origin, a) + Prefilter(dist, origin, b)
    decreases |a|
  {
    if a == [] {
      assert a + b == b;
    } else {
      assert (a + b)[0] == a[0];
      assert (a + b)[1..] == a[1..] + b;
      PrefilterAppend(dist, origin, a[1..], b);
    }
  }

  /** The prefilter comes back empty exactly when no candidate is within the radius. */
  lemma PrefilterEmpty(dist: Distance, origin: LatLng, ds: seq<Destination>)
    ensures Prefilter(dist, origin, ds) == []
        <==> forall i :: 0 <= i < |ds| ==> !Nearby(dist, origin, ds[i])
  {
    if Prefilter(dist, origin, ds) != [] {
      assert Prefilter(dist, origin, ds)[0] in Prefilter(dist, origin, ds);
    }
  }

  /**
   * `k` is where the source's scan stops: a smallest distance, and the first
   * index that holds it, since the scan replaces the current best only on a
   * strictly smaller distance.
   */
  predicate IsLeftmostMinimum(distances: seq<nat>, k: nat)
  {
    k < |distances|
    && (forall j :: 0 <= j < |distances| ==> distances[k] <= distances[j])
    && (forall j :: 0 <= j < k ==> distances[k] < distances[j])
  }

  /** Ties leave no choice: a list has at most one leftmost minimum. */
  lemma LeftmostMinimumUnique(distances: seq<nat>, k1: nat, k2: nat)
    requires IsLeftmostMinimum(distances, k1) && IsLeftmostMinimum(distances, k2)
    ensures k1 == k2
  {
    assert distances[k1] == distances[k2];
  }

  /** The scan over the walking distances the service returned. */
  method SelectClosest(distances: seq<nat>) returns (closestIndex: nat, minDistance: nat)
    requires |distances| > 0
    ensures IsLeftmostMinimum(distances, closestIndex)
    ensures minDistance == distances[closestIndex]
  {
    closestIndex := 0;
    minDistance := distances[0];
    for i := 1 to |distances|
      invariant closestIndex < i
      invariant minDistance == distances[closestIndex]
      invariant forall j :: 0 <= j < i ==> minDistance <= distances[j]
      invariant forall j :: 0 <= j < closestIndex ==> minDistance < distances[j]
    {
      if distances[i] < minDistance {
        minDistance := distances[i];
        closestIndex := i;
      }
    }
  }
}
