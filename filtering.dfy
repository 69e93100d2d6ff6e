/**
 * The criteria of `volume list`: sent to the server as query parameters and
 * applied again to the volumes the server returns, since the server's own
 * filtering may be looser (its name match, for one, is not specified).
 */
module Filtering {
  import opened Text
  import opened VolumeTypes

  /** Four optional criteria; an empty string sets no constraint. */
  datatype VolumeFilter = VolumeFilter(name: string, pool: string, plan: string, teamOwner: string)

  /** Query parameters: each key with its list of values. */
  type Query = map<string, seq<string>>

  /**
   * `q` carries exactly the non-empty criteria, each under its own key and
   * with the criterion as its single value.
   */
  ghost predicate QueryFor(f: VolumeFilter, q: Query)
  {
    && q.Keys <= {"name", "teamOwner", "pool", "plan"}
    && ("name" in q <==> f.name != "")
    && ("teamOwner" in q <==> f.teamOwner != "")
    && ("pool" in q <==> f.pool != "")
    && ("plan" in q <==> f.plan != "")
    && ("name" in q ==> q["name"] == [f.name])
    && ("teamOwner" in q ==> q["teamOwner"] == [f.teamOwner])
    && ("pool" in q ==> q["pool"] == [f.pool])
    && ("plan" in q ==> q["plan"] == [f.plan])
  }

  /** Builds the query by setting one key per non-empty criterion; it never fails. */
  method QueryString(f: VolumeFilter) returns (r: Result<Query>)
    ensures r.Success?
    ensures QueryFor(f, r.value)
  {
    var result: Query := map[];
    if f.name != "" {
      result := result["name" := [f.name]];
    }
    if f.teamOwner != "" {
      result := result["teamOwner" := [f.teamOwner]];
    }
    if f.pool != "" {
      result := result["pool" := [f.pool]];
    }
    if f.plan != "" {
      result := result["plan" := [f.plan]];
    }
    return Success(result);
  }

  /** A volume passes the client-side filter. */
  predicate Matches(f: VolumeFilter, v: Volume)
  {
    && (f.name == "" || Contains(v.Name, f.name))
    && (f.pool == "" || v.Pool == f.pool)
    && (f.plan == "" || v.Plan.Name == f.plan)
    && (f.teamOwner == "" || v.TeamOwner == f.teamOwner)
  }

  /** The volumes of `vs` that pass, in their order in `vs`. */
  function Filter(f: VolumeFilter, vs: seq<Volume>): (r: seq<Volume>)
    ensures |r| <= |vs|
    ensures forall i :: 0 <= i < |r| ==> Matches(f, r[i])
  {
    if vs == [] then []
    else
      var last := vs[|vs| - 1];
      var kept := Filter(f, vs[..|vs| - 1]);
      if Matches(f, last) then kept + [last] else kept
  }

  /** The single pass of the list command: each volume is kept unless some active criterion rejects it. */
  method ClientSideFilter(f: VolumeFilter, volumes: seq<Volume>) returns (result: seq<Volume>)
    ensures result == Filter(f, volumes)
  {
    result := [];
    for i := 0 to |volumes|
      invariant result == Filter(f, volumes[..i])
    {
      var v := volumes[i];
      var insert := true;
      if f.name != "" && !Contains(v.Name, f.name) {
        insert := false;
      }
      if f.pool != "" && v.Pool != f.pool {
        insert := false;
      }
      if f.plan != "" && v.Plan.Name != f.plan {
        insert := false;
      }
      if f.teamOwner != "" && v.TeamOwner != f.teamOwner {
        insert := false;
      }
      assert volumes[..i + 1][..i] == volumes[..i];
      if insert {
        result := result + [v];
      }
    }
    assert volumes[..|volumes|] == volumes;
  }

  lemma {:induction false} FilterAppend(f: VolumeFilter, a: seq<Volume>, b: seq<Volume>)
    ensures Filter(f, a + b) == Filter(f, a) + Filter(f, b)
    decreases |b|
  {
    if b == [] {
      assert a + b == a;
    } else {
      var b' := b[..|b| - 1];
      assert (a + b)[..|a + b| - 1] == a + b';
      FilterAppend(f, a, b');
    }
  }

  /** A volume is in the result exactly when it is in the input and meets every active criterion. */
  lemma {:induction false} FilterMembers(f: VolumeFilter, vs: seq<Volume>, v: Volume)
    ensures v in Filter(f, vs) <==>
      && v in vs
      && (f.name == "" || Contains(v.Name, f.name))
      && (f.pool == "" || v.Pool == f.pool)
      && (f.plan == "" || v.Plan.Name == f.plan)
      && (f.teamOwner == "" || v.TeamOwner == f.teamOwner)
    decreases |vs|
  {
    if vs != [] {
      var init := vs[..|vs| - 1];
      FilterMembers(f, init, v);
      assert vs == init + [vs[|vs| - 1]];
    }
  }

  /** With no criterion set, every volume is kept, in the same order. */
  lemma {:induction false} EmptyFilterKeepsAll(f: VolumeFilter, vs: seq<Volume>)
    requires f.name == "" && f.pool == "" && f.plan == "" && f.teamOwner == ""
    ensures Filter(f, vs) == vs
    decreases |vs|
  {
    if vs != [] {
      EmptyFilterKeepsAll(f, vs[..|vs| - 1]);
      assert vs == vs[..|vs| - 1] + [vs[|vs| - 1]];
    }
  }

  /** Filtering what was already filtered changes nothing. */
  lemma {:induction false} FilterIdempotent(f: VolumeFilter, vs: seq<Volume>)
    ensures Filter(f, Filter(f, vs)) == Filter(f, vs)
    decreases |vs|
  {
    if vs != [] {
      var init, last := vs[..|vs| - 1], vs[|vs| - 1];
      FilterIdempotent(f, init);
      if Matches(f, last) {
        FilterAppend(f, Filter(f, init), [last]);
        assert [last][..0] == [];
      }
    }
  }

  /** The positions of the volumes of `vs` that pass, in increasing order. */
  function KeptPositions(f: VolumeFilter, vs: seq<Volume>): seq<nat>
  {
    if vs == [] then []
    else
      var kept := KeptPositions(f, vs[..|vs| - 1]);
      if Matches(f, vs[|vs| - 1]) then kept + [|vs| - 1] else kept
  }

  /** `r` is `s` read at the strictly increasing positions `idx`. */
  ghost predicate SubsequenceAt<T>(r: seq<T>, s: seq<T>, idx: seq<nat>)
  {
    && |idx| == |r|
    && (forall k :: 0 <= k < |idx| ==> idx[k] < |s| && r[k] == s[idx[k]])
    && (forall k, l :: 0 <= k < l < |idx| ==> idx[k] < idx[l])
  }

  /**
   * The result is an order-preserving subsequence of the input whose
   * elements are unaltered, and the positions it skips are exactly those
   * of the volumes that do not pass.
   */
  lemma {:induction false} FilterIsSubsequence(f: VolumeFilter, vs: seq<Volume>)
    ensures SubsequenceAt(Filter(f, vs), vs, KeptPositions(f, vs))
    ensures forall j :: 0 <= j < |vs| ==> (Matches(f, vs[j]) <==> j in KeptPositions(f, vs))
    decreases |vs|
  {
    if vs != [] {
      var init := vs[..|vs| - 1];
      FilterIsSubsequence(f, init);
      var idx := KeptPositions(f, init);
      assert forall k :: 0 <= k < |idx| ==> idx[k] < |init|;
      forall j | 0 <= j < |init|
        ensures vs[j] == init[j]
      {
      }
    }
  }
}
