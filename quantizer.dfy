/**
 * Quantization and per-axis ranking of node positions
 * (src/services/graph/draw/quatizes.ts): every coordinate is quantized to a
 * grid of `precision` meters, and every quantized value is replaced by its
 * index among the distinct quantized values of that axis.
 */
module Quantizer {
  import opened RealMath
  import opened Vectors
  import opened Schemas

  /** The default grid size of `quantize`, in meters. */
  const DefaultPrecision: real := 0.25

  /** `quantize`: the index of the grid cell of width `precision` holding `value`. */
  function Quantize(value: real, precision: real): (q: int)
    requires precision != 0.0
    ensures 0.0 < precision ==> q as real * precision <= value < (q + 1) as real * precision
  {
    if 0.0 < precision then
      FloorOfQuotient(value, precision);
      (value / precision).Floor
    else
      (value / precision).Floor
  }

  /** On a positive grid, `value` lies in cell `Quantize(value, precision)`. */
  lemma QuantizeBounds(value: real, precision: real)
    requires 0.0 < precision
    ensures var q := Quantize(value, precision);
      q as real * precision <= value < (q + 1) as real * precision
  {
    FloorOfQuotient(value, precision);
  }

  lemma FloorOfQuotient(value: real, precision: real)
    requires 0.0 < precision
    ensures (value / precision).Floor as real * precision <= value
    ensures value < ((value / precision).Floor + 1) as real * precision
  {
    var t := value / precision;
    var r := t.Floor;
    assert Mul(t, precision) == value;
    MulMonotone(r as real, t, precision);
    MulStrictlyMonotone(t, (r + 1) as real, precision);
  }

  /** For a positive grid, quantization never reverses the order of two values. */
  lemma QuantizeMonotone(a: real, b: real, precision: real)
    requires 0.0 < precision && a <= b
    ensures Quantize(a, precision) <= Quantize(b, precision)
  {
    var qa, qb := Quantize(a, precision), Quantize(b, precision);
    QuantizeBounds(a, precision);
    QuantizeBounds(b, precision);
    if qb < qa {
      MulMonotone((qb + 1) as real, qa as real, precision);
    }
  }

  /** Values on the same grid cell quantize alike. */
  lemma QuantizeCell(value: real, precision: real, k: int)
    requires 0.0 < precision
    requires k as real * precision <= value < (k + 1) as real * precision
    ensures Quantize(value, precision) == k
  {
    var q := Quantize(value, precision);
    QuantizeBounds(value, precision);
    if q < k {
      MulMonotone((q + 1) as real, k as real, precision);
    } else if k < q {
      MulMonotone((k + 1) as real, q as real, precision);
    }
  }

  ghost predicate StrictlyIncreasing(s: seq<int>)
  {
    forall i, j :: 0 <= i < j < |s| ==> s[i] < s[j]
  }

  /** Inserts `v` into a strictly increasing sequence unless it is there already. */
  function Insert(s: seq<int>, v: int): (r: seq<int>)
    requires StrictlyIncreasing(s)
    ensures StrictlyIncreasing(r)
    ensures forall w :: w in r <==> w in s || w == v
  {
    if |s| == 0 then [v]
    else if v < s[0] then [v] + s
    else if v == s[0] then s
    else
      var tail := Insert(s[1..], v);
      assert forall w :: w in s <==> w == s[0] || w in s[1..];
      assert forall k | 0 <= k < |tail| :: s[0] < tail[k] by {
        forall k | 0 <= k < |tail| ensures s[0] < tail[k] {
          assert tail[k] in tail;
        }
      }
      [s[0]] + tail
  }

  /** `[...new Set(values)].sort((a, b) => a - b)`: the distinct values in increasing order. */
  function SortedDistinct(values: seq<int>): (r: seq<int>)
    ensures StrictlyIncreasing(r)
    ensures forall w :: w in r <==> w in values
  {
    if |values| == 0 then []
    else
      var init := values[..|values| - 1];
      assert forall w :: w in values <==> w in init || w == values[|values| - 1];
      Insert(SortedDistinct(init), values[|values| - 1])
  }

  /** The distinct elements of `values`. */
  function Distinct(values: seq<int>): set<int>
  {
    set w | w in values
  }

  /** The number of distinct values below `v`: the rank `v` gets. */
  function RankIn(values: set<int>, v: int): nat
  {
    |set w | w in values && w < v|
  }

  /**
   * `createRankMap`: every distinct value is mapped to its index in the
   * sorted list of distinct values, which is the number of distinct values
   * below it.
   */
  function CreateRankMap(values: seq<int>): (rank: map<int, nat>)
    ensures rank.Keys == Distinct(values)
    ensures forall v | v in rank :: rank[v] == RankIn(Distinct(values), v)
  {
    var sorted := SortedDistinct(values);
    assert Distinct(values) == Distinct(sorted);
    forall i | 0 <= i < |sorted|
      ensures RankIn(Distinct(values), sorted[i]) == i
    {
      IndexIsRank(sorted, i);
    }
    IndexMap(sorted)
  }

  /** Maps every element of a strictly increasing sequence to its index. */
  function IndexMap(s: seq<int>): (m: map<int, nat>)
    requires StrictlyIncreasing(s)
    ensures m.Keys == Distinct(s)
    ensures forall i | 0 <= i < |s| :: m[s[i]] == i
  {
    map i | 0 <= i < |s| :: s[i] := i
  }

  /** In a strictly increasing sequence, the index of an element counts the elements below it. */
  lemma IndexIsRank(s: seq<int>, i: int)
    requires StrictlyIncreasing(s) && 0 <= i < |s|
    ensures RankIn(Distinct(s), s[i]) == i
  {
    forall w
      ensures w in s && w < s[i] <==> w in s[..i]
    {
      if w in s && w < s[i] {
        var j :| 0 <= j < |s| && s[j] == w;
        assert j < i;
        assert s[..i][j] == w;
      }
    }
    assert (set w | w in Distinct(s) && w < s[i]) == Distinct(s[..i]);
    DistinctCount(s[..i]);
  }

  /** A strictly increasing sequence has as many distinct elements as it is long. */
  lemma {:induction false} DistinctCount(s: seq<int>)
    requires StrictlyIncreasing(s)
    ensures |Distinct(s)| == |s|
  {
    if |s| > 0 {
      DistinctCount(s[1..]);
      assert Distinct(s) == Distinct(s[1..]) + {s[0]};
      assert s[0] !in s[1..];
    }
  }

  /** Ranks are strictly order-preserving, so equal ranks mean equal values. */
  lemma RankOrder(values: set<int>, a: int, b: int)
    requires a in values && b in values
    ensures a < b <==> RankIn(values, a) < RankIn(values, b)
    ensures a == b <==> RankIn(values, a) == RankIn(values, b)
  {
    if a < b {
      RankStrictlyIncreasing(values, a, b);
    } else if b < a {
      RankStrictlyIncreasing(values, b, a);
    }
  }

  lemma RankStrictlyIncreasing(values: set<int>, a: int, b: int)
    requires a in values && a < b
    ensures RankIn(values, a) < RankIn(values, b)
  {
    var below, belowB := set w | w in values && w < a, set w | w in values && w < b;
    assert below + {a} <= belowB;
    assert |below + {a}| == |below| + 1;
    SubsetCardinality(below + {a}, belowB);
  }

  lemma SubsetCardinality<T>(a: set<T>, b: set<T>)
    requires a <= b
    ensures |a| <= |b|
  {
    assert b == a + (b - a);
  }

  /** Ranks are dense: the ranks of the K distinct values are exactly `0 .. K-1`. */
  lemma RanksDense(values: seq<int>)
    ensures forall k :: k in CreateRankMap(values).Values <==> 0 <= k < |Distinct(values)|
  {
    var sorted := SortedDistinct(values);
    var rank := CreateRankMap(values);
    assert Distinct(values) == Distinct(sorted);
    DistinctCount(sorted);
    assert rank == IndexMap(sorted);
    forall k
      ensures k in rank.Values <==> 0 <= k < |sorted|
    {
      if 0 <= k < |sorted| {
        assert sorted[k] in rank;
      }
      if k in rank.Values {
        var v :| v in rank && rank[v] == k;
        var i :| 0 <= i < |sorted| && sorted[i] == v;
      }
    }
  }

  /** When every value is the same, it gets rank 0. */
  lemma AllEqualRankZero(values: seq<int>, v: int)
    requires |values| > 0
    requires forall i | 0 <= i < |values| :: values[i] == v
    ensures CreateRankMap(values) == map[v := 0]
  {
    assert values[0] == v;
    assert Distinct(values) == {v};
    assert (set w | w in Distinct(values) && w < v) == {};
  }

  /** `quantize` with its default precision, as both ranking functions call it. */
  function QuantizeDefault(value: real): int
  {
    Quantize(value, DefaultPrecision)
  }

  /** One of the three axes, ranked independently of the others. */
  datatype Axis = X | Y | Z

  function Coordinate(v: Vector3, axis: Axis): real
  {
    match axis
    case X => v.x
    case Y => v.y
    case Z => v.z
  }

  /*
   * The ranking below is stated for any quantization `cell`; the source
   * always uses `QuantizeDefault`.
   */

  /** The quantized `axis` coordinates of the positions of `ids`. */
  function QuantizedOver(positions: map<Node, Vector3>, ids: set<Node>, axis: Axis, cell: real -> int): set<int>
  {
    set id | id in ids && id in positions :: cell(Coordinate(positions[id], axis))
  }

  /** The quantized coordinates of every node on `axis`. */
  function QuantizedAxis(positions: map<Node, Vector3>, axis: Axis, cell: real -> int): set<int>
  {
    QuantizedOver(positions, positions.Keys, axis, cell)
  }

  /** The rank of node `id` on `axis` among all positions. */
  function RankOnAxis(positions: map<Node, Vector3>, id: Node, axis: Axis, cell: real -> int): nat
    requires id in positions
  {
    RankIn(QuantizedAxis(positions, axis, cell), cell(Coordinate(positions[id], axis)))
  }

  /** The entry `quantizeAndRank*` produces for one node. */
  function RankedEntry(positions: map<Node, Vector3>, id: Node, cell: real -> int): PositionPair
    requires id in positions
  {
    var relative := Vector3(
      RankOnAxis(positions, id, X, cell) as real,
      RankOnAxis(positions, id, Y, cell) as real,
      RankOnAxis(positions, id, Z, cell) as real);
    PositionPair(relative, positions[id])
  }

  /** Every node's position paired with its per-axis ranks. */
  function Ranked(positions: map<Node, Vector3>, cell: real -> int): (r: map<Node, PositionPair>)
    ensures r.Keys == positions.Keys
    ensures forall id | id in r :: r[id].absolute == positions[id]
  {
    map id | id in positions :: RankedEntry(positions, id, cell)
  }

  /**
   * On every axis the relative coordinate orders the nodes as their
   * quantized absolute coordinates do, and ties exactly when they tie.
   */
  lemma RankedOrder(positions: map<Node, Vector3>, a: Node, b: Node, axis: Axis, cell: real -> int)
    requires a in positions && b in positions
    ensures var qa, qb := cell(Coordinate(positions[a], axis)), cell(Coordinate(positions[b], axis));
      var ra, rb := Coordinate(Ranked(positions, cell)[a].relative, axis), Coordinate(Ranked(positions, cell)[b].relative, axis);
      (qa < qb <==> ra < rb) && (qa == qb <==> ra == rb)
  {
    var values := QuantizedAxis(positions, axis, cell);
    RankOrder(values, cell(Coordinate(positions[a], axis)), cell(Coordinate(positions[b], axis)));
  }

  /**
   * With the default quantization, a node that is not further along an
   * axis than another never gets a larger rank on it.
   */
  lemma RankedMonotone(positions: map<Node, Vector3>, a: Node, b: Node, axis: Axis)
    requires a in positions && b in positions
    requires Coordinate(positions[a], axis) <= Coordinate(positions[b], axis)
    ensures Coordinate(Ranked(positions, QuantizeDefault)[a].relative, axis)
         <= Coordinate(Ranked(positions, QuantizeDefault)[b].relative, axis)
  {
    QuantizeMonotone(Coordinate(positions[a], axis), Coordinate(positions[b], axis), DefaultPrecision);
    RankedOrder(positions, a, b, axis, QuantizeDefault);
  }

  /**
   * The ranks on an axis depend on that axis alone: positions that agree on
   * the node set and on one coordinate get the same ranks on that axis.
   */
  lemma RankedAxesIndependent(p: map<Node, Vector3>, q: map<Node, Vector3>, axis: Axis, cell: real -> int)
    requires p.Keys == q.Keys
    requires forall id | id in p :: Coordinate(p[id], axis) == Coordinate(q[id], axis)
    ensures forall id | id in p :: Coordinate(Ranked(p, cell)[id].relative, axis) == Coordinate(Ranked(q, cell)[id].relative, axis)
  {
    assert QuantizedAxis(p, axis, cell) == QuantizedAxis(q, axis, cell);
  }

  /** Loop step: one more node contributes its quantized coordinate. */
  lemma QuantizedOverAdd(positions: map<Node, Vector3>, ids: set<Node>, id: Node, axis: Axis, cell: real -> int)
    requires id in positions
    ensures QuantizedOver(positions, ids + {id}, axis, cell)
         == QuantizedOver(positions, ids, axis, cell) + {cell(Coordinate(positions[id], axis))}
  {
  }

  lemma AppendDistinct(s: seq<int>, v: int)
    ensures Distinct(s + [v]) == Distinct(s) + {v}
  {
  }

  /** The loop of `quantizeAndRank*` that pushes every quantized coordinate. */
  method CollectQuantized(positions: map<Node, Vector3>, cell: real -> int)
    returns (dxs: seq<int>, dys: seq<int>, dzs: seq<int>)
    ensures Distinct(dxs) == QuantizedAxis(positions, X, cell)
    ensures Distinct(dys) == QuantizedAxis(positions, Y, cell)
    ensures Distinct(dzs) == QuantizedAxis(positions, Z, cell)
  {
    dxs, dys, dzs := [], [], [];
    var done: set<Node> := {};
    while done != positions.Keys
      invariant done <= positions.Keys
      invariant Distinct(dxs) == QuantizedOver(positions, done, X, cell)
      invariant Distinct(dys) == QuantizedOver(positions, done, Y, cell)
      invariant Distinct(dzs) == QuantizedOver(positions, done, Z, cell)
      decreases |positions.Keys - done|
    {
      var id :| id in positions.Keys - done;
      var p := positions[id];
      QuantizedOverAdd(positions, done, id, X, cell);
      QuantizedOverAdd(positions, done, id, Y, cell);
      QuantizedOverAdd(positions, done, id, Z, cell);
      AppendDistinct(dxs, cell(p.x));
      AppendDistinct(dys, cell(p.y));
      AppendDistinct(dzs, cell(p.z));
      dxs := dxs + [cell(p.x)];
      dys := dys + [cell(p.y)];
      dzs := dzs + [cell(p.z)];
      done := done + {id};
    }
  }

  /** `rank` holds the rank of every node's quantized `axis` coordinate. */
  ghost predicate RanksFor(positions: map<Node, Vector3>, rank: map<int, nat>, axis: Axis, cell: real -> int)
  {
    forall id | id in positions ::
      cell(Coordinate(positions[id], axis)) in rank &&
      rank[cell(Coordinate(positions[id], axis))] == RankOnAxis(positions, id, axis, cell)
  }

  /** The rank map built from the collected coordinates of an axis covers every node. */
  lemma RankMapCovers(positions: map<Node, Vector3>, values: seq<int>, axis: Axis, cell: real -> int)
    requires Distinct(values) == QuantizedAxis(positions, axis, cell)
    ensures RanksFor(positions, CreateRankMap(values), axis, cell)
  {
    forall id | id in positions
      ensures cell(Coordinate(positions[id], axis)) in QuantizedAxis(positions, axis, cell)
    {
    }
  }

  lemma StepMap(positions: map<Node, Vector3>, done: set<Node>, id: Node, cell: real -> int, result: map<Node, PositionPair>)
    requires id in positions && done <= positions.Keys
    requires result == map i | i in done :: RankedEntry(positions, i, cell)
    ensures result[id := RankedEntry(positions, id, cell)] == map i | i in done + {id} :: RankedEntry(positions, i, cell)
  {
  }

  /** One iteration of the lookup loop produces the node's ranked entry. */
  lemma EntryFromRanks(
    positions: map<Node, Vector3>, id: Node,
    dxRank: map<int, nat>, dyRank: map<int, nat>, dzRank: map<int, nat>,
    cell: real -> int)
    requires id in positions
    requires RanksFor(positions, dxRank, X, cell) && RanksFor(positions, dyRank, Y, cell) && RanksFor(positions, dzRank, Z, cell)
    ensures var p := positions[id];
      cell(p.x) in dxRank && cell(p.y) in dyRank && cell(p.z) in dzRank &&
      PositionPair(Vector3(dxRank[cell(p.x)] as real, dyRank[cell(p.y)] as real, dzRank[cell(p.z)] as real), p)
        == RankedEntry(positions, id, cell)
  {
  }

  /** The final loop of `quantizeAndRank*`: one rank lookup per axis and node. */
  method LookUpRanks(
    positions: map<Node, Vector3>,
    dxRank: map<int, nat>, dyRank: map<int, nat>, dzRank: map<int, nat>,
    cell: real -> int)
    returns (result: map<Node, PositionPair>)
    requires RanksFor(positions, dxRank, X, cell) && RanksFor(positions, dyRank, Y, cell) && RanksFor(positions, dzRank, Z, cell)
    ensures result == Ranked(positions, cell)
  {
    result := map[];
    var done: set<Node> := {};
    while done != positions.Keys
      invariant done <= positions.Keys
      invariant result == map id | id in done :: RankedEntry(positions, id, cell)
      decreases |positions.Keys - done|
    {
      var id :| id in positions.Keys - done;
      var p := positions[id];
      EntryFromRanks(positions, id, dxRank, dyRank, dzRank, cell);
      var relative := Vector3(dxRank[cell(p.x)] as real, dyRank[cell(p.y)] as real, dzRank[cell(p.z)] as real);
      assert PositionPair(relative, p) == RankedEntry(positions, id, cell);
      StepMap(positions, done, id, cell, result);
      result := result[id := PositionPair(relative, p)];
      done := done + {id};
    }
  }

  /**
   * The common tail of `quantizeAndRankLocations` and
   * `quantizeAndRankParticles`: collect the quantized coordinates of every
   * axis, build a rank map per axis and look every node up in them.
   */
  method RankPositions(positions: map<Node, Vector3>, cell: real -> int) returns (result: map<Node, PositionPair>)
    ensures result == Ranked(positions, cell)
  {
    var dxs, dys, dzs := CollectQuantized(positions, cell);
    var dxRank := CreateRankMap(dxs);
    var dyRank := CreateRankMap(dys);
    var dzRank := CreateRankMap(dzs);
    RankMapCovers(positions, dxs, X, cell);
    RankMapCovers(positions, dys, Y, cell);
    RankMapCovers(positions, dzs, Z, cell);
    result := LookUpRanks(positions, dxRank, dyRank, dzRank, cell);
  }

  /**
   * `quantizeAndRankLocations`: the displacement of every node's location
   * from the base, ranked per axis. `computeDisplacement` is not part of
   * this model and enters as a parameter.
   */
  method QuantizeAndRankLocations(
    nodes: map<Node, Metadata>,
    baseLocation: ExactLocation,
    computeDisplacement: (Location, ExactLocation) -> Vector3)
    returns (result: map<Node, PositionPair>)
    ensures result == Ranked(map id | id in nodes :: computeDisplacement(nodes[id].location, baseLocation), QuantizeDefault)
  {
    var displacementById: map<Node, Vector3> := map[];
    var done: set<Node> := {};
    while done != nodes.Keys
      invariant done <= nodes.Keys
      invariant displacementById == map id | id in done :: computeDisplacement(nodes[id].location, baseLocation)
      decreases |nodes.Keys - done|
    {
      var id :| id in nodes.Keys - done;
      displacementById := displacementById[id := computeDisplacement(nodes[id].location, baseLocation)];
      done := done + {id};
    }
    result := RankPositions(displacementById, QuantizeDefault);
  }
}
