/** The particle store of `Simulation.cpp` as values: a fixed-capacity arena of position and velocity slots
    with a live count, the buffer region write it is updated through, the resize rule of
    `UpdateParticleCount`, and the seeding lattice of `Init`. */
module ParticleStore {
  import opened Numerics

  /** Radius of the disc new particles are sampled from (`0.2f * std::sqrt(u)`). */
  const SeedRadius: real := 0.2

  /** Distance between neighbouring lattice points in `Init`. */
  const LatticeSpacing: real := 0.05

  /** A point at distance at most `SeedRadius` from the origin. */
  predicate InSeedDisc(p: Vec2) {
    NormSquared(p) <= SeedRadius * SeedRadius
  }

  /** The contents of the position and velocity buffers together with the two counters. */
  datatype Store = Store(capacity: nat, count: nat, positions: seq<Vec2>, velocities: seq<Vec2>)
  {
    /** Both buffers hold exactly `capacity` slots and at most `capacity` of them are live. */
    predicate Valid() {
      |positions| == capacity && |velocities| == capacity && count <= capacity
    }
  }

  /** `glBufferSubData`: `data` replaces the slots `[offset, offset + |data|)` of `buffer`; every other slot
      keeps its value. */
  function Overwrite(buffer: seq<Vec2>, offset: nat, data: seq<Vec2>): (r: seq<Vec2>)
    requires offset + |data| <= |buffer|
    ensures |r| == |buffer|
    ensures forall i :: offset <= i < offset + |data| ==> r[i] == data[i - offset]
    ensures forall i :: 0 <= i < |buffer| && !(offset <= i < offset + |data|) ==> r[i] == buffer[i]
  {
    buffer[..offset] + data + buffer[offset + |data|..]
  }

  /** The count a request settles on: requests above the capacity are lowered to it. */
  function ClampCount(request: nat, capacity: nat): (n: nat)
    ensures n <= capacity && n <= request
    ensures n == request || n == capacity
  {
    if request > capacity then capacity else request
  }

  /** The first `n` positions produced by the sampler, in sampling order. */
  function Draws(draw: nat -> Vec2, n: nat): (r: seq<Vec2>)
    ensures |r| == n && forall k :: 0 <= k < n ==> r[k] == draw(k)
  {
    seq(n, k requires 0 <= k => draw(k))
  }

  /** `n` zero vectors (`std::vector<glm::vec2>(n, glm::vec2(0.0f))`). */
  function Zeros(n: nat): (r: seq<Vec2>)
    ensures |r| == n && forall k :: 0 <= k < n ==> r[k] == Origin
  {
    seq(n, _ => Origin)
  }

  /** `UpdateParticleCount(newCount)` on the buffer contents. `draw(k)` is the position produced by the
      k-th iteration of the sampling loop. */
  function Resize(s: Store, newCount: nat, draw: nat -> Vec2): (r: Store)
    requires s.Valid()
    ensures r.Valid() && r.capacity == s.capacity
    ensures r.count == ClampCount(newCount, s.capacity)
    ensures newCount == s.count ==> r == s
    ensures forall i :: s.count <= i < r.count ==> r.positions[i] == draw(i - s.count) && r.velocities[i] == Origin
    ensures forall i :: 0 <= i < s.capacity && !(s.count <= i < r.count) ==>
              r.positions[i] == s.positions[i] && r.velocities[i] == s.velocities[i]
  {
    if newCount == s.count then s
    else
      var n := ClampCount(newCount, s.capacity);
      if n > s.count then
        var numToAdd := n - s.count;
        s.(count := n,
           positions := Overwrite(s.positions, s.count, Draws(draw, numToAdd)),
           velocities := Overwrite(s.velocities, s.count, Zeros(numToAdd)))
      else
        s.(count := n)
  }

  /** Shrinking (or a request equal to the count) writes no buffer: only the count can change. */
  lemma ShrinkOnlyLowersCount(s: Store, newCount: nat, draw: nat -> Vec2)
    requires s.Valid() && ClampCount(newCount, s.capacity) <= s.count
    ensures Resize(s, newCount, draw) == s.(count := ClampCount(newCount, s.capacity))
  {
  }

  /** Growth writes the `numToAdd` draws and as many zero velocities at the old count. */
  lemma GrowthWritesTail(s: Store, newCount: nat, draw: nat -> Vec2)
    requires s.Valid() && ClampCount(newCount, s.capacity) > s.count
    ensures var n := ClampCount(newCount, s.capacity);
      Resize(s, newCount, draw) == Store(s.capacity, n, Overwrite(s.positions, s.count, Draws(draw, n - s.count)),
                                         Overwrite(s.velocities, s.count, Zeros(n - s.count)))
  {
  }

  /** Every particle added by growth has zero velocity and lies in the seeding disc, provided the sampler
      only produces points of the disc. */
  lemma GrowthSeedsDisc(s: Store, newCount: nat, draw: nat -> Vec2)
    requires s.Valid()
    requires forall k :: InSeedDisc(draw(k))
    ensures var r := Resize(s, newCount, draw);
      forall i :: s.count <= i < r.count ==> InSeedDisc(r.positions[i]) && r.velocities[i] == Origin
  {
  }

  /** Shrinking and then growing back re-seeds the slots that were dropped: their old contents do not
      survive, they hold the new draws. */
  lemma RegrowthReseeds(s: Store, smaller: nat, draw1: nat -> Vec2, draw2: nat -> Vec2)
    requires s.Valid() && smaller < s.count
    ensures var r := Resize(Resize(s, smaller, draw1), s.count, draw2);
      r.count == s.count &&
      (forall i :: 0 <= i < smaller ==> r.positions[i] == s.positions[i] && r.velocities[i] == s.velocities[i]) &&
      (forall i :: smaller <= i < s.count ==> r.positions[i] == draw2(i - smaller) && r.velocities[i] == Origin)
  {
  }

  // ----- The initial lattice -----

  /** Column and row of particle `i` in a lattice of `columns` columns (`i % numColumns`, `i / numColumns`). */
  function LatticeCell(i: nat, columns: nat): (cell: (nat, nat))
    requires columns > 0
    ensures cell.0 < columns
    ensures cell.1 * columns + cell.0 == i
  {
    (i % columns, i / columns)
  }

  /** Half the width of a lattice row, subtracted so that the columns are centred on the origin. */
  function LatticeOffset(columns: nat): (o: real)
    ensures columns > 0 ==> o >= 0.0
  {
    (columns as real - 1.0) * LatticeSpacing / 2.0
  }

  /** Where `Init` puts particle `i` when the lattice has `columns` columns: inside the centred columns
      and no lower than the first row. */
  function LatticePosition(i: nat, columns: nat): (p: Vec2)
    requires columns > 0
    ensures -LatticeOffset(columns) <= p.x <= LatticeOffset(columns)
    ensures -LatticeOffset(columns) <= p.y
  {
    var cell := LatticeCell(i, columns);
    assert cell.0 as real <= columns as real - 1.0;
    Vec2(cell.0 as real * LatticeSpacing - LatticeOffset(columns),
         cell.1 as real * LatticeSpacing - LatticeOffset(columns))
  }

  /** The lattice is centred: the first and the last column sit at opposite `x`. */
  lemma LatticeCentred(columns: nat)
    requires columns > 0
    ensures LatticePosition(0, columns).x == -LatticePosition(columns - 1, columns).x
  {
    CellUnique(columns - 1, columns, 0, columns - 1);
  }

  /** The particle `columns` places later sits in the same column, one spacing higher. */
  lemma LatticeNextRow(i: nat, columns: nat)
    requires columns > 0
    ensures var p, q := LatticePosition(i, columns), LatticePosition(i + columns, columns);
      q.x == p.x && q.y == p.y + LatticeSpacing
  {
    var a, b := LatticeCell(i, columns), LatticeCell(i + columns, columns);
    CellUnique(i + columns, columns, a.1 + 1, a.0);
  }

  /** Quotient and remainder are unique: a row and a column below `columns` that spell `i` are its cell. */
  lemma CellUnique(i: nat, columns: nat, row: nat, column: nat)
    requires column < columns && row * columns + column == i
    ensures LatticeCell(i, columns) == (column, row)
  {
    var cell := LatticeCell(i, columns);
    if cell.1 < row {
      MulMonotone(cell.1 + 1, row, columns);
      assert false;
    } else if cell.1 > row {
      MulMonotone(row + 1, cell.1, columns);
      assert false;
    }
  }

  /** Distinct particles get distinct lattice cells. */
  lemma LatticeCellsDistinct(i: nat, j: nat, columns: nat)
    requires columns > 0 && i != j
    ensures LatticeCell(i, columns) != LatticeCell(j, columns)
  {
  }

  /** Distinct particles are seeded at distinct positions. */
  lemma LatticePositionsDistinct(i: nat, j: nat, columns: nat)
    requires columns > 0 && i != j
    ensures LatticePosition(i, columns) != LatticePosition(j, columns)
  {
    LatticeCellsDistinct(i, j, columns);
  }

  /** With `c = FloorSqrt(n)` columns, the `n` seeded particles fill `c` columns and at most `c + 2` rows
      (rows `0 ..= c + 1`); the extra rows appear exactly when `n` is not a perfect square. */
  lemma LatticeRows(i: nat, n: nat)
    requires i < n
    ensures FloorSqrt(n) > 0
    ensures LatticeCell(i, FloorSqrt(n)).1 <= FloorSqrt(n) + 1
  {
    var c := FloorSqrt(n);
    var cell := LatticeCell(i, c);
    var row := cell.1;
    assert i < c * (c + 2) by {
      FloorSqrtBounds(n);
      SquareOfSuccessor(c);
    }
    if row >= c + 2 {
      MulMonotone(c + 2, row, c);
      assert false;
    }
  }

  lemma SquareOfSuccessor(c: nat)
    ensures (c + 1) * (c + 1) == c * (c + 2) + 1
  {
  }

  lemma MulMonotone(a: nat, b: nat, c: nat)
    requires a <= b
    ensures a * c <= b * c
  {
    assert b * c == a * c + (b - a) * c;
  }

  /** Every seeded position lies in the box `[-o, o] x [-o, o + 2 * spacing]`, `o = LatticeOffset(c)`:
      the columns are centred on the origin, the rows start at `-o`. */
  lemma LatticeBounds(i: nat, n: nat)
    requires i < n
    ensures FloorSqrt(n) > 0
    ensures var p, o := LatticePosition(i, FloorSqrt(n)), LatticeOffset(FloorSqrt(n));
      -o <= p.x <= o && -o <= p.y <= o + 2.0 * LatticeSpacing
  {
    var c := FloorSqrt(n);
    LatticeRows(i, n);
    var cell := LatticeCell(i, c);
    assert cell.0 as real <= c as real - 1.0;
    assert cell.1 as real <= c as real + 1.0;
  }
}
