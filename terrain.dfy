/** TerrainGenerator.kt: the streamed ground. The Box2D bodies are kept as position records:
    a ground segment at its origin and an obstacle box half a segment further on. */
module Terrain {
  import opened Kotlin

  const SegmentLength: real := 5.0
  /** Bodies whose x lies more than this far behind the bike are removed. */
  const KeepBehind: real := 20.0
  /** Segments are created until the cursor is this far ahead of the bike. */
  const GenerateAhead: real := 50.0
  /** The initial runway's segment indices run from 0 to this bound inclusive. */
  const RunwayLast: int := 10

  datatype BodyKind = Ground | Obstacle

  datatype Body = Body(kind: BodyKind, x: real, y: real)

  /** `(x / segmentLength).toInt() % 3 == 0`: whether a segment at origin `x` carries an obstacle. */
  predicate HasObstacle(x: real)
  {
    Rem(Trunc(x / SegmentLength), 3) == 0
  }

  /** What `createTerrainSegment(x, heightOffset)` appends: a ground body at the origin, lowered
      by half a unit, then an obstacle box at the segment's middle when the rule says so. */
  function SegmentBodies(x: real, heightOffset: real): (bodies: seq<Body>)
    ensures 1 <= |bodies| <= 2
    ensures bodies[0].kind == Ground && bodies[0].x == x
    ensures forall i :: 1 <= i < |bodies| ==> bodies[i].kind == Obstacle && bodies[i].x == x + SegmentLength / 2.0
    ensures |bodies| == 2 <==> HasObstacle(x)
  {
    [Body(Ground, x, -0.5 + heightOffset)]
      + if HasObstacle(x) then [Body(Obstacle, x + SegmentLength / 2.0, heightOffset + 0.5)] else []
  }

  /** The segment origins of a body list, in order. */
  function Origins(bodies: seq<Body>): seq<real>
    decreases |bodies|
  {
    if bodies == [] then []
    else (if bodies[0].kind == Ground then [bodies[0].x] else []) + Origins(bodies[1..])
  }

  lemma {:induction false} OriginsAppend(a: seq<Body>, b: seq<Body>)
    ensures Origins(a + b) == Origins(a) + Origins(b)
    decreases |a|
  {
    if a != [] {
      var head := if a[0].kind == Ground then [a[0].x] else [];
      assert (a + b)[0] == a[0];
      assert (a + b)[1..] == a[1..] + b;
      OriginsAppend(a[1..], b);
      assert Origins(a + b) == head + Origins(a[1..] + b);
      assert Origins(a) == head + Origins(a[1..]);
    } else {
      assert a + b == b;
    }
  }

  lemma SegmentOrigin(x: real, heightOffset: real)
    ensures Origins(SegmentBodies(x, heightOffset)) == [x]
  {
    var ground := Body(Ground, x, -0.5 + heightOffset);
    var box := Body(Obstacle, x + SegmentLength / 2.0, heightOffset + 0.5);
    assert Origins([box]) == [] by {
      assert [box][1..] == [];
    }
    if HasObstacle(x) {
      assert SegmentBodies(x, heightOffset) == [ground, box];
      assert [ground, box][1..] == [box];
    } else {
      assert SegmentBodies(x, heightOffset) == [ground];
      assert [ground][1..] == [];
    }
  }

  /** For a segment at a non-negative multiple of the segment length, the obstacle rule picks
      exactly every third index, starting with the first. */
  lemma ObstacleEveryThird(n: nat)
    ensures HasObstacle(SegmentLength * n as real) <==> n % 3 == 0
  {
    assert (SegmentLength * n as real) / SegmentLength == n as real;
    assert Trunc(n as real) == n;
  }

  // ---------------------------------------------------------------- generation

  /** The measure of the generation loop: how many whole units the cursor still lacks. */
  function Shortfall(last: real, bikeX: real): int
  {
    if last < bikeX + GenerateAhead then (bikeX + GenerateAhead - last).Floor + 1 else 0
  }

  /** The number of segments `generateNewSegments(bikeX)` creates from cursor `last`. */
  function StepCount(last: real, bikeX: real): nat
    decreases Shortfall(last, bikeX)
  {
    if last < bikeX + GenerateAhead then 1 + StepCount(last + SegmentLength, bikeX) else 0
  }

  /** The bodies `generateNewSegments(bikeX)` appends from cursor `last`; each new segment sits
      one length past the cursor and takes its height from the cursor before the step. */
  function Generated(last: real, bikeX: real, height: real -> real): seq<Body>
    decreases Shortfall(last, bikeX)
  {
    if last < bikeX + GenerateAhead then
      SegmentBodies(last + SegmentLength, height(last)) + Generated(last + SegmentLength, bikeX, height)
    else []
  }

  /** One step of generation: a cursor short of the target yields one segment and moves on. */
  lemma GeneratedStep(last: real, bikeX: real, height: real -> real)
    requires last < bikeX + GenerateAhead
    ensures Generated(last, bikeX, height)
      == SegmentBodies(last + SegmentLength, height(last)) + Generated(last + SegmentLength, bikeX, height)
    ensures StepCount(last, bikeX) == 1 + StepCount(last + SegmentLength, bikeX)
  {
  }

  /** The loop of `generateNewSegments` keeps what is made so far plus what is still to come
      equal to the bodies generated from the first cursor, and likewise for the cursor. */
  lemma GenerationStep(start: seq<Body>, first: real, done: seq<Body>, last: real, bikeX: real, height: real -> real)
    requires last < bikeX + GenerateAhead
    requires start + Generated(first, bikeX, height) == done + Generated(last, bikeX, height)
    requires first + SegmentLength * StepCount(first, bikeX) as real == last + SegmentLength * StepCount(last, bikeX) as real
    ensures start + Generated(first, bikeX, height)
      == (done + SegmentBodies(last + SegmentLength, height(last))) + Generated(last + SegmentLength, bikeX, height)
    ensures first + SegmentLength * StepCount(first, bikeX) as real
      == (last + SegmentLength) + SegmentLength * StepCount(last + SegmentLength, bikeX) as real
  {
    GeneratedStep(last, bikeX, height);
    var created := SegmentBodies(last + SegmentLength, height(last));
    var rest := Generated(last + SegmentLength, bikeX, height);
    assert done + (created + rest) == (done + created) + rest;
  }

  /** After generation the cursor is at least `GenerateAhead` past the bike, by whole steps, and
      no step more than needed was taken. */
  lemma {:induction false} CursorReaches(last: real, bikeX: real)
    ensures last + SegmentLength * StepCount(last, bikeX) as real >= bikeX + GenerateAhead
    ensures StepCount(last, bikeX) > 0 ==>
      last + SegmentLength * (StepCount(last, bikeX) - 1) as real < bikeX + GenerateAhead
    decreases Shortfall(last, bikeX)
  {
    if last < bikeX + GenerateAhead {
      CursorReaches(last + SegmentLength, bikeX);
    }
  }

  /** The new segment origins are the consecutive multiples of the segment length past `last`. */
  lemma {:induction false} GeneratedOrigins(last: real, bikeX: real, height: real -> real)
    ensures |Origins(Generated(last, bikeX, height))| == StepCount(last, bikeX)
    ensures forall i :: 0 <= i < StepCount(last, bikeX) ==>
      Origins(Generated(last, bikeX, height))[i] == last + SegmentLength * (i + 1) as real
    decreases Shortfall(last, bikeX)
  {
    if last < bikeX + GenerateAhead {
      var next := last + SegmentLength;
      GeneratedOrigins(next, bikeX, height);
      OriginsAppend(SegmentBodies(next, height(last)), Generated(next, bikeX, height));
      SegmentOrigin(next, height(last));
      var o := Origins(Generated(last, bikeX, height));
      assert o == [next] + Origins(Generated(next, bikeX, height));
      forall i | 1 <= i < StepCount(last, bikeX) ensures o[i] == last + SegmentLength * (i + 1) as real {
        assert o[i] == Origins(Generated(next, bikeX, height))[i - 1];
      }
    }
  }

  /** Generation from a cursor already far enough ahead creates nothing. */
  lemma GenerationSettles(last: real, bikeX: real, height: real -> real)
    ensures Generated(last + SegmentLength * StepCount(last, bikeX) as real, bikeX, height) == []
    ensures StepCount(last + SegmentLength * StepCount(last, bikeX) as real, bikeX) == 0
  {
    CursorReaches(last, bikeX);
  }

  // ---------------------------------------------------------------- removal

  predicate Behind(b: Body, bikeX: real)
  {
    b.x < bikeX - KeepBehind
  }

  /** `terrainSegments.filter { it.position.x < bikeX - 20 }`. */
  function Doomed(bodies: seq<Body>, bikeX: real): seq<Body>
    decreases |bodies|
  {
    if bodies == [] then []
    else (if Behind(bodies[0], bikeX) then [bodies[0]] else []) + Doomed(bodies[1..], bikeX)
  }

  /** The bodies that survive the removal, in their order. */
  function Kept(bodies: seq<Body>, bikeX: real): seq<Body>
    decreases |bodies|
  {
    if bodies == [] then []
    else (if Behind(bodies[0], bikeX) then [] else [bodies[0]]) + Kept(bodies[1..], bikeX)
  }

  /** `MutableList.remove(body)`: drops the first occurrence, if any. */
  function RemoveFirst(bodies: seq<Body>, body: Body): seq<Body>
    decreases |bodies|
  {
    if bodies == [] then []
    else if bodies[0] == body then bodies[1..]
    else [bodies[0]] + RemoveFirst(bodies[1..], body)
  }

  /** The list after `remove` has been called for each of `doomed`, in order. */
  function RemoveEach(bodies: seq<Body>, doomed: seq<Body>): seq<Body>
    decreases |doomed|
  {
    if doomed == [] then bodies
    else RemoveFirst(RemoveEach(bodies, doomed[..|doomed| - 1]), doomed[|doomed| - 1])
  }

  lemma {:induction false} RemoveEachPrefix(bodies: seq<Body>, doomed: seq<Body>, i: nat)
    requires i < |doomed|
    ensures RemoveEach(bodies, doomed[..i + 1]) == RemoveFirst(RemoveEach(bodies, doomed[..i]), doomed[i])
  {
    assert doomed[..i + 1][..i] == doomed[..i];
  }

  /** Removing the head first and then the rest is removing all of them. */
  lemma {:induction false} RemoveEachHead(h: Body, t: seq<Body>, doomed: seq<Body>)
    ensures RemoveEach([h] + t, [h] + doomed) == RemoveEach(t, doomed)
    decreases |doomed|
  {
    if doomed == [] {
      assert [h] + doomed == [h];
      assert [h][..0] == [];
      assert ([h] + t)[1..] == t;
    } else {
      var n := |doomed| - 1;
      assert ([h] + doomed)[..n + 1] == [h] + doomed[..n];
      RemoveEachHead(h, t, doomed[..n]);
    }
  }

  lemma {:induction false} RemoveFirstPast(h: Body, t: seq<Body>, body: Body)
    requires body != h
    ensures RemoveFirst([h] + t, body) == [h] + RemoveFirst(t, body)
  {
    assert ([h] + t)[1..] == t;
  }

  /** Removing bodies different from the head leaves the head in front. */
  lemma {:induction false} RemoveEachPast(h: Body, t: seq<Body>, doomed: seq<Body>)
    requires forall i :: 0 <= i < |doomed| ==> doomed[i] != h
    ensures RemoveEach([h] + t, doomed) == [h] + RemoveEach(t, doomed)
    decreases |doomed|
  {
    if doomed != [] {
      var n := |doomed| - 1;
      RemoveEachPast(h, t, doomed[..n]);
      RemoveFirstPast(h, RemoveEach(t, doomed[..n]), doomed[n]);
    }
  }

  lemma {:induction false} DoomedBehind(bodies: seq<Body>, bikeX: real)
    ensures forall i :: 0 <= i < |Doomed(bodies, bikeX)| ==> Behind(Doomed(bodies, bikeX)[i], bikeX)
    decreases |bodies|
  {
    if bodies != [] {
      DoomedBehind(bodies[1..], bikeX);
    }
  }

  /** Removing, one by one, the bodies the filter picked leaves exactly the others, in order. */
  lemma {:induction false} RemovalKeeps(bodies: seq<Body>, bikeX: real)
    ensures RemoveEach(bodies, Doomed(bodies, bikeX)) == Kept(bodies, bikeX)
    decreases |bodies|
  {
    if bodies != [] {
      var h, t := bodies[0], bodies[1..];
      assert bodies == [h] + t;
      RemovalKeeps(t, bikeX);
      if Behind(h, bikeX) {
        RemoveEachHead(h, t, Doomed(t, bikeX));
      } else {
        DoomedBehind(t, bikeX);
        assert Doomed(bodies, bikeX) == Doomed(t, bikeX);
        assert Kept(bodies, bikeX) == [h] + Kept(t, bikeX);
        RemoveEachPast(h, t, Doomed(t, bikeX));
      }
    }
  }

  /** A body survives exactly when it was there and is not too far behind. */
  lemma {:induction false} KeptMembers(bodies: seq<Body>, bikeX: real)
    ensures forall b :: b in Kept(bodies, bikeX) <==> b in bodies && !Behind(b, bikeX)
    decreases |bodies|
  {
    if bodies != [] {
      KeptMembers(bodies[1..], bikeX);
      assert bodies == [bodies[0]] + bodies[1..];
    }
  }

  lemma {:induction false} KeptAppend(a: seq<Body>, b: seq<Body>, bikeX: real)
    ensures Kept(a + b, bikeX) == Kept(a, bikeX) + Kept(b, bikeX)
    decreases |a|
  {
    if a != [] {
      var head := if Behind(a[0], bikeX) then [] else [a[0]];
      assert (a + b)[0] == a[0];
      assert (a + b)[1..] == a[1..] + b;
      KeptAppend(a[1..], b, bikeX);
      assert Kept(a + b, bikeX) == head + Kept(a[1..] + b, bikeX);
      assert Kept(a, bikeX) == head + Kept(a[1..], bikeX);
    } else {
      assert a + b == b;
    }
  }

  /** A list none of whose bodies is behind survives whole. */
  lemma {:induction false} KeptAll(bodies: seq<Body>, bikeX: real)
    requires forall b :: b in bodies ==> !Behind(b, bikeX)
    ensures Kept(bodies, bikeX) == bodies
    decreases |bodies|
  {
    if bodies != [] {
      KeptAll(bodies[1..], bikeX);
    }
  }

  // ---------------------------------------------------------------- the generator

  /** The bodies of segments `0 .. n-1` of the initial runway, all flat. */
  function Runway(n: nat): seq<Body>
  {
    if n == 0 then [] else Runway(n - 1) + SegmentBodies(SegmentLength * (n - 1) as real, 0.0)
  }

  /** The runway's origins are 0, 5, .., 5(n-1). */
  lemma {:induction false} RunwayOrigins(n: nat)
    ensures |Origins(Runway(n))| == n
    ensures forall i :: 0 <= i < n ==> Origins(Runway(n))[i] == SegmentLength * i as real
  {
    if n > 0 {
      RunwayOrigins(n - 1);
      OriginsAppend(Runway(n - 1), SegmentBodies(SegmentLength * (n - 1) as real, 0.0));
      SegmentOrigin(SegmentLength * (n - 1) as real, 0.0);
    }
  }

  /** Because the runway leaves the cursor at 0, the first update that generates anything
      starts again at origin 5, which the runway already holds. */
  lemma FirstUpdateRepeatsRunway(bikeX: real, height: real -> real)
    requires bikeX + GenerateAhead > 0.0
    ensures |Origins(Runway(RunwayLast + 1))| == RunwayLast + 1
    ensures Origins(Runway(RunwayLast + 1))[1] == SegmentLength
    ensures |Origins(Generated(0.0, bikeX, height))| > 0 && Origins(Generated(0.0, bikeX, height))[0] == SegmentLength
  {
    RunwayOrigins(RunwayLast + 1);
    GeneratedOrigins(0.0, bikeX, height);
  }

  /** An update from a cursor far behind the bike leaves generated segments that the next
      update with the same position removes. */
  lemma SecondUpdateCanRemove(height: real -> real)
    ensures Kept(Generated(0.0, 100.0, height), 100.0) != Generated(0.0, 100.0, height)
  {
    var g := Generated(0.0, 100.0, height);
    assert g[0] == Body(Ground, 5.0, -0.5 + height(0.0));
    KeptMembers(g, 100.0);
  }

  class TerrainGenerator {
    var terrainSegments: seq<Body>
    var lastSegmentX: real
    /** `sin(x * 0.1f) * 2f`, the height taken at cursor `x`. */
    const heightAt: real -> real

    constructor (height: real -> real)
      ensures terrainSegments == [] && lastSegmentX == 0.0 && heightAt == height
    {
      terrainSegments := [];
      lastSegmentX := 0.0;
      heightAt := height;
    }

    method CreateTerrainSegment(x: real, heightOffset: real)
      modifies this`terrainSegments
      ensures terrainSegments == old(terrainSegments) + SegmentBodies(x, heightOffset)
    {
      terrainSegments := terrainSegments + [Body(Ground, x, -0.5 + heightOffset)];
      if Rem(Trunc(x / SegmentLength), 3) == 0 {
        CreateObstacle(x + SegmentLength / 2.0, heightOffset + 0.5);
      }
    }

    method CreateObstacle(x: real, y: real)
      modifies this`terrainSegments
      ensures terrainSegments == old(terrainSegments) + [Body(Obstacle, x, y)]
    {
      terrainSegments := terrainSegments + [Body(Obstacle, x, y)];
    }

    /** Lays the flat runway of segments 0 .. 10; the cursor is not moved. */
    method GenerateInitialTerrain()
      modifies this`terrainSegments
      ensures terrainSegments == old(terrainSegments) + Runway(RunwayLast + 1)
    {
      for i := 0 to RunwayLast + 1
        invariant terrainSegments == old(terrainSegments) + Runway(i)
      {
        CreateTerrainSegment(i as real * SegmentLength, 0.0);
        assert i as real * SegmentLength == SegmentLength * i as real;
      }
    }

    /** Removes every body lying more than 20 units behind the bike, keeping the rest in order. */
    method RemoveOldSegments(bikeX: real)
      modifies this`terrainSegments
      ensures terrainSegments == Kept(old(terrainSegments), bikeX)
    {
      var segmentsToRemove := Doomed(terrainSegments, bikeX);
      ghost var bodies0 := terrainSegments;
      var i := 0;
      while i < |segmentsToRemove|
        invariant 0 <= i <= |segmentsToRemove|
        invariant terrainSegments == RemoveEach(bodies0, segmentsToRemove[..i])
      {
        RemoveEachPrefix(bodies0, segmentsToRemove, i);
        terrainSegments := RemoveFirst(terrainSegments, segmentsToRemove[i]);
        i := i + 1;
      }
      assert segmentsToRemove[..i] == segmentsToRemove;
      RemovalKeeps(bodies0, bikeX);
    }

    /** Appends segments one length past the cursor, advancing it, until it is 50 units past
        the bike. */
    method GenerateNewSegments(bikeX: real)
      modifies this`terrainSegments, this`lastSegmentX
      ensures terrainSegments == old(terrainSegments) + Generated(old(lastSegmentX), bikeX, heightAt)
      ensures lastSegmentX == old(lastSegmentX) + SegmentLength * StepCount(old(lastSegmentX), bikeX) as real
    {
      while lastSegmentX < bikeX + GenerateAhead
        invariant old(terrainSegments) + Generated(old(lastSegmentX), bikeX, heightAt)
          == terrainSegments + Generated(lastSegmentX, bikeX, heightAt)
        invariant old(lastSegmentX) + SegmentLength * StepCount(old(lastSegmentX), bikeX) as real
          == lastSegmentX + SegmentLength * StepCount(lastSegmentX, bikeX) as real
        decreases Shortfall(lastSegmentX, bikeX)
      {
        var heightVariation := heightAt(lastSegmentX);
        GenerationStep(old(terrainSegments), old(lastSegmentX), terrainSegments, lastSegmentX, bikeX, heightAt);
        CreateTerrainSegment(lastSegmentX + SegmentLength, heightVariation);
        lastSegmentX := lastSegmentX + SegmentLength;
      }
    }

    /** Removal first, then generation. */
    method Update(bikeX: real)
      modifies this`terrainSegments, this`lastSegmentX
      ensures terrainSegments == Kept(old(terrainSegments), bikeX) + Generated(old(lastSegmentX), bikeX, heightAt)
      ensures lastSegmentX == old(lastSegmentX) + SegmentLength * StepCount(old(lastSegmentX), bikeX) as real
      ensures lastSegmentX >= old(lastSegmentX) && lastSegmentX >= bikeX + GenerateAhead
    {
      RemoveOldSegments(bikeX);
      GenerateNewSegments(bikeX);
      CursorReaches(old(lastSegmentX), bikeX);
    }
  }

  /** A second update at the same position creates nothing, and removes nothing provided the
      cursor was no more than 25 units behind the bike (so no new segment was already behind). */
  lemma UpdateTwice(bodies: seq<Body>, last: real, bikeX: real, height: real -> real)
    requires last + SegmentLength >= bikeX - KeepBehind
    ensures Kept(Kept(bodies, bikeX) + Generated(last, bikeX, height), bikeX)
      == Kept(bodies, bikeX) + Generated(last, bikeX, height)
  {
    var kept, created := Kept(bodies, bikeX), Generated(last, bikeX, height);
    KeptAppend(kept, created, bikeX);
    KeptMembers(bodies, bikeX);
    KeptAll(kept, bikeX);
    forall b | b in created ensures !Behind(b, bikeX) {
      GeneratedNotBehind(last, bikeX, height, b);
    }
    KeptAll(created, bikeX);
  }

  /** Every generated body lies at or past the first new origin. */
  lemma {:induction false} GeneratedNotBehind(last: real, bikeX: real, height: real -> real, b: Body)
    requires b in Generated(last, bikeX, height)
    ensures b.x >= last + SegmentLength
    decreases Shortfall(last, bikeX)
  {
    var next := last + SegmentLength;
    if b !in SegmentBodies(next, height(last)) {
      GeneratedNotBehind(next, bikeX, height, b);
    }
  }
}
