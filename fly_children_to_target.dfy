/** FlyChildrenToTarget: on enable the old children are destroyed and
    childCount new ones are spawned at random times within
    childSpawnDuration (in order of those times); each child optionally
    drifts to a random position, waits, and flies along a quadratic Bezier
    curve to the target, where its Animator (if any) gets "OnArrived". */
module FlyChildrenToTarget {
  import opened Common

  predicate Sorted(s: seq<real>) {
    forall i, j :: 0 <= i < j < |s| ==> s[i] <= s[j]
  }

  /** Swaps a[j - 1] and a[j]. */
  method SwapDown(a: array<real>, j: int)
    requires 0 < j < a.Length
    modifies a
    ensures a[..] == old(a[..])[j - 1 := old(a[j])][j := old(a[j - 1])]
    ensures multiset(a[..]) == multiset(old(a[..]))
  {
    a[j - 1], a[j] := a[j], a[j - 1];
  }

  /** System.Array.Sort on the spawn times: ascending, and the same times. */
  method SortTimes(a: array<real>)
    modifies a
    ensures Sorted(a[..])
    ensures multiset(a[..]) == multiset(old(a[..]))
  {
    var i := 0;
    while i < a.Length
      invariant 0 <= i <= a.Length
      invariant Sorted(a[..i])
      invariant multiset(a[..]) == multiset(old(a[..]))
    {
      var j := i;
      while j > 0 && a[j - 1] > a[j]
        invariant 0 <= j <= i
        invariant forall m, n :: 0 <= m < n <= i && n != j ==> a[m] <= a[n]
        invariant multiset(a[..]) == multiset(old(a[..]))
      {
        SwapDown(a, j);
        j := j - 1;
      }
      i := i + 1;
    }
  }

  /** What one spawned child was given: where it appears, where it drifts
      first (only when spawned at the origin), its rotation, scale and the
      wait before it flies. */
  datatype Child = Child(initial: Vec3, drift: Option<Vec3>, rotation: Vec3, scale: real, waitBeforeFly: real)

  /** The random values drawn for one child: a spawn position, Euler angles,
      a scale and a wait. */
  datatype Draw = Draw(position: Vec3, rotation: Vec3, scale: real, wait: real)

  /** A child spawned at the origin drifts to the random position; otherwise
      it appears there and does not move first. */
  function SpawnChild(spawnAtOrigin: bool, d: Draw): (r: Child)
    ensures spawnAtOrigin <==> r.drift.Some?
    ensures spawnAtOrigin ==> r.initial == Zero3 && r.drift.value == d.position
    ensures !spawnAtOrigin ==> r.initial == d.position
    ensures r.rotation == d.rotation && r.scale == d.scale && r.waitBeforeFly == d.wait
  {
    Child(if spawnAtOrigin then Zero3 else d.position, if spawnAtOrigin then Some(d.position) else None,
          d.rotation, d.scale, d.wait)
  }

  /** An id above every id in `s`: where Instantiate's fresh ids start. */
  function Above(s: seq<nat>): (r: nat)
    ensures forall k :: 0 <= k < |s| ==> s[k] < r
  {
    if s == [] then 0
    else var m := Above(s[1..]); if s[0] < m then m else s[0] + 1
  }

  /** The ids of `n` objects instantiated one after another from `start`. */
  function Ids(start: nat, n: nat): (r: seq<nat>)
    ensures |r| == n && forall i :: 0 <= i < n ==> r[i] == start + i
  {
    seq(n, i => start + i)
  }

  class FlyChildrenToTargetBehaviour {
    const childCount: int
    const childSpawnDuration: real
    const spawnAtOrigin: bool

    /** The transform's children, by object id. */
    var children: seq<nat>
    /** The id the next Instantiate hands out; no child has it or a larger one. */
    var nextId: nat
    /** The children Destroy was called on. */
    var destroyed: seq<nat>
    /** Every WaitForSeconds the spawning loop yielded. */
    var waits: seq<real>
    /** The spawned children, and the time (after the start) each appeared. */
    var spawned: seq<Child>
    var spawnClock: seq<real>

    /** Every child's id was handed out before nextId. */
    predicate Valid()
      reads this
    {
      forall k :: 0 <= k < |children| ==> children[k] < nextId
    }

    constructor (childCount: int, childSpawnDuration: real, spawnAtOrigin: bool, children: seq<nat>)
      ensures this.childCount == childCount && this.childSpawnDuration == childSpawnDuration
      ensures this.spawnAtOrigin == spawnAtOrigin && this.children == children
      ensures destroyed == [] && waits == [] && spawned == [] && spawnClock == []
      ensures Valid()
    {
      this.childCount := childCount;
      this.childSpawnDuration := childSpawnDuration;
      this.spawnAtOrigin := spawnAtOrigin;
      this.children := children;
      nextId := Above(children);
      destroyed := [];
      waits := [];
      spawned := [];
      spawnClock := [];
    }

    /** Destroy is called on every child, in order, and the transform is
        left without children. */
    method DestroyChildren()
      requires Valid()
      modifies this`destroyed, this`children
      ensures destroyed == old(destroyed) + old(children) && children == []
      ensures Valid() && nextId == old(nextId)
    {
      for k := 0 to |children|
        invariant children == old(children)
        invariant destroyed == old(destroyed) + children[..k]
      {
        destroyed := destroyed + [children[k]];
      }
      assert children[..|children|] == children;
      children := [];
    }

    /** spawnTimes: a new array of n draws. */
    static method DrawTimes(times: seq<real>, n: nat) returns (a: array<real>)
      requires |times| >= n
      ensures fresh(a) && a[..] == times[..n]
    {
      a := new real[n];
      for i := 0 to n
        invariant a[..i] == times[..i]
      {
        a[i] := times[i];
      }
      assert a[..] == a[..n];
    }

    /** SpawnChildren, with its waits summed into a clock. `times` are the
        Random.Range(0, childSpawnDuration) draws, `draws` the per-child ones.
        The old children go first; a negative childCount then fails the
        array allocation and nothing spawns. Otherwise exactly childCount
        children spawn, each yielding only positive waits, and with a
        non-negative childSpawnDuration they appear exactly at the drawn
        times in ascending order. The transform's children are then exactly
        the new objects, none of which was a child before, so the next run
        destroys these. */
    method SpawnChildren(times: seq<real>, draws: seq<Draw>)
      requires Valid()
      requires childCount >= 0 ==> |times| >= childCount && |draws| >= childCount
      requires forall k :: 0 <= k < |times| ==> RealRange(times[k], 0.0, childSpawnDuration)
      modifies this`destroyed, this`children, this`nextId, this`waits, this`spawned, this`spawnClock
      ensures Valid()
      ensures destroyed == old(destroyed) + old(children)
      ensures childCount < 0 ==> children == [] && nextId == old(nextId) &&
                                 waits == old(waits) && spawned == old(spawned) && spawnClock == old(spawnClock)
      ensures childCount >= 0 ==> children == Ids(old(nextId), childCount) && nextId == old(nextId) + childCount
      ensures forall k, j :: 0 <= k < |children| && 0 <= j < |old(children)| ==> children[k] != old(children)[j]
      ensures childCount >= 0 ==>
                |spawned| == childCount && |spawnClock| == childCount &&
                (forall i :: 0 <= i < childCount ==> spawned[i] == SpawnChild(spawnAtOrigin, draws[i])) &&
                (forall k :: |old(waits)| <= k < |waits| ==> waits[k] > 0.0)
      ensures childCount >= 0 && childSpawnDuration >= 0.0 ==>
                Sorted(spawnClock) && multiset(spawnClock) == multiset(times[..childCount])
    {
      DestroyChildren();
      if childCount < 0 {
        return;
      }
      var spawnTimes := DrawTimes(times, childCount);
      SortTimes(spawnTimes);
      assert childSpawnDuration >= 0.0 ==> forall k :: 0 <= k < childCount ==> spawnTimes[k] >= 0.0 by {
        if childSpawnDuration >= 0.0 {
          forall k | 0 <= k < childCount
            ensures spawnTimes[k] >= 0.0
          {
            assert spawnTimes[..][k] in multiset(times[..childCount]);
          }
        }
      }
      Schedule(spawnTimes[..], draws);
    }

    /** The spawning loop over the sorted times: wait out the gap to the next
        time when it is positive, then instantiate the next child under the
        transform. */
    method Schedule(spawnTimes: seq<real>, draws: seq<Draw>)
      requires Valid()
      requires |draws| >= |spawnTimes|
      modifies this`children, this`nextId, this`waits, this`spawned, this`spawnClock
      ensures Valid()
      ensures children == old(children) + Ids(old(nextId), |spawnTimes|) && nextId == old(nextId) + |spawnTimes|
      ensures |spawned| == |spawnTimes| && |spawnClock| == |spawnTimes|
      ensures forall i :: 0 <= i < |spawnTimes| ==> spawned[i] == SpawnChild(spawnAtOrigin, draws[i])
      ensures |waits| >= |old(waits)| && forall k :: |old(waits)| <= k < |waits| ==> waits[k] > 0.0
      ensures Sorted(spawnTimes) && (forall k :: 0 <= k < |spawnTimes| ==> spawnTimes[k] >= 0.0) ==>
                spawnClock == spawnTimes
    {
      var currentTime := 0.0;
      var clock := 0.0;
      spawned := [];
      spawnClock := [];
      ghost var onTime := Sorted(spawnTimes) && forall k :: 0 <= k < |spawnTimes| ==> spawnTimes[k] >= 0.0;
      for i := 0 to |spawnTimes|
        invariant |spawned| == i && |spawnClock| == i
        invariant Valid()
        invariant children == old(children) + Ids(old(nextId), i) && nextId == old(nextId) + i
        invariant forall k :: 0 <= k < i ==> spawned[k] == SpawnChild(spawnAtOrigin, draws[k])
        invariant |waits| >= |old(waits)| && forall k :: |old(waits)| <= k < |waits| ==> waits[k] > 0.0
        invariant onTime ==> spawnClock == spawnTimes[..i] && clock == currentTime &&
                             (i == 0 ==> currentTime == 0.0) && (i > 0 ==> currentTime == spawnTimes[i - 1])
      {
        var waitTime := spawnTimes[i] - currentTime;
        if waitTime > 0.0 {
          waits := waits + [waitTime];
          clock := clock + waitTime;
        }
        currentTime := spawnTimes[i];
        children := children + [nextId];
        nextId := nextId + 1;
        spawned := spawned + [SpawnChild(spawnAtOrigin, draws[i])];
        spawnClock := spawnClock + [clock];
      }
      assert spawnTimes[..|spawnTimes|] == spawnTimes;
    }
  }

  /** One frame of MoveToRandomPosition or FlyToTargetWithCurve: the object
      is put at the path's point for elapsed / duration, then time advances;
      once elapsed reaches duration it is put exactly at the end point. */
  datatype FlightStep = FlightStep(position: Vec3, next: Option<real>)

  function FlightSegment(path: real -> Vec3, end: Vec3, duration: real, elapsed: real, dt: real): (r: FlightStep)
    requires elapsed >= 0.0
    ensures r.next.None? <==> elapsed >= duration
    ensures r.next.None? ==> r.position == end
  {
    if elapsed < duration then FlightStep(path(elapsed / duration), Some(elapsed + dt))
    else FlightStep(end, None)
  }

  /** The path is only ever sampled on [0, 1). */
  lemma FlightSamplesUnitInterval(path: real -> Vec3, end: Vec3, duration: real, elapsed: real, dt: real)
    requires elapsed >= 0.0
    ensures var r := FlightSegment(path, end, duration, elapsed, dt);
            r.next.Some? ==> exists t :: 0.0 <= t < 1.0 && r.position == path(t)
  {
    if elapsed < duration {
      var t := elapsed / duration;
      assert t < 1.0 by {
        if t >= 1.0 {
          MulMonotone(1.0, t, duration);
        }
      }
      assert FlightSegment(path, end, duration, elapsed, dt).position == path(t);
    }
  }

  /** Resumes a flight through frames of the given lengths, stopping when it ends. */
  function FlightRun(path: real -> Vec3, end: Vec3, duration: real, elapsed: real, dts: seq<real>): FlightStep
    requires elapsed >= 0.0 && dts != [] && forall k :: 0 <= k < |dts| ==> dts[k] >= 0.0
    decreases |dts|
  {
    var s := FlightSegment(path, end, duration, elapsed, dts[0]);
    if s.next.None? || |dts| == 1 then s else FlightRun(path, end, duration, s.next.value, dts[1..])
  }

  /** With frames of at least `d` and duration <= m*d, a flight at elapsed >=
      i*d is over within m - i + 1 frames, exactly at its end point. */
  lemma {:induction false} FlightEnds(path: real -> Vec3, end: Vec3, duration: real, elapsed: real, dts: seq<real>,
                                      d: real, i: nat, m: nat)
    requires d > 0.0 && forall k :: 0 <= k < |dts| ==> dts[k] >= d
    requires duration <= m as real * d && i <= m && elapsed >= i as real * d
    requires |dts| >= m - i + 1
    ensures elapsed >= 0.0 && FlightRun(path, end, duration, elapsed, dts) == FlightStep(end, None)
    decreases |dts|
  {
    if elapsed < duration {
      StepsLeft(elapsed, duration, d, i, m);
      assert elapsed + dts[0] >= (i + 1) as real * d;
      FlightEnds(path, end, duration, elapsed + dts[0], dts[1..], d, i + 1, m);
    }
  }

  /** A started flight (elapsed 0, positive duration) first shows path(0). */
  lemma FlightStartsOnPath(path: real -> Vec3, end: Vec3, duration: real, dt: real)
    requires duration > 0.0 && dt >= 0.0
    ensures FlightSegment(path, end, duration, 0.0, dt) == FlightStep(path(0.0), Some(dt))
  {
  }

  function Add3(a: Vec3, b: Vec3): Vec3 { Vec3(a.x + b.x, a.y + b.y, a.z + b.z) }

  /** One coordinate of the quadratic Bezier curve through a, c, b. */
  function Bezier1(a: real, c: real, b: real, t: real): real {
    (1.0 - t) * (1.0 - t) * a + 2.0 * (1.0 - t) * t * c + t * t * b
  }

  function Bezier(a: Vec3, c: Vec3, b: Vec3, t: real): (r: Vec3)
    ensures t == 0.0 ==> r == a
    ensures t == 1.0 ==> r == b
  {
    Vec3(Bezier1(a.x, c.x, b.x, t), Bezier1(a.y, c.y, b.y, t), Bezier1(a.z, c.z, b.z, t))
  }

  /** The curve starts at the start point and would reach the end point at
      t = 1, so the final snap to the target continues the curve. */
  lemma BezierEnds(a: Vec3, c: Vec3, b: Vec3)
    ensures Bezier(a, c, b, 0.0) == a && Bezier(a, c, b, 1.0) == b
  {
  }

  /** Inside [0, 1] every coordinate of the curve lies between the smallest
      and the largest of the three control coordinates. */
  lemma BezierInHull(a: real, c: real, b: real, t: real, lo: real, hi: real)
    requires 0.0 <= t <= 1.0 && lo <= a <= hi && lo <= c <= hi && lo <= b <= hi
    ensures lo <= Bezier1(a, c, b, t) <= hi
  {
    var w0 := (1.0 - t) * (1.0 - t);
    var w1 := 2.0 * (1.0 - t) * t;
    var w2 := t * t;
    MulNonneg(1.0 - t, 1.0 - t);
    MulNonneg(2.0 * (1.0 - t), t);
    assert w0 + w1 + w2 == 1.0;
    Convex3(w0, w1, w2, a, c, b, lo, hi);
  }

  /** A convex combination of three values in [lo, hi] stays in [lo, hi]. */
  lemma Convex3(w0: real, w1: real, w2: real, a: real, c: real, b: real, lo: real, hi: real)
    requires w0 >= 0.0 && w1 >= 0.0 && w2 >= 0.0 && w0 + w1 + w2 == 1.0
    requires lo <= a <= hi && lo <= c <= hi && lo <= b <= hi
    ensures lo <= w0 * a + w1 * c + w2 * b <= hi
  {
    MulNonneg(w0, a - lo);
    MulNonneg(w1, c - lo);
    MulNonneg(w2, b - lo);
    MulNonneg(w0, hi - a);
    MulNonneg(w1, hi - c);
    MulNonneg(w2, hi - b);
  }

  /** FlyToTargetWithCurve's control point: the start, the configured offset
      and a random (x, y) shift. */
  function ControlPoint(start: Vec3, offset: Vec3, randomX: real, randomY: real): (r: Vec3)
    ensures r.z == start.z + offset.z
    ensures randomX == 0.0 && randomY == 0.0 ==> r == Add3(start, offset)
  {
    Add3(Add3(start, offset), Vec3(randomX, randomY, 0.0))
  }

  /** The path of FlyToTargetWithCurve. */
  function FlyPath(start: Vec3, control: Vec3, end: Vec3): real -> Vec3 {
    t => Bezier(start, control, end, t)
  }

  /** A flight begins where the child is, and enough frames of at least d
      land it exactly on the target. */
  lemma FlyFromStartToTarget(start: Vec3, offset: Vec3, randomX: real, randomY: real, end: Vec3,
                             duration: real, dt: real, dts: seq<real>, d: real, m: nat)
    requires duration > 0.0 && d > 0.0 && forall k :: 0 <= k < |dts| ==> dts[k] >= d
    requires duration <= m as real * d && |dts| >= m + 1
    ensures var path := FlyPath(start, ControlPoint(start, offset, randomX, randomY), end);
            FlightSegment(path, end, duration, 0.0, dt).position == start &&
            FlightRun(path, end, duration, 0.0, dts) == FlightStep(end, None)
  {
    var path := FlyPath(start, ControlPoint(start, offset, randomX, randomY), end);
    BezierEnds(start, ControlPoint(start, offset, randomX, randomY), end);
    FlightEnds(path, end, duration, 0.0, dts, d, 0, m);
  }

  /** The Animator calls on arrival: "OnArrived", only if there is an Animator. */
  function Arrival(hasAnimator: bool): (r: seq<AnimatorCall>)
    ensures SetTrigger("OnArrived") in r <==> hasAnimator
    ensures |r| <= 1
  {
    if hasAnimator then [SetTrigger("OnArrived")] else []
  }

  /** The path of MoveToRandomPosition. */
  function MovePath(start: Vec3, target: Vec3, curve: real -> real): real -> Vec3 {
    t => Lerp3(start, target, curve(t))
  }

  /** The drift never leaves the box spanned by its start and its target, and
      it ends exactly on the target. */
  lemma MoveStaysInBox(start: Vec3, target: Vec3, curve: real -> real, duration: real, elapsed: real, dt: real)
    requires elapsed >= 0.0
    ensures var r := FlightSegment(MovePath(start, target, curve), target, duration, elapsed, dt);
            Between(r.position.x, start.x, target.x) && Between(r.position.y, start.y, target.y) &&
            Between(r.position.z, start.z, target.z)
  {
    if elapsed < duration {
      var p := Lerp3(start, target, curve(elapsed / duration));
      assert FlightSegment(MovePath(start, target, curve), target, duration, elapsed, dt).position == p;
    }
  }
}
