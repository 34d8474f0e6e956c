/** LimitedPrefabSpawner: every spawn instantiates the prefab under the parent
    and remembers it in a FIFO queue; once the queue holds more than maxCount
    objects the oldest is dequeued and destroyed. A watcher on the parent wipes
    all of the parent's children whenever the parent is enabled, disabled or
    destroyed. Game objects are identifiers; `alive` is the set of objects not
    destroyed (a destroyed object compares equal to null). */
module LimitedPrefabSpawner {
  import opened Common

  datatype SpawnerState = SpawnerState(
    queue: seq<nat>,      // spawnedObjects, oldest first
    children: seq<nat>,   // the parent's children, in sibling order
    alive: set<nat>,      // objects that have not been destroyed
    nextId: nat)          // identifier the next Instantiate returns

  /** Identifiers are handed out in increasing order and children are live. */
  predicate Inv(s: SpawnerState) {
    (forall k :: 0 <= k < |s.queue| ==> s.queue[k] < s.nextId) &&
    (forall k :: 0 <= k < |s.children| ==> s.children[k] in s.alive) &&
    (forall x :: x in s.alive ==> x < s.nextId)
  }

  /** The sequence with every occurrence of `x` removed. */
  function Without(s: seq<nat>, x: nat): (r: seq<nat>)
    ensures x !in r
    ensures forall y :: y in r <==> y in s && y != x
    ensures |r| <= |s|
  {
    if |s| == 0 then []
    else if s[0] == x then Without(s[1..], x)
    else [s[0]] + Without(s[1..], x)
  }

  /** Destroy: the object leaves the parent and is no longer alive. */
  function Destroyed(s: SpawnerState, x: nat): (r: SpawnerState)
    ensures r.queue == s.queue && r.nextId == s.nextId
    ensures r.alive == s.alive - {x}
    ensures forall y :: y in r.children <==> y in s.children && y != x
  {
    s.(children := Without(s.children, x), alive := s.alive - {x})
  }

  /** Instantiate (under the parent when there is one) and enqueue at the back. */
  function Instantiated(s: SpawnerState, hasParent: bool): (r: SpawnerState)
    ensures r.queue == s.queue + [s.nextId] && r.nextId == s.nextId + 1
    ensures r.alive == s.alive + {s.nextId}
    ensures r.children == if hasParent then s.children + [s.nextId] else s.children
  {
    SpawnerState(s.queue + [s.nextId],
                 if hasParent then s.children + [s.nextId] else s.children,
                 s.alive + {s.nextId}, s.nextId + 1)
  }

  /** Dequeue the oldest entry and destroy it unless it is already destroyed. */
  function DropOldest(s: SpawnerState): (r: SpawnerState)
    requires s.queue != []
    ensures r.queue == s.queue[1..] && r.nextId == s.nextId
    ensures s.queue[0] in s.alive ==> r == Destroyed(s.(queue := s.queue[1..]), s.queue[0])
    ensures s.queue[0] !in s.alive ==> r.alive == s.alive && r.children == s.children
  {
    var u := s.(queue := s.queue[1..]);
    if s.queue[0] in u.alive then Destroyed(u, s.queue[0]) else u
  }

  /** SpawnPrefab: instantiate and enqueue, then drop the oldest entry once
      the count exceeds maxCount. */
  function Spawn(s: SpawnerState, maxCount: int, hasParent: bool): (r: SpawnerState)
    ensures r.nextId == s.nextId + 1
    ensures |r.queue| == if |s.queue| + 1 > maxCount then |s.queue| else |s.queue| + 1
    ensures r.queue == (s.queue + [s.nextId])[|s.queue| + 1 - |r.queue|..]
  {
    var t := Instantiated(s, hasParent);
    if |t.queue| > maxCount then DropOldest(t) else t
  }

  /** A dequeued entry that is already destroyed is skipped: nothing else is
      destroyed and the new object stays. */
  lemma NullEntrySkipped(s: SpawnerState, maxCount: int, hasParent: bool)
    requires Inv(s)
    requires |s.queue| + 1 > maxCount && s.queue != [] && s.queue[0] !in s.alive
    ensures var r := Spawn(s, maxCount, hasParent);
            r.alive == s.alive + {s.nextId} &&
            r.children == (if hasParent then s.children + [s.nextId] else s.children)
  {
    assert Instantiated(s, hasParent).queue[0] == s.queue[0];
  }

  /** A live oldest entry is destroyed and leaves the parent. */
  lemma OldestDestroyed(s: SpawnerState, maxCount: int, hasParent: bool)
    requires Inv(s)
    requires |s.queue| + 1 > maxCount && s.queue != [] && s.queue[0] in s.alive
    ensures var r := Spawn(s, maxCount, hasParent);
            s.queue[0] !in r.alive && s.queue[0] !in r.children && s.nextId in r.alive
  {
    assert s.queue[0] < s.nextId;
    assert Instantiated(s, hasParent).queue[0] == s.queue[0];
  }

  /** A spawn keeps identifiers fresh and children live. */
  lemma SpawnKeepsInv(s: SpawnerState, maxCount: int, hasParent: bool)
    requires Inv(s)
    ensures Inv(Spawn(s, maxCount, hasParent))
  {
    var r := Spawn(s, maxCount, hasParent);
    forall k | 0 <= k < |r.queue|
      ensures r.queue[k] < r.nextId
    {
      assert r.queue[k] in s.queue + [s.nextId];
    }
    forall k | 0 <= k < |r.children|
      ensures r.children[k] in r.alive
    {
      var y := r.children[k];
      assert y in r.children;
      var t := Instantiated(s, hasParent);
      assert y in t.children;
    }
  }

  /** The queue never grows beyond max(maxCount, 0). */
  lemma SpawnKeepsBound(s: SpawnerState, maxCount: int, hasParent: bool)
    requires |s.queue| <= MaxInt(maxCount, 0)
    ensures |Spawn(s, maxCount, hasParent).queue| <= MaxInt(maxCount, 0)
  {
  }

  /** n spawns in a row. */
  function SpawnMany(s: SpawnerState, maxCount: int, hasParent: bool, n: nat): (r: SpawnerState)
    ensures r.nextId == s.nextId + n
    decreases n
  {
    if n == 0 then s else SpawnMany(Spawn(s, maxCount, hasParent), maxCount, hasParent, n - 1)
  }

  /** `q` is the run of identifiers hi-|q|, ..., hi-1. */
  predicate NewestRun(q: seq<nat>, hi: nat) {
    |q| <= hi && q == Ids(hi - |q|, hi)
  }

  /** The identifiers lo, lo+1, ..., hi-1. */
  function Ids(lo: nat, hi: nat): (r: seq<nat>)
    requires lo <= hi
    ensures |r| == hi - lo && forall k :: 0 <= k < |r| ==> r[k] == lo + k
    decreases hi - lo
  {
    if lo == hi then [] else [lo] + Ids(lo + 1, hi)
  }

  /** One spawn extends the run by the new object and trims it to maxCount. */
  lemma SpawnExtendsRun(s: SpawnerState, maxCount: int, hasParent: bool)
    requires NewestRun(s.queue, s.nextId) && |s.queue| <= MaxInt(maxCount, 0)
    ensures var r := Spawn(s, maxCount, hasParent);
            NewestRun(r.queue, r.nextId) &&
            |r.queue| == if |s.queue| + 1 < MaxInt(maxCount, 0) then |s.queue| + 1 else MaxInt(maxCount, 0)
  {
    var r := Spawn(s, maxCount, hasParent);
    var q := r.queue;
    forall k | 0 <= k < |q|
      ensures q[k] == r.nextId - |q| + k
    {
      assert q[k] == (s.queue + [s.nextId])[|s.queue| + 1 - |q| + k];
    }
    assert q == Ids(r.nextId - |q|, r.nextId);
  }

  /** From a run no longer than max(maxCount, 0) (an empty queue, say), n spawns
      leave exactly the newest min(|queue| + n, max(maxCount, 0)) objects in the
      queue, oldest first. */
  lemma {:induction false} SpawnManyKeepsNewest(s: SpawnerState, maxCount: int, hasParent: bool, n: nat)
    requires NewestRun(s.queue, s.nextId) && |s.queue| <= MaxInt(maxCount, 0)
    ensures var r := SpawnMany(s, maxCount, hasParent, n);
            var m := MaxInt(maxCount, 0);
            NewestRun(r.queue, r.nextId) &&
            |r.queue| == if |s.queue| + n < m then |s.queue| + n else m
    decreases n
  {
    if n > 0 {
      var t := Spawn(s, maxCount, hasParent);
      SpawnExtendsRun(s, maxCount, hasParent);
      SpawnManyKeepsNewest(t, maxCount, hasParent, n - 1);
      assert SpawnMany(s, maxCount, hasParent, n) == SpawnMany(t, maxCount, hasParent, n - 1);
    }
  }

  /** CleanUpAllChildren: without a parent nothing happens; otherwise every child
      of the parent is destroyed and the queue is emptied. */
  function CleanUp(s: SpawnerState, hasParent: bool): (r: SpawnerState)
    ensures !hasParent ==> r == s
    ensures hasParent ==> r.queue == [] && r.children == [] && r.nextId == s.nextId
    ensures hasParent ==> forall x :: x in r.alive <==> x in s.alive && x !in s.children
  {
    if hasParent then SpawnerState([], [], s.alive - Elems(s.children), s.nextId)
    else s
  }

  /** Cleaning twice is cleaning once: a disable followed by a destroy of the
      parent does no extra work. */
  lemma CleanUpIdempotent(s: SpawnerState, hasParent: bool)
    ensures CleanUp(CleanUp(s, hasParent), hasParent) == CleanUp(s, hasParent)
  {
  }

  /** After a cleanup the next spawn starts a fresh queue holding only itself
      (or nothing when maxCount is not positive). */
  lemma SpawnAfterCleanUp(s: SpawnerState, maxCount: int)
    ensures var r := Spawn(CleanUp(s, true), maxCount, true);
            r.queue == (if maxCount >= 1 then [s.nextId] else [])
  {
  }

  class LimitedPrefabSpawnerBehaviour {
    const maxCount: int
    /** parentObject != null */
    const hasParent: bool

    var queue: seq<nat>
    var children: seq<nat>
    var alive: set<nat>
    var nextId: nat
    /** Whether the parent carries the watcher component. */
    var parentHasWatcher: bool
    /** How many CleanUpAllChildren handlers this spawner hooked on the watcher's
        enable and disable events. */
    var enabledHandlers: nat
    var disabledHandlers: nat

    function State(): SpawnerState
      reads this
    {
      SpawnerState(queue, children, alive, nextId)
    }

    constructor (maxCount: int, hasParent: bool, children: seq<nat>, alive: set<nat>, nextId: nat)
      ensures this.maxCount == maxCount && this.hasParent == hasParent
      ensures State() == SpawnerState([], children, alive, nextId)
      ensures !parentHasWatcher && enabledHandlers == 0 && disabledHandlers == 0
    {
      this.maxCount := maxCount;
      this.hasParent := hasParent;
      queue := [];
      this.children := children;
      this.alive := alive;
      this.nextId := nextId;
      parentHasWatcher := false;
      enabledHandlers := 0;
      disabledHandlers := 0;
    }

    /** Awake: with a parent, add the watcher if missing and hook the cleanup on
        both of its events. */
    method Awake()
      modifies this`parentHasWatcher, this`enabledHandlers, this`disabledHandlers
      ensures !hasParent ==> parentHasWatcher == old(parentHasWatcher) &&
                             enabledHandlers == old(enabledHandlers) && disabledHandlers == old(disabledHandlers)
      ensures hasParent ==> parentHasWatcher &&
                            enabledHandlers == old(enabledHandlers) + 1 && disabledHandlers == old(disabledHandlers) + 1
    {
      if hasParent {
        if !parentHasWatcher {
          parentHasWatcher := true;
        }
        disabledHandlers := disabledHandlers + 1;
        enabledHandlers := enabledHandlers + 1;
      }
    }

    method SpawnPrefab()
      modifies this`queue, this`children, this`alive, this`nextId
      ensures State() == Spawn(old(State()), maxCount, hasParent)
    {
      var obj := nextId;
      nextId := nextId + 1;
      alive := alive + {obj};
      if hasParent {
        children := children + [obj];
      }
      queue := queue + [obj];
      if |queue| > maxCount {
        var oldObj := queue[0];
        queue := queue[1..];
        if oldObj in alive {
          children := Without(children, oldObj);
          alive := alive - {oldObj};
        }
      }
    }

    /** Some other script destroys one object (queue entries then read as null). */
    method DestroyElsewhere(x: nat)
      modifies this`children, this`alive
      ensures State() == Destroyed(old(State()), x)
    {
      children := Without(children, x);
      alive := alive - {x};
    }

    /** Destroys the parent's children from the last to the first, then clears
        the queue. */
    method CleanUpAllChildren()
      modifies this`queue, this`children, this`alive
      ensures State() == CleanUp(old(State()), hasParent)
    {
      if !hasParent {
        return;
      }
      ghost var c0 := children;
      var i := |children| - 1;
      while i >= 0
        invariant -1 <= i < |c0| && children == c0[..i + 1]
        invariant alive == old(alive) - Elems(c0[i + 1..])
      {
        // DestroyImmediate detaches the last child at once
        assert Elems(c0[i..]) == Elems(c0[i + 1..]) + {c0[i]} by {
          assert c0[i..] == [c0[i]] + c0[i + 1..];
        }
        alive := alive - {children[i]};
        children := children[..i];
        i := i - 1;
      }
      queue := [];
    }

    /** The watcher's OnEnable: runs the hooked cleanups, if any. */
    method ParentEnabled()
      modifies this`queue, this`children, this`alive
      ensures State() == if enabledHandlers > 0 then CleanUp(old(State()), hasParent) else old(State())
    {
      var n := 0;
      while n < enabledHandlers
        invariant 0 <= n <= enabledHandlers
        invariant State() == if n > 0 then CleanUp(old(State()), hasParent) else old(State())
      {
        CleanUpAllChildren();
        if n > 0 {
          CleanUpIdempotent(old(State()), hasParent);
        }
        n := n + 1;
      }
    }

    /** The watcher's OnDisable and OnDestroy: both run the hooked cleanups. */
    method ParentDisabledOrDestroyed()
      modifies this`queue, this`children, this`alive
      ensures State() == if disabledHandlers > 0 then CleanUp(old(State()), hasParent) else old(State())
    {
      var n := 0;
      while n < disabledHandlers
        invariant 0 <= n <= disabledHandlers
        invariant State() == if n > 0 then CleanUp(old(State()), hasParent) else old(State())
      {
        CleanUpAllChildren();
        if n > 0 {
          CleanUpIdempotent(old(State()), hasParent);
        }
        n := n + 1;
      }
    }
  }
}
