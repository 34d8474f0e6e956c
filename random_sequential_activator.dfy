/** RandomSequentialActivator: on enable, hides all children and then shows
    them one at a time, in a freshly shuffled order, with a wait between them;
    with `loop` it starts a new shuffled pass after each one. */
module RandomSequentialActivator {
  import opened Common

  datatype Activator = Activator(
    childList: seq<nat>,   // the children, in their current (shuffled) order
    active: set<nat>,      // the children whose game object is active
    log: seq<nat>,         // every SetActive(true), in order
    routine: Option<nat>)  // waiting after activating childList[p]; None: not running

  /** What the do-while loop reaches first when a pass starts, as written:
      a wait, the end of the routine, or neither within `fuel` iterations. */
  datatype FirstStop = Yields | Ends | StillRunning

  function AsWrittenFirstStop(childList: seq<nat>, loop: bool, fuel: nat): (r: FirstStop)
    ensures |childList| > 0 && fuel > 0 ==> r == Yields
    decreases fuel
  {
    if fuel == 0 then StillRunning
    else if |childList| > 0 then Yields          // the foreach waits after the first child
    else if loop then AsWrittenFirstStop(childList, loop, fuel - 1)   // an empty pass, and again
    else Ends
  }

  /** As written, looping over no children never reaches a wait nor an end:
      the coroutine spins inside one frame for ever. */
  lemma {:induction false} AsWrittenSpinsWithoutChildren(fuel: nat)
    ensures AsWrittenFirstStop([], true, fuel) == StillRunning
    decreases fuel
  {
    if fuel > 0 {
      AsWrittenSpinsWithoutChildren(fuel - 1);
    }
  }

  /** A pass: shuffle the list in place, activate the first child and wait.
      With no children the routine ends (as written it spins when looping). */
  function StartPass(s: Activator, js: seq<int>): (r: Activator)
    requires ShuffleOracle(js, |s.childList|)
    ensures r.childList == Shuffled(s.childList, js)
    ensures multiset(r.childList) == multiset(s.childList) && |r.childList| == |s.childList|
    ensures |r.childList| == 0 ==> r == s.(routine := None)
    ensures |r.childList| > 0 ==>
              r.routine == Some(0) && r.log == s.log + [r.childList[0]] && r.active == s.active + {r.childList[0]}
  {
    ShuffledPermutes(s.childList, js);
    var l := Shuffled(s.childList, js);
    if |l| == 0 then s.(routine := None)
    else s.(childList := l, active := s.active + {l[0]}, log := s.log + [l[0]], routine := Some(0))
  }

  /** Away from the spin, the corrected pass start agrees with the code: it
      waits after the first child exactly when the code does, and ends when
      the code ends. */
  lemma StartPassMatchesAsWritten(s: Activator, loop: bool, js: seq<int>)
    requires ShuffleOracle(js, |s.childList|)
    requires !(loop && |s.childList| == 0)
    ensures StartPass(s, js).routine.Some? <==> AsWrittenFirstStop(s.childList, loop, 1) == Yields
  {
  }

  predicate Inv(s: Activator) {
    s.routine.Some? ==> s.routine.value < |s.childList|
  }

  /** The wait is over: the next child of the pass, or (after the last) a new
      pass when looping, else the end. */
  function ResumeStep(loop: bool, s: Activator, js: seq<int>): (r: Activator)
    requires Inv(s) && s.routine.Some? && ShuffleOracle(js, |s.childList|)
    ensures Inv(r) && |r.childList| == |s.childList|
    ensures multiset(r.childList) == multiset(s.childList)
  {
    var p := s.routine.value;
    if p + 1 < |s.childList| then
      var c := s.childList[p + 1];
      s.(active := s.active + {c}, log := s.log + [c], routine := Some(p + 1))
    else if loop then StartPass(s, js)
    else s.(routine := None)
  }

  /** `n` resumptions in a row. */
  function ResumeN(loop: bool, s: Activator, js: seq<int>, n: nat): (r: Activator)
    requires Inv(s) && ShuffleOracle(js, |s.childList|)
    ensures Inv(r) && |r.childList| == |s.childList|
    ensures multiset(r.childList) == multiset(s.childList)
    decreases n
  {
    if n == 0 || s.routine.None? then s
    else ResumeN(loop, ResumeStep(loop, s, js), js, n - 1)
  }

  /** One resumption inside a pass activates the next child. */
  lemma StepInPass(loop: bool, s: Activator, js: seq<int>)
    requires Inv(s) && s.routine.Some? && ShuffleOracle(js, |s.childList|)
    requires s.routine.value + 1 < |s.childList|
    ensures var c := s.childList[s.routine.value + 1];
            ResumeStep(loop, s, js) ==
              s.(active := s.active + {c}, log := s.log + [c], routine := Some(s.routine.value + 1))
  {
  }

  /** After the last child of a pass: a new pass when looping, else the end. */
  lemma StepAtPassEnd(loop: bool, s: Activator, js: seq<int>)
    requires Inv(s) && s.routine.Some? && ShuffleOracle(js, |s.childList|)
    requires s.routine.value + 1 == |s.childList|
    ensures ResumeStep(loop, s, js) == if loop then StartPass(s, js) else s.(routine := None)
  {
  }

  /** Within a pass each resumption activates the next child: after position p,
      n more resumptions have logged childList[..p + n + 1]. */
  lemma {:induction false} PassWalksList(loop: bool, s: Activator, js: seq<int>, n: nat, base: seq<nat>)
    requires Inv(s) && s.routine.Some? && ShuffleOracle(js, |s.childList|)
    requires s.routine.value + n < |s.childList|
    requires s.log == base + s.childList[..s.routine.value + 1]
    ensures var r := ResumeN(loop, s, js, n);
            r.childList == s.childList && r.routine == Some(s.routine.value + n) &&
            r.log == base + s.childList[..s.routine.value + n + 1]
    decreases n
  {
    var p := s.routine.value;
    var l := s.childList;
    if n > 0 {
      StepInPass(loop, s, js);
      var t := ResumeStep(loop, s, js);
      assert t.log == base + l[..p + 2] by {
        assert l[..p + 2] == l[..p + 1] + [l[p + 1]];
      }
      PassWalksList(loop, t, js, n - 1, base);
    }
  }

  /** The children active now are those active at some earlier point plus every
      child activated since, i.e. logged from position k on. */
  predicate ActiveSince(s: Activator, before: set<nat>, k: nat) {
    k <= |s.log| && s.active == before + Elems(s.log[k..])
  }

  lemma ElemsSnoc(x: seq<nat>, c: nat)
    ensures Elems(x + [c]) == Elems(x) + {c}
  {
  }

  /** Activating one more child and logging it keeps ActiveSince. */
  lemma ActivateKeepsActiveSince(s: Activator, before: set<nat>, k: nat, c: nat)
    requires ActiveSince(s, before, k)
    ensures ActiveSince(s.(active := s.active + {c}, log := s.log + [c]), before, k)
  {
    var e := Elems(s.log[k..]);
    assert (s.log + [c])[k..] == s.log[k..] + [c];
    ElemsSnoc(s.log[k..], c);
    assert (before + e) + {c} == before + (e + {c});
  }

  /** Every resumption keeps ActiveSince: it only ever activates the child it logs. */
  lemma ResumeKeepsActiveSince(loop: bool, s: Activator, js: seq<int>, before: set<nat>, k: nat)
    requires Inv(s) && s.routine.Some? && ShuffleOracle(js, |s.childList|)
    requires ActiveSince(s, before, k)
    ensures ActiveSince(ResumeStep(loop, s, js), before, k)
  {
    var p := s.routine.value;
    if p + 1 < |s.childList| {
      ActivateKeepsActiveSince(s, before, k, s.childList[p + 1]);
    } else if loop {
      var l := Shuffled(s.childList, js);
      ShuffledPermutes(s.childList, js);
      ActivateKeepsActiveSince(s.(childList := l), before, k, l[0]);
    }
  }

  /** ... and so does any number of them. */
  lemma {:induction false} ResumeNKeepsActiveSince(loop: bool, s: Activator, js: seq<int>, n: nat,
                                                    before: set<nat>, k: nat)
    requires Inv(s) && ShuffleOracle(js, |s.childList|)
    requires ActiveSince(s, before, k)
    ensures ActiveSince(ResumeN(loop, s, js, n), before, k)
    decreases n
  {
    if n > 0 && s.routine.Some? {
      ResumeKeepsActiveSince(loop, s, js, before, k);
      ResumeNKeepsActiveSince(loop, ResumeStep(loop, s, js), js, n - 1, before, k);
    }
  }

  /** Permutations mention the same elements. */
  lemma SameElems(a: seq<nat>, b: seq<nat>)
    requires multiset(a) == multiset(b)
    ensures Elems(a) == Elems(b)
  {
    forall x
      ensures x in Elems(a) <==> x in Elems(b)
    {
      assert x in a <==> x in multiset(a);
      assert x in b <==> x in multiset(b);
    }
  }

  /** A whole pass logs every child once, in the shuffled order. */
  lemma OnePassLogsShuffled(s: Activator, js: seq<int>, js2: seq<int>)
    requires ShuffleOracle(js, |s.childList|) && ShuffleOracle(js2, |s.childList|)
    requires |s.childList| > 0
    ensures var r := ResumeN(false, StartPass(s, js), js2, |s.childList| - 1);
            r.log == s.log + Shuffled(s.childList, js) && r.routine == Some(|s.childList| - 1)
  {
    var p := StartPass(s, js);
    var l := p.childList;
    assert p.log == s.log + l[..1];
    PassWalksList(false, p, js2, |l| - 1, s.log);
    assert l[..|l|] == l;
  }

  /** A whole pass activates every child besides the ones active before. */
  lemma OnePassActivatesChildren(s: Activator, js: seq<int>, js2: seq<int>)
    requires ShuffleOracle(js, |s.childList|) && ShuffleOracle(js2, |s.childList|)
    requires |s.childList| > 0
    ensures ResumeN(false, StartPass(s, js), js2, |s.childList| - 1).active == s.active + Elems(s.childList)
  {
    var p := StartPass(s, js);
    var l := p.childList;
    assert p.log[|s.log|..] == [l[0]];
    assert ActiveSince(p, s.active, |s.log|);
    ResumeNKeepsActiveSince(false, p, js2, |l| - 1, s.active, |s.log|);
    OnePassLogsShuffled(s, js, js2);
    var r := ResumeN(false, p, js2, |l| - 1);
    assert r.log[|s.log|..] == l;
    SameElems(l, s.childList);
  }

  /** A whole pass activates every child once, in the shuffled order, and
      (without loop) the next resumption ends the routine. */
  lemma OnePassActivatesAll(s: Activator, js: seq<int>, js2: seq<int>)
    requires ShuffleOracle(js, |s.childList|) && ShuffleOracle(js2, |s.childList|)
    requires |s.childList| > 0
    ensures var r := ResumeN(false, StartPass(s, js), js2, |s.childList| - 1);
            r.log == s.log + Shuffled(s.childList, js) &&
            multiset(r.log[|s.log|..]) == multiset(s.childList) &&
            r.active == s.active + Elems(s.childList) &&
            r.routine == Some(|s.childList| - 1) &&
            ResumeStep(false, r, js2).routine.None?
  {
    OnePassLogsShuffled(s, js, js2);
    OnePassActivatesChildren(s, js, js2);
    var r := ResumeN(false, StartPass(s, js), js2, |s.childList| - 1);
    assert r.log[|s.log|..] == Shuffled(s.childList, js);
  }

  class RandomSequentialActivatorBehaviour {
    const loop: bool
    /** transform.childCount; the children are 0 .. childCount - 1. */
    const childCount: nat

    var childList: seq<nat>
    var active: set<nat>
    var log: seq<nat>
    var routine: Option<nat>

    function State(): Activator
      reads this
    {
      Activator(childList, active, log, routine)
    }

    constructor (loop: bool, childCount: nat, active: set<nat>)
      ensures this.loop == loop && this.childCount == childCount
      ensures State() == Activator([], active, [], None)
    {
      this.loop := loop;
      this.childCount := childCount;
      childList := [];
      this.active := active;
      log := [];
      routine := None;
    }

    /** Awake: the direct children, in index order. */
    method Awake()
      modifies this`childList
      ensures |childList| == childCount && forall k :: 0 <= k < childCount ==> childList[k] == k
    {
      childList := [];
      var i := 0;
      while i < childCount
        invariant 0 <= i <= childCount && |childList| == i
        invariant forall k :: 0 <= k < i ==> childList[k] == k
      {
        childList := childList + [i];
        i := i + 1;
      }
    }

    /** OnEnable: every listed child is deactivated, the old routine stopped
        and a new pass started. */
    method OnEnable(js: seq<int>)
      requires ShuffleOracle(js, |childList|)
      modifies this`childList, this`active, this`log, this`routine
      ensures State() == StartPass(old(State()).(active := old(active) - Elems(old(childList)), routine := None), js)
      ensures Inv(State())
    {
      var i := 0;
      while i < |childList|
        invariant 0 <= i <= |childList|
        invariant active == old(active) - Elems(childList[..i])
        invariant childList == old(childList) && log == old(log) && routine == old(routine)
      {
        assert Elems(childList[..i + 1]) == Elems(childList[..i]) + {childList[i]} by {
          assert childList[..i + 1] == childList[..i] + [childList[i]];
        }
        active := active - {childList[i]};
        i := i + 1;
      }
      assert childList[..i] == childList;
      routine := None;
      BeginPass(js);
    }

    method BeginPass(js: seq<int>)
      requires ShuffleOracle(js, |childList|)
      modifies this`childList, this`active, this`log, this`routine
      ensures State() == StartPass(old(State()), js)
    {
      var l := Shuffle(childList, js);
      if |l| == 0 {
        routine := None;
        return;
      }
      childList := l;
      active := active + {l[0]};
      log := log + [l[0]];
      routine := Some(0);
    }

    /** OnDisable: the routine is stopped and its handle cleared. */
    method OnDisable()
      modifies this`routine
      ensures routine.None?
    {
      routine := None;
    }

    /** The interval is over. */
    method Resume(js: seq<int>)
      requires Inv(State()) && routine.Some? && ShuffleOracle(js, |childList|)
      modifies this`childList, this`active, this`log, this`routine
      ensures State() == ResumeStep(loop, old(State()), js)
      ensures Inv(State())
    {
      var p := routine.value;
      if p + 1 < |childList| {
        var c := childList[p + 1];
        active := active + {c};
        log := log + [c];
        routine := Some(p + 1);
      } else if loop {
        BeginPass(js);
      } else {
        routine := None;
      }
    }
  }
}
