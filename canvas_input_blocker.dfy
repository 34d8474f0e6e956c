/** CanvasInputBlocker: each enable blocks a CanvasGroup's raycasts (and,
    unless blockInputOnly, its interactability) for blockTime seconds. */
module CanvasInputBlocker {
  import opened Common

  /** The two CanvasGroup flags the blocker writes. */
  datatype Group = Group(blocksRaycasts: bool, interactable: bool)

  /** The start of BlockInput: raycasts off; interactable off too unless only
      input is blocked, in which case it is left alone. */
  function Block(g: Group, blockInputOnly: bool): (r: Group)
    ensures !r.blocksRaycasts
    ensures blockInputOnly ==> r.interactable == g.interactable
    ensures !blockInputOnly ==> !r.interactable
  {
    if blockInputOnly then g.(blocksRaycasts := false) else Group(false, false)
  }

  /** The end of BlockInput: raycasts on; interactable on unless only input
      was blocked. */
  function Unblock(g: Group, blockInputOnly: bool): (r: Group)
    ensures r.blocksRaycasts
    ensures blockInputOnly ==> r.interactable == g.interactable
    ensures !blockInputOnly ==> r.interactable
  {
    if blockInputOnly then g.(blocksRaycasts := true) else Group(true, true)
  }

  /** A full block and release: with blockInputOnly the group is as before
      except that it now blocks raycasts; otherwise it ends interactable even
      if it was not before the block. */
  lemma BlockThenUnblock(g: Group, blockInputOnly: bool)
    ensures blockInputOnly ==> Unblock(Block(g, true), true) == g.(blocksRaycasts := true)
    ensures !blockInputOnly ==> Unblock(Block(g, false), false) == Group(true, true)
    ensures Unblock(Unblock(g, blockInputOnly), blockInputOnly) == Unblock(g, blockInputOnly)
  {
  }

  /** Some pending wait reaches blockTime in a frame of length dt. */
  predicate Expiring(pending: seq<real>, dt: real, blockTime: real) {
    exists i :: 0 <= i < |pending| && pending[i] + dt >= blockTime
  }

  /** One frame for the running BlockInput coroutines, in start order: each
      adds dt to the time it has waited; one whose wait is over releases the
      group and ends, the others stay. */
  function Tick(blockInputOnly: bool, blockTime: real, g: Group, pending: seq<real>, dt: real): (r: (Group, seq<real>))
    ensures |r.1| <= |pending| && forall k :: 0 <= k < |r.1| ==> r.1[k] < blockTime
    decreases |pending|
  {
    if pending == [] then (g, [])
    else
      var w := pending[0] + dt;
      if w >= blockTime then Tick(blockInputOnly, blockTime, Unblock(g, blockInputOnly), pending[1..], dt)
      else
        var rest := Tick(blockInputOnly, blockTime, g, pending[1..], dt);
        (rest.0, [w] + rest.1)
  }

  /** A frame releases the group exactly when some wait is over, and keeps
      the coroutines whose wait is not, each dt further on. */
  lemma {:induction false} TickOutcome(blockInputOnly: bool, blockTime: real, g: Group, pending: seq<real>, dt: real)
    ensures var r := Tick(blockInputOnly, blockTime, g, pending, dt);
            r.0 == (if Expiring(pending, dt, blockTime) then Unblock(g, blockInputOnly) else g) &&
            (forall x :: x in r.1 <==> exists i :: 0 <= i < |pending| && pending[i] + dt == x && x < blockTime)
    decreases |pending|
  {
    if pending != [] {
      var w := pending[0] + dt;
      var g' := if w >= blockTime then Unblock(g, blockInputOnly) else g;
      TickOutcome(blockInputOnly, blockTime, g', pending[1..], dt);
      var rest := Tick(blockInputOnly, blockTime, g', pending[1..], dt);
      assert Expiring(pending, dt, blockTime) <==> w >= blockTime || Expiring(pending[1..], dt, blockTime) by {
        if Expiring(pending, dt, blockTime) {
          var i :| 0 <= i < |pending| && pending[i] + dt >= blockTime;
          if i > 0 { assert pending[1..][i - 1] == pending[i]; }
        }
        if Expiring(pending[1..], dt, blockTime) {
          var i :| 0 <= i < |pending[1..]| && pending[1..][i] + dt >= blockTime;
          assert pending[i + 1] == pending[1..][i];
        }
      }
      forall x
        ensures x in Tick(blockInputOnly, blockTime, g, pending, dt).1 <==>
                exists i :: 0 <= i < |pending| && pending[i] + dt == x && x < blockTime
      {
        if exists i :: 0 <= i < |pending| && pending[i] + dt == x && x < blockTime {
          var i :| 0 <= i < |pending| && pending[i] + dt == x && x < blockTime;
          if i > 0 { assert pending[1..][i - 1] == pending[i]; }
        }
        if exists j :: 0 <= j < |pending[1..]| && pending[1..][j] + dt == x && x < blockTime {
          var j :| 0 <= j < |pending[1..]| && pending[1..][j] + dt == x && x < blockTime;
          assert pending[j + 1] == pending[1..][j];
        }
      }
    }
  }

  /** Two overlapping blocks (the component re-enabled within blockTime): the
      older one's release turns raycasts back on while the newer one is
      still waiting. */
  lemma EarlyRelease(blockInputOnly: bool, blockTime: real, g: Group, older: real, newer: real, dt: real)
    requires older + dt >= blockTime > newer + dt
    ensures var r := Tick(blockInputOnly, blockTime, g, [older, newer], dt);
            r.0.blocksRaycasts && r.1 == [newer + dt]
  {
    var u := Unblock(g, blockInputOnly);
    assert [older, newer][1..] == [newer];
    assert [newer][1..] == [];
    assert Tick(blockInputOnly, blockTime, u, [], dt) == (u, []);
    assert [newer + dt] + [] == [newer + dt];
    assert Tick(blockInputOnly, blockTime, u, [newer], dt) == (u, [newer + dt]);
    assert Tick(blockInputOnly, blockTime, g, [older, newer], dt) == Tick(blockInputOnly, blockTime, u, [newer], dt);
  }

  class CanvasInputBlockerBehaviour {
    const blockTime: real
    const blockInputOnly: bool
    var group: Group
    /** The running BlockInput coroutines, oldest first, as the time each has
        waited. */
    var pending: seq<real>

    constructor (blockTime: real, blockInputOnly: bool, group: Group)
      ensures this.blockTime == blockTime && this.blockInputOnly == blockInputOnly
      ensures this.group == group && pending == []
    {
      this.blockTime := blockTime;
      this.blockInputOnly := blockInputOnly;
      this.group := group;
      pending := [];
    }

    /** OnEnable starts BlockInput, which blocks at once and waits. */
    method OnEnable()
      modifies this`group, this`pending
      ensures group == Block(old(group), blockInputOnly)
      ensures pending == old(pending) + [0.0]
    {
      group := Block(group, blockInputOnly);
      pending := pending + [0.0];
    }

    /** Deactivating the GameObject stops its coroutines; disabling only the
        component does not. */
    method OnDisable(deactivated: bool)
      modifies this`pending
      ensures pending == if deactivated then [] else old(pending)
    {
      if deactivated {
        pending := [];
      }
    }

    /** One frame: the waits advance and those that are over release. */
    method Frame(dt: real)
      modifies this`group, this`pending
      ensures (group, pending) == Tick(blockInputOnly, blockTime, old(group), old(pending), dt)
    {
      var r := Tick(blockInputOnly, blockTime, group, pending, dt);
      group := r.0;
      pending := r.1;
    }
  }
}
