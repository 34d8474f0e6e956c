/** RandomPlayAnimation: plays a random clip of the object's Animation, and
    when the clip is over plays another, avoiding the one just played. */
module RandomPlayAnimation {
  import opened Common

  /** One AnimationState of the Animation, in enumeration order. */
  datatype AnimState = AnimState(name: string, hasClip: bool, enabled: bool)

  /** The names of the states that have a clip, in enumeration order. */
  function ClipNames(states: seq<AnimState>): (r: seq<string>)
    ensures |r| <= |states|
    ensures forall x :: x in r <==> exists k :: 0 <= k < |states| && states[k].hasClip && states[k].name == x
  {
    if states == [] then []
    else (if states[0].hasClip then [states[0].name] else []) + ClipNames(states[1..])
  }

  /** List.Remove: drops the first occurrence, if any. */
  function RemoveFirst(s: seq<string>, x: string): (r: seq<string>)
    ensures x in s ==> |r| == |s| - 1 && multiset(r) == multiset(s) - multiset{x}
    ensures x !in s ==> r == s
  {
    if s == [] then []
    else if s[0] == x then
      assert s == [s[0]] + s[1..];
      s[1..]
    else
      assert s == [s[0]] + s[1..];
      [s[0]] + RemoveFirst(s[1..], x)
  }

  predicate Distinct(s: seq<string>) {
    forall i, j :: 0 <= i < j < |s| ==> s[i] != s[j]
  }

  /** With distinct names, removing a name removes it altogether. */
  lemma RemoveFirstOfDistinct(s: seq<string>, x: string)
    requires Distinct(s)
    ensures x !in RemoveFirst(s, x)
  {
    if x in s {
      assert multiset(s)[x] == 1 by {
        var i :| 0 <= i < |s| && s[i] == x;
        assert s == s[..i] + [x] + s[i + 1..];
        assert x !in s[..i] && x !in s[i + 1..];
        assert multiset(s[..i])[x] == 0 && multiset(s[i + 1..])[x] == 0;
      }
      assert multiset(RemoveFirst(s, x))[x] == 0;
    }
  }

  /** Whether GetRandomAnimation draws from the list without the last name. */
  predicate AvoidsLast(avoidSame: bool, list: seq<string>, last: string) {
    avoidSame && |list| > 1 && last != ""
  }

  /** How many names the random draw chooses among. */
  function Choices(avoidSame: bool, list: seq<string>, last: string): nat {
    if AvoidsLast(avoidSame, list, last) then |RemoveFirst(list, last)| else |list|
  }

  /** GetRandomAnimation, with `draw` the Random.Range index into the candidates. */
  function RandomAnimation(avoidSame: bool, list: seq<string>, last: string, draw: int): (r: string)
    requires IntRange(draw, 0, Choices(avoidSame, list, last))
    ensures list == [] ==> r == ""
    ensures list != [] ==> r in list
  {
    if list == [] then ""
    else if AvoidsLast(avoidSame, list, last) then
      var available := RemoveFirst(list, last);
      assert available[draw] in multiset(available);
      available[draw]
    else list[draw]
  }

  /** With distinct names the pick never repeats the last one while there is a
      choice; and every name other than the last one can be picked. */
  lemma PickAvoidsLast(avoidSame: bool, list: seq<string>, last: string, draw: int)
    requires Distinct(list) && AvoidsLast(avoidSame, list, last)
    requires IntRange(draw, 0, Choices(avoidSame, list, last))
    ensures RandomAnimation(avoidSame, list, last, draw) != last
  {
    RemoveFirstOfDistinct(list, last);
  }

  lemma EveryOtherNameCanBePicked(avoidSame: bool, list: seq<string>, last: string, x: string)
    requires x in list && x != last
    ensures exists draw :: IntRange(draw, 0, Choices(avoidSame, list, last)) &&
                           RandomAnimation(avoidSame, list, last, draw) == x
  {
    if AvoidsLast(avoidSame, list, last) {
      var available := RemoveFirst(list, last);
      assert x in multiset(available) by {
        assert multiset(list)[x] >= 1;
      }
      var d :| 0 <= d < |available| && available[d] == x;
      assert RandomAnimation(avoidSame, list, last, d) == x;
    } else {
      var d :| 0 <= d < |list| && list[d] == x;
      assert RandomAnimation(avoidSame, list, last, d) == x;
    }
  }

  /** The Debug.LogError / Debug.LogWarning messages the component writes. */
  datatype LogEntry =
    | NoAnimationComponent   // InitializeAnimationList without an Animation
    | NoClipsFound           // InitializeAnimationList found no clip
    | NothingToPlay          // Play with an empty list
    | FailedToSelect         // Play when the pick is empty

  class RandomPlayAnimationBehaviour {
    const playOnStart: bool
    const loopRandomly: bool
    const avoidSameAnimation: bool
    /** The Animation component exists. */
    const hasAnim: bool
    const states: seq<AnimState>

    var animationList: seq<string>
    var lastPlayed: string
    var isPlaying: bool
    /** The clip the Animation was last told to play; whether it is enabled. */
    var animClip: Option<string>
    var animEnabled: bool
    /** The messages logged so far, in order. */
    var log: seq<LogEntry>

    constructor (playOnStart: bool, loopRandomly: bool, avoidSameAnimation: bool,
                 hasAnim: bool, states: seq<AnimState>)
      ensures this.playOnStart == playOnStart && this.loopRandomly == loopRandomly
      ensures this.avoidSameAnimation == avoidSameAnimation && this.hasAnim == hasAnim && this.states == states
      ensures animationList == [] && lastPlayed == "" && !isPlaying && animClip.None? && animEnabled
      ensures log == []
    {
      this.playOnStart := playOnStart;
      this.loopRandomly := loopRandomly;
      this.avoidSameAnimation := avoidSameAnimation;
      this.hasAnim := hasAnim;
      this.states := states;
      animationList := [];
      lastPlayed := "";
      isPlaying := false;
      animClip := None;
      animEnabled := true;
      log := [];
    }

    /** InitializeAnimationList (Awake, RefreshAnimationList): rebuilt from
        scratch, empty without an Animation; an error is logged without an
        Animation and a warning when no state has a clip. */
    method InitializeAnimationList()
      modifies this`animationList, this`log
      ensures animationList == if hasAnim then ClipNames(states) else []
      ensures log == old(log) + if !hasAnim then [NoAnimationComponent]
                                else if animationList == [] then [NoClipsFound] else []
    {
      animationList := [];
      if !hasAnim {
        log := log + [NoAnimationComponent];
        return;
      }
      var i := 0;
      while i < |states|
        invariant 0 <= i <= |states|
        invariant animationList + ClipNames(states[i..]) == ClipNames(states)
        invariant log == old(log)
      {
        assert states[i..][1..] == states[i + 1..];
        if states[i].hasClip {
          animationList := animationList + [states[i].name];
        }
        i := i + 1;
      }
      assert animationList + [] == animationList;
      if |animationList| == 0 {
        log := log + [NoClipsFound];
      }
    }

    /** Play: a warning and nothing else with an empty list or an empty pick;
        otherwise the pick plays and becomes the last played. */
    method Play(draw: int)
      requires IntRange(draw, 0, Choices(avoidSameAnimation, animationList, lastPlayed))
      modifies this`lastPlayed, this`isPlaying, this`animClip, this`log
      ensures var pick := RandomAnimation(avoidSameAnimation, animationList, old(lastPlayed), draw);
              if animationList == [] || pick == "" then
                lastPlayed == old(lastPlayed) && isPlaying == old(isPlaying) && animClip == old(animClip)
              else lastPlayed == pick && isPlaying && animClip == Some(pick)
      ensures log == old(log) + PlayLog(animationList, RandomAnimation(avoidSameAnimation, animationList, old(lastPlayed), draw))
    {
      if |animationList| == 0 {
        log := log + [NothingToPlay];
        return;
      }
      var pick := RandomAnimation(avoidSameAnimation, animationList, lastPlayed, draw);
      if pick == "" {
        log := log + [FailedToSelect];
        return;
      }
      animClip := Some(pick);
      lastPlayed := pick;
      isPlaying := true;
    }

    method Start(draw: int)
      requires IntRange(draw, 0, Choices(avoidSameAnimation, animationList, lastPlayed))
      modifies this`lastPlayed, this`isPlaying, this`animClip, this`log
      ensures var pick := RandomAnimation(avoidSameAnimation, animationList, old(lastPlayed), draw);
              if !playOnStart || animationList == [] || pick == "" then
                lastPlayed == old(lastPlayed) && isPlaying == old(isPlaying) && animClip == old(animClip)
              else lastPlayed == pick && isPlaying && animClip == Some(pick) && pick in animationList
      ensures log == old(log) + if playOnStart then PlayLog(animationList, RandomAnimation(avoidSameAnimation, animationList, old(lastPlayed), draw)) else []
    {
      if playOnStart {
        Play(draw);
      }
    }

    method OnEnable(draw: int)
      requires IntRange(draw, 0, Choices(avoidSameAnimation, animationList, lastPlayed))
      modifies this`lastPlayed, this`isPlaying, this`animClip, this`log
      ensures var pick := RandomAnimation(avoidSameAnimation, animationList, old(lastPlayed), draw);
              if animationList == [] || pick == "" then
                lastPlayed == old(lastPlayed) && isPlaying == old(isPlaying) && animClip == old(animClip)
              else lastPlayed == pick && isPlaying && animClip == Some(pick) && pick in animationList
      ensures log == old(log) + if animationList == [] then [] else PlayLog(animationList, RandomAnimation(avoidSameAnimation, animationList, old(lastPlayed), draw))
    {
      if |animationList| > 0 {
        Play(draw);
      }
    }

    /** Update: replays only when looping, playing by our account, the
        Animation has stopped, and there is something to play. */
    method Update(animIsPlaying: bool, draw: int)
      requires IntRange(draw, 0, Choices(avoidSameAnimation, animationList, lastPlayed))
      modifies this`lastPlayed, this`isPlaying, this`animClip, this`log
      ensures !(loopRandomly && old(isPlaying) && !animIsPlaying && animationList != []) ==>
                lastPlayed == old(lastPlayed) && isPlaying == old(isPlaying) && animClip == old(animClip) &&
                log == old(log)
      ensures loopRandomly && old(isPlaying) && !animIsPlaying && animationList != [] ==>
                log == old(log) + PlayLog(animationList, RandomAnimation(avoidSameAnimation, animationList, old(lastPlayed), draw))
      ensures loopRandomly && old(isPlaying) && !animIsPlaying && animationList != [] ==>
                var pick := RandomAnimation(avoidSameAnimation, animationList, old(lastPlayed), draw);
                (pick != "" ==> isPlaying && lastPlayed == pick && animClip == Some(pick)) &&
                (Distinct(animationList) && AvoidsLast(avoidSameAnimation, animationList, old(lastPlayed)) ==>
                   pick != old(lastPlayed))
    {
      if loopRandomly && isPlaying && !animIsPlaying && |animationList| > 0 {
        if Distinct(animationList) && AvoidsLast(avoidSameAnimation, animationList, lastPlayed) {
          PickAvoidsLast(avoidSameAnimation, animationList, lastPlayed, draw);
        }
        Play(draw);
      }
    }

    method Stop()
      modifies this`isPlaying, this`animClip
      ensures !isPlaying && animClip.None?
    {
      animClip := None;
      isPlaying := false;
    }

    method Pause()
      modifies this`animEnabled
      ensures !animEnabled
    {
      animEnabled := false;
    }

    method Resume()
      modifies this`animEnabled
      ensures animEnabled
    {
      animEnabled := true;
    }
  }

  /** What Play logs: a warning for an empty list, another for an empty pick. */
  function PlayLog(animationList: seq<string>, pick: string): (r: seq<LogEntry>)
    ensures r == [] <==> animationList != [] && pick != ""
    ensures animationList == [] ==> r == [NothingToPlay]
  {
    if animationList == [] then [NothingToPlay] else if pick == "" then [FailedToSelect] else []
  }

  /** With non-empty clip names the pick is never empty, so Play warns only
      about an empty list. */
  lemma PlayWarnsOnlyWhenEmpty(avoid: bool, animationList: seq<string>, last: string, draw: int)
    requires IntRange(draw, 0, Choices(avoid, animationList, last))
    requires forall k :: 0 <= k < |animationList| ==> animationList[k] != ""
    ensures PlayLog(animationList, RandomAnimation(avoid, animationList, last, draw)) ==
            if animationList == [] then [NothingToPlay] else []
  {
  }

  /** The position of the first enabled state, |states| when there is none. */
  function FirstEnabled(states: seq<AnimState>): (k: nat)
    ensures k <= |states|
    ensures forall i :: 0 <= i < k ==> !states[i].enabled
    ensures k < |states| ==> states[k].enabled
  {
    if states == [] || states[0].enabled then 0 else 1 + FirstEnabled(states[1..])
  }

  /** GetCurrentAnimationName: the first enabled state while the Animation
      plays, "" otherwise. */
  function CurrentAnimationName(animIsPlaying: bool, states: seq<AnimState>): (r: string)
    ensures !animIsPlaying ==> r == ""
    ensures r != "" ==> exists k :: 0 <= k < |states| && states[k].enabled && states[k].name == r &&
                                    forall i :: 0 <= i < k ==> !states[i].enabled
    ensures (forall k :: 0 <= k < |states| ==> !states[k].enabled) ==> r == ""
  {
    var k := FirstEnabled(states);
    if animIsPlaying && k < |states| then states[k].name else ""
  }
}
