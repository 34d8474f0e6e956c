/** UICardFanEffect: the direct children of a panel are laid out in a row,
    then fanned out along an arc (each card turned by its angle) with
    per-card delays, and folded back; clip names are played on the cards at
    the stages of the animation. */
module CardFanEffect {
  import opened Common

  /** A RectTransform in the panel's hierarchy: an id and its parent's id. */
  datatype Node = Node(id: nat, parent: Option<nat>)

  /** The nodes of `nodes` whose parent is `self`, in their order. */
  function DirectChildren(nodes: seq<Node>, self: nat): seq<Node>
    decreases |nodes|
  {
    if nodes == [] then []
    else
      var last := nodes[|nodes| - 1];
      DirectChildren(nodes[..|nodes| - 1], self) + (if last.parent == Some(self) then [last] else [])
  }

  /** The card list holds exactly the direct children, nothing deeper. */
  lemma {:induction false} DirectChildrenExact(nodes: seq<Node>, self: nat, n: Node)
    ensures n in DirectChildren(nodes, self) <==> n in nodes && n.parent == Some(self)
    decreases |nodes|
  {
    if nodes != [] {
      var init := nodes[..|nodes| - 1];
      DirectChildrenExact(init, self, n);
      assert nodes == init + [nodes[|nodes| - 1]];
    }
  }

  /** Position i of `count` spread evenly over `width` around 0: the x of a
      card's start position (width initialSpacing) and a card's fan angle
      (width maxAngle). A single card sits at -width / 2. */
  function Spread(i: int, count: int, width: real): (r: real)
    ensures count <= 1 ==> r == -width / 2.0
    ensures count > 1 ==> r * (count - 1) as real == (i as real - (count - 1) as real / 2.0) * width
  {
    var step := if count > 1 then width / (count - 1) as real else 0.0;
    -width / 2.0 + i as real * step
  }

  /** The first card is at -width / 2, the last (of more than one) at +width / 2. */
  lemma SpreadEnds(count: int, width: real)
    requires count >= 1
    ensures Spread(0, count, width) == -width / 2.0
    ensures count > 1 ==> Spread(count - 1, count, width) == width / 2.0
  {
    if count > 1 {
      var step := width / (count - 1) as real;
      assert (count - 1) as real * step == width;
    }
  }

  /** Neighbouring cards are the same distance apart. */
  lemma SpreadEvenlySpaced(i: int, count: int, width: real)
    requires count > 1
    ensures Spread(i + 1, count, width) - Spread(i, count, width) == width / (count - 1) as real
  {
  }

  /** The spread is symmetric about 0: card i mirrors card count - 1 - i. */
  lemma SpreadSymmetric(i: int, count: int, width: real)
    requires count > 1
    ensures Spread(count - 1 - i, count, width) == -Spread(i, count, width)
  {
    var step := width / (count - 1) as real;
    assert (count - 1) as real * step == width;
    assert (count - 1 - i) as real * step == (count - 1) as real * step - i as real * step;
  }

  /** With width >= 0, later cards never come before earlier ones. */
  lemma SpreadMonotone(i: int, j: int, count: int, width: real)
    requires i <= j && width >= 0.0
    ensures Spread(i, count, width) <= Spread(j, count, width)
  {
    if count > 1 {
      var step := width / (count - 1) as real;
      MulMonotone(i as real, j as real, step);
    }
  }

  /** The card's target z rotation: facing the centre, it turns by -angle. */
  function TargetZ(angle: real, faceCenter: bool): (z: real)
    ensures faceCenter ==> z + angle == 0.0
    ensures !faceCenter ==> z == 0.0
  {
    if faceCenter then -angle else 0.0
  }

  /** The delay before card i folds: sequential delays stagger by perCardDelay. */
  function FoldDelay(i: nat, useSequentialDelay: bool, perCardDelay: real): (d: real)
    ensures perCardDelay >= 0.0 ==> d >= 0.0
    ensures !useSequentialDelay || i == 0 ==> d == 0.0
  {
    if useSequentialDelay then i as real * perCardDelay else 0.0
  }

  /** The delay before card i unfolds: fanoutDelay, then the same stagger. */
  function UnfoldDelay(i: nat, fanoutDelay: real, useSequentialDelay: bool, perCardDelay: real): (d: real)
    ensures perCardDelay >= 0.0 ==> d >= fanoutDelay
    ensures !useSequentialDelay || i == 0 ==> d == fanoutDelay
  {
    fanoutDelay + FoldDelay(i, useSequentialDelay, perCardDelay)
  }

  /** Unfolding waits fanoutDelay longer than folding, card for card, and with
      a non-negative perCardDelay cards start in their order. */
  lemma DelaysStagger(i: nat, j: nat, fanoutDelay: real, useSequentialDelay: bool, perCardDelay: real)
    requires i <= j && perCardDelay >= 0.0
    ensures UnfoldDelay(i, fanoutDelay, useSequentialDelay, perCardDelay) -
            FoldDelay(i, useSequentialDelay, perCardDelay) == fanoutDelay
    ensures FoldDelay(i, useSequentialDelay, perCardDelay) <= FoldDelay(j, useSequentialDelay, perCardDelay)
    ensures !useSequentialDelay ==> FoldDelay(i, useSequentialDelay, perCardDelay) == 0.0
  {
    if useSequentialDelay {
      MulMonotone(i as real, j as real, perCardDelay);
    }
  }

  /** A tween sequence started on a card: unfolding (after `delay`, to the
      fan `angle`, turned to `z`) or folding (after `delay`). */
  datatype Tween = UnfoldTween(card: nat, delay: real, angle: real, z: real)
                 | FoldTween(card: nat, delay: real)

  /** A clip played on a card. */
  datatype ClipPlay = ClipPlay(card: nat, clip: string)

  class CardFanEffectBehaviour {
    const self: nat
    const maxAngle: real
    const faceCenter: bool
    const autoUnfoldOnEnable: bool
    const startDelay: real
    const initialSpacing: real
    const fanoutDelay: real
    const useSequentialDelay: bool
    const perCardDelay: real
    const startClipName: string
    const unfoldStartClipName: string
    const unfoldEndClipName: string
    const foldEndClipName: string
    /** Whether a card has an Animation with the named clip. */
    const hasClip: (nat, string) -> bool

    var cards: seq<Node>
    var isFolded: bool
    /** The anchored positions ResetCardsToStartSpacing gave the cards. */
    var anchored: seq<Vec2>
    var tweens: seq<Tween>
    var plays: seq<ClipPlay>
    /** The delays of the Invoke(Unfold) calls made. */
    var invokes: seq<real>

    constructor (self: nat, maxAngle: real, faceCenter: bool, autoUnfoldOnEnable: bool, startDelay: real,
                 initialSpacing: real, fanoutDelay: real, useSequentialDelay: bool, perCardDelay: real,
                 startClipName: string, unfoldStartClipName: string, unfoldEndClipName: string,
                 foldEndClipName: string, hasClip: (nat, string) -> bool)
      ensures this.self == self && this.maxAngle == maxAngle && this.faceCenter == faceCenter
      ensures this.autoUnfoldOnEnable == autoUnfoldOnEnable && this.startDelay == startDelay
      ensures this.initialSpacing == initialSpacing && this.fanoutDelay == fanoutDelay
      ensures this.useSequentialDelay == useSequentialDelay && this.perCardDelay == perCardDelay
      ensures this.startClipName == startClipName && this.unfoldStartClipName == unfoldStartClipName
      ensures this.unfoldEndClipName == unfoldEndClipName && this.foldEndClipName == foldEndClipName
      ensures this.hasClip == hasClip
      ensures cards == [] && !isFolded && anchored == [] && tweens == [] && plays == [] && invokes == []
    {
      this.self := self;
      this.maxAngle := maxAngle;
      this.faceCenter := faceCenter;
      this.autoUnfoldOnEnable := autoUnfoldOnEnable;
      this.startDelay := startDelay;
      this.initialSpacing := initialSpacing;
      this.fanoutDelay := fanoutDelay;
      this.useSequentialDelay := useSequentialDelay;
      this.perCardDelay := perCardDelay;
      this.startClipName := startClipName;
      this.unfoldStartClipName := unfoldStartClipName;
      this.unfoldEndClipName := unfoldEndClipName;
      this.foldEndClipName := foldEndClipName;
      this.hasClip := hasClip;
      cards := [];
      isFolded := false;
      anchored := [];
      tweens := [];
      plays := [];
      invokes := [];
    }

    /** The unfold tween of card i. */
    function UnfoldOf(i: nat): Tween
      reads this`cards
      requires i < |cards|
    {
      var angle := Spread(i, |cards|, maxAngle);
      UnfoldTween(cards[i].id, UnfoldDelay(i, fanoutDelay, useSequentialDelay, perCardDelay), angle,
                  TargetZ(angle, faceCenter))
    }

    /** The fold tween of card i. */
    function FoldOf(i: nat): Tween
      reads this`cards
      requires i < |cards|
    {
      FoldTween(cards[i].id, FoldDelay(i, useSequentialDelay, perCardDelay))
    }

    /** The plays of `clipName` requested on each of `cs`, in order. */
    function PlaysOf(cs: seq<Node>, clipName: string): (r: seq<ClipPlay>)
      ensures forall p :: p in r <==> exists k :: 0 <= k < |cs| && clipName != "" && hasClip(cs[k].id, clipName) &&
                                                  p == ClipPlay(cs[k].id, clipName)
      decreases |cs|
    {
      if cs == [] then []
      else
        var init := cs[..|cs| - 1];
        var r := PlaysOf(init, clipName) + Played(cs[|cs| - 1].id, clipName);
        assert forall k :: 0 <= k < |init| ==> init[k] == cs[k];
        r
    }

    /** OnEnable: the cards are collected and laid out, the start clip is
        played on each, and an Unfold is scheduled when asked for. */
    method OnEnable(nodes: seq<Node>)
      modifies this`cards, this`anchored, this`isFolded, this`plays, this`invokes
      ensures cards == DirectChildren(nodes, self)
      ensures cards == [] ==> anchored == old(anchored) && isFolded == old(isFolded)
      ensures cards != [] ==> isFolded && |anchored| == |cards| &&
                              forall i :: 0 <= i < |cards| ==> anchored[i] == Vec2(Spread(i, |cards|, initialSpacing), 0.0)
      ensures plays == old(plays) + PlaysOf(cards, startClipName)
      ensures invokes == old(invokes) + if autoUnfoldOnEnable then [startDelay] else []
    {
      RefreshCardList(nodes);
      ResetCardsToStartSpacing();
      ghost var laidOut := anchored;
      ghost var folded := isFolded;
      for i := 0 to |cards|
        invariant cards == DirectChildren(nodes, self) && anchored == laidOut && isFolded == folded
        invariant invokes == old(invokes)
        invariant plays == old(plays) + PlaysOf(cards[..i], startClipName)
      {
        assert cards[..i + 1][..i] == cards[..i];
        PlayAnimation(cards[i].id, startClipName);
      }
      assert cards[..|cards|] == cards;
      if autoUnfoldOnEnable {
        invokes := invokes + [startDelay];
      }
    }

    /** RefreshCardList: of every RectTransform under the panel, in the order
        GetComponentsInChildren yields them, the ones parented to it. */
    method RefreshCardList(nodes: seq<Node>)
      modifies this`cards
      ensures cards == DirectChildren(nodes, self)
    {
      cards := [];
      for i := 0 to |nodes|
        invariant cards == DirectChildren(nodes[..i], self)
      {
        assert nodes[..i + 1][..i] == nodes[..i];
        if nodes[i].parent == Some(self) {
          cards := cards + [nodes[i]];
        }
      }
      assert nodes[..|nodes|] == nodes;
    }

    /** ResetCardsToStartSpacing: nothing without cards; otherwise card i goes
        to (Spread(i, count, initialSpacing), 0) and the fan counts as folded. */
    method ResetCardsToStartSpacing()
      modifies this`anchored, this`isFolded
      ensures cards == [] ==> anchored == old(anchored) && isFolded == old(isFolded)
      ensures cards != [] ==> isFolded && |anchored| == |cards| &&
                              forall i :: 0 <= i < |cards| ==> anchored[i] == Vec2(Spread(i, |cards|, initialSpacing), 0.0)
    {
      var count := |cards|;
      if count == 0 {
        return;
      }
      var step := if count > 1 then initialSpacing / (count - 1) as real else 0.0;
      var startX := -initialSpacing / 2.0;
      var positions: seq<Vec2> := [];
      for i := 0 to count
        invariant |positions| == i
        invariant forall k :: 0 <= k < i ==> positions[k] == Vec2(Spread(k, count, initialSpacing), 0.0)
      {
        positions := positions + [Vec2(startX + i as real * step, 0.0)];
      }
      anchored := positions;
      isFolded := true;
    }

    /** Unfold: nothing without cards; otherwise each card gets its tween
        sequence, in card order, and the fan is no longer folded. */
    method Unfold()
      modifies this`tweens, this`isFolded
      ensures cards == [] ==> tweens == old(tweens) && isFolded == old(isFolded)
      ensures cards != [] ==> !isFolded
      ensures |tweens| == |old(tweens)| + |cards| && tweens[..|old(tweens)|] == old(tweens)
      ensures forall i :: 0 <= i < |cards| ==> tweens[|old(tweens)| + i] == UnfoldOf(i)
    {
      var count := |cards|;
      if count == 0 {
        return;
      }
      var angleStep := if count == 1 then 0.0 else maxAngle / (count - 1) as real;
      var startAngle := -maxAngle / 2.0;
      for i := 0 to count
        invariant |tweens| == |old(tweens)| + i && tweens[..|old(tweens)|] == old(tweens)
        invariant forall k :: 0 <= k < i ==> tweens[|old(tweens)| + k] == UnfoldOf(k)
      {
        var angle := startAngle + i as real * angleStep;
        var delay := fanoutDelay + (if useSequentialDelay then i as real * perCardDelay else 0.0);
        assert UnfoldTween(cards[i].id, delay, angle, if faceCenter then -angle else 0.0) == UnfoldOf(i);
        tweens := tweens + [UnfoldTween(cards[i].id, delay, angle, if faceCenter then -angle else 0.0)];
      }
      isFolded := false;
    }

    /** Fold: every card tweens back after its delay, and the fan is folded
        (even without cards). */
    method Fold()
      modifies this`tweens, this`isFolded
      ensures isFolded
      ensures |tweens| == |old(tweens)| + |cards| && tweens[..|old(tweens)|] == old(tweens)
      ensures forall i :: 0 <= i < |cards| ==> tweens[|old(tweens)| + i] == FoldOf(i)
    {
      for i := 0 to |cards|
        invariant |tweens| == |old(tweens)| + i && tweens[..|old(tweens)|] == old(tweens)
        invariant forall k :: 0 <= k < i ==> tweens[|old(tweens)| + k] == FoldOf(k)
      {
        var delay := if useSequentialDelay then i as real * perCardDelay else 0.0;
        tweens := tweens + [FoldTween(cards[i].id, delay)];
      }
      isFolded := true;
    }

    /** Toggle: unfolds a folded fan and folds an unfolded one; with no cards
        the fan is folded afterwards either way. */
    method Toggle()
      modifies this`tweens, this`isFolded
      ensures cards != [] ==> isFolded == !old(isFolded)
      ensures cards == [] ==> isFolded && tweens == old(tweens)
      ensures |tweens| == |old(tweens)| + |cards| && tweens[..|old(tweens)|] == old(tweens)
      ensures old(isFolded) ==> forall i :: 0 <= i < |cards| ==> tweens[|old(tweens)| + i] == UnfoldOf(i)
      ensures !old(isFolded) ==> forall i :: 0 <= i < |cards| ==> tweens[|old(tweens)| + i] == FoldOf(i)
    {
      if isFolded {
        Unfold();
      } else {
        Fold();
      }
    }

    /** The callback an unfold sequence reaches after its delay. */
    method UnfoldStarted(card: nat)
      modifies this`plays
      ensures plays == old(plays) + Played(card, unfoldStartClipName)
    {
      PlayAnimation(card, unfoldStartClipName);
    }

    /** OnCardUnfoldComplete, when a card's unfold sequence completes. */
    method OnCardUnfoldComplete(card: nat)
      modifies this`plays
      ensures plays == old(plays) + Played(card, unfoldEndClipName)
    {
      PlayAnimation(card, unfoldEndClipName);
    }

    /** OnCardFoldComplete, when a card's fold position tween completes. */
    method OnCardFoldComplete(card: nat)
      modifies this`plays
      ensures plays == old(plays) + Played(card, foldEndClipName)
    {
      PlayAnimation(card, foldEndClipName);
    }

    /** The clip a play request actually plays: none for an empty name or a
        card without that clip. */
    function Played(card: nat, clipName: string): seq<ClipPlay> {
      if clipName != "" && hasClip(card, clipName) then [ClipPlay(card, clipName)] else []
    }

    /** PlayAnimation: an empty name, or a card without that clip, plays nothing. */
    method PlayAnimation(card: nat, clipName: string)
      modifies this`plays
      ensures plays == old(plays) + Played(card, clipName)
    {
      if clipName == "" {
        return;
      }
      if hasClip(card, clipName) {
        plays := plays + [ClipPlay(card, clipName)];
      }
    }
  }
}
