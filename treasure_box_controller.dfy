/** TreasureBoxController: a box that opens after a random number of clicks
    and then reports a random amount of gold to the game controller. The report
    is returned to the caller instead of being a call back into it. */
module TreasureBoxController {
  import opened Common

  /** The click counter: requiredClicks, currentClicks and isOpened. */
  datatype Counter = Counter(required: int, clicks: int, open: bool)

  /** The state Init leaves: no clicks yet, closed, `required` drawn by the caller. */
  function Fresh(required: int): (c: Counter)
    ensures c.clicks == 0 && !c.open && c.required == required
  {
    Counter(required, 0, false)
  }

  datatype ClickResult = ClickResult(next: Counter, gold: Option<int>)

  /** OnBoxClicked: an opened box ignores clicks; otherwise the click is counted
      and the box opens, reporting `gold`, once the count reaches the requirement. */
  function Click(c: Counter, gold: int): (r: ClickResult)
    ensures c.open ==> r.next == c && r.gold.None?
    ensures !c.open ==> r.next.clicks == c.clicks + 1 && r.next.required == c.required
    ensures !c.open ==> (r.next.open <==> c.clicks + 1 >= c.required)
    ensures r.gold.Some? <==> !c.open && r.next.open
    ensures r.gold.Some? ==> r.gold.value == gold
  {
    if c.open then ClickResult(c, None)
    else
      var n := c.(clicks := c.clicks + 1);
      if n.clicks >= n.required then ClickResult(n.(open := true), Some(gold)) else ClickResult(n, None)
  }

  /** Feeds a run of clicks (one gold draw each) and counts the reports. */
  function Reports(c: Counter, golds: seq<int>): (n: nat)
    decreases |golds|
  {
    if golds == [] then 0
    else
      var r := Click(c, golds[0]);
      (if r.gold.Some? then 1 else 0) + Reports(r.next, golds[1..])
  }

  /** Counts of one run: the box opens exactly once, on click max(required, 1). */
  lemma {:induction false} OpensExactlyOnce(c: Counter, golds: seq<int>)
    requires !c.open && 0 <= c.clicks
    ensures Reports(c, golds) == if c.clicks + |golds| >= MaxInt(c.required, c.clicks + 1) then 1 else 0
    decreases |golds|
  {
    if golds != [] {
      var r := Click(c, golds[0]);
      if r.next.open {
        OpenedIsSilent(r.next, golds[1..]);
      } else {
        OpensExactlyOnce(r.next, golds[1..]);
      }
    }
  }

  /** Clicks on an opened box report nothing. */
  lemma {:induction false} OpenedIsSilent(c: Counter, golds: seq<int>)
    requires c.open
    ensures Reports(c, golds) == 0
    decreases |golds|
  {
    if golds != [] {
      OpenedIsSilent(c, golds[1..]);
    }
  }

  /** After Init, the report comes on click max(requiredClicks, 1) and only then. */
  lemma FirstOpeningAfterInit(required: int, golds: seq<int>)
    ensures Reports(Fresh(required), golds) == if |golds| >= MaxInt(required, 1) then 1 else 0
  {
    OpensExactlyOnce(Fresh(required), golds);
  }

  class TreasureBox {
    const minClicks: int
    const maxClicks: int
    const minGold: int
    const maxGold: int
    /** shakeClip's name; None when no clip is assigned. */
    const shakeClip: Option<string>

    var requiredClicks: int
    var currentClicks: int
    var isOpened: bool
    /** Init has run (it wires the animation and the game controller). */
    var initialized: bool
    /** The clips registered on the box's Animation. */
    var clips: set<string>
    /** How many times the shake clip was played. */
    var shakes: nat

    function State(): Counter
      reads this
    {
      Counter(requiredClicks, currentClicks, isOpened)
    }

    constructor (minClicks: int, maxClicks: int, minGold: int, maxGold: int,
                 shakeClip: Option<string>, clips: set<string>)
      ensures this.minClicks == minClicks && this.maxClicks == maxClicks
      ensures this.minGold == minGold && this.maxGold == maxGold && this.shakeClip == shakeClip
      ensures State() == Counter(0, 0, false) && !initialized && this.clips == clips && shakes == 0
    {
      this.minClicks := minClicks;
      this.maxClicks := maxClicks;
      this.minGold := minGold;
      this.maxGold := maxGold;
      this.shakeClip := shakeClip;
      requiredClicks := 0;
      currentClicks := 0;
      isOpened := false;
      initialized := false;
      this.clips := clips;
      shakes := 0;
    }

    /** Init: `draw` is Random.Range(minClicks, maxClicks + 1); the shake clip is
        registered when it is missing. */
    method Init(draw: int)
      requires IntRange(draw, minClicks, maxClicks + 1)
      modifies this`requiredClicks, this`currentClicks, this`isOpened, this`initialized, this`clips
      ensures State() == Fresh(draw) && initialized
      ensures minClicks <= maxClicks ==> minClicks <= requiredClicks <= maxClicks
      ensures clips == if shakeClip.Some? then old(clips) + {shakeClip.value} else old(clips)
    {
      currentClicks := 0;
      requiredClicks := draw;
      isOpened := false;
      initialized := true;
      if shakeClip.Some? && shakeClip.value !in clips {
        clips := clips + {shakeClip.value};
      }
    }

    /** OnBoxClicked: `draw` is Random.Range(minGold, maxGold + 1), used only when
        the box opens; the gold reported to the game controller is returned. */
    method OnBoxClicked(draw: int) returns (gold: Option<int>)
      requires initialized
      requires IntRange(draw, minGold, maxGold + 1)
      modifies this`currentClicks, this`isOpened, this`shakes
      ensures ClickResult(State(), gold) == Click(old(State()), draw)
      ensures gold.Some? && minGold <= maxGold ==> minGold <= gold.value <= maxGold
      ensures shakes == if !old(isOpened) && shakeClip.Some? then old(shakes) + 1 else old(shakes)
    {
      if isOpened {
        return None;
      }
      currentClicks := currentClicks + 1;
      if shakeClip.Some? {
        shakes := shakes + 1;
      }
      gold := None;
      if currentClicks >= requiredClicks {
        isOpened := true;
        gold := Some(draw);
      }
    }
  }
}
