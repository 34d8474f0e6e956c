/** GameController: wires the treasure box to the UI and flips what is visible
    between the closed game (box button) and the opened result (score counter,
    replay button). */
module GameController {
  import opened Common
  import TreasureBoxController

  /** Which of the two box halves a transform has. */
  datatype Halves = Halves(hasOpen: bool, hasClose: bool)

  /** The box's own halves and, when it has a child named "Box", that child's. */
  datatype BoxHierarchy = BoxHierarchy(top: Halves, nested: Option<Halves>)

  /** The container searched for Box_Open and Box_Close: the nested "Box" if
      present, else the box itself. */
  function Container(h: BoxHierarchy): (c: Halves)
    ensures h.nested.Some? ==> c == h.nested.value
    ensures h.nested.None? ==> c == h.top
  {
    if h.nested.Some? then h.nested.value else h.top
  }

  /** The active flags of everything the controller shows or hides. */
  datatype View = View(openActive: bool, closeActive: bool, counterActive: bool,
                       boxButtonActive: bool, replayActive: bool)

  /** ToggleOpenClose: the two halves get opposite flags; with either missing
      nothing changes. */
  function Toggled(v: View, h: BoxHierarchy, open: bool): (r: View)
    ensures Container(h).hasOpen && Container(h).hasClose ==>
              r.openActive == open && r.closeActive == !open
    ensures !(Container(h).hasOpen && Container(h).hasClose) ==> r == v
    ensures r.counterActive == v.counterActive && r.boxButtonActive == v.boxButtonActive
    ensures r.replayActive == v.replayActive
  {
    var c := Container(h);
    if c.hasOpen && c.hasClose then v.(openActive := open, closeActive := !open) else v
  }

  /** The closed-game view that Start and OnReplay set up. */
  function Closed(v: View, h: BoxHierarchy, hasCounter: bool): (r: View)
    ensures r.boxButtonActive && !r.replayActive
    ensures hasCounter ==> !r.counterActive
  {
    Toggled(v, h, false).(counterActive := if hasCounter then false else v.counterActive,
                          boxButtonActive := true, replayActive := false)
  }

  /** The result view that OnBoxOpened sets up. */
  function Opened(v: View, h: BoxHierarchy, hasCounter: bool): (r: View)
    ensures !r.boxButtonActive && r.replayActive
    ensures hasCounter ==> r.counterActive
  {
    Toggled(v, h, true).(counterActive := if hasCounter then true else v.counterActive,
                         boxButtonActive := false, replayActive := true)
  }

  /** The Debug.LogError messages the controller writes. */
  datatype LogEntry =
    | BoxNotAssigned          // Start without a box
    | ControllerNotFound      // Start without a TreasureBoxController under the box
    | HalvesNotFound          // ToggleOpenClose without Box_Open or Box_Close

  /** What ToggleOpenClose logs: an error when a half is missing. */
  function ToggleLog(h: BoxHierarchy): (r: seq<LogEntry>)
    ensures |r| <= 1
    ensures r == [HalvesNotFound] <==> !(Container(h).hasOpen && Container(h).hasClose)
  {
    var c := Container(h);
    if c.hasOpen && c.hasClose then [] else [HalvesNotFound]
  }

  /** An error is logged exactly when ToggleOpenClose leaves the halves as
      they were; otherwise the halves take the requested flags. */
  lemma ToggleLoggedIffSkipped(v: View, h: BoxHierarchy, open: bool)
    ensures ToggleLog(h) != [] ==> Toggled(v, h, open) == v
    ensures ToggleLog(h) == [] ==> Toggled(v, h, open).openActive == open &&
                                   Toggled(v, h, open).closeActive == !open
  {
  }

  /** Closed and Opened each fully decide the view for a complete box: the
      halves are always opposite and the buttons never both visible. */
  lemma ViewsAreConsistent(v: View, h: BoxHierarchy, hasCounter: bool)
    requires Container(h).hasOpen && Container(h).hasClose
    ensures var c := Closed(v, h, hasCounter);
            c.closeActive && !c.openActive && c.boxButtonActive != c.replayActive
    ensures var o := Opened(v, h, hasCounter);
            o.openActive && !o.closeActive && o.boxButtonActive != o.replayActive
  {
  }

  /** A replay undoes an opening: the view after open-then-replay is the view
      after replay alone. */
  lemma ReplayUndoesOpening(v: View, h: BoxHierarchy, hasCounter: bool)
    ensures Closed(Opened(v, h, hasCounter), h, hasCounter) == Closed(v, h, hasCounter)
  {
  }

  class GameControllerBehaviour {
    /** `box` is assigned. */
    const hasBox: bool
    const hierarchy: BoxHierarchy
    /** The TreasureBoxController found under the box, if any. */
    const boxController: TreasureBoxController.TreasureBox?
    /** `scoreCounter` is assigned. */
    const hasCounter: bool

    /** The TreasureBoxController Start found (null until then). */
    var controller: TreasureBoxController.TreasureBox?
    var view: View
    /** How many listeners Start added to the box and replay buttons. */
    var boxListeners: nat
    var replayListeners: nat
    /** The gold last handed to the score counter. */
    var counterGold: Option<int>
    /** The errors logged so far, in order. */
    var log: seq<LogEntry>

    constructor (hasBox: bool, hierarchy: BoxHierarchy, boxController: TreasureBoxController.TreasureBox?,
                 hasCounter: bool, view: View)
      ensures this.hasBox == hasBox && this.hierarchy == hierarchy
      ensures this.boxController == boxController && this.hasCounter == hasCounter
      ensures controller == null && this.view == view
      ensures boxListeners == 0 && replayListeners == 0 && counterGold.None? && log == []
    {
      this.hasBox := hasBox;
      this.hierarchy := hierarchy;
      this.boxController := boxController;
      this.hasCounter := hasCounter;
      controller := null;
      this.view := view;
      boxListeners := 0;
      replayListeners := 0;
      counterGold := None;
      log := [];
    }

    /** Start: a missing box or box controller stops the setup (after logging);
        otherwise the box is initialised (`draw` is its click-count draw), the
        closed view is shown and the button listeners are added. */
    method Start(draw: int)
      requires boxController != null ==> IntRange(draw, boxController.minClicks, boxController.maxClicks + 1)
      modifies this, boxController
      ensures log == old(log) + if !hasBox then [BoxNotAssigned]
                                else if boxController == null then [ControllerNotFound] else ToggleLog(hierarchy)
      ensures !hasBox || boxController == null ==>
                controller == old(controller) && view == old(view) &&
                boxListeners == old(boxListeners) && replayListeners == old(replayListeners) &&
                counterGold == old(counterGold) && (boxController != null ==> unchanged(boxController))
      ensures hasBox && boxController != null ==>
                controller == boxController && view == Closed(old(view), hierarchy, hasCounter) &&
                boxListeners == old(boxListeners) + 1 && replayListeners == old(replayListeners) + 1 &&
                counterGold == old(counterGold) &&
                controller.initialized && controller.State() == TreasureBoxController.Fresh(draw)
    {
      if !hasBox {
        log := log + [BoxNotAssigned];
        return;
      }
      if boxController == null {
        log := log + [ControllerNotFound];
        return;
      }
      controller := boxController;
      controller.Init(draw);
      view := Closed(view, hierarchy, hasCounter);
      log := log + ToggleLog(hierarchy);
      boxListeners := boxListeners + 1;
      replayListeners := replayListeners + 1;
    }

    /** OnBoxOpened: the result view, and the gold goes to the score counter. */
    method OnBoxOpened(gold: int)
      modifies this`view, this`counterGold, this`log
      ensures view == Opened(old(view), hierarchy, hasCounter)
      ensures counterGold == if hasCounter then Some(gold) else old(counterGold)
      ensures log == old(log) + ToggleLog(hierarchy)
    {
      view := Opened(view, hierarchy, hasCounter);
      log := log + ToggleLog(hierarchy);
      if hasCounter {
        counterGold := Some(gold);
      }
    }

    /** OnBoxClicked: forwarded to the box controller when there is one; the
        box's report (the call back into OnBoxOpened) switches to the result view.
        `draw` is the box's gold draw. */
    method OnBoxClicked(draw: int)
      requires controller != null ==> controller.initialized
      requires controller != null ==> IntRange(draw, controller.minGold, controller.maxGold + 1)
      modifies this`view, this`counterGold, this`log, controller
      ensures controller == null ==> view == old(view) && counterGold == old(counterGold) && log == old(log)
      ensures controller != null ==>
                var r := TreasureBoxController.Click(old(controller.State()), draw);
                controller.State() == r.next &&
                (r.gold.Some? ==> view == Opened(old(view), hierarchy, hasCounter) &&
                                  counterGold == (if hasCounter then r.gold else old(counterGold)) &&
                                  log == old(log) + ToggleLog(hierarchy)) &&
                (r.gold.None? ==> view == old(view) && counterGold == old(counterGold) && log == old(log))
    {
      if controller != null {
        var gold := controller.OnBoxClicked(draw);
        if gold.Some? {
          OnBoxOpened(gold.value);
        }
      }
    }

    /** OnReplay: re-initialise the box and show the closed view again. */
    method OnReplay(draw: int)
      requires controller != null
      requires IntRange(draw, controller.minClicks, controller.maxClicks + 1)
      modifies this`view, this`log, controller
      ensures view == Closed(old(view), hierarchy, hasCounter)
      ensures log == old(log) + ToggleLog(hierarchy)
      ensures controller.initialized && controller.State() == TreasureBoxController.Fresh(draw)
    {
      controller.Init(draw);
      view := Closed(view, hierarchy, hasCounter);
      log := log + ToggleLog(hierarchy);
    }
  }
}
