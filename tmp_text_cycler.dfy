/** TMPTextCycler: shows its messages one after another (or at random, or in a
    shuffled order without repeats), optionally typing them out character by
    character, with waits between them. The cycling coroutine is held as the
    point where it waits; a resume runs it up to its next wait. */
module TmpTextCycler {
  import opened Common

  datatype Settings = Settings(
    messages: seq<string>, preDelay: real, loop: bool,
    useTypingEffect: bool, randomize: bool, noRepeatRandom: bool)

  /** Modes that walk the queue by index; the plain random mode does not. */
  predicate Sequential(st: Settings) {
    st.noRepeatRandom || !st.randomize
  }

  /** Where TextCycleRoutine waits: after blanking the text (preDelay), inside
      TypeText after `typed` characters, or after a message (changeInterval). */
  datatype Wait = PreDelay | Typing(message: string, typed: nat) | Interval

  datatype Cycler = Cycler(text: string, queue: seq<string>, index: int, wait: Option<Wait>)

  /** BuildMessageQueue: the messages, shuffled when noRepeatRandom is set. */
  function BuildQueue(st: Settings, js: seq<int>): (q: seq<string>)
    requires ShuffleOracle(js, |st.messages|)
    ensures |q| == |st.messages| && multiset(q) == multiset(st.messages)
    ensures !st.noRepeatRandom ==> q == st.messages
  {
    ShuffledPermutes(st.messages, js);
    if st.noRepeatRandom then Shuffled(st.messages, js) else st.messages
  }

  /** The state the routine keeps between resumptions. */
  predicate Inv(st: Settings, c: Cycler) {
    |c.queue| == |st.messages| && multiset(c.queue) == multiset(st.messages) &&
    (!st.noRepeatRandom ==> c.queue == st.messages) &&
    0 <= c.index <= |c.queue| &&
    (!Sequential(st) ==> c.index == 0) &&
    (c.wait.Some? ==> |c.queue| > 0) &&
    (c.wait == Some(PreDelay) || c.wait == Some(Interval) ==> c.index < |c.queue|) &&
    (c.wait.Some? && c.wait.value.Typing? ==>
       c.wait.value.typed <= |c.wait.value.message| &&
       c.text == c.wait.value.message[..c.wait.value.typed])
  }

  /** After a message is on display: in an index mode, the end of the queue
      either rebuilds it and restarts at 0 (loop) or ends the routine. */
  function AfterMessage(st: Settings, c: Cycler, js: seq<int>): (r: Cycler)
    requires ShuffleOracle(js, |st.messages|)
    ensures r.text == c.text
    ensures Sequential(st) && c.index >= |c.queue| ==>
              if st.loop then r.queue == BuildQueue(st, js) && r.index == 0 && r.wait == Some(Interval)
              else r.queue == c.queue && r.index == c.index && r.wait.None?
    ensures !(Sequential(st) && c.index >= |c.queue|) ==>
              r.queue == c.queue && r.index == c.index && r.wait == Some(Interval)
  {
    if Sequential(st) && c.index >= |c.queue| then
      if st.loop then c.(queue := BuildQueue(st, js), index := 0, wait := Some(Interval))
      else c.(wait := None)
    else c.(wait := Some(Interval))
  }

  /** Puts `message` on display: set at once, or typed starting with its first
      character. */
  function Show(st: Settings, c: Cycler, message: string, js: seq<int>): (r: Cycler)
    requires ShuffleOracle(js, |st.messages|)
    ensures !st.useTypingEffect ==> r == AfterMessage(st, c.(text := message), js)
    ensures st.useTypingEffect && |message| > 0 ==>
              r == c.(text := message[..1], wait := Some(Typing(message, 1)))
    ensures st.useTypingEffect && |message| == 0 ==> r == AfterMessage(st, c.(text := ""), js)
  {
    if st.useTypingEffect then
      if |message| == 0 then AfterMessage(st, c.(text := ""), js)
      else c.(text := message[..1], wait := Some(Typing(message, 1)))
    else AfterMessage(st, c.(text := message), js)
  }

  /** The message the routine picks: queue[index] (and the index moves on) in an
      index mode, messages[pick] otherwise. */
  function Pick(st: Settings, c: Cycler, pick: int): (r: (string, int))
    requires Sequential(st) ==> 0 <= c.index < |c.queue|
    requires !Sequential(st) ==> 0 <= pick < |st.messages|
    ensures Sequential(st) ==> r == (c.queue[c.index], c.index + 1)
    ensures !Sequential(st) ==> r.0 in st.messages && r.1 == c.index
  {
    if Sequential(st) then (c.queue[c.index], c.index + 1) else (st.messages[pick], c.index)
  }

  /** After the pre-delay: the picked message goes on display, whole or as
      its first typed character. */
  function AfterPreDelay(st: Settings, c: Cycler, pick: int, js: seq<int>): (r: Cycler)
    requires ShuffleOracle(js, |st.messages|)
    requires Sequential(st) ==> 0 <= c.index < |c.queue|
    requires !Sequential(st) ==> 0 <= pick < |st.messages|
    ensures var m := if Sequential(st) then c.queue[c.index] else st.messages[pick];
            r.text == (if st.useTypingEffect && |m| > 0 then m[..1] else m) &&
            (r.wait.Some? && r.wait.value.Typing? ==> r.wait.value.message == m)
  {
    var p := Pick(st, c, pick);
    Show(st, c.(index := p.1), p.0, js)
  }

  /** One pass from the top of the while loop to the next wait. */
  function FromTop(st: Settings, c: Cycler, pick: int, js: seq<int>): (r: Cycler)
    requires Inv(st, c) && ShuffleOracle(js, |st.messages|) && IntRange(pick, 0, |st.messages|)
    requires |c.queue| > 0 ==> c.index < |c.queue|
    ensures |c.queue| == 0 ==> r == c.(wait := None)
    ensures |c.queue| > 0 && st.preDelay > 0.0 ==> r == c.(text := "", wait := Some(PreDelay))
  {
    if |c.queue| == 0 then c.(wait := None)
    else if st.preDelay > 0.0 then c.(text := "", wait := Some(PreDelay))
    else AfterPreDelay(st, c, pick, js)
  }

  /** Resumes the routine at its wait. */
  function Resumed(st: Settings, c: Cycler, pick: int, js: seq<int>): (r: Cycler)
    requires Inv(st, c) && c.wait.Some?
    requires ShuffleOracle(js, |st.messages|) && IntRange(pick, 0, |st.messages|)
    ensures c.wait.value.Typing? && c.wait.value.typed < |c.wait.value.message| ==>
              r == c.(text := c.wait.value.message[..c.wait.value.typed + 1],
                      wait := Some(Typing(c.wait.value.message, c.wait.value.typed + 1)))
  {
    match c.wait.value
    case PreDelay => AfterPreDelay(st, c, pick, js)
    case Typing(m, k) =>
      if k < |m| then
        assert m[..k + 1] == m[..k] + [m[k]];
        c.(text := c.text + [m[k]], wait := Some(Typing(m, k + 1)))
      else AfterMessage(st, c, js)
    case Interval => FromTop(st, c, pick, js)
  }

  /** ResetAndStart: a fresh queue (draws `js0`), index 0, and the routine runs
      to its first wait (`js` for a rebuild on the way). */
  function Start(st: Settings, text: string, pick: int, js0: seq<int>, js: seq<int>): (r: Cycler)
    requires ShuffleOracle(js0, |st.messages|) && ShuffleOracle(js, |st.messages|)
    requires IntRange(pick, 0, |st.messages|)
    ensures |r.queue| == |st.messages| && multiset(r.queue) == multiset(st.messages)
    ensures st.messages == [] ==> r.wait.None? && r.text == text
    ensures st.messages != [] && st.preDelay > 0.0 ==> r.text == "" && r.wait == Some(PreDelay) && r.index == 0
  {
    FromTop(st, Cycler(text, BuildQueue(st, js0), 0, None), pick, js)
  }

  lemma AfterMessageKeepsInv(st: Settings, c: Cycler, js: seq<int>)
    requires ShuffleOracle(js, |st.messages|)
    requires Inv(st, c.(wait := None)) && |c.queue| > 0
    requires Sequential(st) || c.index == 0
    ensures Inv(st, AfterMessage(st, c, js))
  {
  }

  lemma AfterPreDelayKeepsInv(st: Settings, c: Cycler, pick: int, js: seq<int>)
    requires ShuffleOracle(js, |st.messages|) && IntRange(pick, 0, |st.messages|)
    requires Inv(st, c.(wait := None)) && 0 <= c.index < |c.queue|
    ensures Inv(st, AfterPreDelay(st, c, pick, js))
  {
    var p := Pick(st, c, pick);
    var d := c.(index := p.1);
    if st.useTypingEffect && |p.0| > 0 {
      assert Inv(st, d.(text := p.0[..1], wait := Some(Typing(p.0, 1))));
    } else {
      AfterMessageKeepsInv(st, d.(text := if st.useTypingEffect then "" else p.0), js);
    }
  }

  /** The routine's state stays consistent at every wait: the queue is the
      messages (or a permutation of them), the index stays in range, and while
      typing the text is a prefix of the message. */
  lemma ResumeKeepsInv(st: Settings, c: Cycler, pick: int, js: seq<int>)
    requires Inv(st, c) && c.wait.Some?
    requires ShuffleOracle(js, |st.messages|) && IntRange(pick, 0, |st.messages|)
    ensures Inv(st, Resumed(st, c, pick, js))
  {
    match c.wait.value
    case PreDelay => AfterPreDelayKeepsInv(st, c, pick, js);
    case Typing(m, k) =>
      if k >= |m| {
        AfterMessageKeepsInv(st, c, js);
      }
    case Interval =>
      if st.preDelay <= 0.0 {
        AfterPreDelayKeepsInv(st, c, pick, js);
      }
  }

  lemma StartEstablishesInv(st: Settings, text: string, pick: int, js0: seq<int>, js: seq<int>)
    requires ShuffleOracle(js0, |st.messages|) && ShuffleOracle(js, |st.messages|)
    requires IntRange(pick, 0, |st.messages|)
    ensures Inv(st, Start(st, text, pick, js0, js))
    ensures Start(st, text, pick, js0, js).wait.None? <==>
              |st.messages| == 0 || (!st.loop && Sequential(st) && |st.messages| == 1 &&
                                     st.preDelay <= 0.0 && !(st.useTypingEffect && |BuildQueue(st, js0)[0]| > 0))
  {
    var c := Cycler(text, BuildQueue(st, js0), 0, None);
    if |c.queue| > 0 && st.preDelay <= 0.0 {
      AfterPreDelayKeepsInv(st, c, pick, js);
    }
  }

  /** `n` resumptions in a row with the same draws. */
  function ResumeN(st: Settings, c: Cycler, pick: int, js: seq<int>, n: nat): (r: Cycler)
    requires Inv(st, c) && ShuffleOracle(js, |st.messages|) && IntRange(pick, 0, |st.messages|)
    ensures Inv(st, r)
    decreases n
  {
    if n == 0 || c.wait.None? then c
    else
      ResumeKeepsInv(st, c, pick, js);
      ResumeN(st, Resumed(st, c, pick, js), pick, js, n - 1)
  }

  /** Typing shows the message one character per wait and ends with the whole
      message on display. */
  lemma {:induction false} TypingEndsWithMessage(st: Settings, c: Cycler, pick: int, js: seq<int>)
    requires Inv(st, c) && ShuffleOracle(js, |st.messages|) && IntRange(pick, 0, |st.messages|)
    requires c.wait.Some? && c.wait.value.Typing?
    ensures var m := c.wait.value.message;
            ResumeN(st, c, pick, js, |m| - c.wait.value.typed) == c.(text := m, wait := Some(Typing(m, |m|)))
    decreases |c.wait.value.message| - c.wait.value.typed
  {
    var m, k := c.wait.value.message, c.wait.value.typed;
    if k < |m| {
      var c' := Resumed(st, c, pick, js);
      ResumeKeepsInv(st, c, pick, js);
      TypingEndsWithMessage(st, c', pick, js);
    } else {
      assert m[..k] == m;
    }
  }

  /** In an index mode without a pre-delay or typing, each resumption shows the
      next queued message; after the last one the routine rebuilds (loop) or
      ends. */
  lemma SequentialShowsNext(st: Settings, c: Cycler, pick: int, js: seq<int>)
    requires Inv(st, c) && c.wait == Some(Interval) && ShuffleOracle(js, |st.messages|) && IntRange(pick, 0, |st.messages|)
    requires Sequential(st) && st.preDelay <= 0.0 && !st.useTypingEffect
    ensures var r := Resumed(st, c, pick, js);
            r.text == c.queue[c.index] &&
            (c.index + 1 < |c.queue| ==> r.index == c.index + 1 && r.queue == c.queue && r.wait == Some(Interval)) &&
            (c.index + 1 == |c.queue| ==> if st.loop then r.index == 0 && r.wait == Some(Interval) else r.wait.None?)
  {
  }

  /** In the plain random mode the index never moves and the routine never ends
      by itself: every resumption shows one of the messages. */
  lemma RandomNeverEnds(st: Settings, c: Cycler, pick: int, js: seq<int>)
    requires Inv(st, c) && c.wait == Some(Interval) && ShuffleOracle(js, |st.messages|) && IntRange(pick, 0, |st.messages|)
    requires !Sequential(st) && st.preDelay <= 0.0 && !st.useTypingEffect
    ensures var r := Resumed(st, c, pick, js);
            r.text == st.messages[pick] && r.index == 0 && r.wait == Some(Interval)
  {
  }

  class TmpTextCyclerBehaviour {
    const st: Settings

    var text: string
    var messageQueue: seq<string>
    var currentIndex: int
    /** cycleRoutine, as the wait it is suspended at (None: not running). */
    var routine: Option<Wait>

    function State(): Cycler
      reads this
    {
      Cycler(text, messageQueue, currentIndex, routine)
    }

    constructor (st: Settings, text: string)
      ensures this.st == st && State() == Cycler(text, [], 0, None)
    {
      this.st := st;
      this.text := text;
      messageQueue := [];
      currentIndex := 0;
      routine := None;
    }

    method BuildMessageQueue(js: seq<int>)
      requires ShuffleOracle(js, |st.messages|)
      modifies this`messageQueue
      ensures messageQueue == BuildQueue(st, js)
    {
      messageQueue := [];
      if st.noRepeatRandom {
        messageQueue := messageQueue + st.messages;
        assert messageQueue == st.messages;
        messageQueue := Shuffle(messageQueue, js);
      } else if st.randomize {
        messageQueue := messageQueue + st.messages;
      } else {
        messageQueue := messageQueue + st.messages;
      }
    }

    method FinishMessage(js: seq<int>)
      requires ShuffleOracle(js, |st.messages|)
      modifies this`messageQueue, this`currentIndex, this`routine
      ensures State() == AfterMessage(st, old(State()), js)
    {
      if Sequential(st) && currentIndex >= |messageQueue| {
        if st.loop {
          BuildMessageQueue(js);
          currentIndex := 0;
        } else {
          routine := None;
          return;
        }
      }
      routine := Some(Interval);
    }

    method ShowNext(pick: int, js: seq<int>)
      requires ShuffleOracle(js, |st.messages|)
      requires Sequential(st) ==> 0 <= currentIndex < |messageQueue|
      requires !Sequential(st) ==> 0 <= pick < |st.messages|
      modifies this`text, this`messageQueue, this`currentIndex, this`routine
      ensures State() == AfterPreDelay(st, old(State()), pick, js)
    {
      var message;
      if Sequential(st) {
        message := messageQueue[currentIndex];
        currentIndex := currentIndex + 1;
      } else {
        message := st.messages[pick];
      }
      if st.useTypingEffect {
        // TypeText: blank, then the first character, then wait
        text := "";
        if |message| > 0 {
          text := text + [message[0]];
          routine := Some(Typing(message, 1));
          return;
        }
      } else {
        text := message;
      }
      FinishMessage(js);
    }

    method RunFromTop(pick: int, js: seq<int>)
      requires Inv(st, State()) && ShuffleOracle(js, |st.messages|) && IntRange(pick, 0, |st.messages|)
      requires |messageQueue| > 0 ==> currentIndex < |messageQueue|
      modifies this`text, this`messageQueue, this`currentIndex, this`routine
      ensures State() == FromTop(st, old(State()), pick, js)
    {
      if |messageQueue| == 0 {
        routine := None;
        return;
      }
      if st.preDelay > 0.0 {
        text := "";
        routine := Some(PreDelay);
        return;
      }
      ShowNext(pick, js);
    }

    /** ResetAndStart (also OnEnable). */
    method ResetAndStart(pick: int, js0: seq<int>, js: seq<int>)
      requires ShuffleOracle(js0, |st.messages|) && ShuffleOracle(js, |st.messages|)
      requires IntRange(pick, 0, |st.messages|)
      modifies this`text, this`messageQueue, this`currentIndex, this`routine
      ensures State() == Start(st, old(text), pick, js0, js)
      ensures Inv(st, State())
    {
      routine := None;
      BuildMessageQueue(js0);
      currentIndex := 0;
      RunFromTop(pick, js);
      StartEstablishesInv(st, old(text), pick, js0, js);
    }

    /** OnDisable. */
    method Stop()
      modifies this`routine
      ensures routine.None?
    {
      routine := None;
    }

    /** The wait is over: the routine runs to its next wait. */
    method Resume(pick: int, js: seq<int>)
      requires Inv(st, State()) && routine.Some?
      requires ShuffleOracle(js, |st.messages|) && IntRange(pick, 0, |st.messages|)
      modifies this`text, this`messageQueue, this`currentIndex, this`routine
      ensures State() == Resumed(st, old(State()), pick, js)
      ensures Inv(st, State())
    {
      ResumeKeepsInv(st, State(), pick, js);
      match routine.value
      case PreDelay =>
        ShowNext(pick, js);
      case Typing(m, k) =>
        if k < |m| {
          text := text + [m[k]];
          routine := Some(Typing(m, k + 1));
        } else {
          FinishMessage(js);
        }
      case Interval =>
        RunFromTop(pick, js);
    }
  }
}
