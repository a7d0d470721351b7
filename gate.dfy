/**
 * The gate roll of GateApp (react-scenes.js): the player picks normal,
 * advantage or disadvantage, rolls once or twice, and opens the gate when the
 * kept result is at least 10.
 *
 * The component's hook state is one `Gate` record that every event replaces
 * wholesale.  The physics die only delivers a number; it is not modelled.
 */
module Gate {
  import opened Wrappers

  datatype Mode = Normal | Advantage | Disadvantage

  /** gameState of GateApp: 'intro', 'progress', 'success' or 'fail'. */
  datatype Phase = Intro | Progress | Success | Fail

  /**
   * mode, rolls, gameState and showDice of GateApp.  `reopenPending` stands
   * for the 500 ms timer, started after a first roll, that shows the die
   * again; `resultPending` for the 1200 ms timer, started when the die
   * settles, that hands its result to handleRoll.
   */
  datatype Gate = Gate(phase: Phase, mode: Mode, rolls: seq<int>, showDice: bool, reopenPending: bool,
                       resultPending: Option<int>)

  /** The gate's difficulty class. */
  const DC := 10

  function Init(): Gate {
    Gate(Intro, Normal, [], false, false, None)
  }

  predicate Finished(g: Gate) {
    g.phase == Success || g.phase == Fail
  }

  /** Math.max(...s) */
  function SeqMax(s: seq<int>): (m: int)
    requires |s| > 0
    ensures m in s
    ensures forall i :: 0 <= i < |s| ==> s[i] <= m
  {
    if |s| == 1 then s[0]
    else
      var rest := SeqMax(s[1..]);
      if s[0] > rest then s[0] else rest
  }

  /** Math.min(...s) */
  function SeqMin(s: seq<int>): (m: int)
    requires |s| > 0
    ensures m in s
    ensures forall i :: 0 <= i < |s| ==> m <= s[i]
  {
    if |s| == 1 then s[0]
    else
      var rest := SeqMin(s[1..]);
      if s[0] < rest then s[0] else rest
  }

  /** The kept result: the first roll, the highest under advantage, the lowest under disadvantage. */
  function Final(mode: Mode, rolls: seq<int>): (f: int)
    requires |rolls| > 0
    ensures f in rolls
    ensures mode == Normal ==> f == rolls[0]
    ensures mode == Advantage ==> forall i :: 0 <= i < |rolls| ==> rolls[i] <= f
    ensures mode == Disadvantage ==> forall i :: 0 <= i < |rolls| ==> f <= rolls[i]
  {
    match mode
    case Normal => rolls[0]
    case Advantage => SeqMax(rolls)
    case Disadvantage => SeqMin(rolls)
  }

  /** With two rolls: the larger of the two under advantage, the smaller under disadvantage. */
  lemma FinalOfTwo(mode: Mode, a: int, b: int)
    ensures mode == Normal ==> Final(mode, [a, b]) == a
    ensures mode == Advantage ==> Final(mode, [a, b]) == (if a >= b then a else b)
    ensures mode == Disadvantage ==> Final(mode, [a, b]) == (if a <= b then a else b)
  {
  }

  /** How many rolls a mode takes. */
  function RollsNeeded(mode: Mode): nat {
    if mode == Normal then 1 else 2
  }

  /**
   * handleRoll: append the result; in normal mode, or once two rolls are in,
   * settle the outcome; otherwise wait for the second roll.
   */
  function HandleRoll(g: Gate, res: int): (h: Gate)
    ensures h.rolls == g.rolls + [res] && h.mode == g.mode && !h.showDice
    ensures h.phase != Intro
    ensures Finished(h) <==> g.mode == Normal || |g.rolls| == 1
  {
    var next := g.rolls + [res];
    if g.mode == Normal || |next| == 2 then
      g.(rolls := next, phase := if Final(g.mode, next) >= DC then Success else Fail, showDice := false)
    else
      g.(rolls := next, phase := Progress, showDice := false, reopenPending := true)
  }

  /** What the player or a timer can do. */
  datatype Event =
    | ChooseMode(chosen: Mode)   // a mode button, shown only at the intro
    | Settled(res: int)          // the cast die comes to rest showing `res`
    | Deliver                    // 1200 ms later: onRollComplete(res)
    | CloseDice                  // the die's close button (onClose)
    | Reopen                     // the 500 ms timer after a first roll
    | TryAgain                   // the retry button, shown only after a failure

  /** Whether the event can happen: its button is rendered, the die is shown, or the timer is pending. */
  predicate Enabled(g: Gate, e: Event) {
    match e
    case ChooseMode(_) => g.phase == Intro
    case Settled(_) => g.showDice && g.resultPending.None?
    case Deliver => g.resultPending.Some?
    case CloseDice => g.showDice
    case Reopen => g.reopenPending
    case TryAgain => g.phase == Fail
  }

  /** One state transition of GateApp; an event that cannot happen leaves the state as it is. */
  function Step(g: Gate, e: Event): (g': Gate)
    ensures !Enabled(g, e) ==> g' == g
    ensures Enabled(g, e) && e.ChooseMode? ==> g'.rolls == [] && g'.mode == e.chosen && g'.showDice
    ensures Enabled(g, e) && e.Settled? ==> g' == g.(resultPending := Some(e.res))
    ensures Enabled(g, e) && e.Deliver? ==> g'.rolls == g.rolls + [g.resultPending.value] && g'.resultPending == None
    ensures Enabled(g, e) && e.CloseDice? ==> !g'.showDice && g'.resultPending == g.resultPending
    ensures !(Enabled(g, e) && e.ChooseMode?) ==> |g'.rolls| >= |g.rolls|
  {
    if !Enabled(g, e) then g
    else
      match e
      case ChooseMode(m) => g.(mode := m, rolls := [], showDice := true)
      case Settled(res) => g.(resultPending := Some(res))
      case Deliver => HandleRoll(g, g.resultPending.value).(resultPending := None)
      case CloseDice => g.(showDice := false)
      case Reopen => g.(showDice := true, reopenPending := false)
      case TryAgain => g.(phase := Intro)
  }

  function Run(g: Gate, events: seq<Event>): Gate
    decreases |events|
  {
    if events == [] then g else Run(Step(g, events[0]), events[1..])
  }

  /**
   * What holds in every state GateApp can reach: never more than two rolls; a
   * finished game holds exactly the rolls its mode takes and its outcome is
   * success iff the kept result is at least 10.
   */
  predicate Inv(g: Gate) {
    && |g.rolls| <= 2
    && (g.showDice ==> (g.phase == Intro && g.rolls == []) || (g.phase == Progress && !g.reopenPending))
    && (g.reopenPending ==> g.phase == Progress && !g.showDice)
    && (g.resultPending.Some? ==> (g.phase == Intro && g.rolls == []) || (g.phase == Progress && !g.reopenPending))
    && (g.phase == Progress ==> g.mode != Normal && |g.rolls| == 1)
    && (g.phase == Intro ==> g.rolls == [] || |g.rolls| == RollsNeeded(g.mode))
    && (Finished(g) ==> |g.rolls| == RollsNeeded(g.mode) && (g.phase == Success <==> Final(g.mode, g.rolls) >= DC))
  }

  lemma InitInv()
    ensures Inv(Init())
  {
  }

  lemma StepKeepsInv(g: Gate, e: Event)
    requires Inv(g)
    ensures Inv(Step(g, e))
  {
  }

  lemma {:induction false} RunKeepsInv(g: Gate, events: seq<Event>)
    requires Inv(g)
    ensures Inv(Run(g, events))
    decreases |events|
  {
    if events != [] {
      StepKeepsInv(g, events[0]);
      RunKeepsInv(Step(g, events[0]), events[1..]);
    }
  }

  /** Whatever the player does from the start, a finished game is settled by its kept result. */
  lemma ReachableOutcome(events: seq<Event>)
    ensures var g := Run(Init(), events);
      && |g.rolls| <= 2
      && (Finished(g) ==>
            |g.rolls| == RollsNeeded(g.mode) && (g.phase == Success <==> Final(g.mode, g.rolls) >= DC))
  {
    InitInv();
    RunKeepsInv(Init(), events);
  }

  /** Closing the die after it settles does not lose the result: it still settles the game. */
  lemma CloseBeforeDelivery()
    ensures var g := Run(Init(), [ChooseMode(Normal), Settled(15), CloseDice, Deliver]);
      g.phase == Success && g.rolls == [15] && !g.showDice
  {
  }

  /** How the display marks one roll: faded when discarded, enlarged when chosen. */
  datatype Mark = Mark(discarded: bool, chosen: bool)

  function MarkOf(g: Gate, r: int): Mark {
    if !Finished(g) then Mark(false, false)
    else if |g.rolls| > 1 then
      var discarded := if g.mode == Advantage then r < SeqMax(g.rolls) else r > SeqMin(g.rolls);
      Mark(discarded, !discarded)
    else Mark(false, true)
  }

  /**
   * In a finished game a roll is marked chosen iff it equals the kept result
   * (so on a tie both are), every roll is chosen or discarded, and some roll is chosen.
   * Before the end no roll is marked.
   */
  lemma MarksFollowFinal(g: Gate)
    requires Inv(g)
    ensures Finished(g) ==>
      && (forall i :: 0 <= i < |g.rolls| ==> (MarkOf(g, g.rolls[i]).chosen <==> g.rolls[i] == Final(g.mode, g.rolls)))
      && (forall i :: 0 <= i < |g.rolls| ==> MarkOf(g, g.rolls[i]).chosen != MarkOf(g, g.rolls[i]).discarded)
      && (exists i :: 0 <= i < |g.rolls| && MarkOf(g, g.rolls[i]).chosen)
    ensures !Finished(g) ==> forall r :: MarkOf(g, r) == Mark(false, false)
  {
  }
}
