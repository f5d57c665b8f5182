/**
 * The quiz round engine of the game page: six pieces of component state driven
 * by the one-second timer, the answer buttons and the round transition.
 *
 * Every handler reads the state of the render it was created in and queues its
 * updates, which React applies after the handler returns. The pure functions
 * below give each handler's effect on a snapshot of the state; the class
 * GameRound holds the same state in fields and its methods are proved to
 * perform exactly those effects.
 */
module GamePage {
  import opened Wrappers
  import Js
  import Standing = Leaderboard

  /** Seconds on the clock at the start of every question. */
  const ROUND_SECONDS: int := 20
  /** Points for a correct answer, before the time bonus. */
  const BASE_POINTS: int := 500
  /** Bonus points for every second still on the clock. */
  const POINTS_PER_SECOND: int := 50

  datatype QuizQuestion = QuizQuestion(text: string, options: seq<string>, correct: nat)

  const QUESTIONS: seq<QuizQuestion> := [
    QuizQuestion("WHAT IS THE MAXIMUM GAS BUDGET FOR A SUI TRANSACTION?",
      ["1000 SUI", "50,000 MIST", "10,000,000,000 MIST", "UNLIMITED"], 2),
    QuizQuestion("WHICH CONSENSUS ENGINE DOES SUI USE?",
      ["NARWHAL & BULLSHARK", "PROOF OF WORK", "TENDERMINT", "PROOF OF HISTORY"], 0),
    QuizQuestion("WHAT IS THE NATIVE LANGUAGE FOR SUI SMART CONTRACTS?",
      ["SOLIDITY", "RUST", "MOVE", "TYPESCRIPT"], 2)
  ]

  datatype Phase = Question | Leaderboard

  /** What the handlers read from the page but do not own: the game's player list, the connected account and the route's game id. */
  datatype Context = Context(players: seq<string>, account: Option<string>, gameId: string)

  /** One render's snapshot of the component state. */
  datatype State = State(
    timeLeft: int,
    phase: Phase,
    questionIndex: int,
    selectedOption: Option<int>,
    myScore: int,
    leaderboard: seq<Standing.Entry>)

  const INITIAL: State := State(ROUND_SECONDS, Question, 0, None, 0, [])

  /** The bounds every reachable state keeps. */
  predicate Valid(s: State)
  {
    && 0 <= s.timeLeft <= ROUND_SECONDS
    && 0 <= s.questionIndex < |QUESTIONS|
    && 0 <= s.myScore
    && (s.phase == Leaderboard ==> s.questionIndex == |QUESTIONS| - 1)
  }

  /** `500 + timeLeft * 50`: the points a correct answer earns with `timeLeft` seconds left. */
  function RoundScore(timeLeft: int): int
  {
    BASE_POINTS + timeLeft * POINTS_PER_SECOND
  }

  /** An answer is selected and it is the current question's correct option. */
  predicate AnsweredCorrectly(s: State)
    requires 0 <= s.questionIndex < |QUESTIONS|
  {
    s.selectedOption.Some? && s.selectedOption.value == QUESTIONS[s.questionIndex].correct
  }

  /** The points the current round adds to the score when it ends. */
  function RoundBonus(s: State): int
    requires 0 <= s.questionIndex < |QUESTIONS|
  {
    if AnsweredCorrectly(s) then RoundScore(s.timeLeft) else 0
  }

  /** The score once the current round is settled: this render's score plus the round's bonus. */
  function SettledScore(s: State): int
    requires 0 <= s.questionIndex < |QUESTIONS|
  {
    s.myScore + RoundBonus(s)
  }

  /** `handleOptionSelect(index)`: the first selection of a round sticks. */
  function SelectOption(s: State, index: int): State
  {
    if s.selectedOption.Some? then s else s.(selectedOption := Some(index))
  }

  /**
   * `handleNextPhase`: score the round, then either move to the next question
   * with a fresh clock and no selection, or build the final standing and show
   * it. The standing is built from this render's score plus the round's bonus,
   * because the queued score update is not visible to it.
   */
  function NextPhase(s: State, ctx: Context): State
    requires 0 <= s.questionIndex < |QUESTIONS|
  {
    var score := SettledScore(s);
    if s.questionIndex < |QUESTIONS| - 1 then
      s.(myScore := score, questionIndex := s.questionIndex + 1,
         timeLeft := ROUND_SECONDS, selectedOption := None)
    else
      s.(myScore := score, phase := Leaderboard,
         leaderboard := Standing.FinalLeaderboard(ctx.players, ctx.account, ctx.gameId, score))
  }

  /**
   * One event of the timer effect: while a question is shown, the interval
   * takes a second off the clock; once the clock reads 0 the effect ends the
   * round instead. In the leaderboard phase the effect does nothing.
   */
  function Tick(s: State, ctx: Context): State
    requires 0 <= s.questionIndex < |QUESTIONS|
  {
    if s.phase != Question then s
    else if s.timeLeft > 0 then s.(timeLeft := s.timeLeft - 1)
    else NextPhase(s, ctx)
  }

  /** The events that drive the page: a timer event, or a click on an answer. */
  datatype Event = TimerEvent(ctx: Context) | Click(option: int)

  /** One event; it keeps the state valid, so the clock stays in [0, 20] and the question index in range. */
  function Step(s: State, e: Event): (r: State)
    requires Valid(s)
    ensures Valid(r)
  {
    match e
    case TimerEvent(ctx) => Tick(s, ctx)
    case Click(option) => SelectOption(s, option)
  }

  /** The state after a run of events. */
  function Run(s: State, events: seq<Event>): State
    requires Valid(s)
    decreases |events|
  {
    if events == [] then s
    else Run(Step(s, events[0]), events[1..])
  }

  // ---------------------------------------------------------------------------
  // Selection lock

  /**
   * The first selection of a round is kept, a later one changes nothing, and
   * selecting touches no other part of the state.
   */
  lemma SelectionLock(s: State, first: int, second: int)
    ensures SelectOption(s, first).selectedOption ==
      if s.selectedOption.Some? then s.selectedOption else Some(first)
    ensures SelectOption(SelectOption(s, first), second) == SelectOption(s, first)
    ensures SelectOption(s, first).(selectedOption := s.selectedOption) == s
  {
  }

  // ---------------------------------------------------------------------------
  // Timer

  /**
   * The clock moves only in the question phase and only while it is above 0,
   * and then by exactly one second with nothing else changing.
   */
  lemma TickCountsDown(s: State, ctx: Context)
    requires Valid(s)
    ensures Tick(s, ctx).timeLeft < s.timeLeft <==> s.phase == Question && s.timeLeft > 0
    ensures s.phase == Question && s.timeLeft > 0 ==>
      Tick(s, ctx).timeLeft == s.timeLeft - 1 && Tick(s, ctx).(timeLeft := s.timeLeft) == s
  {
  }

  // ---------------------------------------------------------------------------
  // Scoring

  /** The round scores only on a correct answer, and then by 500 plus 50 per second left. */
  lemma NextPhaseScoresCorrectAnswersOnly(s: State, ctx: Context)
    requires Valid(s)
    ensures NextPhase(s, ctx).myScore > s.myScore <==> AnsweredCorrectly(s)
    ensures !AnsweredCorrectly(s) ==> NextPhase(s, ctx).myScore == s.myScore
    ensures AnsweredCorrectly(s) ==>
      NextPhase(s, ctx).myScore == s.myScore + BASE_POINTS + s.timeLeft * POINTS_PER_SECOND
  {
  }

  /**
   * The timer ends a round only when the clock reads 0, so a correct answer
   * earns exactly 500 points; the score changes on no other event.
   */
  lemma TimeoutScoresBasePoints(s: State, ctx: Context)
    requires Valid(s)
    ensures Tick(s, ctx).myScore != s.myScore ==>
      s.phase == Question && s.timeLeft == 0 && AnsweredCorrectly(s)
    ensures s.phase == Question && s.timeLeft == 0 ==>
      Tick(s, ctx).myScore == s.myScore + (if AnsweredCorrectly(s) then BASE_POINTS else 0)
  {
  }

  // ---------------------------------------------------------------------------
  // Round transitions

  /**
   * Before the last question, the next question starts: index up by one, clock
   * reset to 20, selection cleared, phase and standing unchanged.
   */
  lemma NextPhaseAdvances(s: State, ctx: Context)
    requires 0 <= s.questionIndex < |QUESTIONS| - 1
    ensures var t := NextPhase(s, ctx);
      && t.myScore == s.myScore + RoundBonus(s)
      && t.questionIndex == s.questionIndex + 1
      && t.timeLeft == ROUND_SECONDS
      && t.selectedOption == None
      && t.phase == s.phase
      && t.leaderboard == s.leaderboard
  {
  }

  /**
   * After the last question the page shows the final standing, built with the
   * score the page itself ends with: the local account's entries carry exactly
   * the new score.
   */
  lemma NextPhaseEndsGame(s: State, ctx: Context)
    requires s.questionIndex == |QUESTIONS| - 1
    ensures var t := NextPhase(s, ctx);
      && t.myScore == s.myScore + RoundBonus(s)
      && t.phase == Leaderboard
      && t.questionIndex == s.questionIndex && t.timeLeft == s.timeLeft
      && t.selectedOption == s.selectedOption
      && t.leaderboard == Standing.FinalLeaderboard(ctx.players, ctx.account, ctx.gameId, t.myScore)
      && |t.leaderboard| == |ctx.players|
      && (forall e :: e in t.leaderboard && ctx.account.Some? && Js.SameAddress(e.address, ctx.account.value) ==>
            e.score == t.myScore)
  {
    var t := NextPhase(s, ctx);
    Standing.FinalLeaderboardSpec(ctx.players, ctx.account, ctx.gameId, t.myScore);
  }

  /**
   * The leaderboard phase is terminal: whatever events follow, the phase, the
   * score, the standing, the question and the clock stay as they are.
   */
  lemma {:induction false} LeaderboardIsTerminal(s: State, events: seq<Event>)
    requires Valid(s) && s.phase == Leaderboard
    decreases |events|
    ensures var t := Run(s, events);
      && t.phase == Leaderboard
      && t.myScore == s.myScore
      && t.leaderboard == s.leaderboard
      && t.questionIndex == s.questionIndex
      && t.timeLeft == s.timeLeft
  {
    if events != [] {
      var next := Step(s, events[0]);
      assert next.(selectedOption := s.selectedOption) == s;
      LeaderboardIsTerminal(next, events[1..]);
    }
  }

  // ---------------------------------------------------------------------------
  // What every run from the initial state keeps

  /** Rounds whose score has been settled. */
  function RoundsPlayed(s: State): int
  {
    s.questionIndex + (if s.phase == Leaderboard then 1 else 0)
  }

  /**
   * Reachable states: valid, the score a whole number of 500-point rounds and
   * at most 500 per settled round, and no standing before the game ends.
   */
  predicate Reachable(s: State)
  {
    && Valid(s)
    && s.myScore % BASE_POINTS == 0
    && s.myScore <= BASE_POINTS * RoundsPlayed(s)
    && (s.phase == Question ==> s.leaderboard == [])
  }

  lemma StepKeepsReachable(s: State, e: Event)
    requires Reachable(s)
    ensures Reachable(Step(s, e))
  {
    match e
    case Click(_) =>
    case TimerEvent(ctx) =>
      if s.phase == Question && s.timeLeft == 0 {
        assert RoundBonus(s) == 0 || RoundBonus(s) == BASE_POINTS;
      }
  }

  /**
   * From the initial state, every run of timer events and clicks stays
   * reachable: question index in range, clock in [0, 20], score a multiple of
   * 500 bounded by the rounds played.
   */
  lemma {:induction false} RunKeepsReachable(s: State, events: seq<Event>)
    requires Reachable(s)
    ensures Reachable(Run(s, events))
    decreases |events|
  {
    if events != [] {
      StepKeepsReachable(s, events[0]);
      RunKeepsReachable(Step(s, events[0]), events[1..]);
    }
  }

  lemma InitialIsReachable()
    ensures Reachable(INITIAL)
  {
  }

  // ---------------------------------------------------------------------------
  // The component

  /** The game page's state, updated in place by its handlers. */
  class GameRound {
    var timeLeft: int
    var phase: Phase
    var currentQuestionIndex: int
    var selectedOption: Option<int>
    var myScore: int
    var leaderboard: seq<Standing.Entry>

    function Snapshot(): State
      reads this
    {
      State(timeLeft, phase, currentQuestionIndex, selectedOption, myScore, leaderboard)
    }

    /** The initial `useState` values. */
    constructor ()
      ensures Snapshot() == INITIAL
    {
      timeLeft := ROUND_SECONDS;
      phase := Question;
      currentQuestionIndex := 0;
      selectedOption := None;
      myScore := 0;
      leaderboard := [];
    }

    method HandleOptionSelect(index: int)
      modifies this
      ensures Snapshot() == SelectOption(old(Snapshot()), index)
    {
      if selectedOption.Some? {
        return;
      }
      selectedOption := Some(index);
    }

    /**
     * Sets the standing from this render's player list, account and score; the
     * local player's entry includes the bonus of the round being ended.
     */
    method GenerateFinalLeaderboard(ctx: Context)
      requires 0 <= currentQuestionIndex < |QUESTIONS|
      modifies this`leaderboard
      ensures leaderboard == Standing.FinalLeaderboard(ctx.players, ctx.account, ctx.gameId,
        SettledScore(old(Snapshot())))
    {
      leaderboard := Standing.FinalLeaderboard(ctx.players, ctx.account, ctx.gameId, SettledScore(Snapshot()));
    }

    method HandleNextPhase(ctx: Context)
      requires 0 <= currentQuestionIndex < |QUESTIONS|
      modifies this
      ensures Snapshot() == NextPhase(old(Snapshot()), ctx)
    {
      ghost var before := Snapshot();
      // The score update is queued: it takes effect after everything below has read this render's values.
      var roundScore := 0;
      if selectedOption.Some? && selectedOption.value == QUESTIONS[currentQuestionIndex].correct {
        roundScore := BASE_POINTS + timeLeft * POINTS_PER_SECOND;
      }
      assert roundScore == RoundBonus(before);
      if currentQuestionIndex < |QUESTIONS| - 1 {
        currentQuestionIndex := currentQuestionIndex + 1;
        timeLeft := ROUND_SECONDS;
        selectedOption := None;
        myScore := myScore + roundScore;
        NextPhaseAdvances(before, ctx);
      } else {
        NextPhaseEndsGame(before, ctx);
        GenerateFinalLeaderboard(ctx);
        phase := Leaderboard;
        myScore := myScore + roundScore;
      }
    }

    /** One event of the timer effect. */
    method TimerTick(ctx: Context)
      requires 0 <= currentQuestionIndex < |QUESTIONS|
      modifies this
      ensures Snapshot() == Tick(old(Snapshot()), ctx)
    {
      if phase != Question {
        return;
      }
      if timeLeft > 0 {
        timeLeft := timeLeft - 1;
      } else {
        HandleNextPhase(ctx);
      }
    }
  }
}
