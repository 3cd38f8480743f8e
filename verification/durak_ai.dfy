/**
 The decision policy of ai/durak_ai.py: which action to take for the cards on
 the table, which card to play, how the previous move is scored, and how the
 learning engine is fed during and at the end of a game.
 */
module DurakAi {
  import opened Wrappers
  import opened Cards
  import opened Selection
  import opened LearningEngine

  /** The player state the AI keeps between calls. */
  datatype Ai = Ai(
    hand: seq<Card>,
    trumpSuit: Option<Suit>,
    opponentCards: nat,
    deckRemaining: nat,
    aggressive: bool,
    autoPlay: bool,
    engine: Engine,
    gameMoves: nat,
    lastState: Option<GameState>,
    lastAction: Option<GameAction>)

  /** A new AI: empty hand, aggressive mode on, auto play off, a fresh engine. */
  const NewAi: Ai := Ai([], None, 0, 0, true, false, InitialEngine, 0, None, None)

  /** Rank index of the queen: cards from here up are high cards. */
  const HighRankIndex: nat := 6

  // ---------------------------------------------------------------------------
  // Scores
  // ---------------------------------------------------------------------------

  /** The adjustment factor for the rank weight: 1.0 when no adjustments are given. */
  function RankFactor(adj: Option<Adjustments>): real
  {
    if adj.Some? then adj.value.rank else 1.0
  }

  function TrumpFactor(adj: Option<Adjustments>): real
  {
    if adj.Some? then adj.value.trump else 1.0
  }

  function AggressiveFactor(adj: Option<Adjustments>): real
  {
    if adj.Some? then adj.value.aggressive else 1.0
  }

  /** The learned weights scaled by the application's adjustments. */
  function RankWeight(ai: Ai, adj: Option<Adjustments>): real
  {
    ai.engine.weights.rank * RankFactor(adj)
  }

  function TrumpWeight(ai: Ai, adj: Option<Adjustments>): real
  {
    ai.engine.weights.trump * TrumpFactor(adj)
  }

  function AggressiveWeight(ai: Ai, adj: Option<Adjustments>): real
  {
    ai.engine.weights.aggressive * AggressiveFactor(adj)
  }

  /** The adjustments of the engine's current application. */
  function CurrentAdjustments(ai: Ai): Option<Adjustments>
    requires AppKnown(ai.engine)
  {
    GetStrategyAdjustments(ai.engine)
  }

  /** How many cards of the hand have rank `r`. */
  function SameRankCount(hand: seq<Card>, r: Rank): (n: nat)
    ensures n <= |hand|
  {
    if |hand| == 0 then 0
    else SameRankCount(hand[..|hand| - 1], r) + (if hand[|hand| - 1].rank == r then 1 else 0)
  }

  /** How many cards of the hand are of the trump suit. */
  function TrumpCount(hand: seq<Card>, trump: Option<Suit>): (n: nat)
    ensures n <= |hand|
  {
    if |hand| == 0 then 0
    else TrumpCount(hand[..|hand| - 1], trump) + (if IsTrump(hand[|hand| - 1], trump) then 1 else 0)
  }

  /** How many cards of the hand rank queen or higher. */
  function HighCount(hand: seq<Card>): (n: nat)
    ensures n <= |hand|
  {
    if |hand| == 0 then 0
    else HighCount(hand[..|hand| - 1]) + (if RankIndex(hand[|hand| - 1].rank) >= HighRankIndex then 1 else 0)
  }

  /** _calculate_attack_score: the desirability of leading (or adding) `c`. */
  function AttackScore(ai: Ai, c: Card, adj: Option<Adjustments>): real
  {
    AttackTerms(ai, c, adj) * AggressiveWeight(ai, adj)
  }

  /** The attack score before the aggressive factor is applied. */
  function AttackTerms(ai: Ai, c: Card, adj: Option<Adjustments>): real
  {
    RankTerm(ai, c, adj) + TrumpTerm(ai, c, adj) + OpponentTerm(ai) + SameRankTerm(ai, c)
  }

  /** The rank's share of the rank order, weighted and adjusted. */
  function RankTerm(ai: Ai, c: Card, adj: Option<Adjustments>): real
  {
    RankShare(c) * RankWeight(ai, adj)
  }

  /** The rank index as a fraction of the number of ranks, in [0, 8/9]. */
  function RankShare(c: Card): real
  {
    RankIndex(c.rank) as real / RankCount as real
  }

  /** A trump is penalised in aggressive mode and favoured otherwise. */
  function TrumpTerm(ai: Ai, c: Card, adj: Option<Adjustments>): real
  {
    var t := TrumpWeight(ai, adj);
    if IsTrump(c, ai.trumpSuit) then (if ai.aggressive then -t else t) else 0.0
  }

  /** A bonus when the opponent holds at most two cards. */
  function OpponentTerm(ai: Ai): real
  {
    if ai.opponentCards <= 2 then ai.engine.weights.opponentCards else 0.0
  }

  /** A bonus per hand card sharing the rank (the card itself included). */
  function SameRankTerm(ai: Ai, c: Card): real
  {
    SameRankCount(ai.hand, c.rank) as real * ai.engine.weights.sameRank
  }

  /** _calculate_defense_score: the cost of beating `attacking` with `c`. */
  function DefenseScore(ai: Ai, c: Card, attacking: Card, adj: Option<Adjustments>): real
  {
    var trumpTerm :=
      if IsTrump(c, ai.trumpSuit) && !IsTrump(attacking, ai.trumpSuit) then TrumpWeight(ai, adj) else 0.0;
    var lowHandTerm := if |ai.hand| <= 3 then ai.engine.weights.opponentCards else 0.0;
    DefenseRankTerm(ai, c, attacking, adj) + trumpTerm - lowHandTerm
  }

  /** The rank difference to the attacking card, weighted and adjusted. */
  function DefenseRankTerm(ai: Ai, c: Card, attacking: Card, adj: Option<Adjustments>): real
  {
    RankGap(c, attacking) * RankWeight(ai, adj)
  }

  /** How many ranks `c` stands above `attacking` (negative when below). */
  function RankGap(c: Card, attacking: Card): real
  {
    (RankIndex(c.rank) as int - RankIndex(attacking.rank) as int) as real
  }

  /**
   With a positive rank weight, a higher card of the same suit (and as many
   same-rank companions in hand) earns a larger attack score before the
   aggressive factor scales it.
   */
  lemma AttackTermsGrowWithRank(ai: Ai, c: Card, d: Card, adj: Option<Adjustments>)
    requires c.suit == d.suit && RankIndex(c.rank) < RankIndex(d.rank)
    requires SameRankCount(ai.hand, c.rank) == SameRankCount(ai.hand, d.rank)
    requires RankWeight(ai, adj) > 0.0
    ensures AttackTerms(ai, c, adj) < AttackTerms(ai, d, adj)
  {
    RankTermOrdered(ai, c, d, adj);
    assert TrumpTerm(ai, c, adj) == TrumpTerm(ai, d, adj);
    assert SameRankTerm(ai, c) == SameRankTerm(ai, d);
  }

  lemma RankTermOrdered(ai: Ai, c: Card, d: Card, adj: Option<Adjustments>)
    requires RankIndex(c.rank) < RankIndex(d.rank)
    requires RankWeight(ai, adj) > 0.0
    ensures RankTerm(ai, c, adj) < RankTerm(ai, d, adj)
  {
    ScaleKeepsOrder(RankShare(c), RankShare(d), RankWeight(ai, adj));
  }

  /**
   With a positive rank weight, of two defenders with the same trump status
   the lower-ranked one is the cheaper defence.
   */
  lemma DefenseScoreGrowsWithRank(ai: Ai, c: Card, d: Card, attacking: Card, adj: Option<Adjustments>)
    requires IsTrump(c, ai.trumpSuit) == IsTrump(d, ai.trumpSuit)
    requires RankIndex(c.rank) < RankIndex(d.rank)
    requires RankWeight(ai, adj) > 0.0
    ensures DefenseScore(ai, c, attacking, adj) < DefenseScore(ai, d, attacking, adj)
  {
    assert DefenseRankTerm(ai, c, attacking, adj) < DefenseRankTerm(ai, d, attacking, adj) by {
      ScaleKeepsOrder(RankGap(c, attacking), RankGap(d, attacking), RankWeight(ai, adj));
    }
  }

  lemma ScaleKeepsOrder(x: real, y: real, k: real)
    requires x < y && k > 0.0
    ensures x * k < y * k
  {
    assert y * k - x * k == (y - x) * k;
  }

  lemma ScaledDifference(x: real, y: real, k: real)
    ensures x * k - y * k == (x - y) * k
  {
  }

  lemma PositiveProduct(x: real, y: real)
    requires x > 0.0 && y > 0.0
    ensures x * y > 0.0
  {
  }

  /**
   In aggressive mode a trump is held back: with positive trump weight and
   aggressive product it scores below a non-trump of the same rank; outside
   aggressive mode it scores above.
   */
  lemma AttackScoreTrumpPolicy(ai: Ai, c: Card, d: Card, adj: Option<Adjustments>)
    requires c.rank == d.rank && IsTrump(c, ai.trumpSuit) && !IsTrump(d, ai.trumpSuit)
    requires TrumpWeight(ai, adj) > 0.0
    requires AggressiveWeight(ai, adj) > 0.0
    ensures ai.aggressive ==> AttackScore(ai, c, adj) < AttackScore(ai, d, adj)
    ensures !ai.aggressive ==> AttackScore(ai, c, adj) > AttackScore(ai, d, adj)
  {
    var t := TrumpWeight(ai, adj);
    var a := AggressiveWeight(ai, adj);
    var gap := AttackTerms(ai, d, adj) - AttackTerms(ai, c, adj);
    assert ai.aggressive ==> gap == t;
    assert !ai.aggressive ==> gap == -t;
    ScaledDifference(AttackTerms(ai, d, adj), AttackTerms(ai, c, adj), a);
    if ai.aggressive {
      PositiveProduct(t, a);
    } else {
      PositiveProduct(t, a);
      assert gap * a == -(t * a);
    }
  }

  // ---------------------------------------------------------------------------
  // Card choice
  // ---------------------------------------------------------------------------

  function AttackScores(ai: Ai, adj: Option<Adjustments>): (s: seq<real>)
    ensures |s| == |ai.hand|
    ensures forall i | 0 <= i < |s| :: s[i] == AttackScore(ai, ai.hand[i], adj)
  {
    seq(|ai.hand|, i requires 0 <= i < |ai.hand| => AttackScore(ai, ai.hand[i], adj))
  }

  /**
   _choose_attack_card: nothing from an empty hand; otherwise the first card of
   the hand with the greatest attack score.
   */
  function ChooseAttackCard(ai: Ai): (r: Option<Card>)
    requires AppKnown(ai.engine)
    ensures r.None? <==> |ai.hand| == 0
    ensures r.Some? ==>
      var adj := CurrentAdjustments(ai);
      exists i | 0 <= i < |ai.hand| :: ai.hand[i] == r.value && FirstGreatest(AttackScores(ai, adj), i)
  {
    if |ai.hand| == 0 then None
    else
      var adj := CurrentAdjustments(ai);
      var i := FirstMax(AttackScores(ai, adj));
      Some(ai.hand[i])
  }

  function DefenseScores(ai: Ai, attacking: Card, adj: Option<Adjustments>): (s: seq<real>)
    ensures |s| == |ai.hand|
    ensures forall i | 0 <= i < |s| :: s[i] == DefenseScore(ai, ai.hand[i], attacking, adj)
  {
    seq(|ai.hand|, i requires 0 <= i < |ai.hand| => DefenseScore(ai, ai.hand[i], attacking, adj))
  }

  /** Which cards of the hand beat `attacking`. */
  function Beaters(ai: Ai, attacking: Card): (e: seq<bool>)
    ensures |e| == |ai.hand|
    ensures forall i | 0 <= i < |e| :: e[i] == CanBeat(ai.hand[i], attacking, ai.trumpSuit)
  {
    seq(|ai.hand|, i requires 0 <= i < |ai.hand| => CanBeat(ai.hand[i], attacking, ai.trumpSuit))
  }

  /**
   _find_best_defense: among the hand's cards that beat `attacking`, the first
   one with the least defence score; nothing when no card beats it.
   */
  function FindBestDefense(ai: Ai, attacking: Card): (r: Option<Card>)
    requires AppKnown(ai.engine)
    ensures r.None? <==> forall j | 0 <= j < |ai.hand| :: !CanBeat(ai.hand[j], attacking, ai.trumpSuit)
    ensures r.Some? ==>
      var adj := CurrentAdjustments(ai);
      exists i | 0 <= i < |ai.hand| ::
        ai.hand[i] == r.value && FirstLeast(DefenseScores(ai, attacking, adj), Beaters(ai, attacking), i)
    ensures r.Some? ==> r.value in ai.hand && CanBeat(r.value, attacking, ai.trumpSuit)
  {
    var adj := CurrentAdjustments(ai);
    match FirstMin(DefenseScores(ai, attacking, adj), Beaters(ai, attacking))
    case None => None
    case Some(i) => Some(ai.hand[i])
  }

  /** The set of ranks on the table. */
  function TableRanks(table: seq<Card>): set<Rank>
  {
    set c | c in table :: c.rank
  }

  /** Which cards of the hand share a rank with a table card. */
  function Matching(ai: Ai, table: seq<Card>): (e: seq<bool>)
    ensures |e| == |ai.hand|
    ensures forall i | 0 <= i < |e| :: e[i] == (ai.hand[i].rank in TableRanks(table))
  {
    seq(|ai.hand|, i requires 0 <= i < |ai.hand| => ai.hand[i].rank in TableRanks(table))
  }

  /**
   _choose_card_to_add: among the hand's cards whose rank is on the table, the
   first one with the least attack score; nothing when none matches.
   */
  function ChooseCardToAdd(ai: Ai, table: seq<Card>): (r: Option<Card>)
    requires AppKnown(ai.engine)
    ensures r.None? <==> forall j | 0 <= j < |ai.hand| :: ai.hand[j].rank !in TableRanks(table)
    ensures r.Some? ==>
      var adj := CurrentAdjustments(ai);
      exists i | 0 <= i < |ai.hand| ::
        ai.hand[i] == r.value && FirstLeast(AttackScores(ai, adj), Matching(ai, table), i)
    ensures r.Some? ==> r.value in ai.hand && r.value.rank in TableRanks(table)
  {
    if |table| == 0 then None
    else
      var adj := CurrentAdjustments(ai);
      match FirstMin(AttackScores(ai, adj), Matching(ai, table))
      case None => None
      case Some(i) => Some(ai.hand[i])
  }

  /**
   _choose_action: the table alone decides the state. Empty: attack. An odd
   number of cards: defend the last one, or take. An even, non-zero number:
   add a card, or declare the round done.
   */
  function ChooseAction(ai: Ai, table: seq<Card>): (r: GameAction)
    requires AppKnown(ai.engine)
    ensures |table| == 0 ==> r.actionType == Attack && r.card == ChooseAttackCard(ai)
    ensures |table| == 0 ==> (r.card.None? <==> |ai.hand| == 0)
    ensures |table| % 2 == 1 ==> r.actionType in {Defend, Take}
    ensures |table| % 2 == 1 && r.actionType == Defend ==>
      r.card == FindBestDefense(ai, table[|table| - 1]) && r.card.Some?
      && r.card.value in ai.hand && CanBeat(r.card.value, table[|table| - 1], ai.trumpSuit)
    ensures |table| % 2 == 1 ==>
      (r.actionType == Take <==> forall j | 0 <= j < |ai.hand| :: !CanBeat(ai.hand[j], table[|table| - 1], ai.trumpSuit))
    ensures |table| > 0 && |table| % 2 == 0 ==> r.actionType in {Add, Done}
    ensures |table| > 0 && |table| % 2 == 0 && r.actionType == Add ==>
      r.card == ChooseCardToAdd(ai, table) && r.card.Some?
      && r.card.value in ai.hand && r.card.value.rank in TableRanks(table)
    ensures |table| > 0 && |table| % 2 == 0 ==>
      (r.actionType == Done <==> forall j | 0 <= j < |ai.hand| :: ai.hand[j].rank !in TableRanks(table))
    ensures r.actionType in {Take, Done} ==> r.card.None?
  {
    if |table| == 0 then
      GameAction(Attack, ChooseAttackCard(ai))
    else if |table| % 2 == 1 then
      var card := FindBestDefense(ai, table[|table| - 1]);
      if card.Some? then GameAction(Defend, card) else GameAction(Take, None)
    else
      var card := ChooseCardToAdd(ai, table);
      if card.Some? then GameAction(Add, card) else GameAction(Done, None)
  }

  // ---------------------------------------------------------------------------
  // Scoring a move and the position
  // ---------------------------------------------------------------------------

  /**
   _evaluate_move_result: 0.3 if the hand shrank, 0.4 if the opponent's card
   count grew, 0.2 if no trump was lost (trumps counted against the AI's
   current trump suit), clamped to [0, 1].
   */
  function EvaluateMoveResult(ai: Ai, last: GameState, current: GameState): (r: real)
    ensures 0.0 <= r <= 0.9
    ensures r == (if |current.hand| < |last.hand| then 0.3 else 0.0)
               + (if current.opponentCards > last.opponentCards then 0.4 else 0.0)
               + (if TrumpCount(current.hand, ai.trumpSuit) >= TrumpCount(last.hand, ai.trumpSuit) then 0.2 else 0.0)
  {
    var cardsDiff := |last.hand| - |current.hand|;
    var opponentDiff := current.opponentCards - last.opponentCards;
    var handBonus := if cardsDiff > 0 then 0.3 else 0.0;
    var opponentBonus := if opponentDiff > 0 then 0.4 else 0.0;
    var trumpBonus := if TrumpCount(current.hand, ai.trumpSuit) >= TrumpCount(last.hand, ai.trumpSuit) then 0.2 else 0.0;
    Clamp(handBonus + opponentBonus + trumpBonus)
  }

  /** `x` cut to the interval [0, 1]. */
  function Clamp(x: real): (r: real)
    ensures 0.0 <= r <= 1.0
    ensures 0.0 <= x <= 1.0 ==> r == x
  {
    if x < 0.0 then 0.0 else if x > 1.0 then 1.0 else x
  }

  /**
   A move's score clears the 0.7 pattern threshold exactly when all three
   signals fired: the hand shrank, the opponent picked up, and no trump was lost.
   */
  lemma MoveScoreAboveThreshold(ai: Ai, last: GameState, current: GameState)
    ensures EvaluateMoveResult(ai, last, current) > PatternThreshold <==>
      && |current.hand| < |last.hand|
      && current.opponentCards > last.opponentCards
      && TrumpCount(current.hand, ai.trumpSuit) >= TrumpCount(last.hand, ai.trumpSuit)
  {
  }

  lemma DivAtMost(a: real, b: real, n: real)
    requires n > 0.0 && a <= b * n
    ensures a / n <= b
  {
  }

  /**
   evaluate_position: 1.0 for an empty hand; otherwise a blend of hand quality,
   card-count ratio and deck state, clamped to [0, 1]. A non-empty hand never
   rates above 0.68, so the clamp never acts.
   */
  function EvaluatePosition(ai: Ai): (r: real)
    ensures 0.0 <= r <= 1.0
    ensures |ai.hand| == 0 ==> r == 1.0
    ensures |ai.hand| > 0 ==> r <= 0.68
  {
    if |ai.hand| == 0 then 1.0
    else
      var n := |ai.hand| as real;
      var trumps := TrumpCount(ai.hand, ai.trumpSuit) as real;
      var high := HighCount(ai.hand) as real;
      var cardsScore := (trumps * 0.4 + high * 0.3) / n;
      assert 0.0 <= cardsScore <= 0.7 by {
        DivAtMost(trumps * 0.4 + high * 0.3, 0.7, n);
      }
      var cardsRatio := n / (ai.opponentCards as real + 1.0);
      var ratioScore := 1.0 - (if cardsRatio < 1.0 then cardsRatio else 1.0);
      assert 0.0 <= ratioScore <= 1.0;
      var deckFactor := if ai.deckRemaining == 0 then 1.0 else 0.7;
      var score := (cardsScore * 0.4 + ratioScore * 0.4) * deckFactor;
      assert score <= 0.68;
      Clamp(score)
  }

  // ---------------------------------------------------------------------------
  // Driving the engine
  // ---------------------------------------------------------------------------

  /** update_game_state: new observations; a non-empty window title selects the application. */
  function UpdateGameState(ai: Ai, hand: seq<Card>, trump: Option<Suit>, opponentCards: nat,
                           deckRemaining: nat, title: Option<string>): (r: Ai)
    ensures r.hand == hand && r.trumpSuit == trump
    ensures r.opponentCards == opponentCards && r.deckRemaining == deckRemaining
    ensures title.Some? && title.value != "" ==> r.engine == DetectCurrentApp(ai.engine, title.value)
    ensures title.None? || title.value == "" ==> r.engine == ai.engine
    ensures r.gameMoves == ai.gameMoves && r.lastState == ai.lastState && r.lastAction == ai.lastAction
    ensures r == ai.(hand := hand, trumpSuit := trump, opponentCards := opponentCards,
                     deckRemaining := deckRemaining, engine := r.engine)
  {
    var ai1 := ai.(hand := hand, trumpSuit := trump, opponentCards := opponentCards, deckRemaining := deckRemaining);
    if title.Some? && title.value != "" then ai1.(engine := DetectCurrentApp(ai.engine, title.value)) else ai1
  }

  /** The GameState built from the AI's current view and the table. */
  function Observe(ai: Ai, table: seq<Card>): GameState
  {
    GameState(ai.hand, table, ai.trumpSuit, ai.opponentCards, ai.deckRemaining)
  }

  /**
   get_auto_play_action: count the move; if a previous state and action exist,
   score that move against the new state and record it; then choose an action
   and remember it with the new state.
   */
  function GetAutoPlayAction(ai: Ai, table: seq<Card>): (r: (Ai, GameAction))
    requires AppKnown(ai.engine)
    ensures r.0.gameMoves == ai.gameMoves + 1
    ensures r.0.lastState == Some(Observe(ai, table)) && r.0.lastAction == Some(r.1)
    ensures ai.lastState.Some? && ai.lastAction.Some? ==>
      r.0.engine.history == ai.engine.history +
        [Move(ai.lastState.value, ai.lastAction.value, EvaluateMoveResult(ai, ai.lastState.value, Observe(ai, table)))]
    ensures ai.lastState.Some? && ai.lastAction.Some? ==>
      r.0.engine == RecordMove(ai.engine, ai.lastState.value, ai.lastAction.value,
                               EvaluateMoveResult(ai, ai.lastState.value, Observe(ai, table)))
    ensures ai.lastState.None? || ai.lastAction.None? ==> r.0.engine == ai.engine
    ensures r.0.engine.weights == ai.engine.weights && r.0.engine.gamesPlayed == ai.engine.gamesPlayed
    ensures r.0.engine.currentApp == ai.engine.currentApp && r.0.engine.strategies.Keys == ai.engine.strategies.Keys
    ensures AppKnown(r.0.engine)
    ensures r.0.hand == ai.hand && r.0.trumpSuit == ai.trumpSuit && r.0.aggressive == ai.aggressive
    ensures r.1 == ChooseAction(ai.(engine := r.0.engine), table)
    ensures r.0 == ai.(gameMoves := ai.gameMoves + 1, engine := r.0.engine,
                       lastState := Some(Observe(ai, table)), lastAction := Some(r.1))
  {
    var current := Observe(ai, table);
    var engine :=
      if ai.lastState.Some? && ai.lastAction.Some? then
        RecordMove(ai.engine, ai.lastState.value, ai.lastAction.value,
                   EvaluateMoveResult(ai, ai.lastState.value, current))
      else ai.engine;
    // _choose_action does not read the move counter, so it sees only the new engine.
    var action := ChooseAction(ai.(engine := engine), table);
    (ai.(gameMoves := ai.gameMoves + 1, engine := engine, lastState := Some(current), lastAction := Some(action)), action)
  }

  /** The history end_game hands to learn_from_game: the final move, if any, scores 1.0 for a win and 0.0 for a loss. */
  function FinalHistory(ai: Ai, won: bool): seq<Move>
  {
    if ai.lastState.Some? && ai.lastAction.Some? then
      ai.engine.history + [Move(ai.lastState.value, ai.lastAction.value, if won then 1.0 else 0.0)]
    else ai.engine.history
  }

  /** The engine end_game hands to learn_from_game: the final move, if any, recorded with its result score. */
  function FinalEngine(ai: Ai, won: bool): (e: Engine)
    requires AppKnown(ai.engine)
    ensures AppKnown(e)
    ensures e.history == FinalHistory(ai, won)
    ensures e.weights == ai.engine.weights && e.currentApp == ai.engine.currentApp
  {
    if ai.lastState.Some? && ai.lastAction.Some? then
      RecordMove(ai.engine, ai.lastState.value, ai.lastAction.value, if won then 1.0 else 0.0)
    else ai.engine
  }

  /**
   end_game: record the final move, learn from the game exactly once, and
   reset the move counter and the one-slot lookback.
   */
  function EndGame(ai: Ai, won: bool): (r: Ai)
    requires AppKnown(ai.engine)
    ensures r.gameMoves == 0 && r.lastState.None? && r.lastAction.None?
    ensures r.engine.history == []
    ensures r.engine.gamesPlayed == ai.engine.gamesPlayed + 1
    ensures r.engine.gamesWon == ai.engine.gamesWon + (if won then 1 else 0)
    ensures r.engine.weights == ReplayHistory(ai.engine.weights, FinalHistory(ai, won), GameResult(won, ai.gameMoves))
    ensures r.engine == LearnFromGame(FinalEngine(ai, won), GameResult(won, ai.gameMoves))
    ensures r.engine.currentApp == ai.engine.currentApp && r.engine.strategies.Keys == ai.engine.strategies.Keys
    ensures HasActiveApp(ai.engine) ==>
      var app := ai.engine.currentApp.value;
      r.engine.strategies[app].gamesPlayed == ai.engine.strategies[app].gamesPlayed + 1
    ensures forall app | app in ai.engine.strategies && Some(app) != ai.engine.currentApp ::
      r.engine.strategies[app] == ai.engine.strategies[app]
    ensures r.hand == ai.hand && r.trumpSuit == ai.trumpSuit && r.aggressive == ai.aggressive
    ensures r == ai.(engine := r.engine, gameMoves := 0, lastState := None, lastAction := None)
  {
    var engine := LearnFromGame(FinalEngine(ai, won), GameResult(won, ai.gameMoves));
    ai.(engine := engine, gameMoves := 0, lastState := None, lastAction := None)
  }

  /** The engine stays valid through a whole game of decisions and its end. */
  lemma TurnKeepsValid(ai: Ai, table: seq<Card>, won: bool)
    requires Valid(ai.engine)
    ensures Valid(GetAutoPlayAction(ai, table).0.engine)
    ensures Valid(EndGame(ai, won).engine)
  {
    if ai.lastState.Some? && ai.lastAction.Some? {
      var score := EvaluateMoveResult(ai, ai.lastState.value, Observe(ai, table));
      RecordKeepsValid(ai.engine, ai.lastState.value, ai.lastAction.value, score);
      RecordKeepsValid(ai.engine, ai.lastState.value, ai.lastAction.value, if won then 1.0 else 0.0);
      LearnKeepsValid(RecordMove(ai.engine, ai.lastState.value, ai.lastAction.value, if won then 1.0 else 0.0),
                      GameResult(won, ai.gameMoves));
    } else {
      LearnKeepsValid(ai.engine, GameResult(won, ai.gameMoves));
    }
  }

  // ---------------------------------------------------------------------------
  // Worked scenarios under the default weights and no application
  // ---------------------------------------------------------------------------

  /** Leading from [6♠, K♥] with hearts trump: K♥ scores 0.1556 against 0.15 and is led. */
  lemma AttackScenario()
    ensures ChooseAttackCard(NewAi.(hand := [Card(Spades, Six), Card(Hearts, King)], trumpSuit := Some(Hearts)))
         == Some(Card(Hearts, King))
  {
    var ai := NewAi.(hand := [Card(Spades, Six), Card(Hearts, King)], trumpSuit := Some(Hearts));
    assert CurrentAdjustments(ai).None?;
    assert AttackScore(ai, Card(Spades, Six), None) == 0.15;
    assert AttackScore(ai, Card(Hearts, King), None) == (7.0 / 9.0 * 0.4 - 0.3 + 0.2 + 0.1) * 0.5;
  }

  /** Defending 10♣ from [J♣, 6♥] with hearts trump: both beat it, and the trump 6♥ is cheaper. */
  lemma DefenseScenario()
    ensures FindBestDefense(NewAi.(hand := [Card(Clubs, Jack), Card(Hearts, Six)], trumpSuit := Some(Hearts)),
                            Card(Clubs, Ten)) == Some(Card(Hearts, Six))
  {
    var ai := NewAi.(hand := [Card(Clubs, Jack), Card(Hearts, Six)], trumpSuit := Some(Hearts));
    assert CurrentAdjustments(ai).None?;
    assert DefenseScore(ai, Card(Clubs, Jack), Card(Clubs, Ten), None) == 0.2;
    assert DefenseScore(ai, Card(Hearts, Six), Card(Clubs, Ten), None) == -1.5;
  }

  /** With 9♠ and K♦ settled on the table and no nine or king in hand, the round is done. */
  lemma AddScenario()
    ensures ChooseAction(NewAi.(hand := [Card(Clubs, Six), Card(Hearts, Seven)]), [Card(Spades, Nine), Card(Diamonds, King)])
         == GameAction(Done, None)
  {
    var ai := NewAi.(hand := [Card(Clubs, Six), Card(Hearts, Seven)]);
    var table := [Card(Spades, Nine), Card(Diamonds, King)];
    assert Six !in TableRanks(table) && Seven !in TableRanks(table);
  }
}
