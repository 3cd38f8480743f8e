/**
 The learning engine of ai/learning_engine.py: scoring weights nudged after
 every game, per-application move statistics, and the strategy adjustments
 derived from them. Persistence (JSON files, timestamps) is not modelled: the
 engine starts from the default weights and no application profiles.
 */
module LearningEngine {
  import opened Wrappers
  import opened Cards

  /** The five action types of a turn. */
  datatype ActionType = Attack | Defend | Take | Add | Done

  /** The action type as `record_move` spells it in move keys. */
  function ActionName(t: ActionType): string
  {
    match t
    case Attack => "attack"
    case Defend => "defend"
    case Take => "take"
    case Add => "add"
    case Done => "done"
  }

  /** GameState: one observation of the table. */
  datatype GameState = GameState(
    hand: seq<Card>,
    table: seq<Card>,
    trumpSuit: Option<Suit>,
    opponentCards: nat,
    deckRemaining: nat)

  /** GameAction: an action type and the card played, if any. */
  datatype GameAction = GameAction(actionType: ActionType, card: Option<Card>)

  /** GameResult: the verdict of a finished game and how many decisions it took. */
  datatype GameResult = GameResult(won: bool, movesCount: nat)

  /** One entry of the in-progress game history. */
  datatype Move = Move(state: GameState, action: GameAction, score: real)

  /** The six scoring weights. */
  datatype Weights = Weights(
    rank: real,
    trump: real,
    sameRank: real,
    opponentCards: real,
    deckRemaining: real,
    aggressive: real)

  /** The weights used when nothing has been learnt yet. */
  const DefaultWeights: Weights := Weights(0.4, 0.3, 0.1, 0.2, 0.1, 0.5)

  const LearningRate: real := 0.1

  /** Score every move of a typical pattern must exceed. */
  const PatternThreshold: real := 0.7

  /** A won game shorter than this many moves counts as a quick win. */
  const QuickWinMoves: nat := 20

  /** Statistics of one move key: how often it was played and its summed result score. */
  datatype MoveStats = MoveStats(count: nat, success: real)

  /** One entry of the insertion-ordered preferred_moves dictionary. */
  datatype MoveEntry = MoveEntry(key: string, stats: MoveStats)

  /** One move of a typical pattern: its action type and card string (or "none"). */
  datatype PatternStep = PatternStep(actionType: ActionType, card: string)

  /** The strategy profile kept for one application (window title). */
  datatype Profile = Profile(
    preferredMoves: seq<MoveEntry>,
    successRate: real,
    gamesPlayed: nat,
    typicalPatterns: seq<seq<PatternStep>>)

  const FreshProfile: Profile := Profile([], 0.0, 0, [])

  datatype Engine = Engine(
    history: seq<Move>,
    weights: Weights,
    strategies: map<string, Profile>,
    currentApp: Option<string>,
    gamesPlayed: nat,
    gamesWon: nat)

  /** A new engine with no saved data. */
  const InitialEngine: Engine := Engine([], DefaultWeights, map[], None, 0, 0)

  /** Multiplicative adjustments for the rank weight, trump weight and aggressive factor. */
  datatype Adjustments = Adjustments(rank: real, trump: real, aggressive: real)

  /** What get_statistics reports. */
  datatype Statistics = Statistics(gamesPlayed: nat, gamesWon: nat, winRate: real)

  // ---------------------------------------------------------------------------
  // Engine invariants
  // ---------------------------------------------------------------------------

  /** An application is active when one is set and its title is non-empty. */
  predicate HasActiveApp(e: Engine)
  {
    e.currentApp.Some? && e.currentApp.value != ""
  }

  /** The current application, once set, always has a profile. */
  predicate AppKnown(e: Engine)
  {
    e.currentApp.Some? ==> e.currentApp.value in e.strategies
  }

  predicate DistinctKeys(moves: seq<MoveEntry>)
  {
    forall i, j | 0 <= i < j < |moves| :: moves[i].key != moves[j].key
  }

  /** Neither 'h' nor 'u' occurs: such a key can contain neither "high" nor "trump". */
  predicate NoMarkerChars(key: string)
  {
    'h' !in key && 'u' !in key
  }

  /** `x` is `num / den`, stated without division. */
  predicate IsRatio(x: real, num: nat, den: nat)
  {
    x * den as real == num as real
  }

  predicate ProfileOk(p: Profile)
  {
    && DistinctKeys(p.preferredMoves)
    && (forall i | 0 <= i < |p.preferredMoves| ::
          p.preferredMoves[i].stats.count > 0 && NoMarkerChars(p.preferredMoves[i].key))
    && 0.0 <= p.successRate <= 1.0
  }

  /** What every engine reachable from InitialEngine satisfies. */
  predicate Valid(e: Engine)
  {
    && AppKnown(e)
    && e.gamesWon <= e.gamesPlayed
    && forall app | app in e.strategies :: ProfileOk(e.strategies[app])
  }

  lemma InitialEngineValid()
    ensures Valid(InitialEngine)
    ensures InitialEngine.weights.rank == 0.4 && InitialEngine.weights.aggressive == 0.5
  {
  }

  // ---------------------------------------------------------------------------
  // Applications
  // ---------------------------------------------------------------------------

  /**
   detect_current_app: make `title` current, creating an empty profile for a
   title never seen before and leaving existing profiles alone.
   */
  function DetectCurrentApp(e: Engine, title: string): (r: Engine)
    ensures r.currentApp == Some(title)
    ensures r.strategies.Keys == e.strategies.Keys + {title}
    ensures title !in e.strategies ==> r.strategies[title] == FreshProfile
    ensures forall app | app in e.strategies :: r.strategies[app] == e.strategies[app]
    ensures r.history == e.history && r.weights == e.weights
    ensures r.gamesPlayed == e.gamesPlayed && r.gamesWon == e.gamesWon
  {
    var strategies := if title in e.strategies then e.strategies else e.strategies[title := FreshProfile];
    e.(currentApp := Some(title), strategies := strategies)
  }

  /** Detecting the same title twice is the same as detecting it once. */
  lemma DetectIdempotent(e: Engine, title: string)
    ensures DetectCurrentApp(DetectCurrentApp(e, title), title) == DetectCurrentApp(e, title)
  {
  }

  lemma DetectKeepsValid(e: Engine, title: string)
    requires Valid(e)
    ensures Valid(DetectCurrentApp(e, title))
  {
  }

  // ---------------------------------------------------------------------------
  // Move statistics
  // ---------------------------------------------------------------------------

  /** The card part of a move key or pattern step: the card's string, or "none". */
  function CardLabel(c: Option<Card>): string
  {
    if c.Some? then CardString(c.value) else "none"
  }

  /** The statistics key of an action: its type name, an underscore, then the card's string or "none". */
  function MoveKey(a: GameAction): string
  {
    ActionName(a.actionType) + "_" + CardLabel(a.card)
  }

  /** Position of `key` in the dictionary, if present. */
  function FindKey(moves: seq<MoveEntry>, key: string): (r: Option<nat>)
    ensures r.Some? ==> r.value < |moves| && moves[r.value].key == key
    ensures r.Some? ==> forall j | 0 <= j < r.value :: moves[j].key != key
    ensures r.None? ==> forall j | 0 <= j < |moves| :: moves[j].key != key
  {
    if |moves| == 0 then None
    else if moves[0].key == key then Some(0)
    else match FindKey(moves[1..], key)
      case None => None
      case Some(k) => Some(k + 1)
  }

  /** Dictionary lookup. */
  function Lookup(moves: seq<MoveEntry>, key: string): Option<MoveStats>
  {
    match FindKey(moves, key)
    case None => None
    case Some(i) => Some(moves[i].stats)
  }

  /** The statistics of a key, starting from a zero count and zero total success when the key is absent. */
  function StatsOf(moves: seq<MoveEntry>, key: string): MoveStats
  {
    match Lookup(moves, key)
    case None => MoveStats(0, 0.0)
    case Some(s) => s
  }

  /** Lookups agree on two dictionaries with the same keys in the same places, up to keys absent from the longer one's tail. */
  lemma {:induction false} FindKeySameKeys(a: seq<MoveEntry>, b: seq<MoveEntry>, key: string)
    requires |a| <= |b|
    requires forall j | 0 <= j < |a| :: a[j].key == b[j].key
    requires forall j | |a| <= j < |b| :: b[j].key != key
    ensures FindKey(a, key) == FindKey(b, key)
  {
    if |a| == 0 {
      assert FindKey(b, key).None? by {
        assert forall j | 0 <= j < |b| :: b[j].key != key;
      }
    } else if a[0].key != key {
      assert b[0].key == a[0].key;
      FindKeySameKeys(a[1..], b[1..], key);
    }
  }

  /** Count one more play of `key` and add its result score. */
  function Tally(moves: seq<MoveEntry>, key: string, score: real): (r: seq<MoveEntry>)
    ensures Lookup(r, key) == Some(MoveStats(StatsOf(moves, key).count + 1, StatsOf(moves, key).success + score))
    ensures forall k | k != key :: Lookup(r, k) == Lookup(moves, k)
    ensures DistinctKeys(moves) ==> DistinctKeys(r)
    ensures forall i | 0 <= i < |r| ::
      r[i] in moves || r[i] == MoveEntry(key, MoveStats(StatsOf(moves, key).count + 1, StatsOf(moves, key).success + score))
    ensures FindKey(moves, key).Some? ==>
      r == moves[FindKey(moves, key).value := MoveEntry(key, MoveStats(StatsOf(moves, key).count + 1, StatsOf(moves, key).success + score))]
    ensures FindKey(moves, key).None? ==> r == moves + [MoveEntry(key, MoveStats(1, score))]
  {
    match FindKey(moves, key)
    case Some(i) =>
      var st := moves[i].stats;
      var r := moves[i := MoveEntry(key, MoveStats(st.count + 1, st.success + score))];
      FindKeySameKeys(moves, r, key);
      forall k | k != key ensures Lookup(r, k) == Lookup(moves, k) {
        FindKeySameKeys(moves, r, k);
      }
      r
    case None =>
      var r := moves + [MoveEntry(key, MoveStats(1, score))];
      assert forall j | 0 <= j < |moves| :: r[j] == moves[j];
      assert r[|moves|].key == key;
      assert FindKey(r, key) == Some(|moves|);
      forall k | k != key ensures Lookup(r, k) == Lookup(moves, k) {
        FindKeySameKeys(moves, r, k);
      }
      r
  }

  /**
   record_move: append the move to the game history and, when an application
   is active, count it under its move key in that application's profile.
   */
  function RecordMove(e: Engine, state: GameState, action: GameAction, score: real): (r: Engine)
    requires AppKnown(e)
    ensures r.history == e.history + [Move(state, action, score)]
    ensures r.weights == e.weights && r.currentApp == e.currentApp
    ensures r.gamesPlayed == e.gamesPlayed && r.gamesWon == e.gamesWon
    ensures r.strategies.Keys == e.strategies.Keys
    ensures !HasActiveApp(e) ==> r.strategies == e.strategies
    ensures forall app | app in e.strategies && Some(app) != e.currentApp :: r.strategies[app] == e.strategies[app]
    ensures HasActiveApp(e) ==>
      var p, q := e.strategies[e.currentApp.value], r.strategies[e.currentApp.value];
      && q == p.(preferredMoves := q.preferredMoves)
      && q.preferredMoves == Tally(p.preferredMoves, MoveKey(action), score)
      && Lookup(q.preferredMoves, MoveKey(action)) ==
           Some(MoveStats(StatsOf(p.preferredMoves, MoveKey(action)).count + 1,
                          StatsOf(p.preferredMoves, MoveKey(action)).success + score))
      && forall k | k != MoveKey(action) :: Lookup(q.preferredMoves, k) == Lookup(p.preferredMoves, k)
  {
    var e1 := e.(history := e.history + [Move(state, action, score)]);
    if HasActiveApp(e) then
      var app := e.currentApp.value;
      var p := e.strategies[app];
      e1.(strategies := e.strategies[app := p.(preferredMoves := Tally(p.preferredMoves, MoveKey(action), score))])
    else e1
  }

  /** No move key contains 'h' or 'u'. */
  lemma MoveKeyHasNoMarkerChars(a: GameAction)
    ensures NoMarkerChars(MoveKey(a))
  {
    var name, cardPart := ActionName(a.actionType), CardLabel(a.card);
    assert NoMarkerChars(name) by {
      match a.actionType
      case Attack =>
      case Defend =>
      case Take =>
      case Add =>
      case Done =>
    }
    assert NoMarkerChars(cardPart) by {
      if a.card.Some? {
        var c := a.card.value;
        assert NoMarkerChars(RankSymbol(c.rank)) by {
          match c.rank
          case Six => case Seven => case Eight => case Nine => case Ten =>
          case Jack => case Queen => case King => case Ace =>
        }
        assert NoMarkerChars(SuitSymbol(c.suit)) by {
          match c.suit
          case Spades => case Clubs => case Hearts => case Diamonds =>
        }
        assert cardPart == RankSymbol(c.rank) + SuitSymbol(c.suit);
      }
    }
    assert MoveKey(a) == name + "_" + cardPart;
  }

  lemma RecordKeepsValid(e: Engine, state: GameState, action: GameAction, score: real)
    requires Valid(e)
    ensures Valid(RecordMove(e, state, action, score))
  {
    MoveKeyHasNoMarkerChars(action);
  }

  // ---------------------------------------------------------------------------
  // Weights
  // ---------------------------------------------------------------------------

  /** The signed sum of the weights. */
  function WeightSum(w: Weights): real
  {
    w.rank + w.trump + w.sameRank + w.opponentCards + w.deckRemaining + w.aggressive
  }

  /**
   _normalize_weights: divide every weight by the signed sum when that sum is
   positive; otherwise leave the weights alone.
   */
  function Normalize(w: Weights): (r: Weights)
    ensures WeightSum(w) > 0.0 ==> WeightSum(r) == 1.0
    ensures WeightSum(w) > 0.0 ==>
      && r.rank * WeightSum(w) == w.rank && r.trump * WeightSum(w) == w.trump
      && r.sameRank * WeightSum(w) == w.sameRank && r.opponentCards * WeightSum(w) == w.opponentCards
      && r.deckRemaining * WeightSum(w) == w.deckRemaining && r.aggressive * WeightSum(w) == w.aggressive
    ensures WeightSum(w) <= 0.0 ==> r == w
  {
    var total := WeightSum(w);
    if total > 0.0 then
      var r := Weights(w.rank / total, w.trump / total, w.sameRank / total,
                       w.opponentCards / total, w.deckRemaining / total, w.aggressive / total);
      assert WeightSum(r) == total / total;
      r
    else w
  }

  /** Normalising twice is normalising once. */
  lemma NormalizeIdempotent(w: Weights)
    ensures Normalize(Normalize(w)) == Normalize(w)
  {
    var r := Normalize(w);
    if WeightSum(w) > 0.0 {
      assert WeightSum(r) == 1.0;
      var rr := Normalize(r);
      assert rr.rank * 1.0 == r.rank;
    }
  }

  /** +1.0 for a won game, -0.5 for a lost one. */
  function SuccessFactor(won: bool): real
  {
    if won then 1.0 else -0.5
  }

  /** The aggressive_factor step: up after a quick win, down after any loss. */
  function AggressiveStep(result: GameResult): real
  {
    if result.won && result.movesCount < QuickWinMoves then LearningRate
    else if !result.won then -LearningRate
    else 0.0
  }

  /** The nudge _update_weights applies for one recorded move, before renormalising. */
  function Nudge(w: Weights, score: real, result: GameResult): (r: Weights)
    ensures result.won ==> r.rank == w.rank + score / 10.0 && r.trump == w.trump + score / 10.0
    ensures !result.won ==> r.rank == w.rank - score / 20.0 && r.trump == w.trump - score / 20.0
    ensures result.won && result.movesCount < 20 ==> r.aggressive == w.aggressive + 0.1
    ensures result.won && result.movesCount >= 20 ==> r.aggressive == w.aggressive
    ensures !result.won ==> r.aggressive == w.aggressive - 0.1
    ensures r.sameRank == w.sameRank && r.opponentCards == w.opponentCards && r.deckRemaining == w.deckRemaining
  {
    var delta := LearningRate * score * SuccessFactor(result.won);
    w.(rank := w.rank + delta, trump := w.trump + delta, aggressive := w.aggressive + AggressiveStep(result))
  }

  /** _update_weights: nudge, then renormalise. */
  function UpdateWeights(w: Weights, score: real, result: GameResult): Weights
  {
    Normalize(Nudge(w, score, result))
  }

  /** The weight loop of learn_from_game: one update per history entry, in order. */
  function ReplayHistory(w: Weights, history: seq<Move>, result: GameResult): Weights
    decreases |history|
  {
    if |history| == 0 then w
    else ReplayHistory(UpdateWeights(w, history[0].score, result), history[1..], result)
  }

  /** The last move of the history is applied last, once. */
  lemma {:induction false} ReplaySnoc(w: Weights, history: seq<Move>, m: Move, result: GameResult)
    ensures ReplayHistory(w, history + [m], result) == UpdateWeights(ReplayHistory(w, history, result), m.score, result)
    decreases |history|
  {
    if |history| == 0 {
      assert ([] + [m])[1..] == [];
    } else {
      var w1 := UpdateWeights(w, history[0].score, result);
      assert (history + [m])[1..] == history[1..] + [m];
      ReplaySnoc(w1, history[1..], m, result);
    }
  }

  /** After at least one move the weights are a fixed point of renormalisation. */
  lemma ReplayEndsNormalized(w: Weights, history: seq<Move>, result: GameResult)
    requires |history| > 0
    ensures Normalize(ReplayHistory(w, history, result)) == ReplayHistory(w, history, result)
  {
    var n := |history| - 1;
    assert history == history[..n] + [history[n]];
    ReplaySnoc(w, history[..n], history[n], result);
    NormalizeIdempotent(Nudge(ReplayHistory(w, history[..n], result), history[n].score, result));
  }

  // ---------------------------------------------------------------------------
  // Patterns
  // ---------------------------------------------------------------------------

  function Step(m: Move): PatternStep
  {
    PatternStep(m.action.actionType, CardLabel(m.action.card))
  }

  /** All three scores of the window starting at `i` exceed the threshold. */
  predicate WindowQualifies(history: seq<Move>, i: nat)
    requires i + 3 <= |history|
  {
    history[i].score > PatternThreshold && history[i + 1].score > PatternThreshold
      && history[i + 2].score > PatternThreshold
  }

  function WindowAt(history: seq<Move>, i: nat): seq<PatternStep>
    requires i + 3 <= |history|
  {
    [Step(history[i]), Step(history[i + 1]), Step(history[i + 2])]
  }

  /** The qualifying windows, in history order. */
  function Patterns(history: seq<Move>): (r: seq<seq<PatternStep>>)
    ensures |history| < 3 ==> r == []
    ensures |history| >= 3 ==> |r| <= |history| - 2
    decreases |history|
  {
    if |history| < 3 then []
    else (if WindowQualifies(history, 0) then [WindowAt(history, 0)] else []) + Patterns(history[1..])
  }

  /** Patterns collects exactly the windows whose three scores exceed the threshold. */
  lemma {:induction false} PatternsExact(history: seq<Move>, p: seq<PatternStep>)
    ensures p in Patterns(history) <==>
      exists i: nat | i + 3 <= |history| :: WindowQualifies(history, i) && WindowAt(history, i) == p
    decreases |history|
  {
    if |history| >= 3 {
      var tail := history[1..];
      PatternsExact(tail, p);
      forall i: nat | i + 3 <= |tail|
        ensures WindowQualifies(tail, i) == WindowQualifies(history, i + 1)
        ensures WindowAt(tail, i) == WindowAt(history, i + 1)
      {
      }
      if p in Patterns(history) {
        if !(WindowQualifies(history, 0) && WindowAt(history, 0) == p) {
          assert p in Patterns(tail);
          var i: nat :| i + 3 <= |tail| && WindowQualifies(tail, i) && WindowAt(tail, i) == p;
          assert WindowQualifies(history, i + 1) && WindowAt(history, i + 1) == p;
        }
      } else {
        forall i: nat | i + 3 <= |history| && WindowQualifies(history, i)
          ensures WindowAt(history, i) != p
        {
          if i > 0 {
            assert WindowQualifies(tail, i - 1) && WindowAt(tail, i - 1) == WindowAt(history, i);
          }
        }
      }
    }
  }

  /**
   _analyze_patterns: with at least three moves, replace the current
   application's typical patterns by the qualifying windows, but only if there
   is at least one.
   */
  function AnalyzePatterns(e: Engine): (r: Engine)
    requires e.currentApp.Some? && e.currentApp.value in e.strategies
    ensures |e.history| < 3 || Patterns(e.history) == [] ==> r == e
    ensures Patterns(e.history) != [] ==>
      r == e.(strategies := e.strategies[e.currentApp.value :=
        e.strategies[e.currentApp.value].(typicalPatterns := Patterns(e.history))])
  {
    if |e.history| < 3 then e
    else
      var patterns := Patterns(e.history);
      if patterns != [] then
        var app := e.currentApp.value;
        e.(strategies := e.strategies[app := e.strategies[app].(typicalPatterns := patterns)])
      else e
  }

  // ---------------------------------------------------------------------------
  // End of game
  // ---------------------------------------------------------------------------

  /**
   The bookkeeping of learn_from_game before pattern analysis: count the game,
   replay the history into the weights, and update the active profile's game
   count and success rate.
   */
  function CountGame(e: Engine, result: GameResult): (r: Engine)
    requires AppKnown(e)
    ensures r.history == e.history && r.currentApp == e.currentApp
    ensures r.gamesPlayed == e.gamesPlayed + 1
    ensures r.gamesWon == e.gamesWon + (if result.won then 1 else 0)
    ensures r.weights == ReplayHistory(e.weights, e.history, result)
    ensures r.strategies.Keys == e.strategies.Keys
    ensures !HasActiveApp(e) ==> r.strategies == e.strategies
    ensures forall app | app in e.strategies && Some(app) != e.currentApp :: r.strategies[app] == e.strategies[app]
    ensures HasActiveApp(e) ==>
      var p, q := e.strategies[e.currentApp.value], r.strategies[e.currentApp.value];
      && q.gamesPlayed == p.gamesPlayed + 1
      && IsRatio(q.successRate, r.gamesWon, r.gamesPlayed)
      && (e.gamesWon <= e.gamesPlayed ==> 0.0 <= q.successRate <= 1.0)
      && q.preferredMoves == p.preferredMoves && q.typicalPatterns == p.typicalPatterns
  {
    var played := e.gamesPlayed + 1;
    var won := e.gamesWon + (if result.won then 1 else 0);
    var e1 := e.(gamesPlayed := played, gamesWon := won,
                 weights := ReplayHistory(e.weights, e.history, result));
    if HasActiveApp(e) then
      var app := e.currentApp.value;
      var p := e.strategies[app];
      var rate := won as real / played as real;
      e1.(strategies := e.strategies[app := p.(gamesPlayed := p.gamesPlayed + 1, successRate := rate)])
    else e1
  }

  /**
   learn_from_game: count the game, replay the history into the weights,
   update the active application's profile and patterns, then clear the history.
   */
  function LearnFromGame(e: Engine, result: GameResult): (r: Engine)
    requires AppKnown(e)
    ensures r.history == []
    ensures r.gamesPlayed == e.gamesPlayed + 1
    ensures r.gamesWon == e.gamesWon + (if result.won then 1 else 0)
    ensures r.weights == ReplayHistory(e.weights, e.history, result)
    ensures e.history == [] ==> r.weights == e.weights
    ensures r.currentApp == e.currentApp && r.strategies.Keys == e.strategies.Keys
    ensures !HasActiveApp(e) ==> r.strategies == e.strategies
    ensures forall app | app in e.strategies && Some(app) != e.currentApp :: r.strategies[app] == e.strategies[app]
    ensures HasActiveApp(e) ==>
      var p, q := e.strategies[e.currentApp.value], r.strategies[e.currentApp.value];
      && q.gamesPlayed == p.gamesPlayed + 1
      && IsRatio(q.successRate, r.gamesWon, r.gamesPlayed)
      && (e.gamesWon <= e.gamesPlayed ==> 0.0 <= q.successRate <= 1.0)
      && q.preferredMoves == p.preferredMoves
      && (Patterns(e.history) == [] ==> q.typicalPatterns == p.typicalPatterns)
      && (Patterns(e.history) != [] ==> q.typicalPatterns == Patterns(e.history))
  {
    var counted := CountGame(e, result);
    if HasActiveApp(e) then
      var analysed := AnalyzePatterns(counted);
      var app := e.currentApp.value;
      assert analysed.strategies[app] == counted.strategies[app].(typicalPatterns := analysed.strategies[app].typicalPatterns);
      analysed.(history := [])
    else counted.(history := [])
  }

  lemma LearnKeepsValid(e: Engine, result: GameResult)
    requires Valid(e)
    ensures Valid(LearnFromGame(e, result))
  {
  }

  /** get_statistics: the engine-wide counters and win rate (0 before any game). */
  function GetStatistics(e: Engine): (s: Statistics)
    ensures s.gamesPlayed == e.gamesPlayed && s.gamesWon == e.gamesWon
    ensures e.gamesPlayed == 0 ==> s.winRate == 0.0
    ensures e.gamesPlayed > 0 ==> IsRatio(s.winRate, e.gamesWon, e.gamesPlayed)
    ensures e.gamesWon <= e.gamesPlayed ==> 0.0 <= s.winRate <= 1.0
  {
    var rate := if e.gamesPlayed > 0 then e.gamesWon as real / e.gamesPlayed as real else 0.0;
    Statistics(e.gamesPlayed, e.gamesWon, rate)
  }

  /** Right after a game, the active profile's success rate is the engine-wide win rate. */
  lemma SuccessRateIsWinRate(e: Engine, result: GameResult)
    requires AppKnown(e) && HasActiveApp(e)
    ensures var r := LearnFromGame(e, result);
      r.strategies[e.currentApp.value].successRate == GetStatistics(r).winRate
  {
  }

  // ---------------------------------------------------------------------------
  // Strategy adjustments
  // ---------------------------------------------------------------------------

  /** The sort key of a preferred move: its average result score (0 when never played). */
  function Average(st: MoveStats): real
  {
    if st.count > 0 then st.success / st.count as real else 0.0
  }

  /** Entry `j` comes before entry `i` in the stable descending sort by average. */
  predicate Ahead(moves: seq<MoveEntry>, j: nat, i: nat)
    requires j < |moves| && i < |moves|
  {
    var aj, ai := Average(moves[j].stats), Average(moves[i].stats);
    aj > ai || (aj == ai && j < i)
  }

  /** How many of the first `n` entries come before entry `i` in the sort. */
  function AheadCount(moves: seq<MoveEntry>, i: nat, n: nat): nat
    requires i < |moves| && n <= |moves|
  {
    if n == 0 then 0
    else AheadCount(moves, i, n - 1) + (if Ahead(moves, n - 1, i) then 1 else 0)
  }

  /** Entry `i` is among the three best entries of a stable descending ranking by average success. */
  predicate InTopThree(moves: seq<MoveEntry>, i: nat)
    requires i < |moves|
  {
    AheadCount(moves, i, |moves|) < 3
  }

  /** `sub` occurs in `s` as a contiguous substring. */
  predicate Contains(s: string, sub: string)
    decreases |s|
  {
    if sub <= s then true
    else if |s| == 0 then false
    else Contains(s[1..], sub)
  }

  /** A substring cannot hold a character its host lacks. */
  lemma {:induction false} MissingCharNotContained(s: string, sub: string, k: nat)
    requires k < |sub| && sub[k] !in s
    ensures !Contains(s, sub)
    decreases |s|
  {
    if !(sub <= s) && |s| > 0 {
      assert forall x | x in s[1..] :: x in s;
      MissingCharNotContained(s[1..], sub, k);
    }
  }

  /** Number of the first `n` entries that are in the top three, contain `marker` and average above 0.7. */
  function Boosts(moves: seq<MoveEntry>, marker: string, n: nat): nat
    requires n <= |moves|
  {
    if n == 0 then 0
    else
      var i := n - 1;
      var hit := InTopThree(moves, i) && Contains(moves[i].key, marker)
                 && Average(moves[i].stats) > PatternThreshold;
      Boosts(moves, marker, n - 1) + (if hit then 1 else 0)
  }

  /** 1.2 to the power k: the factor after k multiplications by 1.2. */
  function Boost(k: nat): (r: real)
    ensures r >= 1.0
  {
    if k == 0 then 1.0 else 1.2 * Boost(k - 1)
  }

  /** The aggressive_factor adjustment for a profile's success rate. */
  function AggressiveAdjustment(rate: real): real
  {
    if rate < 0.4 then 0.7 else if rate > 0.6 then 1.3 else 1.0
  }

  /**
   get_strategy_adjustments: nothing without an active application; neutral
   factors for a profile with no finished game; otherwise the aggressive factor
   follows the success rate and each qualifying top-three move boosts the
   trump or rank factor by 1.2.
   */
  function GetStrategyAdjustments(e: Engine): (r: Option<Adjustments>)
    requires AppKnown(e)
    ensures r.None? <==> !HasActiveApp(e)
    ensures r.Some? && e.strategies[e.currentApp.value].gamesPlayed == 0 ==> r.value == Adjustments(1.0, 1.0, 1.0)
    ensures r.Some? && e.strategies[e.currentApp.value].gamesPlayed > 0 ==>
      var rate := e.strategies[e.currentApp.value].successRate;
      && (rate < 0.4 ==> r.value.aggressive == 0.7)
      && (rate > 0.6 ==> r.value.aggressive == 1.3)
      && (0.4 <= rate <= 0.6 ==> r.value.aggressive == 1.0)
    ensures r.Some? ==> r.value.rank >= 1.0 && r.value.trump >= 1.0
  {
    if !HasActiveApp(e) then None
    else
      var p := e.strategies[e.currentApp.value];
      if p.gamesPlayed > 0 then
        var moves := p.preferredMoves;
        Some(Adjustments(Boost(Boosts(moves, "high", |moves|)), Boost(Boosts(moves, "trump", |moves|)),
                         AggressiveAdjustment(p.successRate)))
      else Some(Adjustments(1.0, 1.0, 1.0))
  }

  /** No key of a valid profile can trigger a boost. */
  lemma {:induction false} NoBoostsWithoutMarkers(moves: seq<MoveEntry>, n: nat)
    requires n <= |moves|
    requires forall i | 0 <= i < |moves| :: NoMarkerChars(moves[i].key)
    ensures Boosts(moves, "high", n) == 0 && Boosts(moves, "trump", n) == 0
  {
    if n > 0 {
      NoBoostsWithoutMarkers(moves, n - 1);
      MissingCharNotContained(moves[n - 1].key, "high", 0);
      MissingCharNotContained(moves[n - 1].key, "trump", 2);
    }
  }

  /**
   Move keys never contain "trump" or "high", so for every engine reachable
   from InitialEngine the rank and trump adjustments stay at 1.0.
   */
  lemma ReachableAdjustmentsNeutral(e: Engine)
    requires Valid(e) && HasActiveApp(e)
    ensures GetStrategyAdjustments(e).value.rank == 1.0
    ensures GetStrategyAdjustments(e).value.trump == 1.0
  {
    var p := e.strategies[e.currentApp.value];
    NoBoostsWithoutMarkers(p.preferredMoves, |p.preferredMoves|);
  }
}
