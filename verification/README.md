# Durak assistant — a verified model of the game and AI core

This project models the decision core of a Durak (the Russian card game)
assistant, in Dafny:

- the card table (`Card`, `DurakGame`): a 36-card deck, beating a card, dealing;
- the playing AI (`DurakAI`): how it scores cards, picks an attack, a defence
  or a card to add, rates a move, and rates its position;
- the learning engine (`LearningEngine`): its per-application statistics
  (keyed by window title), its weight updates after a game, the patterns it
  remembers, and the adjustments it hands back to the AI;
- the screen analyser's card-template name parser (`_parse_card_name`).

Modules follow the source files:

| module | file | source |
|---|---|---|
| `Wrappers` | wrappers.dfy | `Option` and `Result` |
| `Cards` | cards.dfy | `Card` of game/durak_game.py |
| `Game` | game.dfy | `DurakGame` of game/durak_game.py |
| `Selection` | selection.dfy | first-best choice, the effect of Python's stable `sort` followed by `[0]` |
| `LearningEngine` | learning.dfy | ai/learning_engine.py |
| `DurakAi` | durak_ai.dfy | ai/durak_ai.py |
| `CardNames` | card_names.dfy | `_parse_card_name` of screen_analyzer/screen_capture.py |

Mutable objects are modelled as immutable records, and each method is a
function from the old record to the new one.

- Python floats are Dafny `real`s.
- A dict of statistics is modelled as a sequence of entries with distinct keys, kept in insertion order. The order matters because ties in the top-three ranking go to the earlier entry.
- The random shuffle is a parameter: the caller passes in any permutation of the full deck.

## Model

| member | source | states |
|---|---|---|
| Cards.SuitIndex | game/durak_game.py:5 | a suit's position in `Card.SUITS` picks that suit back out |
| Cards.RankIndex | game/durak_game.py:6 | a rank's position in `Card.RANKS` (what `RANKS.index` computes) is below 9 and picks that rank back out |
| Cards.CardString | game/durak_game.py:12-13 | `str(card)` is the rank symbol followed by the suit symbol |
| Cards.CardStringInjective | game/durak_game.py:12-13 | distinct cards print differently, so `str(card)` can serve as a key |
| Cards.RankSymbolInjective | game/durak_game.py:6 | distinct ranks have distinct indices and distinct symbols |
| Cards.SameSuitBeats | game/durak_game.py:15-17 | within a suit, a card beats another exactly when its rank is higher |
| Cards.OffSuitBeats | game/durak_game.py:15-18 | across suits, a card beats another exactly when it is of the trump suit |
| Cards.BeatIsAsymmetric | game/durak_game.py:15-18 | no card beats itself, and two cards never beat each other |
| Game.FullDeck | game/durak_game.py:43-45 | the unshuffled deck has 36 cards, contains every card, and has no repeats |
| Game.FullDeckOnce | game/durak_game.py:43-45 | every card occurs exactly once in the full deck |
| Game.InitializeDeck | game/durak_game.py:42-48 | the deck is a 36-card permutation holding each card once, and its last card fixes the trump card and trump suit |
| Game.DealInitialCards | game/durak_game.py:50-55 | the top `min(12, size)` cards leave the deck, alternating player-first between the hands; the deck's remaining prefix is untouched; no card is lost or created |
| Game.DealtCardsKept | game/durak_game.py:50-55 | after any number of alternating pops, the remaining deck plus the two dealt runs hold exactly the original deck's cards |
| Game.StartNewGame | game/durak_game.py:29-32 | on a fresh shuffle the game is active, 24 cards remain, each hand gains six, all 36 cards are accounted for, and the trump card is the player's first dealt card and not in the deck |
| Game.StartNewGameBottomTrump | game/durak_game.py:42-55 | with the trump taken from the bottom, the trump card stays in the deck as its last card and is in neither dealt run |
| Game.InitializeDeckBottomTrump | game/durak_game.py:42-48 | the deck is a permutation of the 36 cards whose first (last-popped) card fixes the trump |
| Game.StopGame | game/durak_game.py:34-40 | the deck and both hands are empty, the trump is forgotten, the game is inactive |
| Game.StopGameForgets | game/durak_game.py:34-40 | stopping yields the freshly constructed game whatever was stopped, and stopping twice changes nothing |
| Game.IsValidMove | game/durak_game.py:57-60 | with no target any card is valid; against a target, validity is the same-suit rank order or the trump suit, and a card is never valid against itself |
| Game.GetGameState | game/durak_game.py:62-69 | the view reports the player's hand, the AI hand and deck sizes, the trump card and activity |
| Selection.FirstMax | ai/durak_ai.py:129-130 | the chosen index has the greatest score and every earlier index a strictly smaller one (stable descending sort, then first) |
| Selection.FirstMin | ai/durak_ai.py:176-177 | nothing when no index is eligible; otherwise an eligible index with the least score among the eligible, and every earlier eligible one strictly larger |
| LearningEngine.InitialEngineValid | ai/learning_engine.py:28-52 | the fresh engine satisfies the invariant and starts from the default weights |
| LearningEngine.DetectCurrentApp | ai/learning_engine.py:61-70 | the title becomes current; a new title gets an empty profile; existing profiles, history, weights and counters are unchanged |
| LearningEngine.DetectIdempotent | ai/learning_engine.py:61-70 | detecting the same title twice is the same as once |
| LearningEngine.DetectKeepsValid | ai/learning_engine.py:61-70 | detection preserves the engine invariant |
| LearningEngine.FindKey | ai/learning_engine.py:79-81 | the lookup finds the first entry with the key, or reports that no entry has it |
| LearningEngine.FindKeySameKeys | ai/learning_engine.py:79-81 | lookup depends only on the keys, so updating an entry's statistics does not move any key |
| LearningEngine.Tally | ai/learning_engine.py:80-83 | the key's count grows by one and its success by the score (from zero when new); every other key's statistics are unchanged; keys stay distinct; an existing key is updated in place and a new key is appended at the end, as a Python dict keeps insertion order |
| LearningEngine.RecordMove | ai/learning_engine.py:72-83 | the move is appended to the history; with an active application its profile's move statistics become Tally of the old ones under `type_card`, so their order is kept; no other profile, weight or counter changes |
| LearningEngine.MoveKeyHasNoMarkerChars | ai/learning_engine.py:78 | a move key never contains the letters `h` or `u` |
| LearningEngine.RecordKeepsValid | ai/learning_engine.py:72-83 | recording preserves the engine invariant |
| LearningEngine.Normalize | ai/learning_engine.py:187-192 | with a positive total every weight is divided by it and the weights then sum to 1; otherwise nothing changes |
| LearningEngine.NormalizeIdempotent | ai/learning_engine.py:187-192 | normalising twice is normalising once |
| LearningEngine.Nudge | ai/learning_engine.py:110-126 | a win adds score/10 to the rank and trump weights, a loss subtracts score/20; aggressiveness rises by 0.1 on a win in under 20 moves, falls by 0.1 on a loss, and the other weights are untouched |
| LearningEngine.ReplaySnoc | ai/learning_engine.py:92-93 | replaying a history and then one more move is one more weight update |
| LearningEngine.ReplayEndsNormalized | ai/learning_engine.py:92-93 | after a non-empty history the weights are already normalised |
| LearningEngine.Patterns | ai/learning_engine.py:130-143 | no patterns from fewer than three moves, and at most one per three-move window |
| LearningEngine.PatternsExact | ai/learning_engine.py:135-142 | a step sequence is a pattern exactly when some three-move window whose scores all exceed 0.7 produces it |
| LearningEngine.AnalyzePatterns | ai/learning_engine.py:130-145 | with no qualifying window nothing changes; otherwise only the current profile's typical patterns are replaced |
| LearningEngine.CountGame | ai/learning_engine.py:85-99 | the game counters grow, the weights are the replay of the history, and the current profile's games count grows with its success rate set to the overall win ratio |
| LearningEngine.LearnFromGame | ai/learning_engine.py:85-108 | as CountGame, then patterns are analysed and the history is cleared; an empty history leaves the weights alone |
| LearningEngine.LearnKeepsValid | ai/learning_engine.py:85-108 | learning preserves the engine invariant |
| LearningEngine.SuccessRateIsWinRate | ai/learning_engine.py:96-99 | an application's success rate is the global games-won ratio, not its own |
| LearningEngine.GetStatistics | ai/learning_engine.py:212-218 | the counters are reported; the win rate is won/played, or 0 before any game, and lies in [0, 1] |
| LearningEngine.MissingCharNotContained | ai/learning_engine.py:180-182 | a substring with a letter the string lacks is not contained in it |
| LearningEngine.Boost | ai/learning_engine.py:181-183 | repeated 1.2 boosts never go below 1 |
| LearningEngine.GetStrategyAdjustments | ai/learning_engine.py:147-185 | none without an active application; neutral factors before its first game; after that, the aggressive factor is 0.7, 1.0 or 1.3 by success rate, and rank and trump factors are at least 1 |
| LearningEngine.NoBoostsWithoutMarkers | ai/learning_engine.py:179-183 | keys without `h` and `u` never contain "high" or "trump", so no top-three entry boosts anything |
| LearningEngine.ReachableAdjustmentsNeutral | ai/learning_engine.py:172-183 | in every valid engine with an active application the rank and trump factors are exactly 1 |
| DurakAi.SameRankCount | ai/durak_ai.py:153 | the number of hand cards of a rank is at most the hand size |
| DurakAi.TrumpCount | ai/durak_ai.py:93-94 | the number of trumps in a hand is at most the hand size |
| DurakAi.HighCount | ai/durak_ai.py:230-231 | the number of queens or higher is at most the hand size |
| DurakAi.RankTermOrdered | ai/durak_ai.py:137-138 | with a positive rank weight, the rank term grows strictly with the rank |
| DurakAi.AttackTermsGrowWithRank | ai/durak_ai.py:136-154 | when the adjusted rank weight is positive, among cards of one suit and equally many same-rank companions, the attack score before the aggressive factor grows strictly with rank |
| DurakAi.AttackScoreTrumpPolicy | ai/durak_ai.py:141-157 | when the adjusted trump weight and the adjusted aggressive weight are both positive, for two cards of one rank, in aggressive mode the trump scores strictly lower than the non-trump, and otherwise strictly higher |
| DurakAi.DefenseScoreGrowsWithRank | ai/durak_ai.py:179-196 | when the adjusted rank weight is positive, among defenders with the same trump status, a higher rank scores strictly more |
| DurakAi.ChooseAttackCard | ai/durak_ai.py:115-130 | nothing exactly for an empty hand; otherwise the first hand card with the greatest attack score |
| DurakAi.FindBestDefense | ai/durak_ai.py:161-177 | nothing exactly when no hand card beats the attack; otherwise a beating hand card, the first with the least defence score |
| DurakAi.ChooseCardToAdd | ai/durak_ai.py:198-219 | nothing exactly when no hand card matches a table rank; otherwise a matching card, the first with the least attack score |
| DurakAi.ChooseAction | ai/durak_ai.py:63-76 | empty table: attack; odd table: defend the last card exactly when some card beats it, else take; even table: add exactly when some rank matches, else done; take and done carry no card |
| DurakAi.EvaluateMoveResult | ai/durak_ai.py:78-98 | the score is the sum of 0.3 for a shrunken hand, 0.4 for an opponent who picked up, and 0.2 for no trump lost, so it lies in [0, 0.9] |
| DurakAi.Clamp | ai/durak_ai.py:98 | the result lies in [0, 1] and leaves values already there unchanged |
| DurakAi.MoveScoreAboveThreshold | ai/durak_ai.py:78-98 | a move score exceeds the 0.7 pattern threshold exactly when all three signals fired |
| DurakAi.EvaluatePosition | ai/durak_ai.py:221-245 | the result lies in [0, 1]; an empty hand is 1.0; any non-empty hand scores at most 0.68 |
| DurakAi.UpdateGameState | ai/durak_ai.py:22-31 | the hand, trump and counts are replaced; a non-empty window title is detected as the current application, an empty or missing one leaves the engine alone; every other field of the AI (mode, auto-play flag, move counter, lookback) is unchanged |
| DurakAi.GetAutoPlayAction | ai/durak_ai.py:37-61 | the move counter grows; a previous state and action, when both exist, are passed to `record_move` with their evaluated score (so the history and the active application's move tally grow as RecordMove states); otherwise the engine is unchanged; the new state and chosen action become the lookback; the action is the one `_choose_action` picks on the updated engine; nothing else in the AI (hand, trump, counts, mode, auto-play flag) changes |
| DurakAi.EndGame | ai/durak_ai.py:100-113 | the last move, if any, is passed to `record_move` with 1.0 for a win or 0.0 for a loss, and the engine then learns exactly once from that engine (counters, replayed weights, the active application's games count, success rate and patterns as LearnFromGame states); the current application and the other profiles are unchanged; the counter and lookback reset, and nothing else in the AI changes |
| DurakAi.TurnKeepsValid | ai/durak_ai.py:37-113 | playing a turn and ending a game both preserve the engine invariant |
| DurakAi.AttackScenario | ai/durak_ai.py:132-159 | leading from 6♠ and K♥ with hearts trump under default weights picks K♥ |
| DurakAi.DefenseScenario | ai/durak_ai.py:179-196 | defending 10♣ with J♣ or 6♥, hearts trump, picks 6♥ |
| DurakAi.AddScenario | ai/durak_ai.py:198-219 | with no table rank in hand the round is done |
| CardNames.Split | screen_analyzer/screen_capture.py:164 | `split("_")` yields at least one piece, and no piece contains the separator |
| CardNames.JoinSplit | screen_analyzer/screen_capture.py:164 | joining the pieces of a split restores the name |
| CardNames.SplitJoin | screen_analyzer/screen_capture.py:164 | splitting a join of separator-free pieces restores the pieces |
| CardNames.SuitMapIsSuitWords | screen_analyzer/screen_capture.py:158 | the suit table's keys are exactly the four suit words, and each maps to its suit's symbol |
| CardNames.RankMapIsRankWords | screen_analyzer/screen_capture.py:159-162 | the rank table's keys are exactly the nine rank words, and each maps to its rank's symbol |
| CardNames.ParseCardName | screen_analyzer/screen_capture.py:155-165 | success exactly for a card's template name, with symbols from `Card.SUITS` and `Card.RANKS`; a split not in two pieces, an unknown suit word, and an unknown rank word fail in that order |
| CardNames.ParseCardNameRoundTrip | screen_analyzer/screen_capture.py:155-165 | a card's template name parses to that card's suit and rank symbols |
| CardNames.ParseHeartsAce | screen_analyzer/screen_capture.py:157 | "hearts_ace" parses to ("♥", "A") |
| CardNames.ParseCardNameInjective | screen_analyzer/screen_capture.py:155-165 | two accepted names with the same parse are the same name |

## Findings

| source | as written | input that shows it | evidently intended | confidence | as-written member | corrected member |
|---|---|---|---|---|---|---|
| game/durak_game.py:47-55 | the trump card is `deck[-1]`, and dealing pops from that end, so the first card dealt to the player is the trump card | any shuffle: the player's first card is `shuffled[35]`, which is also the trump card | the trump card is the bottom card of the deck (`deck[0]`), left in the deck to be drawn last | medium, not executed | Game.StartNewGame | Game.StartNewGameBottomTrump |

## Left out

- File I/O:
  - the JSON persistence of weights, profiles and statistics (`_load_weights`, `_load_app_strategies`, `_save_data`, the save directory) is not modelled;
  - the model engine always starts from the defaults.
- `random.shuffle` is not modelled as a distribution. Any permutation of the full deck is accepted as a parameter.
- Screen capture, template matching and the GUI of main.py are not modelled, because they are vision and UI code. Only the card-name parser is modelled.
- `known_cards` and `set_auto_play` are not modelled, because the modelled code never reads `known_cards` or the auto-play flag. The flag is kept as the `autoPlay` field of the AI record, off in a new AI, and no modelled operation changes it.
- Floating point is modelled as exact real arithmetic. Rounding of `/` and `*` is not modelled.
- Python dictionary ordering is modelled as insertion order of a sequence with distinct keys. The JSON round trip that could reorder it is not modelled.
- LearningEngine.GetStrategyAdjustments:
  - it states rank and trump factors of at least 1 rather than the exact product of 1.2 boosts over the top three entries;
  - that the boosts never fire in reachable engines is proved separately, by ReachableAdjustmentsNeutral.
- The top-three ranking divides by `count` in both the sort key and the boost test. The model uses the guarded form. Every stored count is at least 1, which the engine invariant proves, so the unguarded division, and its ZeroDivisionError, never occurs in reachable engines.
- DurakAi.AttackTermsGrowWithRank: states the order of attack scores before the aggressive factor multiplies them. The product of the learned aggressive weight with the adjustment factor is not carried through, and that product may be negative or zero after losses.
- LearningEngine.PatternsExact: states which step sequences are patterns. It does not state their order or how many times each repeats.
- Game.StartNewGame: the source does not clear the hands before dealing, so the model keeps any cards already held. Its contract is stated relative to them.
