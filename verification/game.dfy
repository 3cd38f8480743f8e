/**
 The card table of game/durak_game.py: the deck, the two hands and the trump.
 Shuffling is not modelled as a distribution: the caller supplies the shuffled
 deck, which must be a permutation of the full deck.
 */
module Game {
  import opened Wrappers
  import opened Cards

  datatype DurakGame = DurakGame(
    deck: seq<Card>,
    playerHand: seq<Card>,
    aiHand: seq<Card>,
    trumpCard: Option<Card>,
    trumpSuit: Option<Suit>,
    active: bool)

  /** What get_game_state reports. */
  datatype GameView = GameView(
    playerHand: seq<Card>,
    aiHandCount: nat,
    trumpCard: Option<Card>,
    deckCount: nat,
    active: bool)

  /** A freshly constructed game: nothing dealt, no trump, inactive. */
  const NewGame: DurakGame := DurakGame([], [], [], None, None, false)

  /** Number of cards each player receives at the start. */
  const HandSize: nat := 6

  function Min(a: int, b: int): int
  {
    if a <= b then a else b
  }

  /** The unshuffled deck: suit by suit, each suit with every rank in rank order. */
  function FullDeck(): (d: seq<Card>)
    ensures |d| == 36
    ensures forall c: Card :: c in d
    ensures forall i, j | 0 <= i < j < |d| :: d[i] != d[j]
  {
    var d := seq(36, i requires 0 <= i < 36 => Card(Suits[i / 9], Ranks[i % 9]));
    forall c: Card ensures c in d {
      var k := SuitIndex(c.suit) * 9 + RankIndex(c.rank);
      assert k / 9 == SuitIndex(c.suit) && k % 9 == RankIndex(c.rank);
      assert d[k] == c;
    }
    forall i, j | 0 <= i < j < |d| ensures d[i] != d[j] {
      assert SuitIndex(d[i].suit) == i / 9 && SuitIndex(d[j].suit) == j / 9;
      assert RankIndex(d[i].rank) == i % 9 && RankIndex(d[j].rank) == j % 9;
      assert i / 9 != j / 9 || i % 9 != j % 9;
    }
    d
  }

  /** In a sequence without repeats, every member occurs exactly once. */
  lemma {:induction false} DistinctOccursOnce(s: seq<Card>, c: Card)
    requires forall i, j | 0 <= i < j < |s| :: s[i] != s[j]
    ensures c in s ==> multiset(s)[c] == 1
    ensures c !in s ==> multiset(s)[c] == 0
  {
    if |s| > 0 {
      DistinctOccursOnce(s[1..], c);
      assert s == [s[0]] + s[1..];
      assert s[0] !in s[1..] by {
        forall k | 0 <= k < |s[1..]| ensures s[1..][k] != s[0] {
          assert s[1..][k] == s[k + 1];
        }
      }
    }
  }

  /** The full deck holds each of the 36 cards exactly once. */
  lemma FullDeckOnce(c: Card)
    ensures multiset(FullDeck())[c] == 1
  {
    DistinctOccursOnce(FullDeck(), c);
  }

  /**
   _initialize_deck: the deck becomes a shuffle of the full deck and its last
   card (the bottom card, dealt last) fixes the trump.
   */
  function InitializeDeck(g: DurakGame, shuffled: seq<Card>): (r: DurakGame)
    requires multiset(shuffled) == multiset(FullDeck())
    ensures |r.deck| == 36
    ensures forall c: Card :: multiset(r.deck)[c] == 1
    ensures r.trumpCard == Some(r.deck[35]) && r.trumpSuit == Some(r.deck[35].suit)
    ensures r.playerHand == g.playerHand && r.aiHand == g.aiHand && r.active == g.active
  {
    assert |shuffled| == |multiset(shuffled)| == |FullDeck()|;
    forall c: Card ensures multiset(shuffled)[c] == 1 {
      FullDeckOnce(c);
    }
    g.(deck := shuffled, trumpCard := Some(shuffled[35]), trumpSuit := Some(shuffled[35].suit))
  }

  /** All cards of a game, wherever they lie. */
  function AllCards(g: DurakGame): multiset<Card>
  {
    multiset(g.deck) + multiset(g.playerHand) + multiset(g.aiHand)
  }

  /**
   The cards a player receives when cards are popped alternately from the top
   of `deck`: the player who pops first takes offset 0, the other offset 1.
   */
  function Alternate(deck: seq<Card>, offset: nat, count: nat): (r: seq<Card>)
    requires count == 0 || offset + 2 * count <= |deck| + 1
    ensures |r| == count
    ensures forall i | 0 <= i < count :: r[i] == deck[|deck| - 1 - offset - 2 * i]
  {
    seq(count, i requires 0 <= i < count => deck[|deck| - 1 - offset - 2 * i])
  }

  /**
   _deal_initial_cards: six rounds, each popping the top (last) card of the
   deck to the player and then, if any is left, the next one to the AI.
   */
  method DealInitialCards(g: DurakGame) returns (r: DurakGame)
    ensures r.trumpCard == g.trumpCard && r.trumpSuit == g.trumpSuit && r.active == g.active
    ensures var k := Min(2 * HandSize, |g.deck|);
      && r.deck == g.deck[..|g.deck| - k]
      && r.playerHand == g.playerHand + Alternate(g.deck, 0, (k + 1) / 2)
      && r.aiHand == g.aiHand + Alternate(g.deck, 1, k / 2)
    ensures AllCards(r) == AllCards(g)
  {
    var n := |g.deck|;
    var deck, player, ai := g.deck, g.playerHand, g.aiHand;
    var p, a := 0, 0;
    var round := 0;
    while round < HandSize
      invariant 0 <= round <= HandSize
      invariant a <= p <= a + 1
      invariant p + a == Min(2 * round, n)
      invariant |deck| + p + a == n
      invariant deck == g.deck[..|deck|]
      invariant player == g.playerHand + Alternate(g.deck, 0, p)
      invariant ai == g.aiHand + Alternate(g.deck, 1, a)
    {
      if |deck| > 0 {
        assert p == a == round;
        AlternateNext(g.deck, 0, p);
        deck, player, p := deck[..|deck| - 1], player + [deck[|deck| - 1]], p + 1;
      }
      if |deck| > 0 {
        assert p == a + 1 == round + 1;
        AlternateNext(g.deck, 1, a);
        deck, ai, a := deck[..|deck| - 1], ai + [deck[|deck| - 1]], a + 1;
      }
      round := round + 1;
    }
    assert p + a == Min(2 * HandSize, n) && p == (p + a + 1) / 2 && a == (p + a) / 2;
    r := g.(deck := deck, playerHand := player, aiHand := ai);
    assert AllCards(r) == AllCards(g) by {
      DealtCardsKept(g.deck, p, a);
      RegroupCards(g, r, Alternate(g.deck, 0, p), Alternate(g.deck, 1, a));
    }
  }

  /** Cards moved from the deck onto the ends of the hands are still in the game. */
  lemma RegroupCards(g: DurakGame, r: DurakGame, toPlayer: seq<Card>, toAi: seq<Card>)
    requires r.playerHand == g.playerHand + toPlayer && r.aiHand == g.aiHand + toAi
    requires multiset(g.deck) == multiset(r.deck) + multiset(toPlayer) + multiset(toAi)
    ensures AllCards(r) == AllCards(g)
  {
    assert multiset(r.playerHand) == multiset(g.playerHand) + multiset(toPlayer);
    assert multiset(r.aiHand) == multiset(g.aiHand) + multiset(toAi);
    forall c: Card ensures AllCards(r)[c] == AllCards(g)[c] {
      assert multiset(g.deck)[c] == multiset(r.deck)[c] + multiset(toPlayer)[c] + multiset(toAi)[c];
    }
  }

  /** The deck is the rest plus the two runs dealt alternately from its top. */
  predicate DealtSplit(d: seq<Card>, p: nat, a: nat)
    requires a <= p <= a + 1 && p + a <= |d|
  {
    multiset(d) == multiset(d[..|d| - p - a]) + multiset(Alternate(d, 0, p)) + multiset(Alternate(d, 1, a))
  }

  /**
   Popping `p + a` cards alternately (first to the player) splits the deck into
   the rest and the two dealt runs, losing and inventing no card.
   */
  lemma {:induction false} DealtCardsKept(d: seq<Card>, p: nat, a: nat)
    requires a <= p <= a + 1 && p + a <= |d|
    ensures DealtSplit(d, p, a)
  {
    if p + a == 0 {
      NothingDealt(d);
    } else if p == a + 1 {
      DealtCardsKept(d, p - 1, a);
      PlayerPopKept(d, p, a);
    } else {
      DealtCardsKept(d, p, a - 1);
      AiPopKept(d, p, a);
    }
  }

  /** Before any pop the whole deck remains. */
  lemma NothingDealt(d: seq<Card>)
    ensures DealtSplit(d, 0, 0)
  {
    assert d[..|d|] == d;
    assert Alternate(d, 0, 0) == [] && Alternate(d, 1, 0) == [];
  }

  /** The step of DealtCardsKept where the player receives the next card. */
  lemma PlayerPopKept(d: seq<Card>, p: nat, a: nat)
    requires p == a + 1 && p + a <= |d|
    requires DealtSplit(d, p - 1, a)
    ensures DealtSplit(d, p, a)
  {
    var m := |d| - p - a;
    assert multiset(d[..m + 1]) == multiset(d[..m]) + multiset{d[m]} by {
      assert d[..m + 1] == d[..m] + [d[m]];
    }
    AlternateSnoc(d, 0, p - 1);
    MoveCard(multiset(d), multiset(d[..m]), multiset(Alternate(d, 0, p - 1)), multiset(Alternate(d, 1, a)), d[m]);
  }

  /** The step of DealtCardsKept where the AI receives the next card. */
  lemma AiPopKept(d: seq<Card>, p: nat, a: nat)
    requires p == a && 0 < p + a <= |d|
    requires DealtSplit(d, p, a - 1)
    ensures DealtSplit(d, p, a)
  {
    var m := |d| - p - a;
    assert multiset(d[..m + 1]) == multiset(d[..m]) + multiset{d[m]} by {
      assert d[..m + 1] == d[..m] + [d[m]];
    }
    AlternateSnoc(d, 1, a - 1);
    MoveCard(multiset(d), multiset(d[..m]), multiset(Alternate(d, 1, a - 1)), multiset(Alternate(d, 0, p)), d[m]);
  }

  /** Moving one card from the remaining deck to a dealt run keeps the total. */
  lemma MoveCard(total: multiset<Card>, rest: multiset<Card>, run: multiset<Card>, other: multiset<Card>, c: Card)
    requires total == rest + multiset{c} + run + other || total == rest + multiset{c} + other + run
    ensures total == rest + (run + multiset{c}) + other && total == rest + other + (run + multiset{c})
  {
  }

  /** One more alternate pop appends the next card down the deck. */
  lemma AlternateNext(d: seq<Card>, offset: nat, count: nat)
    requires offset + 2 * count < |d|
    ensures Alternate(d, offset, count + 1) == Alternate(d, offset, count) + [d[|d| - 1 - offset - 2 * count]]
  {
  }

  lemma AlternateSnoc(d: seq<Card>, offset: nat, count: nat)
    requires offset + 2 * count < |d|
    ensures multiset(Alternate(d, offset, count + 1))
         == multiset(Alternate(d, offset, count)) + multiset{d[|d| - 1 - offset - 2 * count]}
  {
    AlternateNext(d, offset, count);
  }

  /**
   start_new_game: activate, shuffle a full deck and deal. On a full deck each
   hand grows by six, twelve cards leave the deck, and the player's first new
   card is the trump card: the trump is taken from the end the deal pops
   from, so it is dealt at once and is no longer in the deck.
   */
  method StartNewGame(g: DurakGame, shuffled: seq<Card>) returns (r: DurakGame)
    requires multiset(shuffled) == multiset(FullDeck())
    ensures r.active
    ensures |r.deck| == 24
    ensures |r.playerHand| == |g.playerHand| + HandSize
    ensures |r.aiHand| == |g.aiHand| + HandSize
    ensures r.trumpCard.Some? && r.playerHand[|g.playerHand|] == r.trumpCard.value
    ensures r.trumpCard.value !in r.deck
    ensures r.trumpSuit == Some(r.trumpCard.value.suit)
    ensures AllCards(r) == multiset(FullDeck()) + multiset(g.playerHand) + multiset(g.aiHand)
  {
    var g1 := InitializeDeck(g.(active := true), shuffled);
    r := DealInitialCards(g1);
    forall k | 0 <= k < |r.deck| ensures r.deck[k] != r.trumpCard.value {
      OnceAtDistinctPositions(shuffled, 35, k);
    }
  }

  /** A card that occurs once in `s` differs from the card at every other position. */
  lemma OnceAtDistinctPositions(s: seq<Card>, i: nat, j: nat)
    requires i < |s| && j < |s| && i != j
    requires multiset(s)[s[i]] == 1
    ensures s[i] != s[j]
  {
    var lo, hi := if i < j then i else j, if i < j then j else i;
    assert s == s[..hi] + s[hi..];
    assert s[lo] == s[..hi][lo] && s[hi] == s[hi..][0];
    assert s[lo] in multiset(s[..hi]) && s[hi] in multiset(s[hi..]);
  }

  /**
   _initialize_deck with the trump taken from the bottom of the deck, the end
   the deal pops from last, as the Durak rules place it.
   */
  function InitializeDeckBottomTrump(g: DurakGame, shuffled: seq<Card>): (r: DurakGame)
    requires multiset(shuffled) == multiset(FullDeck())
    ensures |r.deck| == 36
    ensures forall c: Card :: multiset(r.deck)[c] == 1
    ensures r.trumpCard == Some(r.deck[0]) && r.trumpSuit == Some(r.deck[0].suit)
    ensures r.playerHand == g.playerHand && r.aiHand == g.aiHand && r.active == g.active
  {
    var d := InitializeDeck(g, shuffled);
    d.(trumpCard := Some(d.deck[0]), trumpSuit := Some(d.deck[0].suit))
  }

  /**
   start_new_game with the bottom trump: the trump card stays in the deck as
   its last card to be drawn, and none of the twelve dealt cards is the trump card.
   */
  method StartNewGameBottomTrump(g: DurakGame, shuffled: seq<Card>) returns (r: DurakGame)
    requires multiset(shuffled) == multiset(FullDeck())
    ensures r.active
    ensures |r.deck| == 24
    ensures |r.playerHand| == |g.playerHand| + HandSize
    ensures |r.aiHand| == |g.aiHand| + HandSize
    ensures r.trumpCard == Some(r.deck[0]) && r.trumpSuit == Some(r.deck[0].suit)
    ensures forall i | |g.playerHand| <= i < |r.playerHand| :: r.playerHand[i] != r.trumpCard.value
    ensures forall i | |g.aiHand| <= i < |r.aiHand| :: r.aiHand[i] != r.trumpCard.value
    ensures AllCards(r) == multiset(FullDeck()) + multiset(g.playerHand) + multiset(g.aiHand)
  {
    var g1 := InitializeDeckBottomTrump(g.(active := true), shuffled);
    r := DealInitialCards(g1);
    forall i | |g.playerHand| <= i < |r.playerHand| ensures r.playerHand[i] != r.trumpCard.value {
      var k := i - |g.playerHand|;
      assert r.playerHand[i] == shuffled[35 - 2 * k];
      OnceAtDistinctPositions(shuffled, 0, 35 - 2 * k);
    }
    forall i | |g.aiHand| <= i < |r.aiHand| ensures r.aiHand[i] != r.trumpCard.value {
      var k := i - |g.aiHand|;
      assert r.aiHand[i] == shuffled[34 - 2 * k];
      OnceAtDistinctPositions(shuffled, 0, 34 - 2 * k);
    }
  }

  /** stop_game: empty the deck and both hands, forget the trump, deactivate. */
  function StopGame(g: DurakGame): (r: DurakGame)
    ensures r.deck == [] && r.playerHand == [] && r.aiHand == []
    ensures r.trumpCard.None? && r.trumpSuit.None? && !r.active
  {
    g.(deck := [], playerHand := [], aiHand := [], trumpCard := None, trumpSuit := None, active := false)
  }

  /** Stopping forgets everything: the result does not depend on the game stopped. */
  lemma StopGameForgets(g: DurakGame, h: DurakGame)
    ensures StopGame(g) == StopGame(h) == NewGame
    ensures StopGame(StopGame(g)) == StopGame(g)
  {
  }

  /**
   is_valid_move: with no target any card may be played; against a target the
   card must beat it under the game's trump.
   */
  function IsValidMove(g: DurakGame, card: Card, target: Option<Card>): (r: bool)
    ensures target.None? ==> r
    ensures target.Some? && card.suit == target.value.suit ==>
      (r <==> RankIndex(card.rank) > RankIndex(target.value.rank))
    ensures target.Some? && card.suit != target.value.suit ==> (r <==> g.trumpSuit == Some(card.suit))
    ensures r ==> target.None? || target.value != card
  {
    match target
    case None => true
    case Some(t) => CanBeat(card, t, g.trumpSuit)
  }

  /** get_game_state: the player's hand, card counts, trump card and activity. */
  function GetGameState(g: DurakGame): (v: GameView)
    ensures v.aiHandCount == |g.aiHand| && v.deckCount == |g.deck|
    ensures v.playerHand == g.playerHand && v.trumpCard == g.trumpCard && v.active == g.active
  {
    GameView(g.playerHand, |g.aiHand|, g.trumpCard, |g.deck|, g.active)
  }
}
