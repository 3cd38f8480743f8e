/**
 Cards and the beat relation of a 36-card Durak deck (four suits, ranks six to ace).
 */
module Cards {
  import opened Wrappers

  /** The four suits, in the deck's suit order: spades, clubs, hearts, diamonds. */
  datatype Suit = Spades | Clubs | Hearts | Diamonds

  /** The nine ranks, in the deck's rank order: weakest first. */
  datatype Rank = Six | Seven | Eight | Nine | Ten | Jack | Queen | King | Ace

  datatype Card = Card(suit: Suit, rank: Rank)

  /** The suit and rank orders, and the symbols the game's cards carry. */
  const Suits: seq<Suit> := [Spades, Clubs, Hearts, Diamonds]
  const Ranks: seq<Rank> := [Six, Seven, Eight, Nine, Ten, Jack, Queen, King, Ace]
  const SuitSymbols: seq<string> := ["♠", "♣", "♥", "♦"]
  const RankSymbols: seq<string> := ["6", "7", "8", "9", "10", "J", "Q", "K", "A"]

  /** The number of ranks in the 36-card deck. */
  const RankCount: nat := 9

  /** Position of a suit in the suit order. */
  function SuitIndex(s: Suit): (i: nat)
    ensures i < |Suits| && Suits[i] == s
  {
    match s
    case Spades => 0
    case Clubs => 1
    case Hearts => 2
    case Diamonds => 3
  }

  /** The strength of a rank: its position in the rank order, from six up to ace. */
  function RankIndex(r: Rank): (i: nat)
    ensures i < RankCount && Ranks[i] == r
  {
    match r
    case Six => 0
    case Seven => 1
    case Eight => 2
    case Nine => 3
    case Ten => 4
    case Jack => 5
    case Queen => 6
    case King => 7
    case Ace => 8
  }

  function SuitSymbol(s: Suit): string
  {
    SuitSymbols[SuitIndex(s)]
  }

  function RankSymbol(r: Rank): string
  {
    RankSymbols[RankIndex(r)]
  }

  /** Card.__str__: the rank symbol followed by the suit symbol, e.g. "10♠". */
  function CardString(c: Card): (s: string)
    ensures |s| == |RankSymbol(c.rank)| + 1
    ensures s[..|s| - 1] == RankSymbol(c.rank)
    ensures s[|s| - 1] == SuitSymbol(c.suit)[0]
  {
    RankSymbol(c.rank) + SuitSymbol(c.suit)
  }

  /** A card is trump when a trump suit is known and the card is of that suit. */
  predicate IsTrump(c: Card, trump: Option<Suit>)
  {
    trump == Some(c.suit)
  }

  /** Card.can_beat: does `c` beat `other` under the given trump suit? */
  predicate CanBeat(c: Card, other: Card, trump: Option<Suit>)
  {
    if c.suit == other.suit then RankIndex(c.rank) > RankIndex(other.rank)
    else IsTrump(c, trump)
  }

  /** Within one suit, the beat relation is the rank order. */
  lemma SameSuitBeats(a: Card, b: Card, trump: Option<Suit>)
    requires a.suit == b.suit
    ensures CanBeat(a, b, trump) <==> RankIndex(a.rank) > RankIndex(b.rank)
  {
  }

  /** Across suits, only a trump beats, whatever the ranks. */
  lemma OffSuitBeats(a: Card, b: Card, trump: Option<Suit>)
    requires a.suit != b.suit
    ensures CanBeat(a, b, trump) <==> trump == Some(a.suit)
  {
  }

  /** No card beats itself, and no two cards beat each other. */
  lemma BeatIsAsymmetric(a: Card, b: Card, trump: Option<Suit>)
    ensures !CanBeat(a, a, trump)
    ensures CanBeat(a, b, trump) ==> !CanBeat(b, a, trump)
  {
  }

  /** Rank indices identify ranks, and rank symbols identify ranks. */
  lemma RankSymbolInjective(a: Rank, b: Rank)
    ensures RankIndex(a) == RankIndex(b) ==> a == b
    ensures RankSymbol(a) == RankSymbol(b) ==> a == b
  {
  }

  /** Two cards print alike only when they are the same card. */
  lemma CardStringInjective(a: Card, b: Card)
    ensures CardString(a) == CardString(b) ==> a == b
  {
    if CardString(a) == CardString(b) {
      var s := CardString(a);
      assert RankSymbol(a.rank) == s[..|s| - 1] == RankSymbol(b.rank);
      RankSymbolInjective(a.rank, b.rank);
      assert SuitSymbol(a.suit)[0] == SuitSymbol(b.suit)[0];
    }
  }
}
