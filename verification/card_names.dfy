/**
 The card-name parser of the screen analyser: a template name such as
 "hearts_ace" is split at the underscore and its two words are looked up in a
 suit table and a rank table, giving the symbols the game uses ("♥", "A").
 */
module CardNames {
  import opened Wrappers
  import opened Cards

  /** Why a name is rejected: the unpacking of the split, or a failed table lookup. */
  datatype ParseError = WrongPartCount(parts: nat) | UnknownSuit(word: string) | UnknownRank(word: string)

  const Separator: char := '_'

  /** The suit table of the parser: English plural suit words to suit symbols. */
  const SuitMap: map<string, string> :=
    map["hearts" := "♥", "diamonds" := "♦", "clubs" := "♣", "spades" := "♠"]

  /** The rank table of the parser: English rank words and digits to rank symbols. */
  const RankMap: map<string, string> :=
    map["ace" := "A", "king" := "K", "queen" := "Q", "jack" := "J",
        "10" := "10", "9" := "9", "8" := "8", "7" := "7", "6" := "6"]

  /** The word naming a suit in a template name. */
  function SuitWord(s: Suit): string
  {
    match s
    case Spades => "spades"
    case Clubs => "clubs"
    case Hearts => "hearts"
    case Diamonds => "diamonds"
  }

  /** The word naming a rank in a template name. */
  function RankWord(r: Rank): string
  {
    match r
    case Six => "6"
    case Seven => "7"
    case Eight => "8"
    case Nine => "9"
    case Ten => "10"
    case Jack => "jack"
    case Queen => "queen"
    case King => "king"
    case Ace => "ace"
  }

  /** The template name of a card: suit word, underscore, rank word. */
  function CardName(c: Card): string
  {
    SuitWord(c.suit) + [Separator] + RankWord(c.rank)
  }

  // ---------------------------------------------------------------------------
  // str.split and its inverse
  // ---------------------------------------------------------------------------

  /**
   str.split(sep) with an explicit separator: the pieces between separators,
   empty pieces included, so there is always one more piece than separators.
   */
  function Split(s: string, sep: char): (parts: seq<string>)
    ensures |parts| >= 1
    ensures forall i | 0 <= i < |parts| :: sep !in parts[i]
  {
    if |s| == 0 then [""]
    else
      var rest := Split(s[1..], sep);
      if s[0] == sep then [""] + rest
      else [[s[0]] + rest[0]] + rest[1..]
  }

  /** The pieces concatenated with `sep` between neighbours: the inverse of Split. */
  function Join(parts: seq<string>, sep: char): string
    requires |parts| >= 1
  {
    if |parts| == 1 then parts[0] else parts[0] + [sep] + Join(parts[1..], sep)
  }

  /** Joining the pieces of a split gives back the string. */
  lemma {:induction false} JoinSplit(s: string, sep: char)
    ensures Join(Split(s, sep), sep) == s
    decreases |s|
  {
    if |s| > 0 {
      var rest := Split(s[1..], sep);
      JoinSplit(s[1..], sep);
      if s[0] == sep {
        assert Split(s, sep)[1..] == rest;
      } else {
        var parts := Split(s, sep);
        if |rest| == 1 {
          assert parts == [[s[0]] + rest[0]];
        } else {
          assert parts[1..] == rest[1..];
          assert Join(rest, sep) == rest[0] + [sep] + Join(rest[1..], sep);
        }
        assert s == [s[0]] + s[1..];
      }
    }
  }

  /** A word free of the separator, followed by the separator, is split off as one piece. */
  lemma {:induction false} SplitWord(w: string, sep: char, rest: string)
    requires sep !in w
    ensures Split(w + [sep] + rest, sep) == [w] + Split(rest, sep)
    decreases |w|
  {
    var s := w + [sep] + rest;
    if |w| == 0 {
      assert s == [sep] + rest;
      assert s[1..] == rest;
    } else {
      assert s[1..] == w[1..] + [sep] + rest;
      SplitWord(w[1..], sep, rest);
      assert [w[0]] + w[1..] == w;
    }
  }

  /** Splitting a join of separator-free pieces gives back the pieces. */
  lemma {:induction false} SplitJoin(parts: seq<string>, sep: char)
    requires |parts| >= 1
    requires forall i | 0 <= i < |parts| :: sep !in parts[i]
    ensures Split(Join(parts, sep), sep) == parts
    decreases |parts|
  {
    if |parts| == 1 {
      SplitNoSeparator(parts[0], sep);
    } else {
      SplitJoin(parts[1..], sep);
      SplitWord(parts[0], sep, Join(parts[1..], sep));
      assert [parts[0]] + parts[1..] == parts;
    }
  }

  /** A string without the separator is one piece. */
  lemma {:induction false} SplitNoSeparator(w: string, sep: char)
    requires sep !in w
    ensures Split(w, sep) == [w]
    decreases |w|
  {
    if |w| > 0 {
      SplitNoSeparator(w[1..], sep);
      assert [w[0]] + w[1..] == w;
    }
  }

  // ---------------------------------------------------------------------------
  // _parse_card_name
  // ---------------------------------------------------------------------------

  /**
   _parse_card_name: unpack the split into exactly two words (a ValueError
   otherwise), then look the suit word up (a KeyError when missing), then the
   rank word.
   */
  function ParseCardName(name: string): (r: Result<(string, string), ParseError>)
    ensures r.Success? ==> r.value.0 in SuitSymbols && r.value.1 in RankSymbols
    ensures r.Success? <==>
      exists c: Card :: name == CardName(c)
    ensures r.Failure? && r.error.WrongPartCount? <==> |Split(name, Separator)| != 2
    ensures r.Failure? && r.error.UnknownSuit? <==>
      |Split(name, Separator)| == 2 && forall s: Suit :: SuitWord(s) != Split(name, Separator)[0]
    ensures r.Failure? && r.error.UnknownRank? <==>
      && |Split(name, Separator)| == 2
      && (exists s: Suit :: SuitWord(s) == Split(name, Separator)[0])
      && forall k: Rank :: RankWord(k) != Split(name, Separator)[1]
  {
    var parts := Split(name, Separator);
    SuitMapIsSuitWords();
    RankMapIsRankWords();
    AllCardNamesSplit();
    if |parts| != 2 then
      Failure(WrongPartCount(|parts|))
    else if parts[0] !in SuitMap then Failure(UnknownSuit(parts[0]))
    else if parts[1] !in RankMap then Failure(UnknownRank(parts[1]))
    else
      var s := SuitOfWord(parts[0]);
      var k := RankOfWord(parts[1]);
      assert name == CardName(Card(s, k)) by {
        JoinSplit(name, Separator);
      }
      Success((SuitMap[parts[0]], RankMap[parts[1]]))
  }

  /** Every card name splits into its suit word and its rank word. */
  lemma CardNameSplits(c: Card)
    ensures Split(CardName(c), Separator) == [SuitWord(c.suit), RankWord(c.rank)]
  {
    SplitWord(SuitWord(c.suit), Separator, RankWord(c.rank));
    SplitNoSeparator(RankWord(c.rank), Separator);
  }

  lemma AllCardNamesSplit()
    ensures forall c: Card :: Split(CardName(c), Separator) == [SuitWord(c.suit), RankWord(c.rank)]
  {
    forall c: Card ensures Split(CardName(c), Separator) == [SuitWord(c.suit), RankWord(c.rank)] {
      CardNameSplits(c);
    }
  }

  /** The suit table maps exactly the suit words, each to its suit's symbol. */
  lemma SuitMapIsSuitWords()
    ensures forall w :: w in SuitMap <==> exists s: Suit :: SuitWord(s) == w
    ensures forall s: Suit :: SuitMap[SuitWord(s)] == SuitSymbol(s)
  {
    assert SuitWord(Hearts) == "hearts" && SuitWord(Diamonds) == "diamonds";
    assert SuitWord(Clubs) == "clubs" && SuitWord(Spades) == "spades";
  }

  /** The rank table maps exactly the rank words, each to its rank's symbol. */
  lemma RankMapIsRankWords()
    ensures forall w :: w in RankMap <==> exists k: Rank :: RankWord(k) == w
    ensures forall k: Rank :: RankMap[RankWord(k)] == RankSymbol(k)
  {
    assert RankWord(Ace) == "ace" && RankWord(King) == "king" && RankWord(Queen) == "queen";
    assert RankWord(Jack) == "jack" && RankWord(Ten) == "10" && RankWord(Nine) == "9";
    assert RankWord(Eight) == "8" && RankWord(Seven) == "7" && RankWord(Six) == "6";
  }

  function SuitOfWord(w: string): (s: Suit)
    requires w in SuitMap
    ensures SuitWord(s) == w
  {
    SuitMapIsSuitWords();
    if w == "spades" then Spades
    else if w == "clubs" then Clubs
    else if w == "hearts" then Hearts
    else Diamonds
  }

  function RankOfWord(w: string): (k: Rank)
    requires w in RankMap
    ensures RankWord(k) == w
  {
    RankMapIsRankWords();
    if w == "6" then Six
    else if w == "7" then Seven
    else if w == "8" then Eight
    else if w == "9" then Nine
    else if w == "10" then Ten
    else if w == "jack" then Jack
    else if w == "queen" then Queen
    else if w == "king" then King
    else Ace
  }

  /** Parsing a card's name gives that card's suit and rank symbols. */
  lemma ParseCardNameRoundTrip(c: Card)
    ensures ParseCardName(CardName(c)) == Success((SuitSymbol(c.suit), RankSymbol(c.rank)))
  {
    CardNameSplits(c);
    SuitMapIsSuitWords();
    RankMapIsRankWords();
  }

  /** The example of `_parse_card_name`'s docstring: the ace of hearts. */
  lemma ParseHeartsAce()
    ensures ParseCardName("hearts_ace") == Success(("♥", "A"))
  {
    assert CardName(Card(Hearts, Ace)) == "hearts_ace";
    ParseCardNameRoundTrip(Card(Hearts, Ace));
  }

  /** Suit words and rank words name one suit and one rank each. */
  lemma WordsInjective(c: Card, d: Card)
    requires SuitSymbol(c.suit) == SuitSymbol(d.suit) && RankSymbol(c.rank) == RankSymbol(d.rank)
    ensures c == d
  {
    RankSymbolInjective(c.rank, d.rank);
  }

  /** Distinct accepted names parse to distinct symbol pairs. */
  lemma ParseCardNameInjective(n1: string, n2: string)
    requires ParseCardName(n1).Success? && ParseCardName(n1) == ParseCardName(n2)
    ensures n1 == n2
  {
    var c1 :| n1 == CardName(c1);
    var c2 :| n2 == CardName(c2);
    ParseCardNameRoundTrip(c1);
    ParseCardNameRoundTrip(c2);
    WordsInjective(c1, c2);
  }
}
