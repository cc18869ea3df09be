// The browser's scoring preview (src/lib/utils/scoring.js). Its counting and
// pattern helpers are the same as the server's, so they are the Logic module's;
// what differs is the guard on the dice, the split into upper and lower totals,
// and the category list the scorecard view iterates.
module ClientScoring {
  import opened Wrappers
  import opened Logic

  /**
   * `calculateScore(dice, category)`: no dice, or any number of dice other
   * than five, scores 0; five dice score as on the server.
   */
  function CalculateScore(dice: Option<seq<int>>, key: string): (r: nat)
    requires dice.Some? && |dice.value| == 5 ==> AllFaces(dice.value)
    ensures dice.None? || |dice.value| != 5 ==> r == 0
    ensures ParseKey(key).None? ==> r == 0
    ensures r <= 50
  {
    if dice.None? || |dice.value| != 5 then 0
    else
      match ParseKey(key)
      case None => 0
      case Some(c) => Score(dice.value, c)
  }

  /** On five dice the preview shows exactly the score the server will record. */
  lemma {:induction false} PreviewMatchesServer(dice: seq<int>, key: string)
    requires |dice| == 5 && AllFaces(dice)
    ensures CalculateScore(Some(dice), key) == Logic.CalculateScore(dice, key)
  {
  }

  /** The preview of a named category is that category's score. */
  lemma {:induction false} PreviewOfCategory(dice: seq<int>, c: Category)
    requires |dice| == 5 && AllFaces(dice)
    ensures CalculateScore(Some(dice), Key(c)) == Score(dice, c)
  {
    ParseKeyRoundTrip(c);
  }

  /** `calculateUpperTotal`: the six upper slots, null as 0. */
  function CalculateUpperTotal(sc: Scorecard): (r: nat)
    ensures r == sc.Value(Ones) + sc.Value(Twos) + sc.Value(Threes)
      + sc.Value(Fours) + sc.Value(Fives) + sc.Value(Sixes)
  {
    SumSlotsUpper(sc);
    SumSlots(sc, UpperCategories)
  }

  /** `calculateUpperBonus`: 35 exactly when the upper total reaches 63. */
  function CalculateUpperBonus(sc: Scorecard): (r: nat)
    ensures r == 35 <==> CalculateUpperTotal(sc) >= 63
    ensures r == 0 <==> CalculateUpperTotal(sc) < 63
  {
    var upperSum := SumSlots(sc, UpperCategories);
    if upperSum >= 63 then 35 else 0
  }

  /** The lower-section categories, in the order `calculateLowerTotal` lists them. */
  const LowerCategories: seq<Category> :=
    [ThreeOfAKind, FourOfAKind, FullHouse, SmallStraight, LargeStraight, Yahtzee, Chance]

  /** `calculateLowerTotal`: the seven lower slots, null as 0, plus the yahtzee bonus. */
  function CalculateLowerTotal(sc: Scorecard): (r: nat)
    ensures r == sc.Value(ThreeOfAKind) + sc.Value(FourOfAKind) + sc.Value(FullHouse)
      + sc.Value(SmallStraight) + sc.Value(LargeStraight) + sc.Value(Yahtzee) + sc.Value(Chance)
      + sc.yahtzeeBonus
  {
    assert LowerCategories == Categories[6..];
    SumSlotsLower(sc);
    SumSlots(sc, LowerCategories) + sc.yahtzeeBonus
  }

  /**
   * `calculateTotalScore`: upper total, upper bonus and lower total, which
   * is the server's total for every scorecard.
   */
  function CalculateTotalScore(sc: Scorecard): (r: nat)
    ensures r == Logic.CalculateTotalScore(sc)
  {
    UpperBonusMatchesServer(sc);
    CalculateUpperTotal(sc) + CalculateUpperBonus(sc) + CalculateLowerTotal(sc)
  }

  /** The client's upper bonus is the server's. */
  lemma {:induction false} UpperBonusMatchesServer(sc: Scorecard)
    ensures CalculateUpperBonus(sc) == Logic.CalculateUpperBonus(sc)
  {
    SumSlotsUpper(sc);
  }

  /** An upper total of 63 or more earns 35 more; one below does not. */
  lemma {:induction false} TotalWithBonus(sc: Scorecard)
    ensures CalculateTotalScore(sc) == CalculateUpperTotal(sc) + CalculateLowerTotal(sc)
      + (if CalculateUpperTotal(sc) >= 63 then 35 else 0)
  {
  }

  /** The `key` fields of `CATEGORIES.upper` and `CATEGORIES.lower`. */
  const UpperKeys: seq<string> := ["ones", "twos", "threes", "fours", "fives", "sixes"]
  const LowerKeys: seq<string> :=
    ["threeOfAKind", "fourOfAKind", "fullHouse", "smallStraight", "largeStraight", "yahtzee", "chance"]

  /**
   * `CATEGORIES` lists the thirteen scorecard keys, six upper then seven
   * lower, in the order of the server's category list.
   */
  lemma {:induction false} CategoriesMatchServer()
    ensures |UpperKeys| == 6 && |LowerKeys| == 7
    ensures forall k :: 0 <= k < 6 ==> ParseKey(UpperKeys[k]) == Some(Categories[k]) && Categories[k].IsUpper()
    ensures forall k :: 0 <= k < 7 ==> ParseKey(LowerKeys[k]) == Some(Categories[6 + k]) && !Categories[6 + k].IsUpper()
  {
    forall k | 0 <= k < 6
      ensures ParseKey(UpperKeys[k]) == Some(Categories[k]) && Categories[k].IsUpper()
    {
      ParseKeyRoundTrip(Categories[k]);
    }
    forall k | 0 <= k < 7
      ensures ParseKey(LowerKeys[k]) == Some(Categories[6 + k]) && !Categories[6 + k].IsUpper()
    {
      ParseKeyRoundTrip(Categories[6 + k]);
    }
  }
}
