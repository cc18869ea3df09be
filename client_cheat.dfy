// The browser's copy of the feasibility checks (src/lib/cheat-client.js). It
// answers yes or no only, so the UI can list the categories a cheating player
// may pick. `getHeldValues` and `isCheatEnabled` are the same as the server's
// and are the Cheat module's.
module ClientCheat {
  import opened Logic
  import opened Cheat

  // -------------------------------------------------------------- straights

  /** The `for (const straight of validStraights)` loop: whether some window fits. */
  function AnyWindowFits(windows: seq<seq<int>>, hv: seq<int>, unheld: nat, large: bool): (r: bool)
    ensures r <==> exists k :: 0 <= k < |windows| && Fits(large, windows[k], hv, unheld)
  {
    if windows == [] then false
    else if Fits(large, windows[0], hv, unheld) then true
    else
      var rest := AnyWindowFits(windows[1..], hv, unheld, large);
      assert forall k :: 1 <= k < |windows| ==> windows[k] == windows[1..][k - 1];
      rest
  }

  /**
   * `canAchieveLargeStraight`: all held dice distinct and inside a window
   * whose missing faces fit; the answer is the server's.
   */
  function LargeStraightPossible(hv: seq<int>, unheld: nat): (r: bool)
    ensures r <==> CanAchieveLargeStraight(hv, unheld).StraightPossible?
  {
    FirstWindowSpec(LargeWindows, hv, unheld, true);
    AnyWindowFits(LargeWindows, hv, unheld, true)
  }

  /**
   * `canAchieveSmallStraight`: at most one held die outside a window whose
   * missing faces fit; the answer is the server's.
   */
  function SmallStraightPossible(hv: seq<int>, unheld: nat): (r: bool)
    ensures r <==> CanAchieveSmallStraight(hv, unheld).StraightPossible?
  {
    FirstWindowSpec(SmallWindows, hv, unheld, false);
    AnyWindowFits(SmallWindows, hv, unheld, false)
  }

  // ---------------------------------------------------------------- yahtzee

  /** `canAchieveYahtzee`: nothing held, or one face among the held dice. */
  function YahtzeePossible(hv: seq<int>): (r: bool)
    ensures r <==> AllSame(hv)
  {
    SetOfSame(hv);
    if |hv| == 0 then true else |set v | v in hv| == 1
  }

  // ------------------------------------------------------------ n of a kind

  /** The condition `canAchieveNOfAKind` decides. */
  predicate NOfAKindPossible(hv: seq<int>, unheld: nat, n: int)
  {
    Max0(n - MaxCount(hv)) <= unheld
  }

  /**
   * `canAchieveNOfAKind(heldValues, unheldCount, n)`: count the held values,
   * take the largest count, and compare what is still needed with the unheld
   * dice. The answer is the server's.
   */
  method CanAchieveNOfAKind(hv: seq<int>, unheld: nat, n: int) returns (possible: bool)
    requires AllFaces(hv)
    ensures possible <==> Max0(n - MaxCount(hv)) <= unheld
    ensures possible <==> NOfAKindPlan(hv, unheld, n).KindPossible?
  {
    var counts := GetCounts(hv);
    var bestCount := 0;
    for f := 0 to 6
      invariant bestCount == MaxCountUpTo(hv, f)
    {
      if counts[f] > bestCount {
        bestCount := counts[f];
      }
    }
    if |hv| == 0 {
      bestCount := 0;
    }
    var stillNeeded := Max0(n - bestCount);
    possible := stillNeeded <= unheld;
  }

  /** Nothing held: whether n dice of a kind fit into the dice left to roll. */
  lemma {:induction false} NOfAKindNothingHeld(unheld: nat, n: int)
    ensures NOfAKindPossible([], unheld, n) <==> n <= unheld
  {
    assert forall f :: Count([], f) == 0;
    assert MaxCount([]) == 0;
  }

  // ------------------------------------------------------------- full house

  /**
   * `canAchieveFullHouse`: with one held face it asks for at most three of it;
   * with two it completes the more frequent (the first on a tie, as the stable
   * sort keeps it first) to three and the other to two. On a five-dice hand
   * that is possible exactly when at most two faces are held, none more than
   * three times.
   */
  function FullHousePossible(hv: seq<int>, unheld: nat): (r: bool)
    requires AllFaces(hv)
    ensures r ==> |Entries(hv)| <= 2
    ensures |hv| + unheld == 5 ==> (r <==> |Entries(hv)| <= 2 && MaxCount(hv) <= 3)
  {
    var fits := HouseFits(Entries(hv), unheld);
    if |hv| + unheld == 5 then HouseFitsIff(hv, unheld); fits else fits
  }

  /** The body of `canAchieveFullHouse` over the held faces and their counts. */
  predicate HouseFits(values: seq<Entry>, unheld: nat)
  {
    if |values| == 0 then true
    else if |values| == 1 then
      var count := values[0].count;
      count <= 3 && (3 - count) + 2 <= unheld + count
    else if |values| == 2 then
      var higher := if values[1].count > values[0].count then values[1] else values[0];
      var lower := if values[1].count > values[0].count then values[0] else values[1];
      Max0(3 - higher.count) + Max0(2 - lower.count) <= unheld
    else false
  }

  /** One held face: possible exactly when it is held at most three times. */
  lemma {:induction false} HouseOneClient(hv: seq<int>, unheld: nat)
    requires AllFaces(hv) && |hv| + unheld == 5 && |Entries(hv)| == 1
    ensures HouseFits(Entries(hv), unheld) <==> MaxCount(hv) <= 3
  {
    SingleEntry(hv);
    EntryIsMax(hv, 0);
  }

  /** Two held faces: possible exactly when neither is held more than three times. */
  lemma {:induction false} HouseTwoClient(hv: seq<int>, unheld: nat)
    requires AllFaces(hv) && |hv| + unheld == 5 && |Entries(hv)| == 2
    ensures HouseFits(Entries(hv), unheld) <==> MaxCount(hv) <= 3
  {
    var e := Entries(hv);
    TwoEntries(hv);
    HouseTwoCounts(e[0].count, e[1].count, unheld);
    EntryIsMax(hv, if e[1].count > e[0].count then 1 else 0);
  }

  /** Two held counts: completing the larger to three and the smaller to two fits exactly when the larger is at most three. */
  lemma {:induction false} HouseTwoCounts(a: nat, b: nat, unheld: nat)
    requires a >= 1 && b >= 1 && a + b + unheld == 5
    ensures var higher, lower := if b > a then b else a, if b > a then a else b;
      Max0(3 - higher) + Max0(2 - lower) <= unheld <==> higher <= 3
  {
  }

  /** On a five-dice hand: the entries fit exactly when at most two faces are held, none more than three times. */
  lemma {:induction false} HouseFitsIff(hv: seq<int>, unheld: nat)
    requires AllFaces(hv) && |hv| + unheld == 5
    ensures HouseFits(Entries(hv), unheld) <==> |Entries(hv)| <= 2 && MaxCount(hv) <= 3
  {
    var e := Entries(hv);
    if |e| == 0 {
      NoEntries(hv);
    } else if |e| == 1 {
      HouseOneClient(hv, unheld);
    } else if |e| == 2 {
      HouseTwoClient(hv, unheld);
    }
  }

  /** A face counted as often as the hand is long is every die of the hand. */
  lemma {:induction false} CountFull(s: seq<int>, f: int)
    requires Count(s, f) == |s|
    ensures forall i :: 0 <= i < |s| ==> s[i] == f
  {
    if s != [] {
      assert s == [s[0]] + s[1..];
      CountBound(s[1..]);
      assert s[0] == f;
      CountFull(s[1..], f);
      forall i | 0 <= i < |s| ensures s[i] == f {
        if i > 0 {
          assert s[i] == s[1..][i - 1];
        }
      }
    }
  }

  /** The largest held count is five exactly when five equal dice are held. */
  lemma {:induction false} FiveHeldSame(hv: seq<int>)
    requires AllFaces(hv) && |hv| <= 5
    ensures MaxCount(hv) == 5 <==> |hv| == 5 && AllSame(hv)
  {
    CountBound(hv);
    if MaxCount(hv) == 5 {
      var f :| IsFace(f) && Count(hv, f) == 5;
      CountFull(hv, f);
    }
    if |hv| == 5 && AllSame(hv) {
      assert hv == Repeat(hv[0], 5);
      CountRepeat(hv[0], 5, hv[0]);
    }
  }

  /**
   * The client and the server disagree on a full house in exactly one case:
   * five equal dice held, which the server reports possible (five of a kind
   * scores as a full house) and the client does not.
   */
  lemma {:induction false} FullHouseDiffersOnlyOnFiveHeld(hv: seq<int>, unheld: nat)
    requires AllFaces(hv) && |hv| + unheld == 5
    ensures FullHousePossible(hv, unheld) != CanAchieveFullHouse(hv, unheld).HousePossible?
      <==> |hv| == 5 && AllSame(hv)
    ensures |hv| == 5 && AllSame(hv) ==> !FullHousePossible(hv, unheld)
  {
    FullHousePossibleIff(hv, unheld);
    FiveHeldSame(hv);
  }

  // ---------------------------------------------------- achievable categories

  /** Whether the client offers category c (when unscored). */
  predicate ClientAchievable(hv: seq<int>, unheld: nat, c: Category)
    requires AllFaces(hv)
  {
    match c
    case ThreeOfAKind => NOfAKindPossible(hv, unheld, 3)
    case FourOfAKind => NOfAKindPossible(hv, unheld, 4)
    case FullHouse => FullHousePossible(hv, unheld)
    case SmallStraight => SmallStraightPossible(hv, unheld)
    case LargeStraight => LargeStraightPossible(hv, unheld)
    case Yahtzee => YahtzeePossible(hv)
    case Chance => true
    case _ => Count(hv, c.Face()) + unheld >= 3
  }

  /** The client offers what the server offers, except a full house when five equal dice are held. */
  lemma {:induction false} ClientAchievableAgrees(hv: seq<int>, unheld: nat, c: Category)
    requires AllFaces(hv) && |hv| + unheld == 5
    ensures ClientAchievable(hv, unheld, c) != Achievable(hv, unheld, c)
      <==> c == FullHouse && |hv| == 5 && AllSame(hv)
  {
    match c {
      case FullHouse => FullHouseDiffersOnlyOnFiveHeld(hv, unheld);
      case _ =>
    }
  }

  /** The categories the client menu is to offer: the unscored ones it finds achievable. */
  function ClientWanted(hv: seq<int>, unheld: nat, sc: Scorecard): (w: set<Category>)
    requires AllFaces(hv)
    ensures forall c :: c in w <==> sc.IsUnscored(c) && ClientAchievable(hv, unheld, c)
  {
    CategoriesComplete();
    set c | c in Categories && sc.IsUnscored(c) && ClientAchievable(hv, unheld, c)
  }

  /** The first six categories are the upper section. */
  lemma {:induction false} UpperIndex(k: nat)
    requires k < 6
    ensures Categories[k].IsUpper()
  {
  }

  /** One lower-section test of `getAchievableCategories`. */
  method LowerCheck(hv: seq<int>, unheld: nat, c: Category) returns (possible: bool)
    requires AllFaces(hv) && !c.IsUpper()
    ensures possible == ClientAchievable(hv, unheld, c)
  {
    match c {
      case ThreeOfAKind => possible := CanAchieveNOfAKind(hv, unheld, 3);
      case FourOfAKind => possible := CanAchieveNOfAKind(hv, unheld, 4);
      case FullHouse => possible := FullHousePossible(hv, unheld);
      case SmallStraight => possible := SmallStraightPossible(hv, unheld);
      case LargeStraight => possible := LargeStraightPossible(hv, unheld);
      case Yahtzee => possible := YahtzeePossible(hv);
      case Chance => possible := true;
    }
  }

  /** One upper-section test: the k-th category goes on when unscored and within reach of three. */
  method OfferUpper(achievable: seq<Category>, hv: seq<int>, unheld: nat, sc: Scorecard, k: nat)
    returns (r: seq<Category>)
    requires AllFaces(hv) && k < 6
    requires achievable == OfferedUpTo(ClientWanted(hv, unheld, sc), k)
    ensures r == OfferedUpTo(ClientWanted(hv, unheld, sc), k + 1)
  {
    var c := Categories[k];
    UpperIndex(k);
    r := achievable;
    if sc.IsUnscored(c) {
      var heldOfValue := Count(hv, c.Face());
      if heldOfValue + unheld >= 3 {
        r := achievable + [c];
      }
    }
  }

  /** One lower-section test: the k-th category goes on when unscored and offered. */
  method OfferLower(achievable: seq<Category>, hv: seq<int>, unheld: nat, sc: Scorecard, k: nat)
    returns (r: seq<Category>)
    requires AllFaces(hv) && 6 <= k < |Categories|
    requires achievable == OfferedUpTo(ClientWanted(hv, unheld, sc), k)
    ensures r == OfferedUpTo(ClientWanted(hv, unheld, sc), k + 1)
  {
    var c := Categories[k];
    LowerAt(k);
    r := achievable;
    if sc.IsUnscored(c) {
      var possible := LowerCheck(hv, unheld, c);
      if possible {
        r := achievable + [c];
      }
    }
  }

  /**
   * `getAchievableCategories(dice, heldDice, scorecard)`: the unscored
   * categories the client offers, each once, in scorecard order.
   */
  method GetAchievableCategories(dice: seq<int>, held: seq<bool>, sc: Scorecard)
    returns (achievable: seq<Category>)
    requires |dice| == |held| && AllFaces(dice)
    ensures var hv := GetHeldValues(dice, held);
      AllFaces(hv)
      && (forall c :: c in achievable <==> sc.IsUnscored(c) && ClientAchievable(hv, NumUnheld(held), c))
    ensures forall p, q :: 0 <= p < q < |achievable| ==> Index(achievable[p]) < Index(achievable[q])
  {
    var heldValues := GetHeldValues(dice, held);
    var unheldCount := NumUnheld(held);
    ghost var want := ClientWanted(heldValues, unheldCount, sc);
    achievable := [];
    for k := 0 to 6
      invariant achievable == OfferedUpTo(want, k)
    {
      achievable := OfferUpper(achievable, heldValues, unheldCount, sc, k);
    }
    for k := 6 to 13
      invariant achievable == OfferedUpTo(want, k)
    {
      achievable := OfferLower(achievable, heldValues, unheldCount, sc, k);
    }
    OfferedAll(want);
  }

  /** Unscored chance is always offered. */
  lemma {:induction false} ChanceAlwaysOffered(hv: seq<int>, unheld: nat)
    requires AllFaces(hv)
    ensures ClientAchievable(hv, unheld, Chance)
  {
  }
}
