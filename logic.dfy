/**
 * The scoring engine and game-state helpers of the Yahtzee server
 * (src/lib/server/yahtzee/logic.js): the five dice, the thirteen scoring
 * categories, the per-player scorecard with its totals, the end-of-game test
 * and the winner selection.
 */
module Logic {
  import opened Wrappers

  // ------------------------------------------------------------------ dice

  /** A die shows a face in 1..6. */
  predicate IsFace(v: int) { 1 <= v <= 6 }

  predicate AllFaces(s: seq<int>) { forall i :: 0 <= i < |s| ==> IsFace(s[i]) }

  /** All dice show the same face. */
  predicate AllSame(s: seq<int>) { forall i :: 0 <= i < |s| ==> s[i] == s[0] }

  /** Number of dice in `s` showing `v`. */
  function Count(s: seq<int>, v: int): nat { multiset(s)[v] }

  /** `Array(n).fill(v)`. */
  function Repeat(v: int, n: nat): (r: seq<int>)
    ensures |r| == n && forall i :: 0 <= i < n ==> r[i] == v
  {
    seq(n, _ => v)
  }

  predicate StrictlyIncreasing(s: seq<int>)
  {
    forall p, q :: 0 <= p < q < |s| ==> s[p] < s[q]
  }

  // ------------------------------------------------------------ categories

  /** The thirteen scorecard slots. */
  datatype Category =
    | Ones | Twos | Threes | Fours | Fives | Sixes
    | ThreeOfAKind | FourOfAKind | FullHouse | SmallStraight | LargeStraight | Yahtzee | Chance
  {
    predicate IsUpper() { Ones? || Twos? || Threes? || Fours? || Fives? || Sixes? }

    /** The face an upper-section category counts. */
    function Face(): (f: int)
      requires IsUpper()
      ensures IsFace(f)
    {
      if Ones? then 1 else if Twos? then 2 else if Threes? then 3
      else if Fours? then 4 else if Fives? then 5 else 6
    }
  }

  /** The category list of `calculateTotalScore` and `isGameOver`, in order. */
  const Categories: seq<Category> :=
    [Ones, Twos, Threes, Fours, Fives, Sixes,
     ThreeOfAKind, FourOfAKind, FullHouse, SmallStraight, LargeStraight, Yahtzee, Chance]

  const UpperCategories: seq<Category> := [Ones, Twos, Threes, Fours, Fives, Sixes]

  /** Position of a category in `Categories`. */
  function Index(c: Category): (i: nat)
    ensures i < |Categories| && Categories[i] == c
  {
    match c
    case Ones => 0 case Twos => 1 case Threes => 2 case Fours => 3 case Fives => 4 case Sixes => 5
    case ThreeOfAKind => 6 case FourOfAKind => 7 case FullHouse => 8 case SmallStraight => 9
    case LargeStraight => 10 case Yahtzee => 11 case Chance => 12
  }

  /** The JavaScript object key of a category. */
  function Key(c: Category): string
  {
    match c
    case Ones => "ones" case Twos => "twos" case Threes => "threes"
    case Fours => "fours" case Fives => "fives" case Sixes => "sixes"
    case ThreeOfAKind => "threeOfAKind" case FourOfAKind => "fourOfAKind"
    case FullHouse => "fullHouse" case SmallStraight => "smallStraight"
    case LargeStraight => "largeStraight" case Yahtzee => "yahtzee" case Chance => "chance"
  }

  /** The category a key names, if any: every other string is an unknown key. */
  function ParseKey(key: string): (r: Option<Category>)
    ensures r.Some? ==> Key(r.value) == key
    ensures r.None? ==> forall c :: Key(c) != key
  {
    if key == "ones" then Some(Ones)
    else if key == "twos" then Some(Twos)
    else if key == "threes" then Some(Threes)
    else if key == "fours" then Some(Fours)
    else if key == "fives" then Some(Fives)
    else if key == "sixes" then Some(Sixes)
    else if key == "threeOfAKind" then Some(ThreeOfAKind)
    else if key == "fourOfAKind" then Some(FourOfAKind)
    else if key == "fullHouse" then Some(FullHouse)
    else if key == "smallStraight" then Some(SmallStraight)
    else if key == "largeStraight" then Some(LargeStraight)
    else if key == "yahtzee" then Some(Yahtzee)
    else if key == "chance" then Some(Chance)
    else None
  }

  /** Keys and categories are in one-to-one correspondence. */
  lemma {:induction false} ParseKeyRoundTrip(c: Category)
    ensures ParseKey(Key(c)) == Some(c)
  {
    match c
    case Ones => case Twos => case Threes => case Fours => case Fives => case Sixes =>
    case ThreeOfAKind => case FourOfAKind => case FullHouse => case SmallStraight =>
    case LargeStraight => case Yahtzee => case Chance =>
  }

  // ------------------------------------------------------ scoring helpers

  /** `getCounts`, as a value: entry v - 1 is the number of dice showing v. */
  function CountsOf(dice: seq<int>): seq<nat>
  {
    seq(6, i => Count(dice, i + 1))
  }

  /** `getCounts`: one pass over the dice incrementing `counts[d - 1]`. */
  method GetCounts(dice: seq<int>) returns (counts: seq<nat>)
    requires AllFaces(dice)
    ensures |counts| == 6
    ensures forall v :: IsFace(v) ==> counts[v - 1] == Count(dice, v)
    ensures counts == CountsOf(dice)
  {
    var a := new nat[6](_ => 0);
    for i := 0 to |dice|
      invariant forall v :: IsFace(v) ==> a[v - 1] == Count(dice[..i], v)
    {
      assert dice[..i + 1] == dice[..i] + [dice[i]];
      a[dice[i] - 1] := a[dice[i] - 1] + 1;
    }
    assert dice[..|dice|] == dice;
    counts := a[..];
  }

  /** `sumOfNumber`: the sum of the dice showing `num`. */
  function SumOfNumber(dice: seq<int>, num: int): (r: int)
    ensures r == num * Count(dice, num)
  {
    if dice == [] then 0
    else
      var rest := dice[1..];
      assert dice == [dice[0]] + rest;
      assert Count(dice, num) == Count(rest, num) + (if dice[0] == num then 1 else 0);
      MulAddOne(num, Count(rest, num));
      (if dice[0] == num then num else 0) + SumOfNumber(rest, num)
  }

  lemma {:induction false} MulAddOne(a: int, b: int)
    ensures a * (b + 1) == a * b + a
  {
  }

  /** `totalSum`: the sum of all dice. */
  function TotalSum(dice: seq<int>): (r: int)
    ensures AllFaces(dice) ==> |dice| <= r <= 6 * |dice|
  {
    if dice == [] then 0 else dice[0] + TotalSum(dice[1..])
  }

  predicate HasNOfAKind(counts: seq<nat>, n: int)
  {
    exists i :: 0 <= i < |counts| && counts[i] >= n
  }

  /** Three of one face and two of another, or five of a kind. */
  predicate IsFullHouse(counts: seq<nat>)
  {
    (3 in counts && 2 in counts) || 5 in counts
  }

  /** The candidates of `cands` that some die shows, in the order of `cands`. */
  function Present(dice: seq<int>, cands: seq<int>): seq<int>
  {
    if cands == [] then []
    else (if cands[0] in dice then [cands[0]] else []) + Present(dice, cands[1..])
  }

  /**
   * `[...new Set(dice)].sort()`: the distinct faces in ascending order. The
   * default sort compares the faces as strings; for single digits 1..6 that is
   * numeric order.
   */
  function SortedUnique(dice: seq<int>): seq<int>
  {
    Present(dice, [1, 2, 3, 4, 5, 6])
  }

  /** `str.includes(pat)` on the joined digits: `pat` is a contiguous run of `s`. */
  predicate IsInfix<T(==)>(pat: seq<T>, s: seq<T>)
  {
    exists i :: 0 <= i <= |s| - |pat| && InfixAt(pat, s, i)
  }

  predicate InfixAt<T(==)>(pat: seq<T>, s: seq<T>, i: int)
    requires 0 <= i <= |s| - |pat|
  {
    s[i..i + |pat|] == pat
  }

  predicate HasSmallStraight(dice: seq<int>)
  {
    var u := SortedUnique(dice);
    IsInfix([1, 2, 3, 4], u) || IsInfix([2, 3, 4, 5], u) || IsInfix([3, 4, 5, 6], u)
  }

  predicate HasLargeStraight(dice: seq<int>)
  {
    var u := SortedUnique(dice);
    u == [1, 2, 3, 4, 5] || u == [2, 3, 4, 5, 6]
  }

  // ------------------------------------------------------------- scoring

  /** The score of the dice in one category (the `switch` of `calculateScore`). */
  function Score(dice: seq<int>, c: Category): (r: nat)
    requires AllFaces(dice)
    ensures c.IsUpper() ==> r == c.Face() * Count(dice, c.Face())
    ensures |dice| == 5 ==> r <= 50
  {
    CountBound(dice);
    var counts := CountsOf(dice);
    var sum := TotalSum(dice);
    match c
    case Ones => SumOfNumber(dice, 1)
    case Twos => SumOfNumber(dice, 2)
    case Threes => SumOfNumber(dice, 3)
    case Fours => SumOfNumber(dice, 4)
    case Fives => SumOfNumber(dice, 5)
    case Sixes => SumOfNumber(dice, 6)
    case ThreeOfAKind => if HasNOfAKind(counts, 3) then sum else 0
    case FourOfAKind => if HasNOfAKind(counts, 4) then sum else 0
    case FullHouse => if IsFullHouse(counts) then 25 else 0
    case SmallStraight => if HasSmallStraight(dice) then 30 else 0
    case LargeStraight => if HasLargeStraight(dice) then 40 else 0
    case Yahtzee => if HasNOfAKind(counts, 5) then 50 else 0
    case Chance => sum
  }

  /** `calculateScore(dice, category)`: an unknown category key scores 0. */
  function CalculateScore(dice: seq<int>, key: string): (r: nat)
    requires AllFaces(dice)
    ensures ParseKey(key).None? ==> r == 0
    ensures |dice| == 5 ==> r <= 50
  {
    match ParseKey(key)
    case None => 0
    case Some(c) => Score(dice, c)
  }

  // -------------------------------------------------------- scoring lemmas

  lemma {:induction false} CountBound(s: seq<int>)
    ensures forall v :: Count(s, v) <= |s|
  {
    forall v ensures Count(s, v) <= |s| {
      assert multiset(s)[v] <= |multiset(s)|;
    }
  }

  /** Every die of `s` shows `v` exactly when `v` is counted |s| times. */
  lemma {:induction false} CountAll(s: seq<int>, v: int)
    ensures Count(s, v) == |s| <==> forall i :: 0 <= i < |s| ==> s[i] == v
  {
    if s != [] {
      assert s == [s[0]] + s[1..];
      CountAll(s[1..], v);
      CountBound(s[1..]);
      if forall i :: 0 <= i < |s| ==> s[i] == v {
        assert forall i :: 0 <= i < |s[1..]| ==> s[1..][i] == v;
      }
    }
  }

  /** `HasNOfAKind` on the counts is "some face shows at least n times". */
  lemma {:induction false} NOfAKindFaces(dice: seq<int>, n: int)
    ensures HasNOfAKind(CountsOf(dice), n) <==> exists v :: IsFace(v) && Count(dice, v) >= n
  {
    var counts := CountsOf(dice);
    if exists v :: IsFace(v) && Count(dice, v) >= n {
      var v :| IsFace(v) && Count(dice, v) >= n;
      assert counts[v - 1] >= n;
    }
  }

  /** Three (four) of a kind scores the sum of all dice when some face shows at least 3 (4) times, else 0. */
  lemma {:induction false} NOfAKindScore(dice: seq<int>)
    requires AllFaces(dice)
    ensures Score(dice, ThreeOfAKind) == if exists v :: IsFace(v) && Count(dice, v) >= 3 then TotalSum(dice) else 0
    ensures Score(dice, FourOfAKind) == if exists v :: IsFace(v) && Count(dice, v) >= 4 then TotalSum(dice) else 0
  {
    NOfAKindFaces(dice, 3);
    NOfAKindFaces(dice, 4);
  }

  /** With five dice, the yahtzee category scores 50 exactly when all five are equal, and 0 otherwise. */
  lemma {:induction false} YahtzeeScore(dice: seq<int>)
    requires AllFaces(dice) && |dice| == 5
    ensures Score(dice, Yahtzee) == (if AllSame(dice) then 50 else 0)
  {
    NOfAKindFaces(dice, 5);
    CountBound(dice);
    if AllSame(dice) {
      CountAll(dice, dice[0]);
    } else if exists v :: IsFace(v) && Count(dice, v) >= 5 {
      var v :| IsFace(v) && Count(dice, v) >= 5;
      CountAll(dice, v);
      assert false;
    }
  }

  /** Full house: 25 exactly for a three-and-two split of two faces or for five of a kind. */
  lemma {:induction false} FullHouseScore(dice: seq<int>)
    requires AllFaces(dice)
    ensures Score(dice, FullHouse) == 25 <==>
      (exists a, b :: IsFace(a) && IsFace(b) && a != b && Count(dice, a) == 3 && Count(dice, b) == 2)
      || (exists a :: IsFace(a) && Count(dice, a) == 5)
    ensures Score(dice, FullHouse) == 0 || Score(dice, FullHouse) == 25
  {
    var counts := CountsOf(dice);
    if 3 in counts && 2 in counts {
      var i :| 0 <= i < 6 && counts[i] == 3;
      var j :| 0 <= j < 6 && counts[j] == 2;
      assert Count(dice, i + 1) == 3 && Count(dice, j + 1) == 2;
    }
    if 5 in counts {
      var i :| 0 <= i < 6 && counts[i] == 5;
      assert Count(dice, i + 1) == 5;
    }
    if exists a, b :: IsFace(a) && IsFace(b) && a != b && Count(dice, a) == 3 && Count(dice, b) == 2 {
      var a, b :| IsFace(a) && IsFace(b) && a != b && Count(dice, a) == 3 && Count(dice, b) == 2;
      assert counts[a - 1] == 3 && counts[b - 1] == 2;
    }
    if exists a :: IsFace(a) && Count(dice, a) == 5 {
      var a :| IsFace(a) && Count(dice, a) == 5;
      assert counts[a - 1] == 5;
    }
  }

  /** Three of one face and two of another make a full house. */
  lemma {:induction false} ThreeAndTwoIsFullHouse(dice: seq<int>, a: int, b: int)
    requires AllFaces(dice) && IsFace(a) && IsFace(b) && a != b
    requires Count(dice, a) == 3 && Count(dice, b) == 2
    ensures Score(dice, FullHouse) == 25
  {
    FullHouseScore(dice);
  }

  /** Five of one face make a full house. */
  lemma {:induction false} FiveOfOneIsFullHouse(dice: seq<int>, a: int)
    requires AllFaces(dice) && IsFace(a) && Count(dice, a) == 5
    ensures Score(dice, FullHouse) == 25
  {
    FullHouseScore(dice);
  }

  /** Dice appended to dice are still dice. */
  lemma {:induction false} AllFacesAppend(a: seq<int>, b: seq<int>)
    requires AllFaces(a) && AllFaces(b)
    ensures AllFaces(a + b)
  {
  }

  /** Five of a kind is also a full house. */
  lemma {:induction false} FiveOfAKindIsFullHouse(dice: seq<int>)
    requires AllFaces(dice) && |dice| == 5 && AllSame(dice)
    ensures Score(dice, FullHouse) == 25 && Score(dice, Yahtzee) == 50
  {
    CountAll(dice, dice[0]);
    FullHouseScore(dice);
    YahtzeeScore(dice);
  }

  lemma {:induction false} PresentMembers(dice: seq<int>, cands: seq<int>)
    ensures forall v :: v in Present(dice, cands) <==> v in cands && v in dice
  {
    if cands != [] {
      PresentMembers(dice, cands[1..]);
      assert cands == [cands[0]] + cands[1..];
    }
  }

  lemma {:induction false} PresentIncreasing(dice: seq<int>, cands: seq<int>)
    requires StrictlyIncreasing(cands)
    ensures StrictlyIncreasing(Present(dice, cands))
  {
    if cands != [] {
      PresentIncreasing(dice, cands[1..]);
      PresentMembers(dice, cands[1..]);
      var rest := Present(dice, cands[1..]);
      forall v | v in rest ensures cands[0] < v {
        var k :| 1 <= k < |cands| && cands[k] == v;
      }
      var r := Present(dice, cands);
      if cands[0] in dice {
        assert r == [cands[0]] + rest;
        forall p, q | 0 <= p < q < |r| ensures r[p] < r[q] {
          assert r[q] == rest[q - 1] && rest[q - 1] in rest;
          if p > 0 {
            assert r[p] == rest[p - 1];
          }
        }
      } else {
        assert r == rest;
      }
    }
  }

  /** Present depends only on which faces the dice show. */
  lemma {:induction false} PresentByMembership(a: seq<int>, b: seq<int>, cands: seq<int>)
    requires forall v :: v in a <==> v in b
    ensures Present(a, cands) == Present(b, cands)
  {
    if cands != [] {
      PresentByMembership(a, b, cands[1..]);
    }
  }

  lemma {:induction false} SortedUniqueSpec(dice: seq<int>)
    requires AllFaces(dice)
    ensures StrictlyIncreasing(SortedUnique(dice))
    ensures forall v :: v in SortedUnique(dice) <==> v in dice
  {
    PresentIncreasing(dice, [1, 2, 3, 4, 5, 6]);
    PresentMembers(dice, [1, 2, 3, 4, 5, 6]);
  }

  /** The singleton `[v]` when some die shows `v`, else empty. */
  function Opt(dice: seq<int>, v: int): seq<int>
  {
    if v in dice then [v] else []
  }

  lemma {:induction false} PresentCons(dice: seq<int>, c: int, rest: seq<int>)
    ensures Present(dice, [c] + rest) == Opt(dice, c) + Present(dice, rest)
  {
    assert ([c] + rest)[1..] == rest;
  }

  lemma {:induction false} SortedUniqueUnfold(dice: seq<int>)
    ensures SortedUnique(dice) ==
      Opt(dice, 1) + (Opt(dice, 2) + (Opt(dice, 3) + (Opt(dice, 4) + (Opt(dice, 5) + (Opt(dice, 6) + [])))))
  {
    PresentCons(dice, 6, []);
    PresentCons(dice, 5, [6]);
    PresentCons(dice, 4, [5, 6]);
    PresentCons(dice, 3, [4, 5, 6]);
    PresentCons(dice, 2, [3, 4, 5, 6]);
    PresentCons(dice, 1, [2, 3, 4, 5, 6]);
    assert [1] + [2, 3, 4, 5, 6] == [1, 2, 3, 4, 5, 6];
  }

  /** In a strictly increasing sequence, x followed (somewhere) by x + 1 means x + 1 comes right after x. */
  lemma {:induction false} NextIs(s: seq<int>, i: int, x: int)
    requires StrictlyIncreasing(s) && 0 <= i < |s| && s[i] == x && x + 1 in s
    ensures i + 1 < |s| && s[i + 1] == x + 1
  {
    var m :| 0 <= m < |s| && s[m] == x + 1;
    assert i < m;
  }

  /** A strictly increasing sequence containing a, a+1, a+2, a+3 holds them as one contiguous run. */
  lemma {:induction false} RunIsInfix(s: seq<int>, a: int)
    requires StrictlyIncreasing(s)
    requires a in s && a + 1 in s && a + 2 in s && a + 3 in s
    ensures IsInfix([a, a + 1, a + 2, a + 3], s)
  {
    var i :| 0 <= i < |s| && s[i] == a;
    NextIs(s, i, a);
    NextIs(s, i + 1, a + 1);
    NextIs(s, i + 2, a + 2);
    assert InfixAt([a, a + 1, a + 2, a + 3], s, i);
  }

  predicate HasRun4(dice: seq<int>, a: int)
  {
    a in dice && a + 1 in dice && a + 2 in dice && a + 3 in dice
  }

  /** A run a..a+3 inside `s` puts each of its faces in `s`. */
  lemma {:induction false} Run4Members(s: seq<int>, a: int)
    requires IsInfix([a, a + 1, a + 2, a + 3], s)
    ensures a in s && a + 1 in s && a + 2 in s && a + 3 in s
  {
    var i :| 0 <= i <= |s| - 4 && InfixAt([a, a + 1, a + 2, a + 3], s, i);
    assert s[i] == a && s[i + 1] == a + 1 && s[i + 2] == a + 2 && s[i + 3] == a + 3;
  }

  /** Small straight: 30 exactly when the faces include 1-2-3-4, 2-3-4-5 or 3-4-5-6, else 0. */
  lemma {:induction false} SmallStraightScore(dice: seq<int>)
    requires AllFaces(dice)
    ensures Score(dice, SmallStraight) == (if HasRun4(dice, 1) || HasRun4(dice, 2) || HasRun4(dice, 3) then 30 else 0)
  {
    var u := SortedUnique(dice);
    SortedUniqueSpec(dice);
    if HasRun4(dice, 1) { RunIsInfix(u, 1); }
    if HasRun4(dice, 2) { RunIsInfix(u, 2); }
    if HasRun4(dice, 3) { RunIsInfix(u, 3); }
    if IsInfix([1, 2, 3, 4], u) { Run4Members(u, 1); }
    if IsInfix([2, 3, 4, 5], u) { Run4Members(u, 2); }
    if IsInfix([3, 4, 5, 6], u) { Run4Members(u, 3); }
  }

  /** The distinct faces are 1..5 or 2..6 exactly when the dice show those five faces and not the sixth. */
  lemma {:induction false} LargeStraightFaces(dice: seq<int>)
    requires AllFaces(dice)
    ensures HasLargeStraight(dice) <==>
      (HasRun4(dice, 1) && 5 in dice && 6 !in dice) || (HasRun4(dice, 3) && 2 in dice && 1 !in dice)
  {
    if (HasRun4(dice, 1) && 5 in dice && 6 !in dice) || (HasRun4(dice, 3) && 2 in dice && 1 !in dice) {
      FacesMakeLargeStraight(dice);
    }
    if HasLargeStraight(dice) {
      LargeStraightShowsFaces(dice);
    }
  }

  lemma {:induction false} FacesMakeLargeStraight(dice: seq<int>)
    requires (HasRun4(dice, 1) && 5 in dice && 6 !in dice) || (HasRun4(dice, 3) && 2 in dice && 1 !in dice)
    ensures HasLargeStraight(dice)
  {
    var u := SortedUnique(dice);
    SortedUniqueUnfold(dice);
    if HasRun4(dice, 1) && 5 in dice && 6 !in dice {
      assert u == [1, 2, 3, 4, 5];
    } else {
      assert u == [2, 3, 4, 5, 6];
    }
  }

  lemma {:induction false} LargeStraightShowsFaces(dice: seq<int>)
    requires HasLargeStraight(dice)
    ensures (HasRun4(dice, 1) && 5 in dice && 6 !in dice) || (HasRun4(dice, 3) && 2 in dice && 1 !in dice)
  {
    var u := SortedUnique(dice);
    PresentMembers(dice, [1, 2, 3, 4, 5, 6]);
    if u == [1, 2, 3, 4, 5] {
      assert 1 in u && 2 in u && 3 in u && 4 in u && 5 in u && 6 !in u;
    } else {
      assert 2 in u && 3 in u && 4 in u && 5 in u && 6 in u && 1 !in u;
    }
  }

  /** Large straight: 40 exactly when the faces are 1..5 or 2..6, else 0. */
  lemma {:induction false} LargeStraightScore(dice: seq<int>)
    requires AllFaces(dice)
    ensures Score(dice, LargeStraight) ==
      (if (HasRun4(dice, 1) && 5 in dice && 6 !in dice) || (HasRun4(dice, 3) && 2 in dice && 1 !in dice) then 40 else 0)
  {
    LargeStraightFaces(dice);
  }

  /** Every large straight is also a small straight. */
  lemma {:induction false} LargeStraightIsSmallStraight(dice: seq<int>)
    requires AllFaces(dice) && Score(dice, LargeStraight) == 40
    ensures Score(dice, SmallStraight) == 30
  {
    LargeStraightScore(dice);
    SmallStraightScore(dice);
  }

  lemma {:induction false} TotalSumByCounts(s: seq<int>)
    requires AllFaces(s)
    ensures TotalSum(s) == Count(s, 1) + 2 * Count(s, 2) + 3 * Count(s, 3)
                           + 4 * Count(s, 4) + 5 * Count(s, 5) + 6 * Count(s, 6)
  {
    if s != [] {
      var x, r := s[0], s[1..];
      assert s == [x] + r;
      TotalSumByCounts(r);
      CountCons(x, r, 1);
      CountCons(x, r, 2);
      CountCons(x, r, 3);
      CountCons(x, r, 4);
      CountCons(x, r, 5);
      CountCons(x, r, 6);
      FaceWeights(x);
    }
  }

  /** One die in front adds one to the count of its face and nothing to the others. */
  lemma {:induction false} CountCons(x: int, r: seq<int>, f: int)
    ensures Count([x] + r, f) == Count(r, f) + (if x == f then 1 else 0)
  {
    assert multiset([x] + r) == multiset([x]) + multiset(r);
  }

  /** A face is the sum of the six faces weighted by whether it is that face. */
  lemma {:induction false} FaceWeights(x: int)
    requires IsFace(x)
    ensures x == (if x == 1 then 1 else 0) + 2 * (if x == 2 then 1 else 0) + 3 * (if x == 3 then 1 else 0)
      + 4 * (if x == 4 then 1 else 0) + 5 * (if x == 5 then 1 else 0) + 6 * (if x == 6 then 1 else 0)
  {
  }

  /** Every die shows one of the six faces, so the six counts add up to the number of dice. */
  lemma {:induction false} CountSum(s: seq<int>)
    requires AllFaces(s)
    ensures |s| == Count(s, 1) + Count(s, 2) + Count(s, 3) + Count(s, 4) + Count(s, 5) + Count(s, 6)
  {
    if s != [] {
      var x, r := s[0], s[1..];
      assert s == [x] + r;
      CountSum(r);
      CountCons(x, r, 1);
      CountCons(x, r, 2);
      CountCons(x, r, 3);
      CountCons(x, r, 4);
      CountCons(x, r, 5);
      CountCons(x, r, 6);
    }
  }

  /** When every die shows one of the faces in `vs`, the counts of those faces add up to the number of dice. */
  lemma {:induction false} CountSumOver(s: seq<int>, a: int, b: int)
    requires AllFaces(s) && IsFace(a) && IsFace(b)
    requires forall f :: IsFace(f) && f != a && f != b ==> Count(s, f) == 0
    ensures |s| == if a == b then Count(s, a) else Count(s, a) + Count(s, b)
  {
    CountSum(s);
    assert Count(s, 1) == (if 1 == a || 1 == b then Count(s, 1) else 0);
    assert Count(s, 2) == (if 2 == a || 2 == b then Count(s, 2) else 0);
    assert Count(s, 3) == (if 3 == a || 3 == b then Count(s, 3) else 0);
    assert Count(s, 4) == (if 4 == a || 4 == b then Count(s, 4) else 0);
    assert Count(s, 5) == (if 5 == a || 5 == b then Count(s, 5) else 0);
    assert Count(s, 6) == (if 6 == a || 6 == b then Count(s, 6) else 0);
  }

  /** `Array(n).fill(v)` holds n copies of v and nothing else. */
  lemma {:induction false} CountRepeat(v: int, n: nat, w: int)
    ensures Count(Repeat(v, n), w) == if w == v then n else 0
  {
    if n > 0 {
      assert Repeat(v, n) == Repeat(v, n - 1) + [v];
      CountRepeat(v, n - 1, w);
    } else {
      assert Repeat(v, n) == [];
    }
  }

  /** The score depends only on which dice were thrown, not on their order. */
  lemma {:induction false} ScoreIsOrderFree(a: seq<int>, b: seq<int>, c: Category)
    requires AllFaces(a) && AllFaces(b) && multiset(a) == multiset(b)
    ensures Score(a, c) == Score(b, c)
  {
    TotalSumByCounts(a);
    TotalSumByCounts(b);
    assert CountsOf(a) == CountsOf(b);
    forall v ensures v in a <==> v in b {
      assert v in a <==> v in multiset(a);
      assert v in b <==> v in multiset(b);
    }
    PresentByMembership(a, b, [1, 2, 3, 4, 5, 6]);
  }

  // ------------------------------------------------------------- scorecard

  /**
   * A player's scorecard. A category missing from `slots` is a JavaScript
   * `undefined` key (the '{}' scorecard a room creator starts with); `None` is
   * an explicit `null` (unscored).
   */
  datatype Scorecard = Scorecard(slots: map<Category, Option<nat>>, yahtzeeBonus: nat)
  {
    /** `scorecard[c] ?? 0` */
    function Value(c: Category): nat
    {
      if c in slots && slots[c].Some? then slots[c].value else 0
    }

    /** `scorecard[c] === null` */
    predicate IsNull(c: Category) { c in slots && slots[c].None? }

    /** `scorecard[c] === null || scorecard[c] === undefined` */
    predicate IsUnscored(c: Category) { c !in slots || slots[c].None? }

    /** Every category is set: `categories.every(cat => scorecard[cat] !== null)`. */
    predicate IsComplete() { forall c :: !IsNull(c) }
  }

  /** `createEmptyScorecard`. */
  function CreateEmptyScorecard(): (sc: Scorecard)
    ensures forall c :: sc.IsNull(c)
    ensures sc.yahtzeeBonus == 0
  {
    CategoriesComplete();
    Scorecard(map c | c in Categories :: None, 0)
  }

  /** `Categories` lists every category. */
  lemma {:induction false} CategoriesComplete()
    ensures forall c :: c in Categories
  {
    forall c ensures c in Categories {
      assert Categories[Index(c)] == c;
    }
  }

  /** `categories.reduce((sum, cat) => sum + (scorecard[cat] ?? 0), 0)`. */
  function SumSlots(sc: Scorecard, cats: seq<Category>): nat
  {
    if cats == [] then 0 else sc.Value(cats[0]) + SumSlots(sc, cats[1..])
  }

  lemma {:induction false} SumSlotsAppend(sc: Scorecard, a: seq<Category>, b: seq<Category>)
    ensures SumSlots(sc, a + b) == SumSlots(sc, a) + SumSlots(sc, b)
  {
    if a != [] {
      assert a + b != [] && (a + b)[0] == a[0];
      assert (a + b)[1..] == a[1..] + b;
      SumSlotsAppend(sc, a[1..], b);
    } else {
      assert a + b == b;
    }
  }

  function UpperSum(sc: Scorecard): nat
  {
    sc.Value(Ones) + sc.Value(Twos) + sc.Value(Threes) + sc.Value(Fours) + sc.Value(Fives) + sc.Value(Sixes)
  }

  function LowerSum(sc: Scorecard): nat
  {
    sc.Value(ThreeOfAKind) + sc.Value(FourOfAKind) + sc.Value(FullHouse) + sc.Value(SmallStraight)
    + sc.Value(LargeStraight) + sc.Value(Yahtzee) + sc.Value(Chance)
  }

  lemma {:induction false} SumSlotsUpper(sc: Scorecard)
    ensures SumSlots(sc, UpperCategories) == UpperSum(sc)
  {
    assert SumSlots(sc, [Sixes]) == sc.Value(Sixes) + SumSlots(sc, []);
    assert SumSlots(sc, [Fives, Sixes]) == sc.Value(Fives) + SumSlots(sc, [Sixes]);
    assert SumSlots(sc, [Fours, Fives, Sixes]) == sc.Value(Fours) + SumSlots(sc, [Fives, Sixes]);
    assert SumSlots(sc, [Threes, Fours, Fives, Sixes]) == sc.Value(Threes) + SumSlots(sc, [Fours, Fives, Sixes]);
    assert SumSlots(sc, [Twos, Threes, Fours, Fives, Sixes]) == sc.Value(Twos) + SumSlots(sc, [Threes, Fours, Fives, Sixes]);
  }

  lemma {:induction false} SumSlotsLower(sc: Scorecard)
    ensures SumSlots(sc, Categories[6..]) == LowerSum(sc)
  {
    assert Categories[6..] == [ThreeOfAKind, FourOfAKind, FullHouse, SmallStraight, LargeStraight, Yahtzee, Chance];
    assert SumSlots(sc, [Chance]) == sc.Value(Chance) + SumSlots(sc, []);
    assert SumSlots(sc, [Yahtzee, Chance]) == sc.Value(Yahtzee) + SumSlots(sc, [Chance]);
    assert SumSlots(sc, [LargeStraight, Yahtzee, Chance]) == sc.Value(LargeStraight) + SumSlots(sc, [Yahtzee, Chance]);
    assert SumSlots(sc, [SmallStraight, LargeStraight, Yahtzee, Chance])
      == sc.Value(SmallStraight) + SumSlots(sc, [LargeStraight, Yahtzee, Chance]);
    assert SumSlots(sc, [FullHouse, SmallStraight, LargeStraight, Yahtzee, Chance])
      == sc.Value(FullHouse) + SumSlots(sc, [SmallStraight, LargeStraight, Yahtzee, Chance]);
    assert SumSlots(sc, [FourOfAKind, FullHouse, SmallStraight, LargeStraight, Yahtzee, Chance])
      == sc.Value(FourOfAKind) + SumSlots(sc, [FullHouse, SmallStraight, LargeStraight, Yahtzee, Chance]);
  }

  lemma {:induction false} SumSlotsAll(sc: Scorecard)
    ensures SumSlots(sc, Categories) == UpperSum(sc) + LowerSum(sc)
  {
    assert Categories == UpperCategories + Categories[6..];
    SumSlotsAppend(sc, UpperCategories, Categories[6..]);
    SumSlotsUpper(sc);
    SumSlotsLower(sc);
  }

  /** `calculateUpperBonus`: 35 exactly when the six upper slots (null as 0) add up to at least 63. */
  function CalculateUpperBonus(sc: Scorecard): (r: nat)
    ensures r == (if UpperSum(sc) >= 63 then 35 else 0)
  {
    SumSlotsUpper(sc);
    if SumSlots(sc, UpperCategories) >= 63 then 35 else 0
  }

  /** `calculateTotalScore`: all thirteen slots (null as 0), the upper bonus and the yahtzee bonus. */
  function CalculateTotalScore(sc: Scorecard): (r: nat)
    ensures r == UpperSum(sc) + LowerSum(sc) + CalculateUpperBonus(sc) + sc.yahtzeeBonus
  {
    SumSlotsAll(sc);
    SumSlots(sc, Categories) + CalculateUpperBonus(sc) + sc.yahtzeeBonus
  }

  /** A fresh scorecard totals 0 and is not complete. */
  lemma {:induction false} EmptyScorecardTotal()
    ensures CalculateTotalScore(CreateEmptyScorecard()) == 0
    ensures !CreateEmptyScorecard().IsComplete()
  {
    var sc := CreateEmptyScorecard();
    AllNullSumsZero(sc);
    assert sc.IsNull(Ones);
  }

  lemma {:induction false} AllNullSumsZero(sc: Scorecard)
    requires forall c :: sc.IsNull(c)
    ensures UpperSum(sc) == 0 && LowerSum(sc) == 0 && CalculateTotalScore(sc) == sc.yahtzeeBonus
  {
    forall c ensures sc.Value(c) == 0 {
      assert sc.IsNull(c);
    }
  }

  // ------------------------------------------------------- end of the game

  /** `isGameOver`: every scorecard has all thirteen slots set (vacuously true for no players). */
  function IsGameOver(cards: seq<Scorecard>): (r: bool)
    ensures cards == [] ==> r
    ensures r <==> forall k, c :: 0 <= k < |cards| ==> !cards[k].IsNull(c)
  {
    forall k :: 0 <= k < |cards| ==> cards[k].IsComplete()
  }

  /**
   * `determineWinner`: scans the players in list order and keeps the first one
   * whose total is strictly higher than the best so far. Returns the index of
   * the winner (None for no players) and the winning total (-1 for none).
   */
  method DetermineWinner(cards: seq<Scorecard>) returns (winner: Option<nat>, score: int)
    ensures cards == [] ==> winner == None && score == -1
    ensures cards != [] ==> winner.Some? && winner.value < |cards|
                            && score == CalculateTotalScore(cards[winner.value])
    ensures forall k :: 0 <= k < |cards| ==> CalculateTotalScore(cards[k]) <= score
    ensures winner.Some? ==> forall k :: 0 <= k < winner.value ==> CalculateTotalScore(cards[k]) < score
  {
    winner, score := None, -1;
    for i := 0 to |cards|
      invariant i == 0 ==> winner == None && score == -1
      invariant i > 0 ==> winner.Some? && winner.value < i && score == CalculateTotalScore(cards[winner.value])
      invariant forall k :: 0 <= k < i ==> CalculateTotalScore(cards[k]) <= score
      invariant winner.Some? ==> forall k :: 0 <= k < winner.value ==> CalculateTotalScore(cards[k]) < score
    {
      var total := CalculateTotalScore(cards[i]);
      if total > score {
        score := total;
        winner := Some(i);
      }
    }
  }

  lemma {:induction false} SingletonSet(S: set<int>, x: int)
    requires |S| == 1 && x in S
    ensures S == {x}
  {
    var R := S - {x};
    assert S == R + {x} && R * {x} == {};
    assert |R| == 0;
  }

  lemma {:induction false} SetOfSame(s: seq<int>)
    ensures |set d | d in s| == 1 <==> |s| > 0 && AllSame(s)
  {
    var S := set d | d in s;
    if |s| > 0 && AllSame(s) {
      assert S == {s[0]};
    }
    if |S| == 1 {
      if s == [] {
        assert false;
      }
      var x := s[0];
      assert x in S;
      SingletonSet(S, x);
      assert |s| > 0;
      forall i | 0 <= i < |s| ensures s[i] == s[0] {
        assert s[i] in S && s[0] in S;
      }
    }
  }

  /** `isYahtzee`: `new Set(dice).size === 1`, i.e. at least one die and all dice equal. */
  function IsYahtzee(dice: seq<int>): (r: bool)
    ensures r <==> |dice| > 0 && AllSame(dice)
  {
    SetOfSame(dice);
    |set d | d in dice| == 1
  }

  /** `canScoreYahtzeeBonus`: the yahtzee slot holds exactly 50 and the dice are a yahtzee. */
  function CanScoreYahtzeeBonus(dice: seq<int>, sc: Scorecard): (r: bool)
    ensures r <==> Yahtzee in sc.slots && sc.slots[Yahtzee] == Some(50) && |dice| > 0 && AllSame(dice)
  {
    (Yahtzee in sc.slots && sc.slots[Yahtzee] == Some(50)) && IsYahtzee(dice)
  }

  /** A bonus-eligible five-dice throw would itself score 50 in the yahtzee category. */
  lemma {:induction false} YahtzeeBonusThrowScores50(dice: seq<int>, sc: Scorecard)
    requires AllFaces(dice) && |dice| == 5 && CanScoreYahtzeeBonus(dice, sc)
    ensures Score(dice, Yahtzee) == 50
  {
    YahtzeeScore(dice);
  }

  // ------------------------------------------------------------ game state

  datatype Winner = Winner(id: string, name: string, score: int)

  /** The game-state blob of a room (the turn start time is not modelled). */
  datatype GameState = GameState(
    dice: seq<int>,
    heldDice: seq<bool>,
    rollsLeft: int,
    turnNumber: int,
    currentPlayerIndex: int,
    isRolling: bool,
    winner: Option<Winner>)

  /** Dice and holds at the start of every turn. */
  const StartDice: seq<int> := [1, 1, 1, 1, 1]
  const NoHolds: seq<bool> := [false, false, false, false, false]

  /** `createInitialGameState`: the first turn of the first player, before any roll. */
  function CreateInitialGameState(): (g: GameState)
    ensures |g.dice| == 5 && AllFaces(g.dice) && AllSame(g.dice) && g.dice[0] == 1
    ensures |g.heldDice| == 5 && forall i :: 0 <= i < 5 ==> !g.heldDice[i]
    ensures g.rollsLeft == 3 && g.turnNumber == 1 && g.currentPlayerIndex == 0
    ensures !g.isRolling && g.winner.None?
  {
    GameState(StartDice, NoHolds, 3, 1, 0, false, None)
  }

  /**
   * `rollDice`: a held die keeps its value, every other die shows a new face.
   * `Math.random` is modelled by an arbitrary choice of face.
   */
  method RollDice(currentDice: seq<int>, heldDice: seq<bool>) returns (dice: seq<int>)
    requires |heldDice| == |currentDice|
    ensures |dice| == |currentDice|
    ensures forall i :: 0 <= i < |dice| && heldDice[i] ==> dice[i] == currentDice[i]
    ensures forall i :: 0 <= i < |dice| && !heldDice[i] ==> IsFace(dice[i])
  {
    dice := [];
    for i := 0 to |currentDice|
      invariant |dice| == i
      invariant forall j :: 0 <= j < i && heldDice[j] ==> dice[j] == currentDice[j]
      invariant forall j :: 0 <= j < i && !heldDice[j] ==> IsFace(dice[j])
    {
      if heldDice[i] {
        dice := dice + [currentDice[i]];
      } else {
        assert IsFace(1);
        var face :| IsFace(face);
        dice := dice + [face];
      }
    }
  }
}
