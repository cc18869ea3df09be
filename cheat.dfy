/**
 * The "guaranteed outcome" dice generator of the server
 * (src/lib/server/yahtzee/cheat.js): which categories can still be made from
 * the held dice, and the dice that make the chosen one.
 */
module Cheat {
  import opened Wrappers
  import opened Logic

  // ------------------------------------------------------ held and unheld

  /** `heldDice.filter(h => !h).length`: the number of dice that will be rolled. */
  function NumUnheld(held: seq<bool>): nat
  {
    if held == [] then 0
    else NumUnheld(held[..|held| - 1]) + (if held[|held| - 1] then 0 else 1)
  }

  lemma {:induction false} NumUnheldBound(held: seq<bool>)
    ensures NumUnheld(held) <= |held|
  {
    if held != [] {
      NumUnheldBound(held[..|held| - 1]);
    }
  }

  /** The dice before an unheld die are fewer than all the unheld dice. */
  lemma {:induction false} NumUnheldBefore(held: seq<bool>, i: int)
    requires 0 <= i < |held| && !held[i]
    ensures NumUnheld(held[..i]) < NumUnheld(held)
  {
    var n := |held| - 1;
    assert held[..n][..i] == held[..i];
    if i < n {
      NumUnheldBefore(held[..n], i);
    } else {
      assert held[..i] == held[..n];
    }
  }

  /**
   * `getHeldValues`: the values of the held dice, in positional order. The
   * held die at position i lands at index i - NumUnheld(held[..i]) (the number
   * of held dice before it).
   */
  function GetHeldValues(dice: seq<int>, held: seq<bool>): (r: seq<int>)
    requires |dice| == |held|
    ensures |r| + NumUnheld(held) == |held|
    ensures forall i :: 0 <= i < |held| && held[i] ==>
      0 <= i - NumUnheld(held[..i]) < |r| && r[i - NumUnheld(held[..i])] == dice[i]
    ensures forall v :: v in r ==> v in dice
    ensures AllFaces(dice) ==> AllFaces(r)
  {
    if held == [] then []
    else
      var n := |held| - 1;
      var prev := GetHeldValues(dice[..n], held[..n]);
      assert forall i :: 0 <= i < n ==> held[..n][..i] == held[..i];
      HeldValuesSnoc(dice, held, prev);
      prev + (if held[n] then [dice[n]] else [])
  }

  /** Appending the last die, when held, extends the held values by it at its place. */
  lemma {:induction false} HeldValuesSnoc(dice: seq<int>, held: seq<bool>, prev: seq<int>)
    requires |dice| == |held| > 0
    requires |prev| + NumUnheld(held[..|held| - 1]) == |held| - 1
    requires forall i :: 0 <= i < |held| - 1 && held[i] ==>
      0 <= i - NumUnheld(held[..i]) < |prev| && prev[i - NumUnheld(held[..i])] == dice[i]
    requires forall v :: v in prev ==> v in dice[..|held| - 1]
    requires AllFaces(dice[..|held| - 1]) ==> AllFaces(prev)
    ensures var n := |held| - 1;
      var r := prev + (if held[n] then [dice[n]] else []);
      |r| + NumUnheld(held) == |held|
      && forall i :: 0 <= i < |held| && held[i] ==>
        0 <= i - NumUnheld(held[..i]) < |r| && r[i - NumUnheld(held[..i])] == dice[i]
    ensures var r := prev + (if held[|held| - 1] then [dice[|held| - 1]] else []);
      (forall v :: v in r ==> v in dice) && (AllFaces(dice) ==> AllFaces(r))
  {
    var n := |held| - 1;
    var r := prev + (if held[n] then [dice[n]] else []);
    assert forall v :: v in dice[..n] ==> v in dice;
    if AllFaces(dice) {
      assert AllFaces(dice[..n]);
    }
    assert held[..n] == held[..n];
    forall i | 0 <= i < |held| && held[i]
      ensures 0 <= i - NumUnheld(held[..i]) < |r| && r[i - NumUnheld(held[..i])] == dice[i]
    {
      if i == n {
        assert held[..i] == held[..n];
      }
    }
  }

  /** `getUnheldIndices`: the positions of the unheld dice, ascending. */
  function GetUnheldIndices(held: seq<bool>): (r: seq<int>)
    ensures |r| == NumUnheld(held)
  {
    if held == [] then []
    else
      var n := |held| - 1;
      GetUnheldIndices(held[..n]) + (if held[n] then [] else [n])
  }

  /** The k-th unheld position has k unheld positions before it, and every unheld position is listed. */
  lemma {:induction false} UnheldIndicesSpec(held: seq<bool>)
    ensures var r := GetUnheldIndices(held);
      forall k :: 0 <= k < |r| ==> 0 <= r[k] < |held| && !held[r[k]] && NumUnheld(held[..r[k]]) == k
    ensures var r := GetUnheldIndices(held);
      forall i :: 0 <= i < |held| && !held[i] ==> NumUnheld(held[..i]) < |r| && r[NumUnheld(held[..i])] == i
  {
    if held != [] {
      var n := |held| - 1;
      var p := GetUnheldIndices(held[..n]);
      var r := GetUnheldIndices(held);
      UnheldIndicesSpec(held[..n]);
      NumUnheldBound(held[..n]);
      forall k | 0 <= k < |r| ensures 0 <= r[k] < |held| && !held[r[k]] && NumUnheld(held[..r[k]]) == k {
        if k < |p| {
          assert r[k] == p[k];
          assert held[..n][..p[k]] == held[..p[k]];
        } else {
          assert r[k] == n;
        }
      }
      forall i | 0 <= i < |held| && !held[i] ensures NumUnheld(held[..i]) < |r| && r[NumUnheld(held[..i])] == i {
        if i < n {
          assert held[..n][..i] == held[..i];
          assert r[NumUnheld(held[..i])] == p[NumUnheld(held[..i])];
        } else {
          assert held[..i] == held[..n];
        }
      }
    }
  }

  // ------------------------------------------------------ filling the dice

  /** `neededValues[i] || 6` for the i-th of m unheld dice. */
  function Fill(needed: seq<int>, m: nat): (r: seq<int>)
    ensures |r| == m
    ensures forall k :: 0 <= k < m ==> r[k] == if k < |needed| && needed[k] != 0 then needed[k] else 6
  {
    seq(m, k => if 0 <= k < |needed| && needed[k] != 0 then needed[k] else 6)
  }

  /** A plan of exactly m nonzero values is used as it is. */
  lemma {:induction false} FillExact(needed: seq<int>, m: nat)
    requires |needed| == m && forall k :: 0 <= k < m ==> needed[k] != 0
    ensures Fill(needed, m) == needed
  {
  }

  /** The hand after the unheld positions are overwritten: the k-th unheld die gets `fill[k]`. */
  function Merge(dice: seq<int>, held: seq<bool>, fill: seq<int>): (r: seq<int>)
    requires |dice| == |held| && |fill| >= NumUnheld(held)
    ensures |r| == |dice|
    ensures forall i :: 0 <= i < |dice| && held[i] ==> r[i] == dice[i]
  {
    seq(|dice|, i requires 0 <= i < |dice| =>
      if held[i] then dice[i]
      else
        NumUnheldBefore(held, i);
        fill[NumUnheld(held[..i])])
  }

  /** Merging a hand with one more die appends that die's merged value. */
  lemma {:induction false} MergeSnoc(dice: seq<int>, held: seq<bool>, fill: seq<int>)
    requires |dice| == |held| > 0 && |fill| >= NumUnheld(held)
    ensures var n := |held| - 1;
      NumUnheld(held[..n]) <= NumUnheld(held) && (held[n] || NumUnheld(held[..n]) < NumUnheld(held))
      && Merge(dice, held, fill) ==
         Merge(dice[..n], held[..n], fill) + [if held[n] then dice[n] else fill[NumUnheld(held[..n])]]
  {
    var n := |held| - 1;
    NumUnheldBound(held[..n]);
    MergeAt(dice, held, fill, n);
    assert held[..n] == held[..n][..n];
    MergePrefix(dice, held, fill, n);
    var m, m' := Merge(dice, held, fill), Merge(dice[..n], held[..n], fill);
    assert m[..n] == m';
    assert m == m[..n] + [m[n]];
  }

  /** Merging a prefix of the hand gives the prefix of the merged hand. */
  lemma {:induction false} MergePrefix(dice: seq<int>, held: seq<bool>, fill: seq<int>, n: int)
    requires |dice| == |held| && |fill| >= NumUnheld(held) && 0 <= n <= |held|
    requires |fill| >= NumUnheld(held[..n])
    ensures Merge(dice, held, fill)[..n] == Merge(dice[..n], held[..n], fill)
  {
    var m, m' := Merge(dice, held, fill), Merge(dice[..n], held[..n], fill);
    forall i | 0 <= i < n ensures m[i] == m'[i] {
      MergeAt(dice, held, fill, i);
      MergeAt(dice[..n], held[..n], fill, i);
      assert held[..n][..i] == held[..i];
    }
  }

  /** The i-th merged die: the held die itself, or the fill value of its rank among the unheld. */
  lemma {:induction false} MergeAt(dice: seq<int>, held: seq<bool>, fill: seq<int>, i: int)
    requires |dice| == |held| && |fill| >= NumUnheld(held) && 0 <= i < |dice|
    ensures !held[i] ==> NumUnheld(held[..i]) < NumUnheld(held)
    ensures Merge(dice, held, fill)[i] == if held[i] then dice[i] else fill[NumUnheld(held[..i])]
  {
    if !held[i] {
      NumUnheldBefore(held, i);
    }
  }

  /** The merged hand holds exactly the held values and the fill values. */
  lemma {:induction false} MergeMultiset(dice: seq<int>, held: seq<bool>, fill: seq<int>)
    requires |dice| == |held| && |fill| >= NumUnheld(held)
    ensures multiset(Merge(dice, held, fill)) ==
      multiset(GetHeldValues(dice, held)) + multiset(fill[..NumUnheld(held)])
  {
    if held != [] {
      var n := |held| - 1;
      var d', h' := dice[..n], held[..n];
      MergeSnoc(dice, held, fill);
      MergeMultiset(d', h', fill);
      if !held[n] {
        assert fill[..NumUnheld(held)] == fill[..NumUnheld(h')] + [fill[NumUnheld(h')]];
      }
    }
  }

  /** Counting in the merged hand: held dice plus fill values. */
  lemma {:induction false} MergeCount(dice: seq<int>, held: seq<bool>, fill: seq<int>, v: int)
    requires |dice| == |held| && |fill| == NumUnheld(held)
    ensures Count(Merge(dice, held, fill), v) == Count(GetHeldValues(dice, held), v) + Count(fill, v)
  {
    MergeMultiset(dice, held, fill);
    assert fill[..NumUnheld(held)] == fill;
  }

  // ------------------------------------------------------- counting held dice

  /** One `[value, count]` pair of `Object.entries(counts)`. */
  datatype Entry = Entry(value: int, count: nat)

  /** How many of the slots i..j-1 hold a non-zero count: where slot j's entry sits. */
  function Rank(counts: seq<nat>, i: nat, j: nat): nat
    requires i <= j <= |counts|
    decreases j - i
  {
    if i == j then 0 else (if counts[i] > 0 then 1 else 0) + Rank(counts, i + 1, j)
  }

  /**
   * `Object.entries(counts)` of the counts dictionary, read from the six-slot
   * counts from slot i on: the faces some held die shows with their counts.
   * Integer keys iterate in ascending order, so the faces come ascending.
   */
  function EntriesFrom(counts: seq<nat>, i: nat): (r: seq<Entry>)
    requires |counts| == 6 && i <= 6
    ensures forall k :: 0 <= k < |r| ==>
      i < r[k].value <= 6 && r[k].count == counts[r[k].value - 1] && r[k].count > 0
    ensures forall p, q :: 0 <= p < q < |r| ==> r[p].value < r[q].value
    decreases 6 - i
  {
    if i == 6 then []
    else (if counts[i] > 0 then [Entry(i + 1, counts[i])] else []) + EntriesFrom(counts, i + 1)
  }

  /** A non-zero slot j has its entry at its rank. */
  lemma {:induction false} EntriesFromRank(counts: seq<nat>, i: nat, j: nat)
    requires |counts| == 6 && i <= j < 6 && counts[j] > 0
    ensures Rank(counts, i, j) < |EntriesFrom(counts, i)|
    ensures EntriesFrom(counts, i)[Rank(counts, i, j)] == Entry(j + 1, counts[j])
    decreases j - i
  {
    var head := if counts[i] > 0 then [Entry(i + 1, counts[i])] else [];
    var rest := EntriesFrom(counts, i + 1);
    assert EntriesFrom(counts, i) == head + rest;
    if i < j {
      EntriesFromRank(counts, i + 1, j);
      assert Rank(counts, i, j) == |head| + Rank(counts, i + 1, j);
      assert (head + rest)[|head| + Rank(counts, i + 1, j)] == rest[Rank(counts, i + 1, j)];
    }
  }

  /**
   * The entries of the held dice: every face a held die shows, ascending,
   * with its count (EntryOf finds the entry of a given face).
   */
  function Entries(hv: seq<int>): (r: seq<Entry>)
    ensures forall k :: 0 <= k < |r| ==> IsFace(r[k].value) && r[k].count == Count(hv, r[k].value) && r[k].count > 0
    ensures forall p, q :: 0 <= p < q < |r| ==> r[p].value < r[q].value
  {
    var counts := CountsOf(hv);
    assert forall f :: IsFace(f) ==> counts[f - 1] == Count(hv, f);
    EntriesFrom(counts, 0)
  }

  /** The largest number of held dice showing faces 1..k. */
  function MaxCountUpTo(hv: seq<int>, k: nat): (m: nat)
    ensures forall f :: 1 <= f <= k ==> Count(hv, f) <= m
    ensures m == 0 || exists f :: 1 <= f <= k && Count(hv, f) == m
  {
    if k == 0 then 0
    else
      var m := MaxCountUpTo(hv, k - 1);
      if Count(hv, k) > m then Count(hv, k) else m
  }

  /** The largest number of held dice showing one face (0 when nothing is held). */
  function MaxCount(hv: seq<int>): (m: nat)
    ensures forall f :: IsFace(f) ==> Count(hv, f) <= m
    ensures m == 0 || exists f :: IsFace(f) && Count(hv, f) == m
  {
    MaxCountUpTo(hv, 6)
  }

  /** The smallest face from `f` on that `m` held dice show, or 6 when there is none. */
  function FirstFaceFrom(hv: seq<int>, m: nat, f: int): (r: int)
    requires 1 <= f <= 7
    ensures IsFace(r)
    ensures (exists g :: f <= g <= 6 && Count(hv, g) == m) ==>
      f <= r && Count(hv, r) == m && forall g :: f <= g < r ==> Count(hv, g) != m
    decreases 7 - f
  {
    if f == 7 then 6
    else if Count(hv, f) == m then f
    else FirstFaceFrom(hv, m, f + 1)
  }

  /**
   * The face `canAchieveNOfAKind` aims for: the most frequent held face, the
   * smallest one on a tie, and 6 when nothing is held.
   */
  function BestFace(hv: seq<int>): (b: int)
    ensures IsFace(b)
    ensures MaxCount(hv) == 0 ==> b == 6
    ensures MaxCount(hv) > 0 ==> Count(hv, b) == MaxCount(hv) && forall g :: 1 <= g < b ==> Count(hv, g) < MaxCount(hv)
  {
    if MaxCount(hv) == 0 then 6 else FirstFaceFrom(hv, MaxCount(hv), 1)
  }

  /** Where a held face sits among the entries. */
  lemma {:induction false} EntryOf(hv: seq<int>, f: int) returns (k: nat)
    requires IsFace(f) && Count(hv, f) > 0
    ensures k < |Entries(hv)| && Entries(hv)[k] == Entry(f, Count(hv, f))
  {
    var counts := CountsOf(hv);
    k := Rank(counts, 0, f - 1);
    EntriesFromRank(counts, 0, f - 1);
  }

  /** A bound on every entry's count bounds the count of every face. */
  lemma {:induction false} EntriesBound(hv: seq<int>, c: nat)
    requires forall j :: 0 <= j < |Entries(hv)| ==> Entries(hv)[j].count <= c
    ensures forall f :: IsFace(f) ==> Count(hv, f) <= c
  {
    var e := Entries(hv);
    forall f | IsFace(f) && Count(hv, f) > 0 ensures Count(hv, f) <= c {
      var k := EntryOf(hv, f);
    }
  }

  /** Nothing held: no entries, and no face is held at all. */
  lemma {:induction false} NoEntries(hv: seq<int>)
    requires Entries(hv) == []
    ensures MaxCount(hv) == 0
  {
    EntriesBound(hv, 0);
  }

  /**
   * The entry a strict-`>` scan over the entries settles on (the first entry
   * with the largest count) is the most frequent held face, smallest on a tie.
   */
  lemma {:induction false} BestEntry(hv: seq<int>, e: seq<Entry>, at: int)
    requires e == Entries(hv) && 0 <= at < |e|
    requires forall j :: 0 <= j < |e| ==> e[j].count <= e[at].count
    requires forall j :: 0 <= j < at ==> e[j].count < e[at].count
    ensures e[at].count == MaxCount(hv) && e[at].value == BestFace(hv)
  {
    var v, c := e[at].value, e[at].count;
    EntriesBound(hv, c);
    var m := MaxCount(hv);
    assert Count(hv, v) == c;
    assert m == c;
    forall g | 1 <= g < v ensures Count(hv, g) < c {
      if Count(hv, g) > 0 {
        var k := EntryOf(hv, g);
        EarlierEntry(e, at, Entry(g, Count(hv, g)));
      }
    }
    BestFaceIs(hv, v);
  }

  /** An entry of a smaller face comes before entry `at`, so its count is below the scan's best. */
  lemma {:induction false} EarlierEntry(e: seq<Entry>, at: int, x: Entry)
    requires 0 <= at < |e| && x in e && x.value < e[at].value
    requires forall p, q :: 0 <= p < q < |e| ==> e[p].value < e[q].value
    requires forall j :: 0 <= j < at ==> e[j].count < e[at].count
    ensures x.count < e[at].count
  {
    var j :| 0 <= j < |e| && e[j] == x;
  }

  /** The best face is the smallest face of the largest count. */
  lemma {:induction false} BestFaceIs(hv: seq<int>, v: int)
    requires IsFace(v) && MaxCount(hv) > 0 && Count(hv, v) == MaxCount(hv)
    requires forall g :: 1 <= g < v ==> Count(hv, g) < MaxCount(hv)
    ensures BestFace(hv) == v
  {
  }

  /** What the strict-`>` scan over all the entries ends with: the best face and its count, or nothing. */
  lemma {:induction false} ScanFindsBest(hv: seq<int>, e: seq<Entry>, bestValue: Option<int>, bestCount: nat, at: int)
    requires e == EntriesFrom(CountsOf(hv), 0)
    requires forall j :: 0 <= j < |e| ==> e[j].count <= bestCount
    requires bestValue.None? <==> |e| == 0
    requires bestValue.None? ==> bestCount == 0
    requires bestValue.Some? ==> 0 <= at < |e| && e[at] == Entry(bestValue.value, bestCount)
    requires bestValue.Some? ==> forall j :: 0 <= j < at ==> e[j].count < bestCount
    ensures bestCount == MaxCount(hv)
    ensures bestValue.Some? ==> bestValue.value == BestFace(hv)
    ensures bestValue.None? ==> BestFace(hv) == 6
  {
    assert e == Entries(hv);
    if bestValue.None? {
      NoEntries(hv);
    } else {
      BestEntry(hv, e, at);
    }
  }

  // ------------------------------------------------------ N of a kind

  /** The `{ possible, target, needed }` result of the n-of-a-kind and yahtzee checks. */
  datatype KindPlan = KindPossible(target: int, needed: seq<int>) | KindImpossible

  /** `Math.max(0, x)`. */
  function Max0(x: int): nat { if x > 0 then x else 0 }

  /**
   * The result `canAchieveNOfAKind` promises: aim for the most frequent held
   * face (smallest on a tie, 6 when nothing is held), ask for as many more of
   * it as are missing, and fill the other unheld dice with 6.
   */
  function NOfAKindPlan(hv: seq<int>, unheld: nat, n: int): KindPlan
  {
    var still := Max0(n - MaxCount(hv));
    if still <= unheld then
      KindPossible(BestFace(hv), Repeat(BestFace(hv), still) + Repeat(6, unheld - still))
    else KindImpossible
  }

  /**
   * The `for (const [value, count] of Object.entries(counts))` loop of
   * `canAchieveNOfAKind`: a strict `>` keeps the first entry of the largest count.
   */
  method ScanEntries(entries: seq<Entry>) returns (bestValue: Option<int>, bestCount: nat, ghost at: int)
    requires forall k :: 0 <= k < |entries| ==> entries[k].count > 0
    ensures forall j :: 0 <= j < |entries| ==> entries[j].count <= bestCount
    ensures bestValue.None? <==> |entries| == 0
    ensures bestValue.None? ==> bestCount == 0
    ensures bestValue.Some? ==> 0 <= at < |entries| && entries[at] == Entry(bestValue.value, bestCount)
    ensures bestValue.Some? ==> forall j :: 0 <= j < at ==> entries[j].count < bestCount
  {
    bestValue := None;
    bestCount := 0;
    at := 0;
    for i := 0 to |entries|
      invariant forall j :: 0 <= j < i ==> entries[j].count <= bestCount
      invariant bestValue.None? <==> i == 0
      invariant bestValue.None? ==> bestCount == 0
      invariant bestValue.Some? ==> 0 <= at < i && entries[at] == Entry(bestValue.value, bestCount)
      invariant bestValue.Some? ==> forall j :: 0 <= j < at ==> entries[j].count < bestCount
    {
      if entries[i].count > bestCount {
        bestCount := entries[i].count;
        bestValue := Some(entries[i].value);
        at := i;
      }
    }
  }

  /**
   * The first half of `canAchieveNOfAKind`: count the held faces, scan the
   * entries, and fall back to face 6 with count 0 when nothing is held.
   */
  method BestHeldFace(hv: seq<int>) returns (bestValue: int, bestCount: nat)
    requires AllFaces(hv)
    ensures bestValue == BestFace(hv) && bestCount == MaxCount(hv)
  {
    var counts := GetCounts(hv);
    var entries := EntriesFrom(counts, 0);
    var best, count, at := ScanEntries(entries);
    ScanFindsBest(hv, entries, best, count, at);
    if best.None? {
      bestValue, bestCount := 6, 0;
    } else {
      bestValue, bestCount := best.value, count;
    }
  }

  lemma {:induction false} RepeatSnoc(v: int, n: nat)
    ensures Repeat(v, n + 1) == Repeat(v, n) + [v]
  {
  }

  /** `canAchieveNOfAKind`: count the held faces, then scan the entries for the best one. */
  method CanAchieveNOfAKind(hv: seq<int>, unheld: nat, n: int) returns (r: KindPlan)
    requires AllFaces(hv)
    ensures r == NOfAKindPlan(hv, unheld, n)
  {
    var bestValue, bestCount := BestHeldFace(hv);
    var still := Max0(n - bestCount);
    if still <= unheld {
      var needed := Repeat(bestValue, still);
      var remaining := unheld - still;
      for i := 0 to remaining
        invariant needed == Repeat(bestValue, still) + Repeat(6, i)
      {
        RepeatSnoc(6, i);
        needed := needed + [6];
      }
      r := KindPossible(bestValue, needed);
    } else {
      r := KindImpossible;
    }
  }

  /** N of a kind can be made exactly when some face, held or not, can be brought to n dice. */
  lemma {:induction false} NOfAKindPossibleIff(hv: seq<int>, unheld: nat, n: int)
    ensures NOfAKindPlan(hv, unheld, n).KindPossible? <==> exists f :: IsFace(f) && Count(hv, f) + unheld >= n
  {
    var m := MaxCount(hv);
    if m == 0 {
      assert Count(hv, 6) == 0;
    } else {
      var f :| IsFace(f) && Count(hv, f) == m;
    }
  }

  /** On success, the plan fills every unheld die with a face, and the held dice plus the plan have n of the target. */
  lemma {:induction false} NOfAKindSound(hv: seq<int>, unheld: nat, n: int)
    requires NOfAKindPlan(hv, unheld, n).KindPossible?
    ensures var p := NOfAKindPlan(hv, unheld, n);
      IsFace(p.target) && |p.needed| == unheld && AllFaces(p.needed) && Count(hv + p.needed, p.target) >= n
  {
    var p := NOfAKindPlan(hv, unheld, n);
    var still := Max0(n - MaxCount(hv));
    var t := BestFace(hv);
    CountRepeat(t, still, t);
    CountRepeat(6, unheld - still, t);
    assert Count(hv + p.needed, t) == Count(hv, t) + still + Count(Repeat(6, unheld - still), t);
  }

  // ------------------------------------------------------ full house

  /** The `{ possible, needed }` result of the full-house check. */
  datatype HousePlan = HousePossible(needed: seq<int>) | HouseImpossible

  function Min(a: int, b: int): int { if a <= b then a else b }

  /** The held dice are the dice of their entries' faces. */
  lemma {:induction false} EntriesCover(hv: seq<int>, vs: set<int>)
    requires AllFaces(hv)
    requires forall k :: 0 <= k < |Entries(hv)| ==> Entries(hv)[k].value in vs
    ensures forall f :: IsFace(f) && f !in vs ==> Count(hv, f) == 0
  {
    forall f | IsFace(f) && f !in vs ensures Count(hv, f) == 0 {
      if Count(hv, f) > 0 {
        var k := EntryOf(hv, f);
      }
    }
  }

  /** With only one face held, that face accounts for every held die. */
  lemma {:induction false} SingleEntry(hv: seq<int>)
    requires AllFaces(hv) && |Entries(hv)| == 1
    ensures |hv| == Entries(hv)[0].count
    ensures forall f :: IsFace(f) && f != Entries(hv)[0].value ==> Count(hv, f) == 0
  {
    var e := Entries(hv);
    EntriesCover(hv, {e[0].value});
    CountSumOver(hv, e[0].value, e[0].value);
  }

  /** With two faces held, those two account for every held die. */
  lemma {:induction false} TwoEntries(hv: seq<int>)
    requires AllFaces(hv) && |Entries(hv)| == 2
    ensures |hv| == Entries(hv)[0].count + Entries(hv)[1].count
    ensures Entries(hv)[0].value != Entries(hv)[1].value
  {
    var e := Entries(hv);
    EntriesCover(hv, {e[0].value, e[1].value});
    CountSumOver(hv, e[0].value, e[1].value);
  }

  /**
   * `canAchieveFullHouse` on the entries of the held values. The two-entry
   * `sort((a, b) => b.count - a.count)` is stable: the entries swap only when
   * the second has the larger count. The one-entry branch that does not
   * return falls through to the final `{ possible: false }`. The requires
   * keeps `Array(unheldCount - threeNeeded)` at a non-negative length, as it
   * always is on a five-dice hand. On entries that fill the held part of a
   * five-dice hand, a full house is possible with no entry, with one entry
   * not held four times, or with two entries neither held more than three
   * times.
   */
  function HouseFromEntries(values: seq<Entry>, unheld: nat): (r: HousePlan)
    requires |values| == 1 && values[0].count <= 3 ==> 3 - values[0].count <= unheld
    ensures (|values| == 1 ==> values[0].count + unheld == 5)
      && (|values| == 2 ==> values[0].count + values[1].count + unheld == 5)
      ==> (r.HousePossible? <==>
        |values| == 0 || (|values| == 1 && values[0].count != 4)
        || (|values| == 2 && values[0].count <= 3 && values[1].count <= 3))
  {
    if |values| == 0 then HousePossible([6, 6, 6, 5, 5])
    else if |values| == 1 && values[0].count <= 3 then
      var threeNeeded := 3 - values[0].count;
      var twoValue := if values[0].value == 6 then 5 else 6;
      var needed := Repeat(values[0].value, threeNeeded) + Repeat(twoValue, Min(2, unheld - threeNeeded));
      if |needed| <= unheld then HousePossible(needed) else HouseImpossible
    else if |values| == 1 && values[0].count == 4 then HouseImpossible
    else if |values| == 1 && values[0].count == 5 then HousePossible([])
    else if |values| == 2 then
      var higher := if values[1].count > values[0].count then values[1] else values[0];
      var lower := if values[1].count > values[0].count then values[0] else values[1];
      var needForThree := Max0(3 - higher.count);
      var needForTwo := Max0(2 - lower.count);
      if needForThree + needForTwo <= unheld then
        HousePossible(Repeat(higher.value, needForThree) + Repeat(lower.value, needForTwo))
      else HouseImpossible
    else HouseImpossible
  }

  /** `canAchieveFullHouse(heldValues, unheldCount)` on a five-dice hand: count the held values, then plan. */
  function CanAchieveFullHouse(hv: seq<int>, unheld: nat): HousePlan
    requires AllFaces(hv) && |hv| + unheld == 5
  {
    EntriesFillHand(hv, unheld);
    HouseFromEntries(Entries(hv), unheld)
  }

  /** With one or two held faces, their counts and the unheld dice make up the five dice. */
  lemma {:induction false} EntriesFillHand(hv: seq<int>, unheld: nat)
    requires AllFaces(hv) && |hv| + unheld == 5
    ensures var e := Entries(hv);
      (|e| == 1 ==> e[0].count + unheld == 5) && (|e| == 2 ==> e[0].count + e[1].count + unheld == 5)
  {
    var e := Entries(hv);
    if |e| == 1 {
      SingleEntry(hv);
    } else if |e| == 2 {
      TwoEntries(hv);
    }
  }

  /**
   * A full house is reported possible exactly when at most two faces are held
   * and none more than three times, or when five equal dice are held.
   */
  lemma {:induction false} FullHousePossibleIff(hv: seq<int>, unheld: nat)
    requires AllFaces(hv) && |hv| + unheld == 5
    ensures CanAchieveFullHouse(hv, unheld).HousePossible? <==>
      (|Entries(hv)| <= 2 && MaxCount(hv) <= 3) || MaxCount(hv) == 5
  {
    var e := Entries(hv);
    if |e| == 0 {
      NoEntries(hv);
    } else if |e| == 1 {
      HouseIffOne(hv, unheld);
    } else if |e| == 2 {
      HouseIffTwo(hv, unheld);
    } else {
      ThreeEntries(hv);
      HouseManyImpossible(e, unheld);
    }
  }

  /** The one-face case of FullHousePossibleIff. */
  lemma {:induction false} HouseIffOne(hv: seq<int>, unheld: nat)
    requires AllFaces(hv) && |hv| + unheld == 5 && |Entries(hv)| == 1
    ensures CanAchieveFullHouse(hv, unheld).HousePossible? <==> MaxCount(hv) <= 3 || MaxCount(hv) == 5
  {
    var e := Entries(hv);
    SingleEntry(hv);
    assert CanAchieveFullHouse(hv, unheld) == HouseFromEntries(e, unheld);
    EntryIsMax(hv, 0);
  }

  /** The two-face case of FullHousePossibleIff. */
  lemma {:induction false} HouseIffTwo(hv: seq<int>, unheld: nat)
    requires AllFaces(hv) && |hv| + unheld == 5 && |Entries(hv)| == 2
    ensures CanAchieveFullHouse(hv, unheld).HousePossible? <==> MaxCount(hv) <= 3
    ensures MaxCount(hv) < 5
  {
    var e := Entries(hv);
    TwoEntries(hv);
    if e[0].count >= e[1].count {
      EntryIsMax(hv, 0);
    } else {
      EntryIsMax(hv, 1);
    }
  }

  /** An entry whose count no other entry exceeds carries the largest count. */
  lemma {:induction false} EntryIsMax(hv: seq<int>, k: nat)
    requires k < |Entries(hv)|
    requires forall j :: 0 <= j < |Entries(hv)| ==> Entries(hv)[j].count <= Entries(hv)[k].count
    ensures MaxCount(hv) == Entries(hv)[k].count
  {
    var e := Entries(hv);
    EntriesBound(hv, e[k].count);
    assert Count(hv, e[k].value) == e[k].count;
  }

  /** Three held faces never fit a full house: none of them can be held more than three times. */
  lemma {:induction false} ThreeEntries(hv: seq<int>)
    requires AllFaces(hv) && |Entries(hv)| >= 3 && |hv| <= 5
    ensures MaxCount(hv) <= 3
  {
    var e := Entries(hv);
    if MaxCount(hv) > 0 {
      var f :| IsFace(f) && Count(hv, f) == MaxCount(hv);
      if f == e[0].value || f == e[1].value {
        ThreeFacesSum(hv, e[0].value, e[1].value, e[2].value);
      } else {
        ThreeFacesSum(hv, e[0].value, e[1].value, f);
      }
    }
  }

  /** Two different faces together show at most all the dice. */
  lemma {:induction false} TwoFacesSum(s: seq<int>, a: int, b: int)
    requires a != b
    ensures Count(s, a) + Count(s, b) <= |s|
  {
    if s != [] {
      assert s == [s[0]] + s[1..];
      TwoFacesSum(s[1..], a, b);
    }
  }

  /** Three different faces together show at most all the dice. */
  lemma {:induction false} ThreeFacesSum(s: seq<int>, a: int, b: int, c: int)
    requires a != b && a != c && b != c
    ensures Count(s, a) + Count(s, b) + Count(s, c) <= |s|
  {
    if s != [] {
      assert s == [s[0]] + s[1..];
      ThreeFacesSum(s[1..], a, b, c);
    }
  }

  /** Adding `na` dice of face a and `nb` of another face b adds exactly that many to each count. */
  lemma {:induction false} HouseFill(hv: seq<int>, needed: seq<int>, a: int, na: nat, b: int, nb: nat)
    requires a != b && needed == Repeat(a, na) + Repeat(b, nb)
    ensures Count(hv + needed, a) == Count(hv, a) + na
    ensures Count(hv + needed, b) == Count(hv, b) + nb
  {
    CountRepeat(a, na, a);
    CountRepeat(a, na, b);
    CountRepeat(b, nb, a);
    CountRepeat(b, nb, b);
  }

  /** A hand whose held values have no entries holds nothing. */
  lemma {:induction false} NothingHeld(hv: seq<int>)
    requires AllFaces(hv) && |Entries(hv)| == 0
    ensures hv == []
  {
    NoEntries(hv);
    CountSum(hv);
  }

  /** Nothing held: the plan 6, 6, 6, 5, 5 is a full house. */
  lemma {:induction false} HouseSoundEmpty(hv: seq<int>, unheld: nat)
    requires hv == [] && unheld == 5
    ensures var p := HouseFromEntries([], unheld);
      p.HousePossible? && |p.needed| == unheld && AllFaces(p.needed) && Score(hv + p.needed, FullHouse) == 25
  {
    HouseFill(hv, [6, 6, 6, 5, 5], 6, 3, 5, 2);
    ThreeAndTwoIsFullHouse(hv + [6, 6, 6, 5, 5], 6, 5);
  }

  /** The plan for one face held c <= 3 times on a five-dice hand. */
  lemma {:induction false} HousePlanOne(e: seq<Entry>, unheld: nat)
    requires |e| == 1 && e[0].count <= 3 && e[0].count + unheld == 5
    ensures HouseFromEntries(e, unheld)
      == HousePossible(Repeat(e[0].value, 3 - e[0].count) + Repeat(if e[0].value == 6 then 5 else 6, 2))
  {
  }

  /**
   * One face held at most three times: completing the three and adding a
   * pair of 6 (of 5 when the face is 6) is a full house.
   */
  lemma {:induction false} HouseSoundOne(hv: seq<int>, unheld: nat, e: seq<Entry>)
    requires AllFaces(hv) && |hv| + unheld == 5 && |e| == 1 && IsFace(e[0].value)
    requires |hv| == e[0].count <= 3 && Count(hv, e[0].value) == e[0].count
    ensures var p := HouseFromEntries(e, unheld);
      p.HousePossible? && |p.needed| == unheld && AllFaces(p.needed) && Score(hv + p.needed, FullHouse) == 25
  {
    HousePlanOne(e, unheld);
    var v, c := e[0].value, e[0].count;
    var two := if v == 6 then 5 else 6;
    var needed := Repeat(v, 3 - c) + Repeat(two, 2);
    TwoFacesSum(hv, v, two);
    HouseFill(hv, needed, v, 3 - c, two, 2);
    AllFacesAppend(hv, needed);
    ThreeAndTwoIsFullHouse(hv + needed, v, two);
  }

  /** The plan for two held faces: the more frequent (the first on a tie) to three, the other to two. */
  lemma {:induction false} HousePlanTwo(e: seq<Entry>, unheld: nat)
    requires |e| == 2 && HouseFromEntries(e, unheld).HousePossible?
    ensures var higher := if e[1].count > e[0].count then e[1] else e[0];
      var lower := if e[1].count > e[0].count then e[0] else e[1];
      var n3, n2 := Max0(3 - higher.count), Max0(2 - lower.count);
      HouseFromEntries(e, unheld) == HousePossible(Repeat(higher.value, n3) + Repeat(lower.value, n2))
      && n3 + n2 <= unheld
  {
  }

  /** Two faces held: completing the more frequent to three and the other to two is a full house. */
  lemma {:induction false} HouseSoundTwo(hv: seq<int>, unheld: nat, e: seq<Entry>)
    requires AllFaces(hv) && |hv| + unheld == 5 && |e| == 2
    requires IsFace(e[0].value) && IsFace(e[1].value) && e[0].value != e[1].value
    requires Count(hv, e[0].value) == e[0].count && Count(hv, e[1].value) == e[1].count
    requires |hv| == e[0].count + e[1].count
    requires HouseFromEntries(e, unheld).HousePossible?
    ensures var p := HouseFromEntries(e, unheld);
      |p.needed| == unheld && AllFaces(p.needed) && Score(hv + p.needed, FullHouse) == 25
  {
    HousePlanTwo(e, unheld);
    var higher := if e[1].count > e[0].count then e[1] else e[0];
    var lower := if e[1].count > e[0].count then e[0] else e[1];
    assert Count(hv, higher.value) == higher.count && Count(hv, lower.value) == lower.count;
    assert IsFace(higher.value) && IsFace(lower.value) && higher.value != lower.value;
    var n3, n2 := Max0(3 - higher.count), Max0(2 - lower.count);
    HouseTwoFill(higher.count, lower.count, unheld);
    var needed := Repeat(higher.value, n3) + Repeat(lower.value, n2);
    assert HouseFromEntries(e, unheld).needed == needed;
    HouseCompleted(hv, higher.value, n3, lower.value, n2);
  }

  /** Topping one face up to three and another up to two makes a full house. */
  lemma {:induction false} HouseCompleted(hv: seq<int>, a: int, na: nat, b: int, nb: nat)
    requires AllFaces(hv) && IsFace(a) && IsFace(b) && a != b
    requires Count(hv, a) + na == 3 && Count(hv, b) + nb == 2
    ensures var needed := Repeat(a, na) + Repeat(b, nb);
      |needed| == na + nb && AllFaces(needed) && Score(hv + needed, FullHouse) == 25
  {
    var needed := Repeat(a, na) + Repeat(b, nb);
    HouseFill(hv, needed, a, na, b, nb);
    AllFacesAppend(hv, needed);
    ThreeAndTwoIsFullHouse(hv + needed, a, b);
  }

  /** With the higher count first, filling up to three and two uses exactly the unheld dice. */
  lemma {:induction false} HouseTwoFill(high: nat, low: nat, unheld: nat)
    requires high >= low && high + low + unheld == 5 && Max0(3 - high) + Max0(2 - low) <= unheld
    ensures high + Max0(3 - high) == 3 && low + Max0(2 - low) == 2
    ensures Max0(3 - high) + Max0(2 - low) == unheld
  {
  }

  /** One face held four or five times: only five of a kind is a full house, already complete. */
  lemma {:induction false} HousePlanFive(e: seq<Entry>, unheld: nat)
    requires |e| == 1 && e[0].count > 3 && HouseFromEntries(e, unheld).HousePossible?
    ensures e[0].count == 5 && HouseFromEntries(e, unheld) == HousePossible([])
  {
  }

  /** Three or more held faces leave no full house. */
  lemma {:induction false} HouseManyImpossible(e: seq<Entry>, unheld: nat)
    requires |e| >= 3
    ensures HouseFromEntries(e, unheld) == HouseImpossible
  {
  }

  /**
   * On success, the plan fills exactly the unheld dice with faces, and the
   * held dice plus the plan score 25 as a full house.
   */
  lemma {:induction false} FullHouseSound(hv: seq<int>, unheld: nat)
    requires AllFaces(hv) && |hv| + unheld == 5 && CanAchieveFullHouse(hv, unheld).HousePossible?
    ensures var p := CanAchieveFullHouse(hv, unheld);
      |p.needed| == unheld && AllFaces(p.needed) && Score(hv + p.needed, FullHouse) == 25
  {
    var e := Entries(hv);
    if |e| >= 3 {
      HouseManyImpossible(e, unheld);
    }
    if |e| == 0 {
      NothingHeld(hv);
      HouseSoundEmpty(hv, unheld);
    } else if |e| == 1 {
      HouseSoundSingle(hv, unheld);
    } else if |e| == 2 {
      TwoEntries(hv);
      HouseSoundTwo(hv, unheld, e);
    }
  }

  /** The one-face case of FullHouseSound. */
  lemma {:induction false} HouseSoundSingle(hv: seq<int>, unheld: nat)
    requires AllFaces(hv) && |hv| + unheld == 5 && |Entries(hv)| == 1
    requires CanAchieveFullHouse(hv, unheld).HousePossible?
    ensures var p := CanAchieveFullHouse(hv, unheld);
      |p.needed| == unheld && AllFaces(p.needed) && Score(hv + p.needed, FullHouse) == 25
  {
    var e := Entries(hv);
    SingleEntry(hv);
    assert CanAchieveFullHouse(hv, unheld) == HouseFromEntries(e, unheld);
    if e[0].count <= 3 {
      HouseSoundOne(hv, unheld, e);
    } else {
      HouseSoundFive(hv, unheld, e);
    }
  }

  /** Five equal dice held: nothing is needed, and the hand is already a full house. */
  lemma {:induction false} HouseSoundFive(hv: seq<int>, unheld: nat, e: seq<Entry>)
    requires AllFaces(hv) && |hv| + unheld == 5 && |e| == 1 && e[0].count > 3
    requires |hv| == e[0].count && IsFace(e[0].value) && Count(hv, e[0].value) == e[0].count
    requires HouseFromEntries(e, unheld).HousePossible?
    ensures var p := HouseFromEntries(e, unheld);
      |p.needed| == unheld && AllFaces(p.needed) && Score(hv + p.needed, FullHouse) == 25
  {
    HousePlanFive(e, unheld);
    assert hv + [] == hv;
    FiveOfOneIsFullHouse(hv, e[0].value);
  }

  // ------------------------------------------------------------ straights

  /** The `{ possible, needed, straight }` result of the straight checks. */
  datatype StraightPlan = StraightPossible(needed: seq<int>, straight: seq<int>) | StraightImpossible

  /** The windows `canAchieveLargeStraight` tries, in order. */
  const LargeWindows: seq<seq<int>> := [[1, 2, 3, 4, 5], [2, 3, 4, 5, 6]]

  /** The windows `canAchieveSmallStraight` tries, in order. */
  const SmallWindows: seq<seq<int>> := [[1, 2, 3, 4], [2, 3, 4, 5], [3, 4, 5, 6]]

  /** `straight.filter(n => !heldValues.includes(n))`: the window's faces no held die shows. */
  function Missing(straight: seq<int>, hv: seq<int>): (r: seq<int>)
    ensures |r| <= |straight|
    ensures forall x :: x in r <==> x in straight && x !in hv
  {
    if straight == [] then []
    else (if straight[0] in hv then [] else [straight[0]]) + Missing(straight[1..], hv)
  }

  /** `heldValues.filter(v => straight.includes(v))`: the held dice inside the window. */
  function HeldIn(hv: seq<int>, straight: seq<int>): (r: seq<int>)
    ensures |r| <= |hv|
    ensures forall x :: x in r <==> x in hv && x in straight
  {
    if hv == [] then []
    else (if hv[0] in straight then [hv[0]] else []) + HeldIn(hv[1..], straight)
  }

  /** `new Set(heldValues).size === heldValues.length`. */
  predicate NoDuplicates(hv: seq<int>)
  {
    |set v | v in hv| == |hv|
  }

  /**
   * The test one window must pass: for a large straight every held die lies
   * in the window and no two are equal; for a small straight at most one held
   * die lies outside it. Either way the missing faces must fit the unheld dice.
   */
  predicate Fits(large: bool, straight: seq<int>, hv: seq<int>, unheld: nat)
  {
    (if large then (forall i :: 0 <= i < |hv| ==> hv[i] in straight) && NoDuplicates(hv)
     else |hv| - |HeldIn(hv, straight)| <= 1)
    && |Missing(straight, hv)| <= unheld
  }

  /** The `for (const straight of validStraights)` loop: the first window that fits. */
  function FirstWindow(windows: seq<seq<int>>, hv: seq<int>, unheld: nat, large: bool): StraightPlan
  {
    if windows == [] then StraightImpossible
    else if Fits(large, windows[0], hv, unheld) then StraightPossible(Missing(windows[0], hv), windows[0])
    else FirstWindow(windows[1..], hv, unheld, large)
  }

  /**
   * A straight is reported possible exactly when some window fits; the window
   * reported is the first that fits, with its missing faces as the plan.
   */
  lemma {:induction false} FirstWindowSpec(windows: seq<seq<int>>, hv: seq<int>, unheld: nat, large: bool)
    ensures var r := FirstWindow(windows, hv, unheld, large);
      r.StraightPossible? <==> exists k :: 0 <= k < |windows| && Fits(large, windows[k], hv, unheld)
    ensures var r := FirstWindow(windows, hv, unheld, large);
      r.StraightPossible? ==>
        exists k :: 0 <= k < |windows| && windows[k] == r.straight
          && Fits(large, r.straight, hv, unheld) && r.needed == Missing(r.straight, hv)
          && forall j :: 0 <= j < k ==> !Fits(large, windows[j], hv, unheld)
  {
    if windows != [] && !Fits(large, windows[0], hv, unheld) {
      var rest := windows[1..];
      FirstWindowSpec(rest, hv, unheld, large);
      var r := FirstWindow(rest, hv, unheld, large);
      if exists k :: 0 <= k < |windows| && Fits(large, windows[k], hv, unheld) {
        var k :| 0 <= k < |windows| && Fits(large, windows[k], hv, unheld);
        assert rest[k - 1] == windows[k];
      }
      if r.StraightPossible? {
        var k :| 0 <= k < |rest| && rest[k] == r.straight
          && Fits(large, r.straight, hv, unheld) && r.needed == Missing(r.straight, hv)
          && forall j :: 0 <= j < k ==> !Fits(large, rest[j], hv, unheld);
        assert windows[k + 1] == r.straight;
        forall j | 0 <= j < k + 1 ensures !Fits(large, windows[j], hv, unheld) {
          if j > 0 {
            assert windows[j] == rest[j - 1];
          }
        }
      }
    }
  }

  /** `canAchieveLargeStraight(heldValues, unheldCount)`: on success, a window and its missing faces, which fit the unheld dice. */
  function CanAchieveLargeStraight(hv: seq<int>, unheld: nat): (r: StraightPlan)
    ensures r.StraightPossible? ==>
      r.straight in LargeWindows && r.needed == Missing(r.straight, hv) && |r.needed| <= unheld
  {
    FirstWindowSpec(LargeWindows, hv, unheld, true);
    FirstWindow(LargeWindows, hv, unheld, true)
  }

  /** `canAchieveSmallStraight(heldValues, unheldCount)`: on success, a window and its missing faces, which fit the unheld dice. */
  function CanAchieveSmallStraight(hv: seq<int>, unheld: nat): (r: StraightPlan)
    ensures r.StraightPossible? ==>
      r.straight in SmallWindows && r.needed == Missing(r.straight, hv) && |r.needed| <= unheld
  {
    FirstWindowSpec(SmallWindows, hv, unheld, false);
    FirstWindow(SmallWindows, hv, unheld, false)
  }

  /** A value of a plan of nonzero values that fits the unheld dice lands on one of them. */
  lemma {:induction false} FillHas(needed: seq<int>, m: nat, x: int)
    requires |needed| <= m && x in needed && forall k :: 0 <= k < |needed| ==> needed[k] != 0
    ensures x in Fill(needed, m)
  {
    var k :| 0 <= k < |needed| && needed[k] == x;
    assert Fill(needed, m)[k] == x;
  }

  /** Filling a plan of faces gives faces. */
  lemma {:induction false} FillFaces(needed: seq<int>, m: nat)
    requires AllFaces(needed)
    ensures AllFaces(Fill(needed, m))
  {
  }

  /** The missing faces of a window of faces are faces. */
  lemma {:induction false} MissingFaces(straight: seq<int>, hv: seq<int>)
    requires AllFaces(straight)
    ensures AllFaces(Missing(straight, hv))
  {
    var r := Missing(straight, hv);
    assert forall i :: 0 <= i < |r| ==> r[i] in r;
  }

  /** Held dice plus the window's missing faces, once rolled, show every face of the window. */
  lemma {:induction false} WindowShown(straight: seq<int>, hv: seq<int>, unheld: nat)
    requires |Missing(straight, hv)| <= unheld && AllFaces(straight)
    ensures forall w :: w in straight ==> w in hv + Fill(Missing(straight, hv), unheld)
  {
    var needed := Missing(straight, hv);
    MissingFaces(straight, hv);
    forall w | w in straight ensures w in hv + Fill(needed, unheld) {
      if w !in hv {
        FillHas(needed, unheld, w);
      }
    }
  }

  /** Five dice that show five different faces cannot show the sixth. */
  lemma {:induction false} SixthFaceAbsent(d: seq<int>, a: int)
    requires AllFaces(d) && |d| == 5 && IsFace(a)
    requires forall f :: IsFace(f) && f != a ==> f in d
    ensures a !in d
  {
    CountSum(d);
    forall f | IsFace(f) && f != a ensures Count(d, f) >= 1 {
      assert f in multiset(d);
    }
  }

  /** Five dice showing every face of a large-straight window are a large straight. */
  lemma {:induction false} LargeWindowScore(d: seq<int>, w: seq<int>)
    requires AllFaces(d) && |d| == 5 && w in LargeWindows
    requires forall x :: x in w ==> x in d
    ensures Score(d, LargeStraight) == 40
  {
    if w == [1, 2, 3, 4, 5] {
      assert 1 in w && 2 in w && 3 in w && 4 in w && 5 in w;
      SixthFaceAbsent(d, 6);
    } else {
      assert 2 in w && 3 in w && 4 in w && 5 in w && 6 in w;
      SixthFaceAbsent(d, 1);
    }
    LargeStraightScore(d);
  }

  /**
   * On success, the held dice plus the filled plan are a large straight:
   * they score 40.
   */
  lemma {:induction false} LargeStraightSound(hv: seq<int>, unheld: nat)
    requires AllFaces(hv) && |hv| + unheld == 5 && CanAchieveLargeStraight(hv, unheld).StraightPossible?
    ensures var p := CanAchieveLargeStraight(hv, unheld);
      var d := hv + Fill(p.needed, unheld);
      p.straight in LargeWindows && AllFaces(Fill(p.needed, unheld)) && Score(d, LargeStraight) == 40
  {
    var p := CanAchieveLargeStraight(hv, unheld);
    var w := p.straight;
    var f := Fill(p.needed, unheld);
    assert AllFaces(w);
    MissingFaces(w, hv);
    WindowShown(w, hv, unheld);
    FillFaces(p.needed, unheld);
    AllFacesAppend(hv, f);
    LargeWindowScore(hv + f, w);
  }

  /** The `while (neededValues.length < unheldIndices.length) push(straight[0])` padding. */
  function Pad(needed: seq<int>, unheld: nat, x: int): (r: seq<int>)
    requires |needed| <= unheld
  {
    needed + Repeat(x, unheld - |needed|)
  }

  /** Padding a plan of faces with a face keeps every planned face and adds only faces. */
  lemma {:induction false} PadFaces(needed: seq<int>, unheld: nat, x: int)
    requires |needed| <= unheld && AllFaces(needed) && IsFace(x)
    ensures AllFaces(Pad(needed, unheld, x))
    ensures forall y :: y in needed ==> y in Pad(needed, unheld, x)
  {
    var r := Repeat(x, unheld - |needed|);
    assert forall i :: 0 <= i < |r| ==> r[i] == x;
    AllFacesAppend(needed, r);
  }

  /** Five dice showing every face of a small-straight window are a small straight. */
  lemma {:induction false} SmallWindowScore(d: seq<int>, w: seq<int>)
    requires AllFaces(d) && w in SmallWindows
    requires forall x :: x in w ==> x in d
    ensures Score(d, SmallStraight) == 30
  {
    assert w[0] in w && w[1] in w && w[2] in w && w[3] in w;
    assert HasRun4(d, w[0]);
    SmallStraightScore(d);
  }

  /** Every face of the window missing from the held dice is dealt by the padded fill. */
  lemma {:induction false} PaddedShown(w: seq<int>, hv: seq<int>, unheld: nat, padded: seq<int>)
    requires |Missing(w, hv)| <= unheld && |padded| <= unheld && AllFaces(padded)
    requires forall x :: x in Missing(w, hv) ==> x in padded
    ensures forall x :: x in w ==> x in hv + Fill(padded, unheld)
  {
    forall x | x in w ensures x in hv + Fill(padded, unheld) {
      if x !in hv {
        assert x in Missing(w, hv);
        FillHas(padded, unheld, x);
      }
    }
  }

  /**
   * On success, the held dice plus the padded, filled plan hold a small
   * straight: they score 30.
   */
  lemma {:induction false} SmallStraightSound(hv: seq<int>, unheld: nat)
    requires AllFaces(hv) && |hv| + unheld == 5 && CanAchieveSmallStraight(hv, unheld).StraightPossible?
    ensures var p := CanAchieveSmallStraight(hv, unheld);
      var d := hv + Fill(Pad(p.needed, unheld, p.straight[0]), unheld);
      p.straight in SmallWindows && AllFaces(Fill(Pad(p.needed, unheld, p.straight[0]), unheld))
      && Score(d, SmallStraight) == 30
  {
    var p := CanAchieveSmallStraight(hv, unheld);
    var w := p.straight;
    var padded := Pad(p.needed, unheld, w[0]);
    var f := Fill(padded, unheld);
    assert AllFaces(w);
    MissingFaces(w, hv);
    PadFaces(p.needed, unheld, w[0]);
    PaddedShown(w, hv, unheld, padded);
    FillFaces(padded, unheld);
    AllFacesAppend(hv, f);
    SmallWindowScore(hv + f, w);
  }

  // ------------------------------------------------------------- yahtzee

  /**
   * `canAchieveYahtzee(heldValues, unheldCount)`: with nothing held, five of
   * `randomTarget` (the face `Math.random` would draw); with held dice, more
   * of their face when they all agree; otherwise impossible.
   */
  function CanAchieveYahtzee(hv: seq<int>, unheld: nat, randomTarget: int): (r: KindPlan)
    ensures r.KindPossible? <==> AllSame(hv)
  {
    if |hv| == 0 then KindPossible(randomTarget, Repeat(randomTarget, 5))
    else if !IsYahtzee(hv) then KindImpossible
    else KindPossible(hv[0], Repeat(hv[0], unheld))
  }

  /** Held dice that all agree, joined by more of their face, all agree. */
  lemma {:induction false} SameExtended(hv: seq<int>, unheld: nat)
    requires |hv| > 0 && AllSame(hv)
    ensures AllSame(hv + Repeat(hv[0], unheld))
  {
  }

  /** On success, the plan fills every unheld die with the target, and the held dice plus the plan score 50. */
  lemma {:induction false} YahtzeeSound(hv: seq<int>, unheld: nat, randomTarget: int)
    requires AllFaces(hv) && |hv| + unheld == 5 && IsFace(randomTarget)
    requires CanAchieveYahtzee(hv, unheld, randomTarget).KindPossible?
    ensures var p := CanAchieveYahtzee(hv, unheld, randomTarget);
      |p.needed| == unheld && AllFaces(p.needed) && Score(hv + p.needed, Yahtzee) == 50
  {
    var p := CanAchieveYahtzee(hv, unheld, randomTarget);
    if |hv| == 0 {
      assert hv + p.needed == p.needed;
    } else {
      SameExtended(hv, unheld);
    }
    YahtzeeScore(hv + p.needed);
  }

  // ---------------------------------------------------- achievable categories

  /**
   * Whether `getAchievableCategories` offers category c (when unscored) for
   * held values `hv` and `unheld` dice to roll: an upper category when three
   * of its face can be shown, chance always, every other one when its check
   * reports it possible.
   */
  predicate Achievable(hv: seq<int>, unheld: nat, c: Category)
    requires AllFaces(hv) && |hv| + unheld == 5
  {
    match c
    case ThreeOfAKind => NOfAKindPlan(hv, unheld, 3).KindPossible?
    case FourOfAKind => NOfAKindPlan(hv, unheld, 4).KindPossible?
    case FullHouse => CanAchieveFullHouse(hv, unheld).HousePossible?
    case SmallStraight => CanAchieveSmallStraight(hv, unheld).StraightPossible?
    case LargeStraight => CanAchieveLargeStraight(hv, unheld).StraightPossible?
    case Yahtzee => AllSame(hv)
    case Chance => true
    case _ => Count(hv, c.Face()) + unheld >= 3
  }

  /** The categories the menu is to offer: the unscored ones that are achievable. */
  function Wanted(hv: seq<int>, unheld: nat, sc: Scorecard): (w: set<Category>)
    requires AllFaces(hv) && |hv| + unheld == 5
    ensures forall c :: c in w <==> sc.IsUnscored(c) && Achievable(hv, unheld, c)
  {
    CategoriesComplete();
    set c | c in Categories && sc.IsUnscored(c) && Achievable(hv, unheld, c)
  }

  /** `r` lists, in scorecard order, the categories of `want` before position k. */
  predicate Listed(r: seq<Category>, want: set<Category>, k: nat)
  {
    (forall c :: c in r <==> Index(c) < k && c in want)
    && (forall p, q :: 0 <= p < q < |r| ==> Index(r[p]) < Index(r[q]))
  }

  /** One step of the list: category c is pushed exactly when it is wanted. */
  lemma {:induction false} ListStep(r: seq<Category>, want: set<Category>, c: Category)
    requires Listed(r, want, Index(c))
    ensures Listed(if c in want then r + [c] else r, want, Index(c) + 1)
  {
    var r' := if c in want then r + [c] else r;
    forall d ensures d in r' <==> Index(d) < Index(c) + 1 && d in want {
      if Index(d) == Index(c) {
        assert d == Categories[Index(d)] == c;
      }
    }
  }

  /** `[c]` when category c is wanted, else nothing. */
  function Offer(want: set<Category>, c: Category): seq<Category>
  {
    if c in want then [c] else []
  }

  /** The wanted categories among the first k, pushed one position at a time. */
  function OfferedUpTo(want: set<Category>, k: nat): seq<Category>
    requires k <= |Categories|
  {
    if k == 0 then [] else OfferedUpTo(want, k - 1) + Offer(want, Categories[k - 1])
  }

  /** Position k of the category list holds the category of index k. */
  lemma {:induction false} CategoryIndex(k: nat)
    requires k < |Categories|
    ensures Index(Categories[k]) == k
  {
    if k < 6 {
      assert Categories[k] in UpperCategories;
    }
  }

  /** The offered list holds exactly the wanted categories among the first k, in order. */
  lemma {:induction false} OfferedListed(want: set<Category>, k: nat)
    requires k <= |Categories|
    ensures Listed(OfferedUpTo(want, k), want, k)
  {
    if k > 0 {
      OfferedListed(want, k - 1);
      var c := Categories[k - 1];
      CategoryIndex(k - 1);
      ListStep(OfferedUpTo(want, k - 1), want, c);
    }
  }

  /** The k-th upper category is wanted when unscored and three of its face can be shown. */
  lemma {:induction false} UpperAt(hv: seq<int>, unheld: nat, sc: Scorecard, k: nat)
    requires AllFaces(hv) && |hv| + unheld == 5 && k < 6
    ensures UpperCategories[k] == Categories[k] && Categories[k].IsUpper()
    ensures var c := Categories[k];
      c in Wanted(hv, unheld, sc) <==> sc.IsUnscored(c) && Count(hv, c.Face()) + unheld >= 3
  {
  }

  /** The categories after the sixth are the lower section. */
  lemma {:induction false} LowerAt(k: nat)
    requires 6 <= k < |Categories|
    ensures !Categories[k].IsUpper()
  {
  }

  /** The whole offered list: exactly the wanted categories, in scorecard order. */
  lemma {:induction false} OfferedAll(want: set<Category>)
    ensures var r := OfferedUpTo(want, |Categories|);
      (forall c :: c in r <==> c in want)
      && (forall p, q :: 0 <= p < q < |r| ==> Index(r[p]) < Index(r[q]))
  {
    OfferedListed(want, |Categories|);
  }

  /**
   * The `canAchieveX(heldValues, unheldCount).possible` test of one
   * lower-section category (chance has none: it is always offered).
   */
  method LowerCheck(hv: seq<int>, unheld: nat, c: Category, randomTarget: int) returns (possible: bool)
    requires AllFaces(hv) && |hv| + unheld == 5 && !c.IsUpper()
    ensures possible == Achievable(hv, unheld, c)
  {
    match c {
      case ThreeOfAKind =>
        var result := CanAchieveNOfAKind(hv, unheld, 3);
        possible := result.KindPossible?;
      case FourOfAKind =>
        var result := CanAchieveNOfAKind(hv, unheld, 4);
        possible := result.KindPossible?;
      case FullHouse => possible := CanAchieveFullHouse(hv, unheld).HousePossible?;
      case SmallStraight => possible := CanAchieveSmallStraight(hv, unheld).StraightPossible?;
      case LargeStraight => possible := CanAchieveLargeStraight(hv, unheld).StraightPossible?;
      case Yahtzee => possible := CanAchieveYahtzee(hv, unheld, randomTarget).KindPossible?;
      case Chance => possible := true;
    }
  }

  /** One upper-section test: the k-th category goes on when unscored and three of its face can be shown. */
  method OfferUpper(achievable: seq<Category>, hv: seq<int>, unheld: nat, sc: Scorecard, k: nat)
    returns (r: seq<Category>)
    requires AllFaces(hv) && |hv| + unheld == 5 && k < 6
    requires achievable == OfferedUpTo(Wanted(hv, unheld, sc), k)
    ensures r == OfferedUpTo(Wanted(hv, unheld, sc), k + 1)
  {
    var c := UpperCategories[k];
    UpperAt(hv, unheld, sc, k);
    r := achievable;
    if sc.IsUnscored(c) {
      var heldOfValue := Count(hv, c.Face());
      if heldOfValue + unheld >= 3 {
        r := r + [c];
      }
    }
  }

  /**
   * One lower-section statement: push the k-th category when it is unscored
   * and its check reports it possible.
   */
  method OfferLower(achievable: seq<Category>, hv: seq<int>, unheld: nat, sc: Scorecard, k: nat, randomTarget: int)
    returns (r: seq<Category>)
    requires AllFaces(hv) && |hv| + unheld == 5 && 6 <= k < |Categories|
    requires achievable == OfferedUpTo(Wanted(hv, unheld, sc), k)
    ensures r == OfferedUpTo(Wanted(hv, unheld, sc), k + 1)
  {
    var c := Categories[k];
    LowerAt(k);
    r := achievable;
    if sc.IsUnscored(c) {
      var possible := LowerCheck(hv, unheld, c, randomTarget);
      if possible {
        r := r + [c];
      }
    }
  }

  /**
   * `getAchievableCategories(dice, heldDice, scorecard)`: the categories the
   * cheat menu offers, in scorecard order, each one exactly when it is
   * unscored (null or undefined) and achievable. The seven lower-section
   * tests, which share one shape, are one loop over the lower categories;
   * the labels are left out. `randomTarget` stands for the face the yahtzee
   * check draws, which does not affect whether yahtzee is offered.
   */
  method GetAchievableCategories(dice: seq<int>, held: seq<bool>, sc: Scorecard, randomTarget: int)
    returns (achievable: seq<Category>)
    requires |dice| == 5 && |held| == 5 && AllFaces(dice)
    ensures var hv := GetHeldValues(dice, held);
      AllFaces(hv) && |hv| + NumUnheld(held) == 5
      && (forall c :: c in achievable <==> sc.IsUnscored(c) && Achievable(hv, NumUnheld(held), c))
    ensures forall p, q :: 0 <= p < q < |achievable| ==> Index(achievable[p]) < Index(achievable[q])
  {
    var heldValues := GetHeldValues(dice, held);
    var unheldCount := NumUnheld(held);
    ghost var want := Wanted(heldValues, unheldCount, sc);
    achievable := [];
    for k := 0 to 6
      invariant achievable == OfferedUpTo(want, k)
    {
      achievable := OfferUpper(achievable, heldValues, unheldCount, sc, k);
    }
    for k := 6 to 13
      invariant achievable == OfferedUpTo(want, k)
    {
      achievable := OfferLower(achievable, heldValues, unheldCount, sc, k, randomTarget);
    }
    OfferedAll(want);
  }

  // ---------------------------------------------------------- cheat dice

  /**
   * The values the cheat deals to the unheld dice for a recognised category:
   * the plan of the category's check when it is possible, and the fixed
   * fallback otherwise. `randomTarget` is the face the yahtzee check draws
   * when nothing is held. Given that it is a face, every value is a face,
   * whether or not the category can be reached.
   */
  function NeededFor(hv: seq<int>, unheld: nat, c: Category, randomTarget: int): (r: seq<int>)
    requires AllFaces(hv) && |hv| + unheld == 5
    ensures IsFace(randomTarget) ==> AllFaces(r)
  {
    if c.IsUpper() then Repeat(c.Face(), unheld)
    else if c == ThreeOfAKind then KindDeal(hv, unheld, 3)
    else if c == FourOfAKind then KindDeal(hv, unheld, 4)
    else if c == FullHouse then HouseDeal(hv, unheld)
    else if c == SmallStraight then SmallDeal(hv, unheld)
    else if c == LargeStraight then LargeDeal(hv, unheld)
    else if c == Yahtzee then YahtzeeDeal(hv, unheld, randomTarget)
    else Repeat(6, unheld)
  }

  /** The n-of-a-kind case: the plan, or all sixes when it is impossible. */
  function KindDeal(hv: seq<int>, unheld: nat, n: int): (r: seq<int>)
    ensures AllFaces(r)
  {
    var p := NOfAKindPlan(hv, unheld, n);
    if p.KindPossible? then NOfAKindSound(hv, unheld, n); p.needed else Repeat(6, unheld)
  }

  /** The full-house case: the plan, or `[6, 6, 6, 5, 5]` cut to the unheld dice. */
  function HouseDeal(hv: seq<int>, unheld: nat): (r: seq<int>)
    requires AllFaces(hv) && |hv| + unheld == 5
    ensures AllFaces(r)
  {
    var p := CanAchieveFullHouse(hv, unheld);
    HouseFallbackFaces(unheld);
    if p.HousePossible? then HousePlanFaces(hv, unheld); p.needed else [6, 6, 6, 5, 5][..unheld]
  }

  /** The full-house fallback, cut to the unheld dice, is faces. */
  lemma {:induction false} HouseFallbackFaces(m: nat)
    requires m <= 5
    ensures AllFaces([6, 6, 6, 5, 5][..m])
  {
    SliceFaces([6, 6, 6, 5, 5], m);
  }

  /** The full-house plan deals faces. */
  lemma {:induction false} HousePlanFaces(hv: seq<int>, unheld: nat)
    requires AllFaces(hv) && |hv| + unheld == 5 && CanAchieveFullHouse(hv, unheld).HousePossible?
    ensures AllFaces(CanAchieveFullHouse(hv, unheld).needed)
  {
    FullHouseSound(hv, unheld);
  }

  /** The small-straight case: the missing faces padded with the window's lowest, or `[1, 2, 3, 4]` cut to the unheld dice. */
  function SmallDeal(hv: seq<int>, unheld: nat): (r: seq<int>)
    requires unheld <= 5
    ensures AllFaces(r)
  {
    var p := CanAchieveSmallStraight(hv, unheld);
    SliceFaces([1, 2, 3, 4], Min(4, unheld));
    if p.StraightPossible? then
      StraightPlanFaces(p, hv);
      PadFaces(p.needed, unheld, p.straight[0]);
      Pad(p.needed, unheld, p.straight[0])
    else [1, 2, 3, 4][..Min(4, unheld)]
  }

  /** The large-straight case: the missing faces, or `[1, 2, 3, 4, 5]` cut to the unheld dice. */
  function LargeDeal(hv: seq<int>, unheld: nat): (r: seq<int>)
    requires unheld <= 5
    ensures AllFaces(r)
  {
    var p := CanAchieveLargeStraight(hv, unheld);
    SliceFaces([1, 2, 3, 4, 5], unheld);
    if p.StraightPossible? then StraightPlanFaces(p, hv); p.needed else [1, 2, 3, 4, 5][..unheld]
  }

  /** The yahtzee case: the plan, or all sixes when it is impossible. */
  function YahtzeeDeal(hv: seq<int>, unheld: nat, randomTarget: int): (r: seq<int>)
    requires AllFaces(hv)
    ensures IsFace(randomTarget) ==> AllFaces(r)
  {
    var p := CanAchieveYahtzee(hv, unheld, randomTarget);
    if p.KindPossible? then
      (if IsFace(randomTarget) then YahtzeePlanFaces(hv, unheld, randomTarget); p.needed else p.needed)
    else Repeat(6, unheld)
  }

  /** A prefix of faces is faces. */
  lemma {:induction false} SliceFaces(s: seq<int>, m: nat)
    requires m <= |s|
    ensures AllFaces(s) ==> AllFaces(s[..m])
  {
  }

  /** A straight plan deals faces: the missing faces of a window of faces. */
  lemma {:induction false} StraightPlanFaces(p: StraightPlan, hv: seq<int>)
    requires p.StraightPossible? && (p.straight in SmallWindows || p.straight in LargeWindows)
    requires p.needed == Missing(p.straight, hv)
    ensures AllFaces(p.needed) && |p.straight| > 0 && IsFace(p.straight[0])
  {
    assert AllFaces(p.straight);
    MissingFaces(p.straight, hv);
  }

  /** The yahtzee plan deals faces when the drawn target is a face. */
  lemma {:induction false} YahtzeePlanFaces(hv: seq<int>, unheld: nat, randomTarget: int)
    requires AllFaces(hv) && IsFace(randomTarget) && CanAchieveYahtzee(hv, unheld, randomTarget).KindPossible?
    ensures AllFaces(CanAchieveYahtzee(hv, unheld, randomTarget).needed)
  {
  }

  /** The full-house deal: the plan's values. */
  lemma {:induction false} NeededForHouse(hv: seq<int>, unheld: nat, randomTarget: int)
    requires AllFaces(hv) && |hv| + unheld == 5 && CanAchieveFullHouse(hv, unheld).HousePossible?
    ensures NeededFor(hv, unheld, FullHouse, randomTarget) == CanAchieveFullHouse(hv, unheld).needed
  {
    var c := FullHouse;
    assert !c.IsUpper() && c != ThreeOfAKind && c != FourOfAKind;
    assert NeededFor(hv, unheld, c, randomTarget) == HouseDeal(hv, unheld);
  }

  /** The large-straight deal: the missing faces of the window. */
  lemma {:induction false} NeededForLarge(hv: seq<int>, unheld: nat, randomTarget: int)
    requires AllFaces(hv) && |hv| + unheld == 5 && CanAchieveLargeStraight(hv, unheld).StraightPossible?
    ensures NeededFor(hv, unheld, LargeStraight, randomTarget) == CanAchieveLargeStraight(hv, unheld).needed
  {
  }

  /** The small-straight deal: the missing faces, padded with the window's lowest face. */
  lemma {:induction false} NeededForSmall(hv: seq<int>, unheld: nat, randomTarget: int)
    requires AllFaces(hv) && |hv| + unheld == 5 && CanAchieveSmallStraight(hv, unheld).StraightPossible?
    ensures var p := CanAchieveSmallStraight(hv, unheld);
      NeededFor(hv, unheld, SmallStraight, randomTarget) == Pad(p.needed, unheld, p.straight[0])
  {
  }

  /** The Yahtzee deal, when it is possible. */
  lemma {:induction false} NeededForYahtzee(hv: seq<int>, unheld: nat, randomTarget: int)
    requires AllFaces(hv) && |hv| + unheld == 5 && AllSame(hv)
    ensures NeededFor(hv, unheld, Yahtzee, randomTarget) == CanAchieveYahtzee(hv, unheld, randomTarget).needed
  {
  }

  /** The chance deal: all sixes. */
  lemma {:induction false} NeededForChance(hv: seq<int>, unheld: nat, randomTarget: int)
    requires AllFaces(hv) && |hv| + unheld == 5
    ensures NeededFor(hv, unheld, Chance, randomTarget) == Repeat(6, unheld)
  {
  }

  /**
   * The `neededValues` of `generateCheatDice` for the category named by
   * `key`. An unknown key takes the faces `random` (the `Math.random` draws
   * of the default branch).
   */
  function CheatNeeded(hv: seq<int>, unheld: nat, key: string, randomTarget: int, random: seq<int>): (r: seq<int>)
    requires AllFaces(hv) && |hv| + unheld == 5 && |random| >= unheld
    ensures IsFace(randomTarget) && AllFaces(random) ==> AllFaces(r)
  {
    SliceFaces(random, unheld);
    match ParseKey(key)
    case None => random[..unheld]
    case Some(c) => NeededFor(hv, unheld, c, randomTarget)
  }

  /** The cheat dice for a category's own key. */
  lemma {:induction false} CheatDiceFor(dice: seq<int>, held: seq<bool>, c: Category, randomTarget: int, random: seq<int>)
    requires |dice| == 5 && |held| == 5 && AllFaces(dice) && |random| >= NumUnheld(held)
    ensures CheatDice(dice, held, Key(c), randomTarget, random)
         == Merge(dice, held, Fill(NeededFor(GetHeldValues(dice, held), NumUnheld(held), c, randomTarget), NumUnheld(held)))
  {
    ParseKeyRoundTrip(c);
  }

  /** The dice `generateCheatDice` returns: the k-th unheld die gets `neededValues[k] || 6`. */
  function CheatDice(dice: seq<int>, held: seq<bool>, key: string, randomTarget: int, random: seq<int>): (r: seq<int>)
    requires |dice| == 5 && |held| == 5 && AllFaces(dice) && |random| >= NumUnheld(held)
    ensures |r| == 5 && forall i :: 0 <= i < 5 && held[i] ==> r[i] == dice[i]
    ensures IsFace(randomTarget) && AllFaces(random) ==> AllFaces(r)
  {
    var u := NumUnheld(held);
    var needed := CheatNeeded(GetHeldValues(dice, held), u, key, randomTarget, random);
    DealFaces(dice, held, needed);
    Merge(dice, held, Fill(needed, u))
  }

  /** Dealing values that are faces onto dice that are faces gives faces. */
  lemma {:induction false} DealFaces(dice: seq<int>, held: seq<bool>, needed: seq<int>)
    requires |dice| == |held| && AllFaces(dice)
    ensures AllFaces(needed) ==> AllFaces(Merge(dice, held, Fill(needed, NumUnheld(held))))
  {
    if AllFaces(needed) {
      FillFaces(needed, NumUnheld(held));
      MergeFaces(dice, held, Fill(needed, NumUnheld(held)));
    }
  }

  /** The `switch (targetCategory)` of `generateCheatDice`: the needed values for the category. */
  method ChooseNeeded(heldValues: seq<int>, u: nat, key: string, randomTarget: int, random: seq<int>)
    returns (neededValues: seq<int>)
    requires AllFaces(heldValues) && |heldValues| + u == 5 && |random| >= u
    ensures neededValues == CheatNeeded(heldValues, u, key, randomTarget, random)
  {
    var parsed := ParseKey(key);
    if parsed.None? {
      neededValues := random[..u];
    } else {
      var c := parsed.value;
      if c.IsUpper() {
        neededValues := Repeat(c.Face(), u);
      } else if c == ThreeOfAKind || c == FourOfAKind {
        var result := CanAchieveNOfAKind(heldValues, u, if c == ThreeOfAKind then 3 else 4);
        neededValues := if result.KindPossible? then result.needed else Repeat(6, u);
        assert NeededFor(heldValues, u, c, randomTarget) == KindDeal(heldValues, u, if c == ThreeOfAKind then 3 else 4);
      } else if c == FullHouse {
        var result := CanAchieveFullHouse(heldValues, u);
        neededValues := if result.HousePossible? then result.needed else [6, 6, 6, 5, 5][..u];
        assert NeededFor(heldValues, u, c, randomTarget) == HouseDeal(heldValues, u);
      } else if c == SmallStraight {
        var result := CanAchieveSmallStraight(heldValues, u);
        if result.StraightPossible? {
          neededValues := result.needed;
          while |neededValues| < u
            invariant |neededValues| <= u
            invariant neededValues == result.needed + Repeat(result.straight[0], |neededValues| - |result.needed|)
          {
            neededValues := neededValues + [result.straight[0]];
          }
        } else {
          neededValues := [1, 2, 3, 4][..Min(4, u)];
        }
        assert NeededFor(heldValues, u, c, randomTarget) == SmallDeal(heldValues, u);
      } else if c == LargeStraight {
        var result := CanAchieveLargeStraight(heldValues, u);
        neededValues := if result.StraightPossible? then result.needed else [1, 2, 3, 4, 5][..u];
        assert NeededFor(heldValues, u, c, randomTarget) == LargeDeal(heldValues, u);
      } else if c == Yahtzee {
        var result := CanAchieveYahtzee(heldValues, u, randomTarget);
        neededValues := if result.KindPossible? then result.needed else Repeat(6, u);
        assert NeededFor(heldValues, u, c, randomTarget) == YahtzeeDeal(heldValues, u, randomTarget);
      } else {
        neededValues := Repeat(6, u);
      }
    }
  }

  /**
   * The `unheldIndices.forEach((dieIndex, i) => newDice[dieIndex] = neededValues[i] || 6)`
   * step, on a copy of the dice.
   */
  method ApplyNeeded(dice: seq<int>, held: seq<bool>, neededValues: seq<int>) returns (newDice: seq<int>)
    requires |dice| == |held|
    ensures newDice == Merge(dice, held, Fill(neededValues, NumUnheld(held)))
  {
    var unheldIndices := GetUnheldIndices(held);
    var u := |unheldIndices|;
    ghost var fill := Fill(neededValues, u);
    var a := new int[|dice|](i requires 0 <= i < |dice| => dice[i]);
    UnheldIndicesSpec(held);
    for k := 0 to u
      invariant forall i :: 0 <= i < |dice| && (held[i] || NumUnheld(held[..i]) >= k) ==> a[i] == dice[i]
      invariant forall i :: 0 <= i < |dice| && !held[i] && NumUnheld(held[..i]) < k ==>
        a[i] == fill[NumUnheld(held[..i])]
    {
      var dieIndex := unheldIndices[k];
      assert !held[dieIndex] && NumUnheld(held[..dieIndex]) == k;
      a[dieIndex] := if k < |neededValues| && neededValues[k] != 0 then neededValues[k] else 6;
      forall i | 0 <= i < |dice| && !held[i] && NumUnheld(held[..i]) == k ensures i == dieIndex {
        assert unheldIndices[NumUnheld(held[..i])] == i;
      }
    }
    newDice := a[..];
    forall i | 0 <= i < |dice| && !held[i] ensures NumUnheld(held[..i]) < u {
      NumUnheldBefore(held, i);
    }
  }

  /**
   * `generateCheatDice(dice, heldDice, targetCategory)`: choose the needed
   * values for the category, then write them over the unheld positions.
   */
  method GenerateCheatDice(dice: seq<int>, held: seq<bool>, key: string, randomTarget: int, random: seq<int>)
    returns (newDice: seq<int>)
    requires |dice| == 5 && |held| == 5 && AllFaces(dice) && |random| >= NumUnheld(held)
    ensures newDice == CheatDice(dice, held, key, randomTarget, random)
    ensures |newDice| == 5 && forall i :: 0 <= i < 5 && held[i] ==> newDice[i] == dice[i]
    ensures IsFace(randomTarget) && AllFaces(random) ==> AllFaces(newDice)
  {
    var heldValues := GetHeldValues(dice, held);
    var neededValues := ChooseNeeded(heldValues, NumUnheld(held), key, randomTarget, random);
    newDice := ApplyNeeded(dice, held, neededValues);
  }

  // ------------------------------------------------- what the cheat delivers

  /** Dice and fill values that are faces merge into faces. */
  lemma {:induction false} MergeFaces(dice: seq<int>, held: seq<bool>, fill: seq<int>)
    requires |dice| == |held| && |fill| >= NumUnheld(held) && AllFaces(dice) && AllFaces(fill)
    ensures AllFaces(Merge(dice, held, fill))
  {
    var r := Merge(dice, held, fill);
    forall i | 0 <= i < |dice| ensures IsFace(r[i]) {
      if !held[i] {
        NumUnheldBefore(held, i);
      }
    }
  }

  /** A merged hand scores what the held values followed by the fill values score. */
  lemma {:induction false} MergeScore(dice: seq<int>, held: seq<bool>, fill: seq<int>, c: Category)
    requires |dice| == |held| && |fill| == NumUnheld(held) && AllFaces(dice) && AllFaces(fill)
    ensures AllFaces(Merge(dice, held, fill))
    ensures Score(Merge(dice, held, fill), c) == Score(GetHeldValues(dice, held) + fill, c)
  {
    var hv := GetHeldValues(dice, held);
    MergeFaces(dice, held, fill);
    MergeMultiset(dice, held, fill);
    assert fill[..NumUnheld(held)] == fill;
    AllFacesAppend(hv, fill);
    ScoreIsOrderFree(Merge(dice, held, fill), hv + fill, c);
  }

  /** The k-th unheld die of a merged hand shows `fill[k]`. */
  lemma {:induction false} MergeUnheld(dice: seq<int>, held: seq<bool>, fill: seq<int>, i: int)
    requires |dice| == |held| && |fill| >= NumUnheld(held) && 0 <= i < |dice| && !held[i]
    ensures NumUnheld(held[..i]) < NumUnheld(held) && Merge(dice, held, fill)[i] == fill[NumUnheld(held[..i])]
  {
    NumUnheldBefore(held, i);
  }

  /** Filling every unheld die with `v` shows `v` at each unheld position. */
  lemma {:induction false} MergeRepeat(dice: seq<int>, held: seq<bool>, v: int)
    requires |dice| == |held|
    ensures forall i :: 0 <= i < |dice| && !held[i] ==> Merge(dice, held, Repeat(v, NumUnheld(held)))[i] == v
  {
    forall i | 0 <= i < |dice| && !held[i] ensures Merge(dice, held, Repeat(v, NumUnheld(held)))[i] == v {
      MergeUnheld(dice, held, Repeat(v, NumUnheld(held)), i);
    }
  }

  /** A plan of faces of the right length is dealt as it is. */
  lemma {:induction false} FillFacesExact(needed: seq<int>, m: nat)
    requires |needed| == m && AllFaces(needed)
    ensures Fill(needed, m) == needed
  {
    FillExact(needed, m);
  }

  /**
   * An upper category: every unheld die shows the category's face, so the
   * category scores the face times the held dice of that face plus all the
   * unheld dice; no other fill of the unheld dice scores more.
   */
  lemma {:induction false} CheatUpper(dice: seq<int>, held: seq<bool>, c: Category, randomTarget: int, random: seq<int>, other: seq<int>)
    requires |dice| == 5 && |held| == 5 && AllFaces(dice) && |random| >= NumUnheld(held) && c.IsUpper()
    requires |other| == NumUnheld(held) && AllFaces(other)
    ensures var d := CheatDice(dice, held, Key(c), randomTarget, random);
      AllFaces(d)
      && (forall i :: 0 <= i < 5 && !held[i] ==> d[i] == c.Face())
      && Score(d, c) == c.Face() * (Count(GetHeldValues(dice, held), c.Face()) + NumUnheld(held))
      && AllFaces(Merge(dice, held, other)) && Score(Merge(dice, held, other), c) <= Score(d, c)
  {
    CheatDiceFor(dice, held, c, randomTarget, random);
    var u := NumUnheld(held);
    var f := c.Face();
    var needed := Repeat(f, u);
    FillFacesExact(needed, u);
    var d := Merge(dice, held, needed);
    MergeFaces(dice, held, needed);
    MergeRepeat(dice, held, f);
    MergeCount(dice, held, needed, f);
    CountRepeat(f, u, f);
    MergeFaces(dice, held, other);
    MergeCount(dice, held, other, f);
    CountBound(other);
  }

  /** Three or four of a kind, when offered: the cheat dice have it, so the category scores the sum of all dice. */
  lemma {:induction false} CheatKind(dice: seq<int>, held: seq<bool>, c: Category, randomTarget: int, random: seq<int>)
    requires |dice| == 5 && |held| == 5 && AllFaces(dice) && |random| >= NumUnheld(held)
    requires c == ThreeOfAKind || c == FourOfAKind
    requires Achievable(GetHeldValues(dice, held), NumUnheld(held), c)
    ensures var d := CheatDice(dice, held, Key(c), randomTarget, random);
      AllFaces(d) && Score(d, c) == TotalSum(d)
  {
    CheatDiceFor(dice, held, c, randomTarget, random);
    var hv, u := GetHeldValues(dice, held), NumUnheld(held);
    var n := if c == ThreeOfAKind then 3 else 4;
    var p := NOfAKindPlan(hv, u, n);
    NOfAKindSound(hv, u, n);
    FillFacesExact(p.needed, u);
    MergeScore(dice, held, p.needed, c);
    MergeScore(dice, held, p.needed, Chance);
    AllFacesAppend(hv, p.needed);
    NOfAKindScore(hv + p.needed);
  }

  /** Full house, when offered: the cheat dice score 25. */
  lemma {:induction false} CheatFullHouse(dice: seq<int>, held: seq<bool>, randomTarget: int, random: seq<int>)
    requires |dice| == 5 && |held| == 5 && AllFaces(dice) && |random| >= NumUnheld(held)
    requires Achievable(GetHeldValues(dice, held), NumUnheld(held), FullHouse)
    ensures var d := CheatDice(dice, held, Key(FullHouse), randomTarget, random);
      AllFaces(d) && Score(d, FullHouse) == 25
  {
    CheatDiceFor(dice, held, FullHouse, randomTarget, random);
    var hv, u := GetHeldValues(dice, held), NumUnheld(held);
    var p := CanAchieveFullHouse(hv, u);
    NeededForHouse(hv, u, randomTarget);
    FullHouseSound(hv, u);
    FillFacesExact(p.needed, u);
    MergeScore(dice, held, p.needed, FullHouse);
  }

  /** Small straight, when offered: the cheat dice score 30. */
  lemma {:induction false} CheatSmallStraight(dice: seq<int>, held: seq<bool>, randomTarget: int, random: seq<int>)
    requires |dice| == 5 && |held| == 5 && AllFaces(dice) && |random| >= NumUnheld(held)
    requires Achievable(GetHeldValues(dice, held), NumUnheld(held), SmallStraight)
    ensures var d := CheatDice(dice, held, Key(SmallStraight), randomTarget, random);
      AllFaces(d) && Score(d, SmallStraight) == 30
  {
    CheatDiceFor(dice, held, SmallStraight, randomTarget, random);
    var hv, u := GetHeldValues(dice, held), NumUnheld(held);
    var p := CanAchieveSmallStraight(hv, u);
    NeededForSmall(hv, u, randomTarget);
    SmallStraightSound(hv, u);
    MergeScore(dice, held, Fill(Pad(p.needed, u, p.straight[0]), u), SmallStraight);
  }

  /** Large straight, when offered: the cheat dice score 40. */
  lemma {:induction false} CheatLargeStraight(dice: seq<int>, held: seq<bool>, randomTarget: int, random: seq<int>)
    requires |dice| == 5 && |held| == 5 && AllFaces(dice) && |random| >= NumUnheld(held)
    requires Achievable(GetHeldValues(dice, held), NumUnheld(held), LargeStraight)
    ensures var d := CheatDice(dice, held, Key(LargeStraight), randomTarget, random);
      AllFaces(d) && Score(d, LargeStraight) == 40
  {
    CheatDiceFor(dice, held, LargeStraight, randomTarget, random);
    var hv, u := GetHeldValues(dice, held), NumUnheld(held);
    var p := CanAchieveLargeStraight(hv, u);
    NeededForLarge(hv, u, randomTarget);
    LargeStraightSound(hv, u);
    MergeScore(dice, held, Fill(p.needed, u), LargeStraight);
  }

  /** Yahtzee, when offered: the cheat dice score 50. */
  lemma {:induction false} CheatYahtzee(dice: seq<int>, held: seq<bool>, randomTarget: int, random: seq<int>)
    requires |dice| == 5 && |held| == 5 && AllFaces(dice) && |random| >= NumUnheld(held) && IsFace(randomTarget)
    requires Achievable(GetHeldValues(dice, held), NumUnheld(held), Yahtzee)
    ensures var d := CheatDice(dice, held, Key(Yahtzee), randomTarget, random);
      AllFaces(d) && Score(d, Yahtzee) == 50
  {
    CheatDiceFor(dice, held, Yahtzee, randomTarget, random);
    var hv, u := GetHeldValues(dice, held), NumUnheld(held);
    var p := CanAchieveYahtzee(hv, u, randomTarget);
    NeededForYahtzee(hv, u, randomTarget);
    YahtzeeSound(hv, u, randomTarget);
    FillFacesExact(p.needed, u);
    MergeScore(dice, held, p.needed, Yahtzee);
  }

  /** The sum of two hands is the sum of their sums. */
  lemma {:induction false} TotalSumAppend(a: seq<int>, b: seq<int>)
    requires AllFaces(a) && AllFaces(b)
    ensures TotalSum(a + b) == TotalSum(a) + TotalSum(b)
  {
    AllFacesAppend(a, b);
    TotalSumByCounts(a);
    TotalSumByCounts(b);
    TotalSumByCounts(a + b);
  }

  /** Chance: every unheld die shows 6, and no other fill of the unheld dice scores more. */
  lemma {:induction false} CheatChance(dice: seq<int>, held: seq<bool>, randomTarget: int, random: seq<int>, other: seq<int>)
    requires |dice| == 5 && |held| == 5 && AllFaces(dice) && |random| >= NumUnheld(held)
    requires |other| == NumUnheld(held) && AllFaces(other)
    ensures var d := CheatDice(dice, held, Key(Chance), randomTarget, random);
      AllFaces(d)
      && (forall i :: 0 <= i < 5 && !held[i] ==> d[i] == 6)
      && AllFaces(Merge(dice, held, other)) && Score(Merge(dice, held, other), Chance) <= Score(d, Chance)
  {
    CheatDiceFor(dice, held, Chance, randomTarget, random);
    var hv, u := GetHeldValues(dice, held), NumUnheld(held);
    var sixes := Repeat(6, u);
    NeededForChance(hv, u, randomTarget);
    FillFacesExact(sixes, u);
    var d := Merge(dice, held, sixes);
    MergeRepeat(dice, held, 6);
    MergeScore(dice, held, sixes, Chance);
    MergeScore(dice, held, other, Chance);
    TotalSumAppend(hv, sixes);
    TotalSumAppend(hv, other);
    TotalSumSixes(u);
  }

  lemma {:induction false} TotalSumSixes(n: nat)
    ensures TotalSum(Repeat(6, n)) == 6 * n
  {
    if n > 0 {
      assert Repeat(6, n)[1..] == Repeat(6, n - 1);
      TotalSumSixes(n - 1);
    }
  }

  /** An unknown category key: the unheld dice show the random draws, in order. */
  lemma {:induction false} CheatUnknownKey(dice: seq<int>, held: seq<bool>, key: string, randomTarget: int, random: seq<int>)
    requires |dice| == 5 && |held| == 5 && AllFaces(dice) && |random| >= NumUnheld(held) && AllFaces(random)
    requires ParseKey(key).None?
    ensures var d := CheatDice(dice, held, key, randomTarget, random);
      AllFaces(d) && forall i :: 0 <= i < 5 && !held[i] ==>
        NumUnheld(held[..i]) < NumUnheld(held) && d[i] == random[NumUnheld(held[..i])]
  {
    var u := NumUnheld(held);
    var draws := random[..u];
    FillFacesExact(draws, u);
    MergeFaces(dice, held, draws);
    forall i | 0 <= i < 5 && !held[i]
      ensures NumUnheld(held[..i]) < u && Merge(dice, held, draws)[i] == random[NumUnheld(held[..i])]
    {
      MergeUnheld(dice, held, draws, i);
    }
  }

  /**
   * Four equal dice held with one die left to roll: the full-house check
   * reports it impossible, although rolling the fifth equal die gives five of
   * a kind, which the scoring counts as a full house.
   */
  lemma {:induction false} FourHeldMissesFullHouse(hv: seq<int>)
    requires |hv| == 4 && AllFaces(hv) && AllSame(hv)
    ensures CanAchieveFullHouse(hv, 1).HouseImpossible?
    ensures AllFaces(hv + [hv[0]]) && Score(hv + [hv[0]], FullHouse) == 25
  {
    FourSameMaxCount(hv);
    FullHousePossibleIff(hv, 1);
    FifthSameIsFullHouse(hv);
  }

  /** Four equal dice and a fifth equal die: a full house. */
  lemma {:induction false} FifthSameIsFullHouse(hv: seq<int>)
    requires |hv| == 4 && AllFaces(hv) && AllSame(hv)
    ensures AllFaces(hv + [hv[0]]) && Score(hv + [hv[0]], FullHouse) == 25
  {
    var five := hv + [hv[0]];
    assert AllSame(five);
    FiveOfAKindIsFullHouse(five);
  }

  lemma {:induction false} FourSameMaxCount(hv: seq<int>)
    requires |hv| == 4 && AllFaces(hv) && AllSame(hv)
    ensures MaxCount(hv) == 4
  {
    CountAll(hv, hv[0]);
    assert Count(hv, hv[0]) == 4;
    CountBound(hv);
  }

  // ---------------------------------------------------------------- cheat mode

  /** `toLowerCase` of one character, for ASCII letters. */
  function LowerChar(ch: char): char
  {
    if 'A' <= ch <= 'Z' then (ch as int - 'A' as int + 'a' as int) as char else ch
  }

  /** `toLowerCase` of a string, for ASCII letters. */
  function Lower(s: string): (r: string)
    ensures |r| == |s| && forall i :: 0 <= i < |s| ==> r[i] == LowerChar(s[i])
  {
    if s == [] then [] else [LowerChar(s[0])] + Lower(s[1..])
  }

  /** `isCheatEnabled(playerName)`: a present, non-empty name whose lower-cased form contains "sander". */
  function IsCheatEnabled(playerName: Option<string>): (r: bool)
    ensures playerName.None? ==> !r
    ensures r ==> |playerName.value| >= 6
  {
    if playerName.None? || playerName.value == "" then false
    else IsInfix("sander", Lower(playerName.value))
  }

  /** Lower-casing a lower-cased string changes nothing. */
  lemma {:induction false} LowerIdempotent(s: string)
    ensures Lower(Lower(s)) == Lower(s)
  {
    var l := Lower(s);
    assert forall i :: 0 <= i < |s| ==> LowerChar(l[i]) == l[i];
  }

  /** Lower-casing distributes over concatenation. */
  lemma {:induction false} LowerAppend(a: string, b: string)
    ensures Lower(a + b) == Lower(a) + Lower(b)
  {
    var l, r := Lower(a + b), Lower(a) + Lower(b);
    forall i | 0 <= i < |a + b| ensures l[i] == r[i] {
      if i < |a| {
        assert (a + b)[i] == a[i];
      } else {
        assert (a + b)[i] == b[i - |a|];
      }
    }
  }

  /** The check ignores letter case: a name and its lower-cased form agree. */
  lemma {:induction false} CheatNameIgnoresCase(s: string)
    ensures IsCheatEnabled(Some(Lower(s))) == IsCheatEnabled(Some(s))
  {
    LowerIdempotent(s);
  }

  /** Any name with "sander", in any letter case, anywhere in it enables cheat mode. */
  lemma {:induction false} CheatNameContains(a: string, t: string, b: string)
    requires Lower(t) == "sander"
    ensures IsCheatEnabled(Some(a + t + b))
  {
    LowerAppend(a + t, b);
    LowerAppend(a, t);
    var l := Lower(a + t + b);
    assert l == Lower(a) + "sander" + Lower(b);
    assert InfixAt("sander", l, |a|);
  }

  /** Lower-casing a slice is slicing the lower-cased string. */
  lemma {:induction false} LowerSlice(s: string, i: int, j: int)
    requires 0 <= i <= j <= |s|
    ensures Lower(s[i..j]) == Lower(s)[i..j]
  {
  }

  /** The six characters of the name from position i lower-case to "sander". */
  predicate SanderAt(s: string, i: int)
  {
    0 <= i && i + 6 <= |s| && Lower(s[i..i + 6]) == "sander"
  }

  /**
   * Cheat mode is on exactly when six consecutive characters of the name
   * lower-case to "sander" (CheatNameContains, read with `a`, `t`, `b` the
   * parts before, at and after them, is the if direction).
   */
  lemma {:induction false} CheatNameIff(s: string)
    ensures IsCheatEnabled(Some(s)) <==> exists i :: SanderAt(s, i)
  {
    if IsCheatEnabled(Some(s)) {
      var l := Lower(s);
      var i :| 0 <= i <= |l| - 6 && InfixAt("sander", l, i);
      LowerSlice(s, i, i + 6);
      assert SanderAt(s, i);
    }
    if exists i :: SanderAt(s, i) {
      var i :| SanderAt(s, i);
      assert s == s[..i] + s[i..i + 6] + s[i + 6..];
      CheatNameContains(s[..i], s[i..i + 6], s[i + 6..]);
    }
  }

  /** A name of at most five characters never enables cheat mode. */
  lemma {:induction false} ShortNameNoCheat(s: string)
    requires |s| < 6
    ensures !IsCheatEnabled(Some(s))
  {
  }
}
