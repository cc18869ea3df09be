# Yahtzee server core in Dafny

This project models the rules engine of a multiplayer Yahtzee server:

- `Logic` (`logic.dfy`): dice, the thirteen scorecard categories and their scores, the upper bonus, totals, the end of the game, the winner and the Yahtzee bonus. Taken from `src/lib/server/yahtzee/logic.js`.
- `Cheat` (`cheat.dfy`): the server's "cheat mode". A player whose name contains `sander` is offered the categories still reachable with the held dice. The unheld dice of the next roll are then chosen to score the requested category. Taken from `src/lib/server/yahtzee/cheat.js`.
- `Handlers` (`handlers.dfy`): a game room as a class. Its methods are the room transitions create, join, start, roll, toggle hold, score, leave and kick. Taken from `src/lib/server/yahtzee/handlers.js`, with the storage rules of `src/lib/server/db.js`.
- `ClientScoring` (`client_scoring.dfy`): the browser's score preview and totals, from `src/lib/utils/scoring.js`.
- `ClientCheat` (`client_cheat.dfy`): the browser's copy of the cheat-mode checks, from `src/lib/cheat-client.js`.

Modelling choices:

- Dice are `seq<int>` whose values are faces 1..6.
- A scorecard is a map from category to `Option<nat>`, plus the Yahtzee bonus.
  - A key that is absent models a JSON property that is missing (`undefined`).
  - `None` models `null`.
  - The source treats these two differently: `isGameOver` tests `!== null`, while the cheat code tests `=== null || === undefined`.
- Randomness is an input, never computed:
  - `Logic.RollDice` states only that each unheld die ends up showing some face.
  - Cheat mode receives the random Yahtzee target face and the random values for an unknown category as parameters.

What is proved:

- Each scoring rule matches its Yahtzee meaning: counts, three of a kind, full house, both straights, Yahtzee.
- A score does not depend on the order of the dice.
- Every category cheat mode offers can really be reached. The dice it then generates score that category: 25, 30, 40 or 50 for full house, the straights and Yahtzee; the sum of the dice for three or four of a kind, which is not always the best sum the unheld dice could give; and the best value the unheld dice could give for the upper categories and chance.
- The client and server checks agree, except in one case: a full house with all five dice held and all showing the same face.
- Turns pass round-robin.
- Every room transition keeps the room invariant. Each one changes exactly what the handler changes; a refused request changes nothing.

Where the source text and its written description differ, the model follows the code:

- `start-game` does not check that the room is still waiting.
- Kicking a seated player does not adjust `currentPlayerIndex`.

## Model

| member | source | states |
|---|---|---|
| Logic.Index | src/lib/server/yahtzee/logic.js:16-36 | every category has a position in the thirteen-slot scorecard order, and that position holds it |
| Logic.ParseKey | src/lib/server/yahtzee/logic.js:81-117 | a string is recognised as a category exactly when it is that category's scorecard key; any other string names no category |
| Logic.ParseKeyRoundTrip | src/lib/server/yahtzee/logic.js:16-36 | parsing a category's key gives back that category |
| Logic.GetCounts | src/lib/server/yahtzee/logic.js:45-49 | the loop yields six counters, the v-th being the number of dice showing v |
| Logic.SumOfNumber | src/lib/server/yahtzee/logic.js:51-53 | the sum of the dice showing `num` is `num` times how many show it |
| Logic.TotalSum | src/lib/server/yahtzee/logic.js:55-57 | the total of n faces lies between n and 6n |
| Logic.Score | src/lib/server/yahtzee/logic.js:81-112 | an upper category scores its face times the number of dice showing it; five dice never score above 50 |
| Logic.CalculateScore | src/lib/server/yahtzee/logic.js:81-117 | an unknown category string scores 0; five dice score at most 50 |
| Logic.NOfAKindScore | src/lib/server/yahtzee/logic.js:59-61 | three (four) of a kind scores the dice total exactly when some face shows at least three (four) times, else 0 |
| Logic.YahtzeeScore | src/lib/server/yahtzee/logic.js:108-110 | five dice score 50 as Yahtzee exactly when all show the same face |
| Logic.FullHouseScore | src/lib/server/yahtzee/logic.js:63-67 | full house scores 25 exactly when one face shows three times and another twice, or one face shows five times |
| Logic.ThreeAndTwoIsFullHouse | src/lib/server/yahtzee/logic.js:99-101 | three of one face and two of another score 25 as full house |
| Logic.FiveOfAKindIsFullHouse | src/lib/server/yahtzee/logic.js:63-67 | five equal dice score both 25 as full house and 50 as Yahtzee |
| Logic.FiveOfOneIsFullHouse | src/lib/server/yahtzee/logic.js:63-67 | any dice with one face five times score 25 as full house |
| Logic.SortedUniqueSpec | src/lib/server/yahtzee/logic.js:69-73 | the sorted de-duplicated dice are strictly increasing and hold exactly the faces shown |
| Logic.SmallStraightScore | src/lib/server/yahtzee/logic.js:69-73 | small straight scores 30 exactly when 1-2-3-4, 2-3-4-5 or 3-4-5-6 all appear, else 0 |
| Logic.LargeStraightFaces | src/lib/server/yahtzee/logic.js:75-79 | the distinct faces are 1..5 or 2..6 exactly when 1-2-3-4 and 5 appear without 6, or 3-4-5-6 and 2 appear without 1 |
| Logic.LargeStraightScore | src/lib/server/yahtzee/logic.js:105-107 | large straight scores 40 exactly on the faces 1..5 or 2..6, else 0 |
| Logic.LargeStraightIsSmallStraight | src/lib/server/yahtzee/logic.js:102-107 | dice scoring a large straight also score a small straight |
| Logic.TotalSumByCounts | src/lib/server/yahtzee/logic.js:55-57 | the dice total is the sum over faces of face times count |
| Logic.ScoreIsOrderFree | src/lib/server/yahtzee/logic.js:81-117 | two throws holding the same multiset of faces score the same in every category |
| Logic.CountRepeat | src/lib/server/yahtzee/cheat.js:114-122 | n copies of v contain v n times and no other value |
| Logic.CreateEmptyScorecard | src/lib/server/yahtzee/logic.js:16-36 | a new scorecard has all thirteen slots present and null, and no bonus |
| Logic.CategoriesComplete | src/lib/server/yahtzee/logic.js:16-36 | the category list names every category |
| Logic.SumSlotsAll | src/lib/server/yahtzee/logic.js:125-137 | summing the slots over the whole category list gives upper plus lower sum |
| Logic.CalculateUpperBonus | src/lib/server/yahtzee/logic.js:119-123 | the bonus is 35 when the six upper slots reach 63, else 0 |
| Logic.CalculateTotalScore | src/lib/server/yahtzee/logic.js:125-137 | the total is upper sum, lower sum, upper bonus and Yahtzee bonus |
| Logic.EmptyScorecardTotal | src/lib/server/yahtzee/logic.js:16-36 | a new scorecard totals 0 and is not complete |
| Logic.IsGameOver | src/lib/server/yahtzee/logic.js:139-152 | no players means the game is over; the game is over exactly when no card has a null slot |
| Logic.DetermineWinner | src/lib/server/yahtzee/logic.js:154-170 | no players gives no winner and score -1; otherwise the winner has the highest total, ties going to the earliest player |
| Logic.SetOfSame | src/lib/server/yahtzee/logic.js:173-175 | the set of the dice has one element exactly when there is at least one die and all are equal |
| Logic.IsYahtzee | src/lib/server/yahtzee/logic.js:173-175 | a Yahtzee is a non-empty throw of equal dice |
| Logic.CanScoreYahtzeeBonus | src/lib/server/yahtzee/logic.js:178-182 | the bonus applies exactly when the Yahtzee slot holds 50 and the throw is a Yahtzee |
| Logic.YahtzeeBonusThrowScores50 | src/lib/server/yahtzee/logic.js:178-182 | a throw earning the bonus would itself score 50 as Yahtzee |
| Logic.CreateInitialGameState | src/lib/server/yahtzee/logic.js:3-14 | five dice showing 1, none held, three rolls, turn 1, first player, not rolling, no winner |
| Logic.RollDice | src/lib/server/yahtzee/logic.js:38-42 | held dice keep their value, every unheld die shows a face |
| Cheat.NumUnheldBound | src/lib/server/yahtzee/cheat.js:19-21 | there are never more unheld dice than dice |
| Cheat.GetHeldValues | src/lib/server/yahtzee/cheat.js:10-12 | the held values are the held dice in order; held plus unheld is all dice |
| Cheat.GetUnheldIndices | src/lib/server/yahtzee/cheat.js:19-21 | one index per unheld die |
| Cheat.UnheldIndicesSpec | src/lib/server/yahtzee/cheat.js:19-21 | the k-th index is the k-th unheld position, and every unheld position is listed |
| Cheat.MergeMultiset | src/lib/server/yahtzee/cheat.js:366-369 | the new dice are the held values together with the filled values |
| Cheat.Entries | src/lib/server/yahtzee/cheat.js:139-147 | the value/count entries list each held face once, ascending, with its count |
| Cheat.BestHeldFace | src/lib/server/yahtzee/cheat.js:104-112 | the scan finds the most frequent held face, the smallest on a tie, with its count |
| Cheat.CanAchieveNOfAKind | src/lib/server/yahtzee/cheat.js:96-131 | the method returns the plan: most frequent face, missing copies of it, the rest 6 |
| Cheat.NOfAKindPossibleIff | src/lib/server/yahtzee/cheat.js:96-131 | n of a kind is offered exactly when some face's held count plus the unheld dice reaches n |
| Cheat.NOfAKindSound | src/lib/server/yahtzee/cheat.js:114-130 | the plan fills every unheld die with a face and the result has n of the target |
| Cheat.HouseFromEntries | src/lib/server/yahtzee/cheat.js:142-193 | over entries that fill a five-dice hand: possible with no entry, one entry not four strong, or two entries each at most three |
| Cheat.FullHousePossibleIff | src/lib/server/yahtzee/cheat.js:136-193 | a full house is offered exactly when at most two faces are held and none more than three times, or five equal dice are held |
| Cheat.FullHouseSound | src/lib/server/yahtzee/cheat.js:136-193 | when offered, the needed values fill the unheld dice and the result scores 25 |
| Cheat.FourHeldMissesFullHouse | src/lib/server/yahtzee/cheat.js:162-165 | four equal held dice are refused a full house, although rolling the fifth equal would score 25 |
| Cheat.FirstWindowSpec | src/lib/server/yahtzee/cheat.js:27-70 | a straight is possible exactly when some window fits; the plan is the first window that fits, needing its missing faces |
| Cheat.CanAchieveLargeStraight | src/lib/server/yahtzee/cheat.js:27-44 | a plan names a large window and its missing faces, no more than the unheld dice |
| Cheat.CanAchieveSmallStraight | src/lib/server/yahtzee/cheat.js:50-70 | a plan names a small window and its missing faces, no more than the unheld dice |
| Cheat.LargeStraightSound | src/lib/server/yahtzee/cheat.js:27-44 | when offered, filling the unheld dice scores 40 |
| Cheat.SmallStraightSound | src/lib/server/yahtzee/cheat.js:50-70 | when offered, filling the unheld dice, padded with the window's first face, scores 30 |
| Cheat.CanAchieveYahtzee | src/lib/server/yahtzee/cheat.js:75-91 | Yahtzee is offered exactly when the held dice are all equal |
| Cheat.YahtzeeSound | src/lib/server/yahtzee/cheat.js:75-91 | when offered, the filled dice score 50 |
| Cheat.Wanted | src/lib/server/yahtzee/cheat.js:202-268 | the menu's target set holds a category exactly when it is unscored (null or undefined) and can be reached |
| Cheat.OfferedListed | src/lib/server/yahtzee/cheat.js:202-268 | after the first k positions, the list holds exactly the wanted categories among them, in scorecard order |
| Cheat.UpperAt | src/lib/server/yahtzee/cheat.js:219-229 | an upper category is wanted exactly when unscored and three of its face are within reach of the held and unheld dice |
| Cheat.OfferUpper | src/lib/server/yahtzee/cheat.js:219-229 | one upper-section step extends the list by that category exactly when it is unscored and three of its face can be shown |
| Cheat.OfferedAll | src/lib/server/yahtzee/cheat.js:202-268 | the offered list holds exactly the unscored categories that can be reached, in scorecard order |
| Cheat.LowerCheck | src/lib/server/yahtzee/cheat.js:232-265 | one lower-section check answers whether that category can be reached |
| Cheat.OfferLower | src/lib/server/yahtzee/cheat.js:232-265 | one lower-section step extends the offered list by that category when it is unscored and reachable |
| Cheat.GetAchievableCategories | src/lib/server/yahtzee/cheat.js:202-268 | a category is listed exactly when it is unscored and reachable with the held dice; the list is in scorecard order |
| Cheat.Merge | src/lib/server/yahtzee/cheat.js:365-369 | the new dice are as many as the old, and every held die keeps its value |
| Cheat.Fill | src/lib/server/yahtzee/cheat.js:366-369 | the k-th unheld die gets the k-th needed value, or 6 when that value is missing |
| Cheat.ChooseNeeded | src/lib/server/yahtzee/cheat.js:280-363 | the method picks the needed values that the category's plan prescribes |
| Cheat.ApplyNeeded | src/lib/server/yahtzee/cheat.js:365-370 | held dice stay, unheld dice take the needed values in order |
| Cheat.NeededFor | src/lib/server/yahtzee/cheat.js:285-359 | for every recognised category the values dealt are faces, whether or not the category can be reached |
| Cheat.KindDeal | src/lib/server/yahtzee/cheat.js:304-314 | three or four of a kind: the plan, or all sixes, is faces |
| Cheat.HouseDeal | src/lib/server/yahtzee/cheat.js:316-320 | full house: the plan, or `[6, 6, 6, 5, 5]` cut to the unheld dice, is faces |
| Cheat.SmallDeal | src/lib/server/yahtzee/cheat.js:322-334 | small straight: the padded plan, or `[1, 2, 3, 4]` cut to the unheld dice, is faces |
| Cheat.LargeDeal | src/lib/server/yahtzee/cheat.js:336-344 | large straight: the plan, or `[1, 2, 3, 4, 5]` cut to the unheld dice, is faces |
| Cheat.YahtzeeDeal | src/lib/server/yahtzee/cheat.js:346-354 | Yahtzee: the plan, or all sixes, is faces when the drawn target is a face |
| Cheat.NeededForHouse | src/lib/server/yahtzee/cheat.js:316-320 | an offered full house deals exactly the plan's values |
| Cheat.CheatNeeded | src/lib/server/yahtzee/cheat.js:280-363 | the needed values are faces for every key when the drawn target and the random draws are faces |
| Cheat.CheatDice | src/lib/server/yahtzee/cheat.js:277-372 | five dice, every held die keeps its value, and all are faces when the drawn target and the random draws are faces |
| Cheat.GenerateCheatDice | src/lib/server/yahtzee/cheat.js:277-372 | the method produces the cheat dice of the category; five dice, every held die keeps its value, and every die is a face for every key, reachable or not, when the random draws are faces |
| Cheat.CheatUpper | src/lib/server/yahtzee/cheat.js:285-302 | for an upper category every unheld die shows its face; the score is face times (held count plus unheld) and no other fill scores more |
| Cheat.CheatKind | src/lib/server/yahtzee/cheat.js:304-314 | an offered three or four of a kind is thrown: the dice score their total |
| Cheat.CheatFullHouse | src/lib/server/yahtzee/cheat.js:316-320 | an offered full house is thrown: 25 |
| Cheat.CheatSmallStraight | src/lib/server/yahtzee/cheat.js:322-334 | an offered small straight is thrown: 30 |
| Cheat.CheatLargeStraight | src/lib/server/yahtzee/cheat.js:336-344 | an offered large straight is thrown: 40 |
| Cheat.CheatYahtzee | src/lib/server/yahtzee/cheat.js:346-354 | an offered Yahtzee is thrown: 50 |
| Cheat.CheatChance | src/lib/server/yahtzee/cheat.js:356-359 | for chance every unheld die shows 6 and no other fill scores more |
| Cheat.CheatUnknownKey | src/lib/server/yahtzee/cheat.js:361-363 | for an unknown category the unheld dice take the random values in order |
| Cheat.Lower | src/lib/server/yahtzee/cheat.js:379 | lower-casing maps each character by itself |
| Cheat.LowerIdempotent | src/lib/server/yahtzee/cheat.js:379 | lower-casing twice is lower-casing once |
| Cheat.IsCheatEnabled | src/lib/server/yahtzee/cheat.js:377-381 | a missing name never enables cheating; an enabling name has at least six characters |
| Cheat.CheatNameIff | src/lib/server/yahtzee/cheat.js:377-381 | a name enables cheating exactly when six consecutive characters of it lower-case to `sander` |
| Cheat.CheatNameIgnoresCase | src/lib/server/yahtzee/cheat.js:377-381 | a name and its lower-case form are treated alike |
| Cheat.CheatNameContains | src/lib/server/yahtzee/cheat.js:377-381 | any name containing `sander` in any letter case enables cheating |
| Cheat.ShortNameNoCheat | src/lib/server/yahtzee/cheat.js:377-381 | names shorter than six characters never enable cheating |
| ClientScoring.CalculateScore | src/lib/utils/scoring.js:39-61 | no dice, or a count other than five, previews 0; an unknown category previews 0 |
| ClientScoring.PreviewMatchesServer | src/lib/utils/scoring.js:39-61 | on five dice the preview equals the score the server records |
| ClientScoring.PreviewOfCategory | src/lib/utils/scoring.js:39-61 | the preview of a category's key is that category's score |
| ClientScoring.CalculateUpperTotal | src/lib/utils/scoring.js:69-72 | the six upper slots summed, null as 0 |
| ClientScoring.CalculateUpperBonus | src/lib/utils/scoring.js:63-67 | 35 exactly when the upper total reaches 63, 0 exactly when it does not |
| ClientScoring.CalculateLowerTotal | src/lib/utils/scoring.js:74-80 | the seven lower slots summed, null as 0, plus the Yahtzee bonus |
| ClientScoring.UpperBonusMatchesServer | src/lib/utils/scoring.js:63-67 | the client's upper bonus is the server's |
| ClientScoring.CalculateTotalScore | src/lib/utils/scoring.js:82-84 | the client's total, upper plus bonus plus lower, is the server's total for every scorecard |
| ClientScoring.TotalWithBonus | src/lib/utils/scoring.js:82-84 | the total is upper plus lower, plus 35 exactly when the upper total reaches 63 |
| ClientScoring.CategoriesMatchServer | src/lib/utils/scoring.js:86-104 | the displayed keys are the six upper then seven lower categories, in scorecard order |
| ClientCheat.AnyWindowFits | src/lib/cheat-client.js:23-61 | true exactly when some window fits the held dice |
| ClientCheat.LargeStraightPossible | src/lib/cheat-client.js:23-39 | the client offers a large straight exactly when the server does |
| ClientCheat.SmallStraightPossible | src/lib/cheat-client.js:44-61 | the client offers a small straight exactly when the server does |
| ClientCheat.YahtzeePossible | src/lib/cheat-client.js:66-70 | Yahtzee is possible exactly when the held dice are all equal |
| ClientCheat.CanAchieveNOfAKind | src/lib/cheat-client.js:75-88 | the scan finds the largest held count; n of a kind is possible exactly when it plus the unheld dice reaches n, as on the server |
| ClientCheat.NOfAKindNothingHeld | src/lib/cheat-client.js:75-88 | with nothing held, n of a kind is possible exactly when n is at most the unheld dice |
| ClientCheat.FullHousePossible | src/lib/cheat-client.js:93-112 | the client offers a full house only with at most two held faces, and on a five-dice hand exactly when at most two faces are held, none more than three times |
| ClientCheat.FiveHeldSame | src/lib/cheat-client.js:93-112 | some face held five times exactly when five equal dice are held |
| ClientCheat.FullHouseDiffersOnlyOnFiveHeld | src/lib/cheat-client.js:93-112 | client and server disagree on full house exactly when five equal dice are held |
| ClientCheat.ClientAchievableAgrees | src/lib/cheat-client.js:117-180 | client and server reachability differ only for full house with five equal dice held |
| ClientCheat.ClientWanted | src/lib/cheat-client.js:117-180 | the client menu's target set holds a category exactly when it is unscored and the client counts it reachable |
| ClientCheat.OfferUpper | src/lib/cheat-client.js:133-142 | one upper-section step extends the list by that category exactly when it is unscored and three of its face can be shown |
| ClientCheat.OfferLower | src/lib/cheat-client.js:144-178 | one lower-section step extends the list by that category exactly when it is unscored and the client counts it reachable |
| ClientCheat.LowerCheck | src/lib/cheat-client.js:144-178 | one lower-section check answers whether the client counts that category reachable |
| ClientCheat.GetAchievableCategories | src/lib/cheat-client.js:117-180 | a category is listed exactly when it is unscored and the client counts it reachable; in scorecard order |
| ClientCheat.ChanceAlwaysOffered | src/lib/cheat-client.js:117-180 | an unscored chance is always listed |
| Handlers.Without | src/lib/server/yahtzee/handlers.js:128-153 | removing a player keeps exactly the others; a stranger's id removes nothing |
| Handlers.WithoutAppend | src/lib/server/yahtzee/handlers.js:128-153 | removal acts on each part of a list separately, so the others keep their order |
| Handlers.WithoutOrder | src/lib/server/yahtzee/handlers.js:128-153 | removing a member listed once leaves the members before it and after it, in order |
| Handlers.WithoutShrinks | src/lib/server/yahtzee/handlers.js:128-153 | removing a member shortens the list |
| Handlers.FreshCards | src/lib/server/yahtzee/handlers.js:175-178 | every seated player keeps id and name and gets an empty scorecard |
| Handlers.RecordScore | src/lib/server/yahtzee/handlers.js:278-285 | the scored slot takes the throw's score, and the bonus grows by 100 exactly on a second Yahtzee after 50 |
| Handlers.RecordScoreSlots | src/lib/server/yahtzee/handlers.js:278-285 | recording a score leaves every other slot as it was |
| Handlers.SlotSumsUpdate | src/lib/server/yahtzee/handlers.js:278-285 | writing a score into one empty slot changes the slot sum by exactly that score |
| Handlers.RecordScoreSum | src/lib/server/yahtzee/handlers.js:278-285 | the slot sum grows by exactly the throw's score |
| Handlers.NextTurn | src/lib/server/yahtzee/handlers.js:307-320 | the turn passes to the next seat; after the last seat it wraps to 0 and the turn number rises; the index stays a seat; the next player starts with fresh dice, no holds and three rolls |
| Handlers.TurnsRoundRobin | src/lib/server/yahtzee/handlers.js:307-320 | after k turns the seat index and turn number advance as k turns counted round-robin |
| Handlers.FullRound | src/lib/server/yahtzee/handlers.js:307-320 | a full round from the first seat returns to it with the turn number one higher |
| Handlers.Room.constructor | src/lib/server/yahtzee/handlers.js:61-82 | a new room is waiting, its creator is host and only seated player, with no game |
| Handlers.Room.Join | src/lib/server/yahtzee/handlers.js:85-125 | a request made while the game is under way becomes a spectator join; a seat is refused when 8 are taken; the joiner is appended to seats (empty scorecard) or spectators, nothing else changes |
| Handlers.Room.StartGame | src/lib/server/yahtzee/handlers.js:156-189 | only the host with one seated player or more starts; scorecards reset and the game starts fresh |
| Handlers.Room.RollDice | src/lib/server/yahtzee/handlers.js:192-226 | only the current player with rolls left rolls; held dice stay, one roll is used, nothing else changes |
| Handlers.Room.ToggleHold | src/lib/server/yahtzee/handlers.js:229-249 | only the current player after a roll with rolls left toggles; exactly that die's hold flips |
| Handlers.Room.ScoreCategory | src/lib/server/yahtzee/handlers.js:252-321 | only the current player, after a roll, into a known empty slot; the slot and bonus are recorded, then the game ends with the top scorer or the turn passes |
| Handlers.Room.LeaveRoom | src/lib/server/yahtzee/handlers.js:128-153 | the leave is accepted exactly when the room exists and the player is known, in this room or another; a member is removed, the room closes when empty, and a leaving host passes to the first seated, else first spectator; a player of another room leaves this one unchanged unless they are its recorded host, who is handed over |
| Handlers.Room.KickPlayer | src/lib/server/yahtzee/handlers.js:324-339 | only the host kicks, never themself, and only a player known in some room; a member of this room is removed exactly; a player of another room leaves this room unchanged |
| Handlers.KickBeforeCurrentStalls | src/lib/server/yahtzee/handlers.js:324-339 | kicking a seat before the current one can leave the current index past the last seat |

## Left out

- Sockets, broadcasts, error messages and logging are not modelled. Each handler reports success as a boolean, and a refusal leaves the room unchanged.
- The `setTimeout` that clears `isRolling` after the animation is a timer, so it is not modelled. After a roll, `isRolling` stays true in the model.
- `Math.random`, `Date.now` and `nanoid` are not modelled. Dice values, the Yahtzee target face and the random values used for an unknown category are inputs.
- The model holds one room. Looking up a room by id, the room list, `get-rooms`, `disconnect`, `reconnect-player` and the turn timer are not modelled.
- SQLite storage (`src/lib/server/db.js`) is modelled only through the rules it imposes: seated players in join order, spectators kept apart, at most 8 seated players by default, and an empty scorecard for spectators.
- Seated players are ordered by `turn_order` (src/lib/server/db.js:95-101, 112-114). Spectators have no turn order, and the model keeps them in a separate list in join order. When a host leaves and only spectators remain, the new host is the first spectator in that list.
- JSON encoding of scorecards and game state is not modelled.
- Labels and descriptions in the achievable lists and in `CATEGORIES` are display text and are left out. Only the keys are modelled.
- Cheat.Lower: only ASCII letters are lower-cased, not the full Unicode `toLowerCase`.
- Handlers.Room.ToggleHold: a `dieIndex` outside 0..4 changes nothing here. In the source (`src/lib/server/yahtzee/handlers.js` lines 245-247) an index of 5 or more lengthens the stored `heldDice` array: that entry becomes `true`, and any gap before it is saved as `null`. A negative index adds a property that `JSON.stringify` drops, so nothing is stored for it.
- Cheat.CanAchieveFullHouse and the other `canAchieve*` planners require that held plus unheld dice number five. This holds for a five-entry `heldDice`, which is all the model stores. After an out-of-range toggle it can fail in the source: the unheld count `heldDice.filter(h => !h).length` (`src/lib/server/yahtzee/cheat.js` line 204, `src/lib/cheat-client.js` line 119) also counts the `null` gaps, and `getUnheldIndices` lists their positions past the fifth die.
- Cheat.OfferLower and Cheat.GetAchievableCategories check the seven lower-section categories in one loop. The source writes seven separate `if` statements, in the same order and with the same conditions.
- The client's `getHeldValues` and `isCheatEnabled`, and the counting helpers in `src/lib/utils/scoring.js`, are the same as the server's. They are modelled once, in `Cheat` and `Logic`.
- The game and player stores (`src/lib/stores/*`), `src/lib/socket.js`, `server.js` and the styling configuration are outside the core and are not part of this model.
- Handlers.Room.LeaveRoom, Handlers.Room.KickPlayer: the source looks the player up with the global `getPlayer` and removes them with the global `removePlayer` (`src/lib/server/yahtzee/handlers.js` lines 130, 135, 329 and 332), so a `roomId` naming a different room removes the player from the room they are really in. The model holds one room: a player found in another room is the flags `inOtherRoom`/`targetInOtherRoom`, which accept the request, and the removal from that other room is not modelled. The source neither deletes that other room when it empties nor hands over its host (lines 137-147 look only at the named `roomId`, and kick-player does nothing after line 332). So that room can be left empty, or with a `host_id` naming a player who no longer exists, after which nobody there can start a game or kick.
- Player ids are assumed fresh. In the source a duplicate id breaks the players table's primary key (`src/lib/server/db.js` line 39), so `createPlayer` throws and `join-room` refuses the join in its catch (`src/lib/server/yahtzee/handlers.js` lines 106-124). Handlers.Room.Join does not model that refusal: it accepts the join, and a later removal by that id removes every member with it. Ids come from `nanoid` and do not collide in practice.
- Handlers.Room.KickPlayer: like the source, it does not repair `currentPlayerIndex`. Handlers.KickBeforeCurrentStalls shows that the index can then point past the last seat.
