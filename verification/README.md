# A verified model of the card game server

This project models the game engine of the server (`internal/game`) and the membership side of its
rooms (`internal/room/room.go`) and proves what whole games and whole room histories guarantee.

A game is one mutable state driven by twelve commands through nine phases. A played card opens a
cancel window; when the window closes, the card may move cards between hands, and a hand left with
an unguarded explosive costs a shield and a placement, or a life, before control returns to the
interrupted turn. Cards in flight live in pending placements, in a queue, or in recycle selections.

## How it is built

- `Cards`, `Table`: cards, players, pending actions and the state as values, and where cards live.
- `Shuffling`: the shuffle loop, with the random draws as an argument; every order is reachable.
- `Rules`: what each command checks (`…Guard`) and does (`…Effect`), as functions on the state value,
  put together in `Step`.
- `Searching`, `Engine`, `Deck`, `Deal`, `DeckFactory`: the program in its own form: classes with fields
  that methods update, loops with invariants. Each engine method is proved to report exactly the
  guard's error and to leave exactly the effect's state; `StartGame` is proved to lay the table of `Deal`.
- `Invariant`, `Ring`, `Turns`, `Preserve`, `Prompts`: the invariant of all reachable states and its
  preservation by every command.
- `Runs`, `Termination`, `Stalemate`, `Drain`, `Commuting`, `Recycle`, `Parity`, `Timers`, `Reorder`, `View`:
  the theorems about whole games. `View` also builds the menu of available commands.
- `Arranged`, `Duels`, `Endings`: every deal the deck allows happens, and concrete games from such deals that run
  into each of the exceptions the theorems name.
- `Outcomes`, `Effects`, `Windows`, `Ledger`, `Marking`, `Admission`: what every command comes to, said without the
  rules' own functions: where each named card goes, who pays for an explosive, whose turn it is and what is owed,
  how long a mark lasts, and exactly which commands are accepted.
- `Rooms`, `Votes`: the room class, the relation its methods obey, and the invariants of its histories; what the
  approvals of a kick vote mean over a whole history.

The clock and the random source enter as arguments (`Env`); a theorem about all runs holds for all
clocks and all random draws. Identifiers are natural numbers, with 0 for the empty string; the code
of a card is an enumeration. A started game has two to ten players with distinct non-empty ids.

`Runs.Reachable` means: some run of commands, accepted or rejected, leads there from a fresh table
(`Deal.FreshTable`). Every game the program starts is a fresh table (`Deal.StartIsFresh`), so a theorem
about reachable states holds after every game start; it asks less of the deck than the program gives,
namely unique card ids and at most one explosive holder.

## What is proved, in short

- Every reachable state holds exactly the deck that was dealt, each card once (`DeckIsConserved`).
- A living player never holds a second explosive, nor one without the holder, except while an open
  recycle still holds the holder the player gave up (`ExplosivesContained`).
- One command kills at most one player; the game is over exactly when one is left, who is the winner;
  turn debts stay within 1 and 2 (`OneDeathAtMost`, `OneSurvivor`, `DebtsBounded`).
- Errors leave the state alone, with one exact exception: closing the window of a pair whose target
  has spent the last card on a cancel that was itself cancelled (`FailuresAreAtomic`; `APairCanFizzle`
  is a game in which it happens).
- Every game ends, with an explicit bound on the number of state-changing commands (`GamesEnd`), and
  a state is stuck exactly in three situations (`StuckExactly`), each of which ends some game that the
  program plays (`AGameCanBeWon`, `ARequestCanStick`, `ATurnCanStick`).
- Every accepted command does what it is for, stated by hands, piles and turns alone: draws (`DrawTakesTop`),
  placements (`PlacementHitsIndex`), each card and combo once its window closes (`CardTakesEffect`,
  `ComboTakesEffect`), and every prompt. A drawn or taken explosive costs exactly one shield or the life.
- Every accepted command either finishes one turn unit, hands the turn over, or leaves turn and debts alone
  (`StepLedger`); in any run, a player who owes turns finishes exactly that many (`OwedTurnsAreServed`).
- From any table whatever, resolving explosives one placement at a time terminates, spares exactly the
  listed players whose shields suffice, and gives the turn back (`DrainDecides`, `DrainReturnsTheTurn`).
- Recycle choices commute; cancels count by parity; timers close windows neither early nor never, and a
  closed window stays closed; a reorder accepts exactly the permutations; the menu shows everything the
  engine accepts, and which entries can be used is known exactly.
- A room's order, host flag and votes stay consistent in every history. An open vote holds exactly the
  approvals given in it and not retracted since (`ApprovalsAreVotes`), and a vote expels exactly when these
  are a strict majority of the other members (`KicksNeedMajority`). A room that loses its last member loses
  its host for good, even if somebody joins again (`HostlessForever`, `AHostlessRoom`).

Where the program does something one might not expect, the model follows it: the target of an
untargeted card or of a five-card combo is not checked, that a target has cards is checked only when
the card is played, and a departure does not re-evaluate an open kick vote.

## Model

| member | source | states |
|---|---|---|
| Rules.CancelSlot | internal/game/engine.go:284-295 | the first card with the named id, or the first cancel card if none is named, or none exactly when the hand has none |
| Shuffling.Shuffle | internal/game/deck.go:261-265 | the shuffle loop permutes the cards as the drawn swaps say |
| Shuffling.EveryOrderIsAShuffle | internal/game/deck.go:261-265 | every arrangement of the cards is the result of some draws |
| Searching.FindPlayerIndexById | internal/game/engine.go:1131-1138 | the first seat with the id, or -1 exactly when there is none |
| Searching.FindCardIndexById | internal/game/engine.go:1140-1147 | the first position with the id, or -1 exactly when there is none |
| Searching.FindCardIndexByCode | internal/game/engine.go:1149-1156 | the first position with the code, or -1 exactly when there is none |
| Searching.CountCardsByCode | internal/game/engine.go:1158-1166 | the number of cards with the code |
| Searching.CurrentAlivePlayer | internal/game/engine.go:1073-1083 | the player's seat, or which of the two errors applies |
| Searching.ValidateTarget | internal/game/engine.go:1085-1100 | the first rule the target breaks, in the program's order |
| Searching.AlivePlayers | internal/game/engine.go:1121-1129 | exactly the living players, in seat order, as many as are alive |
| Searching.NextAlivePlayerId | internal/game/engine.go:1102-1119 | the search loop computes the next living player or fails with the right error |
| Searching.ClearMarks | internal/game/engine.go:793-803 | exactly the owner's marks whose card has left the hand are dropped |
| Searching.RecycleEligiblePlayerIds | internal/game/engine.go:1063-1071 | the eligible players in seat order |
| Searching.RemoveCardsByIds | internal/game/engine.go:1048-1061 | the hand without the listed cards, order kept |
| Searching.CardsByIdsInHand | internal/game/engine.go:1026-1046 | the listed cards, or the error of the first faulty id |
| Searching.ValidateCombo | internal/game/engine.go:936-956 | the combo kind of the cards, or none |
| Searching.ValidMatchingCombo | internal/game/engine.go:958-998 | the scanning loop accepts exactly equal cards or one token kind with wild tokens, never explosives |
| Searching.ValidFiveDifferentCombo | internal/game/engine.go:1000-1024 | the scanning loop accepts exactly five different codes without the holder, an explosive only next to the holder |
| Searching.PickInOrder | internal/game/engine.go:445-459 | the strike-off loop accepts exactly the permutations of distinct prompted ids and puts the cards in that order |
| Searching.Reordered | internal/game/engine.go:436-461 | the whole reorder check: unchanged prefix, distinct ids, permutation |
| Engine.Engine.DrawCard | internal/game/engine.go:41-58 | reports the guard's error and leaves the state, or resolves the top card |
| Engine.Engine.ResolveDrawnCard | internal/game/engine.go:60-112 | a drawn card is kept, fatal or defused as the rules say, which is what `Effects.DrawTakesTop` describes |
| Engine.Engine.PlaceExplosive | internal/game/engine.go:114-145 | inserts the explosive and resumes the turn or the resolution; where it lies is `Effects.PlacementHitsIndex` |
| Engine.Engine.PlayCard | internal/game/engine.go:147-206 | all checks in order, then the card is discarded and the window opens |
| Engine.Engine.PlayCombo | internal/game/engine.go:208-264 | all checks in order, then the combo is discarded and the window opens |
| Engine.Engine.PlayCancel | internal/game/engine.go:266-309 | a cancel card is discarded and counted |
| Engine.Engine.ExpireCancelWindow | internal/game/engine.go:311-323 | refuses before the expiry and otherwise resolves |
| Engine.Engine.ResolveCancelWindow | internal/game/engine.go:325-354 | closes the window; drops an oddly cancelled action, resolves any other, with the error it ends in |
| Engine.Engine.ResolvePlayedCard | internal/game/engine.go:541-654 | the effect of each action card, described by `Effects.CardTakesEffect`, and an error for any other code |
| Engine.Engine.ResolvePendingCombo | internal/game/engine.go:656-692 | the effect of each combo, described by `Effects.ComboTakesEffect`, and an error for any other kind |
| Engine.Engine.TransferRandomCard | internal/game/engine.go:694-713 | a random card changes hands, or an error leaves the state |
| Engine.Engine.TransferFirstCardByCode | internal/game/engine.go:715-735 | the first card with the code changes hands if there is one |
| Engine.Engine.ResolveUnsafeExplosivesFrom | internal/game/engine.go:741-791 | each listed player is dealt with once, then the first placement is asked for or the turn goes back |
| Engine.Engine.StartNextPlacement | internal/game/engine.go:805-819 | the head of the queue becomes the pending placement |
| Engine.Engine.FinishUnsafeResolution | internal/game/engine.go:821-835 | a lone survivor wins, otherwise the interrupted player or the next living one goes on |
| Engine.Engine.CompleteCurrentTurnUnit | internal/game/engine.go:837-851 | one owed turn is paid and the turn passes on when none is left, as `Ledger.StepLedger` keeps the books |
| Engine.Engine.AdvanceToNextAlivePlayer | internal/game/engine.go:853-859 | the turn passes to the next living player |
| Engine.Engine.AdvanceToPlayer | internal/game/engine.go:861-871 | the player gets the turn and owes at least one |
| Engine.Engine.CrownIfGameOver | internal/game/engine.go:873-882 | the game ends exactly when one player is alive |
| Engine.Engine.ChooseCardForRequest | internal/game/engine.go:356-391 | the requested card changes hands and the consequences are resolved |
| Engine.Engine.ChooseMarkedCard | internal/game/engine.go:393-422 | the chosen card is marked under its id and owner |
| Engine.Engine.SubmitReorderedTopCards | internal/game/engine.go:424-465 | the top of the pile takes the submitted order |
| Engine.Engine.ChooseCardForRecycle | internal/game/engine.go:467-508 | a choice waits, the last one closes the recycle; repeated choosers and missing choices as in the program |
| Engine.Engine.ChooseCardFromDiscard | internal/game/engine.go:510-539 | a discarded card is recovered and the consequences are resolved |
| Deck.PoolIsLargeEnough | internal/game/deck.go:203-228 | every profile has enough cards and shields to deal to all its player counts |
| Deck.DeckKinds | internal/game/deck.go:152-163 | a listed deck holds each code as often as the counts say |
| Deck.DeckSizes | internal/game/deck.go:152-177 | for each player count from two to ten, the number of cards, shields and explosives of its deck |
| Deck.DeckTables | internal/game/deck.go:57-137 | the other kinds, code by code, for the three table sizes |
| DeckFactories.DeckFactory.NewCardsFromCounts | internal/game/deck.go:267-281 | the nested loops number the cards of all kinds consecutively in deck order |
| DeckFactories.DeckFactory.NewDeck | internal/game/deck.go:187-201 | the whole deck in order, or an error for other player counts |
| DeckFactories.DeckFactory.NewSetup | internal/game/deck.go:203-259 | the dealing loops lay the table of the deal |
| DeckFactories.StartGame | internal/game/engine.go:27-39 | a started game is the dealt table with two events |
| Deal.StartDeals | internal/game/deck.go:203-259 | the deal uses exactly the deck counts, fresh consecutive ids, one shield and no explosive in each eight-card hand |
| Deal.StartIsFresh | internal/game/engine.go:27-39 | every started game is a fresh table: starting hands, first player's turn, unique card ids, one explosive holder at most |
| Deal.FreshInv | internal/game/deck.go:203-259 | a fresh table satisfies the invariant |
| Ring.NextAliveIsFirst | internal/game/engine.go:1102-1119 | the next living player is the first one cyclically after the start, and none is found only if none lives |
| Ring.RingVisitsAllOnce | internal/game/engine.go:1102-1119 | as many steps as living players visit each of them once and return to the start |
| Turns.SpendHand | internal/game/engine.go:774-783 | spending a shield removes one shield and one explosive from the hand, and nothing else |
| Turns.ResolveKeeps | internal/game/engine.go:741-835 | resolving with at most one loose explosive ends in a sound state with all cards |
| Preserve.DrawKeeps | internal/game/engine.go:41-112 | drawing keeps the invariant and the cards and kills at most one |
| Preserve.PlaceKeeps | internal/game/engine.go:114-145 | so does placing |
| Preserve.PlayKeeps | internal/game/engine.go:147-206 | so does playing a card |
| Preserve.ComboSparesHolder | internal/game/engine.go:936-1024 | no accepted combo spends the explosive holder |
| Preserve.ComboKeeps | internal/game/engine.go:208-264 | playing a combo keeps the invariant and the cards |
| Preserve.CancelKeeps | internal/game/engine.go:266-309 | so does cancelling |
| Preserve.CardKeeps | internal/game/engine.go:541-654 | an action card takes effect without error and keeps the invariant and the cards |
| Preserve.EligibleList | internal/game/engine.go:1063-1071 | the eligible players are exactly the living ones with cards, each once |
| Prompts.StealKeeps | internal/game/engine.go:656-735 | a theft and its consequences keep the invariant and the cards |
| Prompts.WindowResolves | internal/game/engine.go:325-354 | a window resolves without error except for a pair whose target has no card, and always soundly |
| Prompts.RequestKeeps | internal/game/engine.go:356-391 | answering a request keeps the invariant and the cards |
| Prompts.MarkKeeps | internal/game/engine.go:393-422 | so does marking a card |
| Prompts.PickedPermutes | internal/game/engine.go:445-461 | submitting a permutation of the ids permutes the cards |
| Prompts.ReorderKeeps | internal/game/engine.go:424-465 | reordering keeps the invariant and the cards |
| Prompts.OneGiver | internal/game/engine.go:467-508 | two choosers cannot both have given up the holder |
| Prompts.RecycleKeeps | internal/game/engine.go:467-508 | a recycle choice, last or not, keeps the invariant and the cards |
| Prompts.RecoverKeeps | internal/game/engine.go:510-539 | recovering a discarded card keeps the invariant and the cards |
| Prompts.StepKeeps | internal/game/engine.go:41-539 | every command, accepted or rejected, keeps the invariant and the cards and kills at most one player |
| Runs.RunKeeps | internal/game/engine.go:41-539 | every run of commands keeps the invariant, the cards and the seats, and the dead stay dead |
| Runs.GamesAreReachable | internal/game/engine.go:27-39 | whatever follows a game started by the program is reachable |
| Runs.Perform | internal/game/engine.go:41-539 | the engine carries out any command in any sound state as the rules say and leaves a sound state |
| Effects.DrawTakesTop | internal/game/engine.go:41-112 | an accepted draw takes the top card: the player keeps it and finishes a turn unit, or spends the first shield and must put it back, or dies with the card and the whole hand on the discard pile; alive exactly in the first two cases |
| Effects.PlacementHitsIndex | internal/game/engine.go:114-145 | in any state, an accepted placement puts the explosive at its index from the top and leaves the rest of the pile as it was |
| Effects.PlacementResumes | internal/game/engine.go:114-145 | after a draw it finishes the turn unit, after a resolution it gives the interrupted turn back; hands and discard pile stay |
| Effects.CardTakesEffect | internal/game/engine.go:541-654 | what each action card does once its window closes with an even number of cancels: turns, debts, offered cards, swapped ends, prompts, the bottom card drawn |
| Effects.ComboTakesEffect | internal/game/engine.go:656-692 | a pair takes some card, a triple the first one of the requested kind or none, five cards open a recovery |
| Effects.AnyCardCanBeTaken | internal/game/engine.go:694-713 | the random pick of a pair can hit every card of the hand |
| Effects.RequestHandsOver | internal/game/engine.go:356-391 | the card named by the asked player is the one that changes hands |
| Effects.MarksTheChosen | internal/game/engine.go:393-422 | the chosen card of the target is the one marked |
| Effects.RecoversTheNamed | internal/game/engine.go:510-539 | the named card goes from the discard pile to the hand, whose owner pays if it is an explosive too many |
| Outcomes.WhoPays | internal/game/engine.go:741-791 | after a theft only the thief of an explosive or the victim who lost the holder can have an explosive too many |
| Outcomes.HarmlessTheft | internal/game/engine.go:694-735 | any other stolen card moves from one hand to the end of the other and changes nothing else |
| Windows.PlayOpensWindow | internal/game/engine.go:147-206 | exactly the named card goes to the discard pile and a window opens over it for five seconds under a fresh id |
| Windows.ComboOpensWindow | internal/game/engine.go:208-264 | exactly the named cards go to the discard pile, the rest keeps its order, and a window opens for the kind their number says |
| Windows.CancelIsCounted | internal/game/engine.go:266-309 | the named cancel, or the first one, is spent and counted; the window stays as it is |
| Windows.OddClosingDrops | internal/game/engine.go:325-342 | after an odd number of cancels closing the window changes no hand, pile, turn or debt |
| Windows.ReorderFollowsIds | internal/game/engine.go:424-465 | the top of the pile follows the submitted ids |
| Windows.RecycleTakesChoice | internal/game/engine.go:467-508 | the named card is given; the last choice puts all given cards into the pile and whoever gave the holder away pays |
| Ledger.StepLedger | internal/game/engine.go:41-539 | every accepted command finishes one unit of the turn, hands the turn over, or leaves turn and debts alone unless somebody dies |
| Ledger.OwedTurnsAreServed | internal/game/engine.go:837-871 | in any run a player who owes turns finishes exactly that many before the next living player starts |
| Ledger.ExtraTurnsAreTwo | internal/game/engine.go:551-561 | the target of extra turns is next and finishes exactly two units |
| Marking.MarksFollowCards | internal/game/engine.go:793-803 | a mark stays as long as its owner holds the card, goes when not, and no other mark appears |
| Admission.DrawAdmitted | internal/game/engine.go:41-58 | a draw is accepted exactly from the current player in the turn phase with cards in the pile |
| Admission.PlacementAdmitted | internal/game/engine.go:114-131 | a placement exactly from its owner and within the pile |
| Admission.PlayAdmitted | internal/game/engine.go:147-190 | a card exactly from the current player, held, of a playable kind and with a fitting target |
| Admission.ComboAdmitted | internal/game/engine.go:208-245 | a combo exactly from distinct held cards of one kind, or five kinds without the holder, with a fitting target |
| Admission.CancelAdmitted | internal/game/engine.go:266-295 | a cancel exactly from a living player who has the cancel meant, in the window meant |
| Admission.ClosingAdmitted | internal/game/engine.go:311-335 | a window closes on request at any time and by the clock exactly from its expiry on |
| Admission.RequestAdmitted | internal/game/engine.go:356-377 | the asked player may give exactly the cards of the own hand |
| Admission.MarkAdmitted | internal/game/engine.go:393-409 | the revealing player may mark exactly the cards of the target |
| Admission.ReorderAdmitted | internal/game/engine.go:424-460 | exactly the permutations, from the current player |
| Admission.ChoiceAdmitted | internal/game/engine.go:467-485 | each listed chooser once, with any held card |
| Admission.RecoveryAdmitted | internal/game/engine.go:510-524 | any discarded card, from the player of the combo |
| Runs.DeckIsConserved | internal/game/engine.go:41-835 | after any run the table holds exactly the dealt deck, each card under its own id |
| Runs.ExplosivesContained | internal/game/engine.go:60-112 | at most one explosive in a hand, only with the holder or just after giving it up; dead hands are empty |
| Runs.OneSurvivor | internal/game/engine.go:873-882 | over exactly when one is alive, who is the winner; before that the current player is alive |
| Runs.OneDeathAtMost | internal/game/engine.go:741-791 | a command kills at most one player |
| Runs.DebtsBounded | internal/game/engine.go:837-871 | the current player owes one or two turns, nobody else alive owes any |
| Runs.PhasesCohere | internal/game/state.go:14-77 | phase and pending action match, the queue is empty between commands, marks show cards their owners hold |
| Runs.FailuresAreAtomic | internal/game/engine.go:311-354 | an error changes the state exactly when it closes the window of a pair whose target is out of cards |
| Termination.StepNearer | internal/game/engine.go:41-539 | every accepted command lowers the lexicographic measure; a rejected one changes nothing |
| Termination.RunsAreShort | internal/game/engine.go:41-539 | from any sound state, a run changes the state at most as often as the state's weight |
| Termination.GamesEnd | internal/game/engine.go:41-539 | a game of `n` players and `d` cards changes its state at most `StepBound(n, d)` times |
| Stalemate.StuckExactly | internal/game/engine.go:41-539 | a reachable state accepts no more commands exactly when the game is over, the pile is empty and nothing can be played, or the asked hand is empty |
| Arranged.EveryDeal | internal/game/deck.go:203-259 | for any hands and any top of the draw pile that the deck has the cards for, some shuffles deal them |
| Endings.APairCanFizzle | internal/game/engine.go:694-705 | a game the program plays comes to such a window, and closing it reports the error and changes the state |
| Endings.AGameCanBeWon | internal/game/engine.go:60-112 | a game the program plays ends with a winner |
| Endings.ARequestCanStick | internal/game/engine.go:356-391 | a game the program plays comes to a request to an empty hand and is stuck |
| Endings.ATurnCanStick | internal/game/engine.go:41-58 | a game the program plays comes to a turn with nothing to draw or to play and is stuck |
| Drain.OnlyPlacementsWhileDraining | internal/game/engine.go:114-145 | while an explosive waits, only its placement by its owner is accepted |
| Drain.PlacingIsAStep | internal/game/engine.go:114-145 | one turn of the drain is the placement command of the explosive's owner |
| Drain.DrainDecides | internal/game/engine.go:741-835 | from any table the placements end; a listed player survives exactly when the shields suffice, and has paid one for each; others are untouched |
| Drain.FirstListedIsAsked | internal/game/engine.go:741-791 | the first of the listed players who must place an explosive is asked first |
| Drain.QueueIsServedInOrder | internal/game/engine.go:805-819 | further placements are asked for in the order of the queue, and a player with another one goes to its end |
| Drain.DrainReturnsTheTurn | internal/game/engine.go:821-835 | after the placements a lone survivor has won, or the interrupted player or the next living one has the turn |
| Drain.DrainKeepsCards | internal/game/engine.go:741-835 | the placements lose and make no card, from any table |
| Recycle.ChoicesSwap | internal/game/engine.go:467-492 | two neighbouring recycle choices can trade places with the same result |
| Recycle.RecycleChoicesCommute | internal/game/engine.go:467-508 | recycle choices accepted in one order are accepted in every order and lead to the same state |
| Recycle.ClosesWhenComplete | internal/game/engine.go:489-501 | the recycle closes with exactly the choice that completes the set of choosers |
| Recycle.OpensForEligible | internal/game/engine.go:631-648 | a recycle asks exactly the living players with cards |
| Parity.CancelIsStep | internal/game/engine.go:266-309 | one turn of the cancel series is an accepted cancel command |
| Parity.OddCancelsDrop | internal/game/engine.go:266-342 | an odd number of cancels drops the action and leaves the table as the cancels made it |
| Parity.EvenCancelsVanish | internal/game/engine.go:266-354 | after an even number of cancels an action card other than the recycle leaves turn, debts, pile, prompt and survivors as without any |
| Parity.EvenCancelsKeepCombos | internal/game/engine.go:266-354 | so does a five-card combo, and a three-card one that asks for anything but a cancel |
| Parity.EvenCancelsKeepRecycle | internal/game/engine.go:266-354 | so does a recycle, exactly if nobody spent the last card on a cancel |
| Timers.NeverEarly | internal/game/engine.go:311-323 | a window closes only by a timer and only after its expiry, however stale timers interleave |
| Timers.NeverForgotten | internal/transport/websocket.go:516-533 | every open window has a timer of its own, running or about to start, due after the expiry |
| Timers.OwnTimerCloses | internal/transport/websocket.go:516-533 | once its own timer has fired a window is closed and never open again, whatever happens later |
| Reorder.AcceptsExactlyPermutations | internal/game/engine.go:424-460 | in reachable reorder states the stale check passes and exactly the permutations are accepted |
| Reorder.ReorderedPile | internal/game/engine.go:461-464 | the prefix takes the submitted order and the rest of the pile stays |
| Reorder.AnyOrderPossible | internal/game/engine.go:424-465 | every order of the offered cards can be had |
| View.BuildAvailableActions | internal/game/view.go:178-225 | the menu entry by entry |
| View.MenuIsComplete | internal/game/view.go:178-247 | an accepted command of a player is always on that player's menu |
| View.MenuIsUsable | internal/game/view.go:178-225 | which menu entries have an accepted payload: a draw exactly with cards in the pile, a request or reveal exactly with a non-empty asked hand, a play or combo exactly with cards for it in the hand, all others always |
| Rooms.Room.constructor | internal/room/room.go:63-72 | a new room has its founder as the only member and host |
| Rooms.Room.Join | internal/room/room.go:133-148 | full room, known player, or a new connected member at the end of the order |
| Rooms.Room.Leave | internal/room/room.go:150-170 | the member is gone from map, order and approvals; a vote on the member ends; a host is replaced |
| Rooms.Room.SetReady | internal/room/room.go:183-193 | the flag of a member with the token is set |
| Rooms.Room.TransferHost | internal/room/room.go:195-212 | only the host can hand over, and only to a connected member |
| Rooms.Room.StartKickVote | internal/room/room.go:277-302 | the checks in order, then the vote is counted |
| Rooms.Room.CastKickVote | internal/room/room.go:304-324 | the checks in order, then the vote is counted |
| Rooms.Room.ResolveKickVoteIfPassed | internal/room/room.go:476-492 | enough approvals expel the target and end the vote; without a vote nothing happens |
| Rooms.Room.RequiredKickApprovals | internal/room/room.go:503-511 | more than half of the connected members other than the target; one without a vote |
| Rooms.Room.RemovePlayerFromOrder | internal/room/room.go:494-501 | the first entry of the player is cut out |
| Rooms.Room.PlayerByToken | internal/room/room.go:513-523 | some member with the token, none exactly when nobody has it |
| Rooms.Room.TransferHostToAny | internal/room/room.go:525-533 | some connected member becomes host, none exactly when nobody is connected |
| Rooms.Room.SetHost | internal/room/room.go:535-540 | exactly the new host carries the flag |
| Rooms.NextKeeps | internal/room/room.go:133-324 | every action keeps the room in order |
| Rooms.RoomStaysOk | internal/room/room.go:133-540 | so does every history from the founding of the room on |
| Votes.ApprovalsAreVotes | internal/room/room.go:277-324 | in every history an open vote is the one opened last, and its approvals are exactly the players who opened it or approved in it and have not since retracted or left |
| Votes.KicksNeedMajority | internal/room/room.go:476-511 | in every history only votes expel, and a vote action expels the accused exactly if the members whose approval stands are more than half of the others |
| Rooms.HostlessForever | internal/room/room.go:133-170 | a room without a host never gets one again in any history, and refuses all transfers |
| Rooms.AHostlessRoom | internal/room/room.go:133-170 | the founder leaves, somebody joins, and the room has a member and no host |
| Rooms.HostLostOnlyWhenEmpty | internal/room/room.go:150-170 | a room loses its host exactly when the last member leaves |

## Left out

- Event records: only the event counter is kept, not the list of events sent to clients.
- `CardIDs` of pending actions and the display fields of players (names, readiness in the game state,
  the blinded flag): nothing in the rules reads them.
- Update in place below the level of fields: hands, piles and the members of a room are sequence and
  map values that methods reassign, and the pending action is a value, so sharing between Go slices,
  maps and pointers is not captured.
- Requested codes that name no card, and the code of an empty card, collapse into one value, `Unlisted`.
- Engine.Engine.ResolvePlayedCard: a reveal whose target is not at the table is excluded; the program
  would index the player list with -1 there, which has no result. `ResolveCancelWindow` and
  `ExpireCancelWindow` exclude exactly the windows that would come to that; `Runs.Callable` shows that no
  sound state has one.
- Parity.EvenCancelsKeepCombos: says nothing about pairs, which take a random card of whatever hand the
  cancels left, nor about three cards that ask for a cancel, which the target may have spent.
- The error `NewSetup` returns for a deck with too few shields: no deck profile is like that.
- Deck counts are a table over the card kinds instead of maps that are copied and edited.
- Timers assume a clock that never goes backwards; the moment between accepting a card and starting
  its timer is modelled.
- The other views, event filtering, JSON and the WebSocket transport except the timer rule, and the
  room manager.
- The token lookup and the refusal of commands before a game has started, which the room puts in front of
  the engine's commands.
- The connection between a room and its running game: the program does not make one when players
  leave, join or are kicked.
