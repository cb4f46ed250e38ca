# Mau-Mau rules engine in Dafny

This project models the rules core of a Mau-Mau card game and proves
properties of the model. The core has four parts:

- **`Cards`** (`cards.dfy`) holds the card value and its order, `Card.compareTo`.
  Cards compare by rank ordinal first, then by suit ordinal. The proofs show
  this is a total order.
- **`Deck`** (`deck.dfy`) is the deck factory, `MauMauDeck.makeDeck`.
  - It makes `numDecks` passes over every suit and every rank, keeping the
    ranks from SEVEN up, and then shuffles.
  - It is proved to produce exactly `32 * numDecks` cards, each of the 32 Mau-Mau
    cards exactly `numDecks` times, in an order that is a permutation.
- **`Turns`** (`turns.dfy`) is the turn and ranking sub-machine, `PlayerHandler`.
  - The turn queue's front is the current player. Rotation uses Java's
    `((n % size) + size) % size`.
  - A nested Mau machine has the states `DefaultState` and `MauState`.
  - A missed Mau is penalised one cycle late.
  - Finished players move to the ranking. The game ends when at most one
    player is left.
- **`Rules`** (`rules.dfy`) is the game state machine, `ActionHandler`.
  - It holds the lifecycle `GameInitialized`, `Play`, `ChooseSuit`,
    `GameOver` and `GameCanceled`.
  - It holds the sevens-chain counter and the suit restriction a JACK leaves
    behind.
  - It holds the legality predicate `canPlay` and the rank dispatch of a
    played card.

Both handlers are classes whose methods update their fields in place.
- Each class has a ghost `Model()`, a snapshot of its fields as a datatype.
- Each method is proved to leave the snapshot that a pure function of the
  old snapshot describes. For example, `NextTurn(n)` yields `Advance(old(Model()), n)`.
- The rule properties are lemmas about those pure functions.
- `ActionHandler` keeps `GameInv`: the sub-machine's invariant holds, there is
  a top card while cards are played, there is no sevens chain while a suit is
  being chosen, and there is no suit restriction while a chain is pending.
- `PlayerHandler` keeps `Wf`: queue and ranking are disjoint and hold no
  player twice, and a remembered Mau announcer is still in the queue.
- Every action but registration keeps both invariants. The path
  that breaks them is proved in `Rules.ReEnrollAfterFinish`:
  1. Before the start, a player whose hand is still empty finishes by `maumau`.
  2. That player is registered again. The name check scans only the queue, so
     the registration succeeds.
  3. The player is now both ranked and queued.

Model decisions:
- **Players.** A player is a value `Player(id, name)`. Equal values stand for
  Java's reference equality. The duplicate check compares `name`.
- **Hands.** The hands of the player objects are a map from player to
  multiset of cards, held by `PlayerHandler`.
- **Draws.** Every `drawCards(n)` call is appended to a ghost log of `Draw(who, n)`.
- **Errors.** The two `IllegalArgumentException`/`IllegalStateException`
  usage faults become the result values `GameStarted` and `DuplicateName` of
  `AddPlayer`.
- **Callback.** The `finishGame` callback from `PlayerHandler` becomes the
  `over` result of `PlayerHandler.MauMau`. `ActionHandler.MauMau` then calls
  `FinishGame`.

## Model

| member | source | states |
|---|---|---|
| Cards.IntCompare | src/cards/Card.java:27 | `Integer.compare` is -1, 0 or 1, negative exactly when x < y and zero exactly when x == y |
| Cards.Compare | src/cards/Card.java:25-35 | `compareTo` returns -1, 0 or 1 and is zero exactly for equal cards |
| Cards.CompareByRank | src/cards/Card.java:27-34 | for cards of different rank the rank ordinals alone decide the sign |
| Cards.CompareBySuit | src/cards/Card.java:30-32 | for cards of equal rank the suit ordinals decide the sign |
| Cards.CompareAntisymmetric | src/cards/Card.java:25-35 | swapping the arguments negates the result |
| Cards.CompareTransitive | src/cards/Card.java:25-35 | the strict order "compares below" is transitive |
| Cards.CompareTotal | src/cards/Card.java:25-35 | any two cards are equal or one compares below the other |
| Deck.Shuffle | src/cards/maumau/MauMauDeck.java:40 | the shuffle keeps the length and is a permutation (same multiset) |
| Deck.MakeDeck | src/cards/maumau/MauMauDeck.java:26-42 | for `numDecks <= 0` the deck is empty; otherwise it has `32 * numDecks` cards, all of rank SEVEN or higher, and each such card occurs exactly `numDecks` times |
| Turns.JavaRem | src/cards/maumau/model/PlayerHandler.java:201 | Java's truncating `%` lies strictly between -size and size |
| Turns.Normalize | src/cards/maumau/model/PlayerHandler.java:201 | the normalised rotation distance lies in [0, size) |
| Turns.NormalizeIsMod | src/cards/maumau/model/PlayerHandler.java:201 | `((n % size) + size) % size` with Java's `%` equals the mathematical `n mod size`, for negative `n` too |
| Turns.RotatedPermutes | src/cards/maumau/model/PlayerHandler.java:196-205 | rotating the queue keeps its length and its multiset of players |
| Turns.RotateLeftInverse | src/cards/maumau/model/PlayerHandler.java:202-204 | moving k front players to the back, then size-k, restores the queue |
| Turns.RotatedInverse | src/cards/maumau/model/PlayerHandler.java:196-205 | `localNextTurn(n)` then `localNextTurn(size - n)` restores the queue for every integer n |
| Turns.ArmPenalty | src/cards/maumau/model/PlayerHandler.java:104-116 | the penalized player draws exactly when current and already armed, and the record is then cleared; any other advance with a record arms it; without a record nothing changes |
| Turns.AdvanceEffect | src/cards/maumau/model/PlayerHandler.java:29-34 | `nextTurn` rotates the queue and keeps the ranking, the hands and the Mau state; the default state forgets the remembered player, the Mau state keeps it; `didCallMau` is unchanged |
| Turns.AdvanceKeepsWf | src/cards/maumau/model/PlayerHandler.java:101-117 | `nextTurn` keeps the sub-machine invariant and the registered players |
| Turns.AdvanceRoundTrip | src/cards/maumau/model/PlayerHandler.java:101-102 | `nextTurn(n)` then `nextTurn(size - n)` gives back the queue and the current player |
| Turns.FlagThenAdvance | src/cards/maumau/model/PlayerHandler.java:171-174 | the first `nextTurn` after `flagMissedMau(p)` draws nothing and leaves the record on p, armed |
| Turns.AdvanceDraws | src/cards/maumau/model/PlayerHandler.java:104-116 | one `nextTurn` draws at most one penalty card, exactly when the armed penalized player becomes current, and then clears the record |
| Turns.ArmedDrawsAtFirstTurn | src/cards/maumau/model/PlayerHandler.java:104-116 | over any run of advances, an armed record is paid the first time its player is current, and never if that never happens |
| Turns.PenaltyDelay | src/cards/maumau/model/PlayerHandler.java:171-174 | a freshly flagged penalty is never paid at the next advance; it is paid at the first later advance that makes the player current, and never if none does |
| Turns.NoRecordNoDraw | src/cards/maumau/model/PlayerHandler.java:104-116 | with no penalty record, no advance of a run draws |
| Turns.RunDraws | src/cards/maumau/model/PlayerHandler.java:104-116 | over an actual run of `nextTurn` calls, the first j advances log one penalty draw for the penalized player exactly when `FirstDraw` over the new current players falls before j, and nothing else |
| Turns.FlaggedRunDraws | src/cards/maumau/model/PlayerHandler.java:104-174 | after `flagMissedMau(p)` and any run of `nextTurn` calls, p has drawn exactly one card if p became current at some advance after the first, and none otherwise |
| Turns.FlagDropsOtherRecord | src/cards/maumau/model/PlayerHandler.java:171-174 | `flagMissedMau(p)` replaces the record, so another player's owed penalty is never drawn afterwards, over any run of `nextTurn` calls |
| Turns.RegisterKeepsWf | src/cards/maumau/model/PlayerHandler.java:188 | appending a new player keeps the invariant, adds exactly that player, and makes them current only if the queue was empty |
| Turns.FirstIndex | src/cards/maumau/model/PlayerHandler.java:213 | the index found holds p, and p does not occur before it |
| Turns.Remove | src/cards/maumau/model/PlayerHandler.java:213 | `players.remove(p)` takes exactly one occurrence of p out of the multiset of players |
| Turns.RemoveMissing | src/cards/maumau/model/PlayerHandler.java:213 | removing a player who is not in the list leaves the list unchanged |
| Turns.RemoveFirst | src/cards/maumau/model/PlayerHandler.java:213 | removing a player who is in the list drops exactly its first occurrence and keeps the others in order |
| Turns.FinishPartition | src/cards/maumau/model/PlayerHandler.java:212-218 | finishing p keeps the partition of the players between queue and ranking: p leaves the queue, is appended to the ranking, and carries no penalty |
| Turns.AnnounceEffect | src/cards/maumau/model/PlayerHandler.java:124-128 | `mau(p)` by the current player holding one card makes `didCallMau(p)` true; any other call changes nothing; the invariant is kept |
| Turns.MauMauEffect | src/cards/maumau/model/PlayerHandler.java:135-139 | a `maumau(p)` that may not finish p changes nothing; one that does ends the game iff at most two players were queued; the game then ranks everyone left and empties the queue; otherwise p is removed from the front, ranked, and the Mau machine returns to default; invariant and players kept |
| Turns.AnnouncedIsActive | src/cards/maumau/model/PlayerHandler.java:163-165 | a player for whom `didCallMau` holds is still in the queue |
| Turns.FlagKeepsWf | src/cards/maumau/model/PlayerHandler.java:171-174 | `flagMissedMau(p)` records p unarmed and keeps the invariant |
| Turns.PlayerHandler.constructor | src/cards/maumau/model/PlayerHandler.java:12-17 | a new handler has an empty queue and ranking, the default Mau state and no penalty |
| Turns.PlayerHandler.CurrentPlayer | src/cards/maumau/model/PlayerHandler.java:225-227 | no current player exactly when the queue is empty, else the queue's front |
| Turns.PlayerHandler.Hand | src/cards/maumau/model/ActionHandler.java:69 | the cards a player holds in the snapshot |
| Turns.PlayerHandler.DidCallMau | src/cards/maumau/model/PlayerHandler.java:163-165 | true exactly in the Mau state with p remembered; such a p is in the queue under the invariant |
| Turns.PlayerHandler.LocalNextTurn | src/cards/maumau/model/PlayerHandler.java:196-205 | the queue loop leaves the queue rotated by the normalised distance, and an empty queue unchanged |
| Turns.PlayerHandler.NextTurn | src/cards/maumau/model/PlayerHandler.java:101-117 | the new state is `Advance` of the old one: the Mau state's rotation, then the penalty check |
| Turns.PlayerHandler.Mau | src/cards/maumau/model/PlayerHandler.java:124-128 | the new state is `Announce` of the old one, across both Mau states |
| Turns.PlayerHandler.MauMau | src/cards/maumau/model/PlayerHandler.java:45-139 | the new state and the game-over signal are `MauMauStep` of the old state: the current-player check (lines 135-139), the default state (lines 45-54) and the Mau state with its remembered announcer (lines 72-84) |
| Turns.PlayerHandler.FlagMissedMau | src/cards/maumau/model/PlayerHandler.java:171-174 | records p as penalized and unarmed; nothing else changes |
| Turns.PlayerHandler.AddPlayer | src/cards/maumau/model/PlayerHandler.java:182-189 | fails exactly when a queued player has the same name, and then changes nothing; otherwise appends the player |
| Turns.PlayerHandler.FinishPlayer | src/cards/maumau/model/PlayerHandler.java:212-218 | the new state is `Finish` of the old one |
| Turns.PlayerHandler.PlayCard | src/cards/maumau/model/ActionHandler.java:74 | one copy of the card leaves the player's hand |
| Turns.PlayerHandler.DrawCards | src/cards/maumau/model/ActionHandler.java:131 | the draw is logged for the player |
| Turns.PlayerHandler.DealCards | src/cards/maumau/model/ActionHandler.java:42 | the dealt hands replace the players' hands |
| Rules.CanPlay | src/cards/maumau/model/ActionHandler.java:198-215 | false outside PLAY; with a pending sevens chain only a SEVEN; else with a chosen suit only that suit; else a JACK, or a card matching the top card's suit or rank (each as an if-and-only-if) |
| Rules.EightResetIsDefensive | src/cards/maumau/model/ActionHandler.java:92-95 | a legal EIGHT is only played with no sevens chain, so its counter reset never changes the counter |
| Rules.PlayGuarded | src/cards/maumau/model/ActionHandler.java:65-72 | `chooseCard` changes nothing unless the game is in PLAY, the current player holds the card, and `canPlay` holds |
| Rules.PlayDispatch | src/cards/maumau/model/ActionHandler.java:74-104 | after a legal play the card leaves the hand and is on top; SEVEN adds to the chain and advances one; EIGHT resets it and advances two; JACK enters CHOOSE_SUIT without advancing; any other rank resets it and advances one |
| Rules.PlayFlagsMissedMau | src/cards/maumau/model/ActionHandler.java:78-80 | a play that leaves one card without a Mau call flags the player; the advance in the same play draws nothing, and the record is armed unless the card was a JACK |
| Rules.DefaultStatePlayFlags | src/cards/maumau/model/ActionHandler.java:78-80 | in the default state every legal play that leaves one card flags the player, since nobody can have announced Mau before (PlayerHandler.java:38, 125) |
| Rules.SuitRestrictionLifted | src/cards/maumau/model/ActionHandler.java:84-97 | under a suit restriction only that suit (or a SEVEN) is legal; a legal card lifts the restriction if and only if it is of that suit; a legal JACK is of that suit and leaves no restriction; skip and no7 keep it |
| Rules.PickSuitEffect | src/cards/maumau/model/ActionHandler.java:112-118 | `chooseSuit` acts only in CHOOSE_SUIT; it then sets the suit, returns to PLAY, keeps the counter and advances exactly one turn |
| Rules.NoPlayWhileChoosing | src/cards/maumau/model/ActionHandler.java:66-67 | while a suit is being chosen every `chooseCard` is a no-op |
| Rules.SkipEffect | src/cards/maumau/model/ActionHandler.java:123-133 | `skip` acts only in PLAY without a sevens chain and with a current player; the old log is kept, that player's one-card draw comes next, at most one penalty draw follows, and the turn advances by one |
| Rules.DeclineSevensEffect | src/cards/maumau/model/ActionHandler.java:138-146 | `no7` acts only in PLAY with a pending chain; the current player draws two cards per seven, the counter returns to 0, the turn does not advance, and the penalty record is untouched |
| Rules.EnrollEffect | src/cards/maumau/model/ActionHandler.java:30-34 | registration fails as "game started" exactly outside GAME_INITIALIZED and as "duplicate" exactly on a taken name, changing nothing; otherwise it only appends the player |
| Rules.StartEffect | src/cards/maumau/model/ActionHandler.java:39-44 | `startGame` acts only from GAME_INITIALIZED; it enters PLAY with a top card and keeps the queue |
| Rules.TerminalStatesFreeze | src/cards/maumau/model/ActionHandler.java:39-146 | in GAME_OVER and GAME_CANCELED no play, suit choice, skip, no7 or start changes anything, and registration is refused |
| Rules.ReEnrollAfterFinish | src/cards/maumau/model/PlayerHandler.java:182-188 | a player who finished by `maumau` before the start can be registered again, because the name check scans only the queue; the game invariant is then lost |
| Rules.GameOverExactly | src/cards/maumau/model/PlayerHandler.java:72-84 | `maumau(p)` ends the game exactly when it finishes p with at most two players queued (or the game was already over); the ranking then gets the whole old queue |
| Rules.PlayedKeepsInv | src/cards/maumau/model/ActionHandler.java:74-85 | the part of a legal play before the dispatch keeps the sub-machine invariant and the players; a legal SEVEN or JACK leaves no suit restriction or chain that would break the game invariant |
| Rules.PlayKeepsInv | src/cards/maumau/model/ActionHandler.java:65-105 | `chooseCard` keeps the game invariant and the registered players |
| Rules.ReadyKept | src/cards/maumau/model/ActionHandler.java:39-146 | every action, including registration, the start, Mau, Mau-Mau, finishing and cancelling, keeps a top card present while cards are played, the card `canPlay` reads at line 211 |
| Rules.PickSuitKeepsInv | src/cards/maumau/model/ActionHandler.java:112-118 | `chooseSuit` keeps the game invariant and the registered players |
| Rules.SkipKeepsInv | src/cards/maumau/model/ActionHandler.java:123-133 | `skip` keeps the game invariant and the registered players |
| Rules.DeclineSevensKeepsInv | src/cards/maumau/model/ActionHandler.java:138-146 | `no7` keeps the game invariant and the registered players |
| Rules.EnrollKeepsInv | src/cards/maumau/model/ActionHandler.java:30-34 | registering a player not already ranked keeps the game invariant |
| Rules.StartKeepsInv | src/cards/maumau/model/ActionHandler.java:39-44 | starting the game keeps the game invariant |
| Rules.MauKeepsInv | src/cards/maumau/model/PlayerHandler.java:124-128 | announcing Mau keeps the game invariant |
| Rules.MauMauKeepsInv | src/cards/maumau/model/PlayerHandler.java:135-139 | announcing Mau-Mau keeps the game invariant and the registered players |
| Rules.ActionHandler.constructor | src/cards/maumau/model/ActionHandler.java:11-23 | a new handler is in GAME_INITIALIZED with counter 0, no chosen suit and a fresh, empty player handler |
| Rules.ActionHandler.AddPlayer | src/cards/maumau/model/ActionHandler.java:30-34 | the new state and result are `Enroll` of the old state |
| Rules.ActionHandler.StartGame | src/cards/maumau/model/ActionHandler.java:39-44 | the new state is `Start` of the old one, and the invariant is kept |
| Rules.ActionHandler.FinishGame | src/cards/maumau/model/ActionHandler.java:49-51 | the state becomes GAME_OVER, nothing else changes |
| Rules.ActionHandler.CancelGame | src/cards/maumau/model/ActionHandler.java:56-58 | the state becomes GAME_CANCELED from any state, nothing else changes |
| Rules.ActionHandler.Reset7Counter | src/cards/maumau/model/ActionHandler.java:174-176 | the counter becomes 0, nothing else changes |
| Rules.ActionHandler.Increment7Counter | src/cards/maumau/model/ActionHandler.java:181-183 | the counter grows by one, nothing else changes |
| Rules.ActionHandler.GetChosenSuit | src/cards/maumau/model/ActionHandler.java:162-164 | under the invariant a chosen suit never coexists with a sevens chain |
| Rules.ActionHandler.Get7Counter | src/cards/maumau/model/ActionHandler.java:167-169 | under the invariant a pending chain means no chosen suit and not CHOOSE_SUIT |
| Rules.ActionHandler.GetGameState | src/cards/maumau/model/ActionHandler.java:188-190 | under the invariant there is a top card in PLAY and CHOOSE_SUIT |
| Rules.ActionHandler.ChooseCard | src/cards/maumau/model/ActionHandler.java:65-105 | given a top card whenever cards are played, the new state is `PlayCard` of the old one; the game invariant is kept |
| Rules.ActionHandler.PlaceCard | src/cards/maumau/model/ActionHandler.java:74-85 | the card leaves the hand and becomes the top card; a missed Mau is flagged; a satisfied suit restriction is lifted |
| Rules.ActionHandler.ApplyRank | src/cards/maumau/model/ActionHandler.java:87-104 | the new state is the rank dispatch of the old one |
| Rules.ActionHandler.ChooseSuit | src/cards/maumau/model/ActionHandler.java:112-118 | the new state is `PickSuit` of the old one; the invariant is kept |
| Rules.ActionHandler.Skip | src/cards/maumau/model/ActionHandler.java:123-133 | the new state is `SkipTurn` of the old one; the invariant is kept |
| Rules.ActionHandler.No7 | src/cards/maumau/model/ActionHandler.java:138-146 | the new state is `DeclineSevens` of the old one; the invariant is kept |
| Rules.ActionHandler.Mau | src/cards/maumau/model/PlayerHandler.java:124-128 | the new state is `CallMau` of the old one; the invariant is kept |
| Rules.ActionHandler.MauMau | src/cards/maumau/model/PlayerHandler.java:135-139 | the new state is `CallMauMau` of the old one, with `finishGame` run when the sub-machine reports the game over; the invariant is kept |

## Left out

- The `toString` methods of `Card`, `Rank` and `Suit` are not modelled. They only format text.
- `Player`, `CardHandler` and `MauMau` are not part of this model:
  - the hands are a map held by `PlayerHandler`;
  - `dealCards` and the first top card are parameters of `StartGame`;
  - `getCurrentPlayer` on the game is the player handler's current player;
  - `Player.playCard` is taken to put the card on the discard pile, so the played card becomes the top card (`top := Some(c)` in Rules.Played).
- Which cards a draw adds to a hand is not modelled. Drawing is the card collaborator's job. Each draw is logged as `Draw(who, count)` and the hands do not change.
- `Collections.shuffle` draws its random indices from a random source. The source is the parameter `rnd`. Which permutation results is not modelled.
- Java `int` overflow is not modelled.
  - Rules.ActionHandler.Increment7Counter: the counter is a natural number, so it cannot wrap around at 2^31.
  - Rules.ActionHandler.No7: `ctr7 * 2` is unbounded for the same reason.
- `getPlayers`, `getRanking` and `getGame` are read through the fields of the snapshot. They are not separate members.
- Rules.EnrollKeepsInv needs the new player not to be ranked already. The ranking can be non-empty before the start, because `maumau` is not gated on the lifecycle state (PlayerHandler.java:45-47). Rules.ReEnrollAfterFinish shows that without this condition the invariant is lost.
- Rules.ActionHandler.AddPlayer does not state that it keeps the invariant, for the reason above.
- Rules.ActionHandler.ChooseCard requires only a top card while cards are played. `canPlay` reads the top card (ActionHandler.java:211), and the card collaborator always supplies one after the start. The full invariant is not required.
- Rules.ActionHandler.Mau and Rules.ActionHandler.MauMau: the source forwards `mau`/`maumau` to `PlayerHandler` from the game object, `MauMau`, which is not part of this model. These two members compose that forwarding with the `finishGame` callback.

## Behaviour of the code that the model keeps

- `no7` does not advance the turn (ActionHandler.java:138-146). It only draws and resets the counter, so it is not an arming step for the penalty (Rules.DeclineSevensEffect).
- `mau` and `maumau` check the current player and the hand (PlayerHandler.java:124-139). In the Mau state `maumau` also checks that the caller is the remembered announcer (PlayerHandler.java:73). They do not check the lifecycle state, so a `maumau` in GAME_CANCELED can still end in GAME_OVER.
- A suit chosen after a JACK stays in force until a card of that suit is played (ActionHandler.java:84-85). Under a restriction only cards of that suit are legal (ActionHandler.java:205-206), so a JACK played then is of that suit and has already lifted it by lines 84-85. The reset at ActionHandler.java:97 changes nothing in that case (Rules.SuitRestrictionLifted).
- A missed-Mau penalty is paid the first time the player becomes current at an advance after the one that armed it (PlayerHandler.java:104-116). With the usual advance by one, that is the player's next turn (Turns.PenaltyDelay).
- In the default state every legal play that leaves one card flags the player (ActionHandler.java:78-80). `mau` accepts only a hand of exactly one card (PlayerHandler.java:38) and only from the current player (PlayerHandler.java:125), so nobody can have announced before the check (Rules.DefaultStatePlayFlags).
- `flagMissedMau` overwrites an outstanding record on another player (PlayerHandler.java:171-174). That player's penalty is silently dropped (Turns.FlagDropsOtherRecord).
