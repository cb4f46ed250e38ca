/**
 * The game state machine of Mau-Mau (`ActionHandler`): the lifecycle state,
 * the sevens-chain counter, the suit restriction after a Jack, the legality
 * predicate and the rank-specific effects of a play. Turn order, the Mau
 * protocol and the ranking are delegated to the turn sub-machine (`Turns`).
 *
 * As in `Turns`, pure functions describe every action on a snapshot (`Game`)
 * and the class `ActionHandler` performs the actions in place, proved
 * against those functions.
 */
module Rules {
  import opened Optional
  import opened Cards
  import opened Turns

  datatype GameState = GameInitialized | Play | ChooseSuit | GameOver | GameCanceled

  /** The outcome of registering a player: added, or one of the two usage faults. */
  datatype AddResult = Added | GameStarted | DuplicateName

  /** A snapshot of the game: the handler's own fields, the discard top and the turn sub-machine. */
  datatype Game = Game(state: GameState, chosenSuit: Option<Suit>, ctr7: nat, top: Option<Card>, turns: TurnState)

  const InitialGame: Game := Game(GameInitialized, None, 0, None, Initial)

  /** The discard pile has a top card whenever cards are being played. */
  predicate Ready(g: Game)
  {
    (g.state == Play || g.state == ChooseSuit) ==> g.top.Some?
  }

  /**
   * The invariant of the game: the turn sub-machine's invariant, a top card
   * in play, no sevens chain while a suit is being chosen, and no suit
   * restriction while a sevens chain is pending.
   */
  ghost predicate GameInv(g: Game)
  {
    && Wf(g.turns)
    && Ready(g)
    && (g.state == ChooseSuit ==> g.ctr7 == 0)
    && (g.ctr7 > 0 ==> g.chosenSuit == None)
  }

  /**
   * `canPlay(c)`: false outside PLAY; in PLAY a pending sevens chain admits
   * only a SEVEN, else a chosen suit admits only that suit, else a JACK is
   * always legal and any other card must match the top card's suit or rank.
   */
  function CanPlay(state: GameState, ctr7: nat, chosenSuit: Option<Suit>, top: Option<Card>, c: Card): (r: bool)
    requires state == Play ==> top.Some?
    ensures r ==> state == Play
    ensures state == Play && ctr7 > 0 ==> (r <==> c.rank == Seven)
    ensures state == Play && ctr7 == 0 && chosenSuit.Some? ==> (r <==> c.suit == chosenSuit.value)
    ensures state == Play && ctr7 == 0 && chosenSuit.None? ==>
      (r <==> c.rank == Jack || c.suit == top.value.suit || c.rank == top.value.rank)
  {
    if state != Play then false
    else if ctr7 > 0 then c.rank == Seven
    else if chosenSuit.Some? then c.suit == chosenSuit.value
    else if c.rank == Jack then true
    else c.suit == top.value.suit || c.rank == top.value.rank
  }

  /** Every guard of `chooseCard(c)` holds: PLAY, a current player holding `c`, and `canPlay(c)`. */
  predicate LegalPlay(g: Game, c: Card)
  {
    && g.state == Play
    && g.top.Some?
    && g.turns.queue != []
    && c in HandOf(g.turns, g.turns.queue[0])
    && CanPlay(g.state, g.ctr7, g.chosenSuit, g.top, c)
  }

  /** The rank-specific effect after a legal play. */
  function Dispatch(g: Game, r: Rank): Game
  {
    match r
    case Seven => g.(ctr7 := g.ctr7 + 1, turns := Advance(g.turns, 1))
    case Eight => g.(ctr7 := 0, turns := Advance(g.turns, 2))
    case Jack => g.(chosenSuit := None, state := ChooseSuit)
    case _ => g.(ctr7 := 0, turns := Advance(g.turns, 1))
  }

  /**
   * The part of a legal `chooseCard(c)` before the rank dispatch: the card
   * leaves the current player's hand and becomes the top card, a player left
   * with one card who has not called Mau is flagged, and a satisfied suit
   * restriction is lifted.
   */
  function Played(g: Game, c: Card): Game
    requires g.turns.queue != []
  {
    var p := g.turns.queue[0];
    var t1 := PlayFrom(g.turns, p, c);
    var t2 := if |HandOf(t1, p)| == 1 && !Announced(t1, p) then Flag(t1, p) else t1;
    var suit := if g.chosenSuit.Some? && c.suit == g.chosenSuit.value then None else g.chosenSuit;
    g.(turns := t2, top := Some(c), chosenSuit := suit)
  }

  /** `chooseCard(c)`: a no-op unless `LegalPlay`; otherwise `Played` and then the rank dispatch. */
  function PlayCard(g: Game, c: Card): Game
  {
    if !LegalPlay(g, c) then g else Dispatch(Played(g, c), c.rank)
  }

  /** `chooseSuit(s)`: only in CHOOSE_SUIT; set the restriction, back to PLAY, advance by one. */
  function PickSuit(g: Game, s: Suit): Game
  {
    if g.state != ChooseSuit then g
    else g.(chosenSuit := Some(s), state := Play, turns := Advance(g.turns, 1))
  }

  /** `skip()`: only in PLAY without a sevens chain; the current player draws one card and the turn advances. */
  function SkipTurn(g: Game): Game
  {
    if g.state != Play || g.ctr7 > 0 || g.turns.queue == [] then g
    else g.(turns := Advance(DrawnBy(g.turns, g.turns.queue[0], 1), 1))
  }

  /** `no7()`: only in PLAY with a sevens chain; the current player draws two cards per seven, the chain ends. */
  function DeclineSevens(g: Game): Game
  {
    if g.state != Play || g.ctr7 == 0 || g.turns.queue == [] then g
    else g.(turns := DrawnBy(g.turns, g.turns.queue[0], 2 * g.ctr7), ctr7 := 0)
  }

  /** `addPlayer(p)`: refused once the game has left GAME_INITIALIZED, and for a duplicate name. */
  ghost function Enroll(g: Game, p: Player): (Game, AddResult)
  {
    if g.state != GameInitialized then (g, GameStarted)
    else if NameTaken(g.turns, p.name) then (g, DuplicateName)
    else (g.(turns := Register(g.turns, p)), Added)
  }

  /** `startGame()`: only from GAME_INITIALIZED; the cards are dealt and play begins. */
  function Start(g: Game, dealt: map<Player, multiset<Card>>, firstTop: Card): Game
  {
    if g.state != GameInitialized then g
    else g.(turns := Deal(g.turns, dealt), top := Some(firstTop), state := Play)
  }

  /** `mau(p)`, delegated to the turn sub-machine. */
  function CallMau(g: Game, p: Player): Game
  {
    g.(turns := Announce(g.turns, p))
  }

  /** `maumau(p)`, delegated to the turn sub-machine, which calls `finishGame` when the game is over. */
  function CallMauMau(g: Game, p: Player): Game
  {
    var (t, over) := MauMauStep(g.turns, p);
    if over then g.(turns := t, state := GameOver) else g.(turns := t)
  }

  // ---------------------------------------------------------------------
  // Properties of single actions
  // ---------------------------------------------------------------------

  /** While a sevens chain is pending an EIGHT is never legal: the EIGHT branch's counter reset is defensive. */
  lemma EightResetIsDefensive(g: Game, c: Card)
    requires LegalPlay(g, c) && c.rank == Eight
    ensures g.ctr7 == 0
  {
  }

  /** `chooseCard(c)` changes nothing unless every guard holds. */
  lemma PlayGuarded(g: Game, c: Card)
    ensures !LegalPlay(g, c) ==> PlayCard(g, c) == g
  {
  }

  /**
   * After a legal play: the card has left the current player's hand and is
   * on top; SEVEN lengthens the chain and advances one turn, EIGHT resets it
   * and advances two, JACK moves to CHOOSE_SUIT without advancing, any other
   * rank resets the chain and advances one.
   */
  lemma PlayDispatch(g: Game, c: Card)
    requires LegalPlay(g, c)
    ensures PlayCard(g, c).top == Some(c)
    ensures PlayCard(g, c).turns.hands[g.turns.queue[0]] == HandOf(g.turns, g.turns.queue[0]) - multiset{c}
    ensures PlayCard(g, c).turns.ranking == g.turns.ranking
    ensures c.rank == Seven ==>
      PlayCard(g, c).ctr7 == g.ctr7 + 1 && PlayCard(g, c).state == Play &&
      PlayCard(g, c).turns.queue == Rotated(g.turns.queue, 1)
    ensures c.rank == Eight ==>
      PlayCard(g, c).ctr7 == 0 && PlayCard(g, c).state == Play &&
      PlayCard(g, c).turns.queue == Rotated(g.turns.queue, 2)
    ensures c.rank == Jack ==>
      PlayCard(g, c).state == ChooseSuit && PlayCard(g, c).chosenSuit == None &&
      PlayCard(g, c).ctr7 == g.ctr7 && PlayCard(g, c).turns.queue == g.turns.queue
    ensures c.rank != Seven && c.rank != Eight && c.rank != Jack ==>
      PlayCard(g, c).ctr7 == 0 && PlayCard(g, c).state == Play &&
      PlayCard(g, c).turns.queue == Rotated(g.turns.queue, 1)
  {
  }

  /**
   * A legal play that leaves the player one card without a Mau call flags
   * them before the turn advances, and that advance does not yet draw;
   * the record is armed unless the play was a JACK (which does not advance).
   */
  lemma PlayFlagsMissedMau(g: Game, c: Card)
    requires LegalPlay(g, c)
    requires |HandOf(g.turns, g.turns.queue[0]) - multiset{c}| == 1 && !Announced(g.turns, g.turns.queue[0])
    ensures PlayCard(g, c).turns.penalized == Some(g.turns.queue[0])
    ensures PlayCard(g, c).turns.draws == g.turns.draws
    ensures PlayCard(g, c).turns.armed <==> c.rank != Jack
  {
    var p := g.turns.queue[0];
    var t1 := PlayFrom(g.turns, p, c);
    assert HandOf(t1, p) == HandOf(g.turns, p) - multiset{c};
    if c.rank != Jack {
      FlagThenAdvance(t1, p, if c.rank == Eight then 2 else 1);
    }
  }

  /**
   * In the default state nobody can have announced Mau before the play: `mau`
   * accepts only a one-card hand of the current player. So every legal play
   * that leaves one card flags the player.
   */
  lemma DefaultStatePlayFlags(g: Game, c: Card)
    requires LegalPlay(g, c) && g.turns.phase == DefaultState
    requires |HandOf(g.turns, g.turns.queue[0]) - multiset{c}| == 1
    ensures Played(g, c).turns.penalized == Some(g.turns.queue[0])
    ensures PlayCard(g, c).turns.penalized == Some(g.turns.queue[0])
  {
    PlayFlagsMissedMau(g, c);
  }

  /**
   * The suit restriction survives until a card of that suit is played: every
   * legal play under a restriction is of that suit and lifts it, and no other
   * action but choosing a suit changes it.
   */
  lemma SuitRestrictionLifted(g: Game, c: Card, s: Suit)
    requires g.chosenSuit == Some(s)
    ensures LegalPlay(g, c) ==> c.suit == s || c.rank == Seven
    ensures LegalPlay(g, c) && c.suit == s ==> PlayCard(g, c).chosenSuit == None
    ensures LegalPlay(g, c) && c.suit != s ==> PlayCard(g, c).chosenSuit == Some(s)
    ensures LegalPlay(g, c) && c.rank == Jack ==> c.suit == s && PlayCard(g, c).chosenSuit == None
    ensures SkipTurn(g).chosenSuit == Some(s) && DeclineSevens(g).chosenSuit == Some(s)
  {
  }

  /** `chooseSuit(s)` acts only in CHOOSE_SUIT: it sets the suit, returns to PLAY and advances exactly one turn. */
  lemma PickSuitEffect(g: Game, s: Suit)
    ensures g.state != ChooseSuit ==> PickSuit(g, s) == g
    ensures g.state == ChooseSuit ==>
      PickSuit(g, s).chosenSuit == Some(s) && PickSuit(g, s).state == Play &&
      PickSuit(g, s).turns.queue == Rotated(g.turns.queue, 1) && PickSuit(g, s).ctr7 == g.ctr7
  {
  }

  /** While a JACK's suit is being chosen no card can be played. */
  lemma NoPlayWhileChoosing(g: Game, c: Card)
    requires g.state == ChooseSuit
    ensures PlayCard(g, c) == g
  {
  }

  /**
   * `skip()` acts only in PLAY without a sevens chain: the current player
   * draws exactly one card (logged before any penalty draw) and the turn
   * advances by one.
   */
  lemma SkipEffect(g: Game)
    ensures g.state != Play || g.ctr7 > 0 || g.turns.queue == [] ==> SkipTurn(g) == g
    ensures g.state == Play && g.ctr7 == 0 && g.turns.queue != [] ==>
      SkipTurn(g).turns.queue == Rotated(g.turns.queue, 1) &&
      |g.turns.draws| + 1 <= |SkipTurn(g).turns.draws| <= |g.turns.draws| + 2 &&
      SkipTurn(g).turns.draws[..|g.turns.draws| + 1] == g.turns.draws + [Draw(g.turns.queue[0], 1)] &&
      SkipTurn(g).state == Play && SkipTurn(g).ctr7 == 0
  {
    if g.state == Play && g.ctr7 == 0 && g.turns.queue != [] {
      var t1 := DrawnBy(g.turns, g.turns.queue[0], 1);
      AdvanceDraws(t1, 1);
    }
  }

  /**
   * `no7()` acts only in PLAY with a pending chain: the current player draws
   * two cards per seven, the counter returns to 0, and the current player
   * stays the same.
   */
  lemma DeclineSevensEffect(g: Game)
    ensures g.state != Play || g.ctr7 == 0 || g.turns.queue == [] ==> DeclineSevens(g) == g
    ensures g.state == Play && g.ctr7 > 0 && g.turns.queue != [] ==>
      DeclineSevens(g).turns.draws == g.turns.draws + [Draw(g.turns.queue[0], 2 * g.ctr7)] &&
      DeclineSevens(g).ctr7 == 0 && DeclineSevens(g).turns.queue == g.turns.queue &&
      DeclineSevens(g).state == Play
    ensures DeclineSevens(g).turns.penalized == g.turns.penalized && DeclineSevens(g).turns.armed == g.turns.armed
  {
  }

  /**
   * Registration fails with a usage fault after the game has started and on
   * a duplicate name; otherwise it appends the player and changes nothing else.
   */
  lemma EnrollEffect(g: Game, p: Player)
    ensures Enroll(g, p).1 == GameStarted <==> g.state != GameInitialized
    ensures Enroll(g, p).1 == DuplicateName <==> g.state == GameInitialized && NameTaken(g.turns, p.name)
    ensures Enroll(g, p).1 != Added ==> Enroll(g, p).0 == g
    ensures Enroll(g, p).1 == Added ==> Enroll(g, p).0 == g.(turns := g.turns.(queue := g.turns.queue + [p]))
  {
  }

  /** `startGame()` acts only from GAME_INITIALIZED and then enters PLAY with a top card. */
  lemma StartEffect(g: Game, dealt: map<Player, multiset<Card>>, firstTop: Card)
    ensures g.state != GameInitialized ==> Start(g, dealt, firstTop) == g
    ensures g.state == GameInitialized ==>
      Start(g, dealt, firstTop).state == Play && Start(g, dealt, firstTop).top == Some(firstTop) &&
      Start(g, dealt, firstTop).turns.queue == g.turns.queue
  {
  }

  /**
   * Once the game is over or cancelled no card, suit, skip, "no 7" or start
   * changes anything and registration is refused as after the start.
   */
  lemma TerminalStatesFreeze(g: Game, c: Card, s: Suit, p: Player, dealt: map<Player, multiset<Card>>, firstTop: Card)
    requires g.state == GameOver || g.state == GameCanceled
    ensures PlayCard(g, c) == g && PickSuit(g, s) == g && SkipTurn(g) == g && DeclineSevens(g) == g
    ensures Start(g, dealt, firstTop) == g
    ensures Enroll(g, p) == (g, GameStarted)
  {
  }

  /**
   * `maumau(p)` ends the game exactly when it finishes `p` and at most one
   * player is then left; the ranking then holds the old ranking followed by
   * the whole old queue.
   */
  lemma GameOverExactly(g: Game, p: Player)
    ensures CallMauMau(g, p).state == GameOver <==>
      g.state == GameOver || (MayFinish(g.turns, p) && |g.turns.queue| <= 2)
    ensures CallMauMau(g, p).state != GameOver ==> CallMauMau(g, p).state == g.state
    ensures MayFinish(g.turns, p) && |g.turns.queue| <= 2 ==>
      CallMauMau(g, p).turns.queue == [] && CallMauMau(g, p).turns.ranking == g.turns.ranking + g.turns.queue
  {
    if MayFinish(g.turns, p) {
      assert g.turns.queue == [p] + g.turns.queue[1..];
      assert Remove(g.turns.queue, p) == g.turns.queue[1..];
      assert g.turns.ranking + [p] + g.turns.queue[1..] == g.turns.ranking + g.turns.queue;
    }
  }

  /**
   * Before the start a player with an empty hand can finish by `maumau` and
   * then be registered again, since the name check scans only the queue: the
   * player is then both ranked and queued, and the invariant is lost.
   */
  lemma ReEnrollAfterFinish(g: Game, a: Player)
    requires GameInv(g) && g.state == GameInitialized && g.turns.phase == DefaultState
    requires |g.turns.queue| >= 3 && g.turns.queue[0] == a && HandOf(g.turns, a) == multiset{}
    requires forall i :: 1 <= i < |g.turns.queue| ==> g.turns.queue[i].name != a.name
    ensures CallMauMau(g, a).state == GameInitialized
    ensures a in CallMauMau(g, a).turns.ranking && a !in CallMauMau(g, a).turns.queue
    ensures Enroll(CallMauMau(g, a), a).1 == Added
    ensures !GameInv(Enroll(CallMauMau(g, a), a).0)
  {
    MauMauEffect(g.turns, a);
    var g1 := CallMauMau(g, a);
    assert g1.turns.queue == g.turns.queue[1..];
    assert g1.turns.ranking == g.turns.ranking + [a];
    var g2 := Enroll(g1, a).0;
    assert g2.turns.queue == g1.turns.queue + [a];
    assert multiset(g2.turns.ranking)[a] >= 1;
    assert multiset(g2.turns.queue)[a] >= 1;
    assert Members(g2.turns)[a] >= 2;
  }

  /**
   * A top card is there whenever cards are played, from the start on, whatever
   * actions follow: no action leaves PLAY or CHOOSE_SUIT without one.
   */
  lemma ReadyKept(g: Game, c: Card, s: Suit, p: Player, dealt: map<Player, multiset<Card>>, firstTop: Card)
    requires Ready(g)
    ensures Ready(PlayCard(g, c)) && Ready(PickSuit(g, s)) && Ready(SkipTurn(g)) && Ready(DeclineSevens(g))
    ensures Ready(Enroll(g, p).0) && Ready(Start(g, dealt, firstTop))
    ensures Ready(CallMau(g, p)) && Ready(CallMauMau(g, p))
    ensures Ready(g.(state := GameOver)) && Ready(g.(state := GameCanceled)) && Ready(g.(ctr7 := 0))
  {
  }

  // ---------------------------------------------------------------------
  // The invariant is kept by every action
  // ---------------------------------------------------------------------

  lemma PlayedKeepsInv(g: Game, c: Card)
    requires GameInv(g) && LegalPlay(g, c)
    ensures Wf(Played(g, c).turns) && Members(Played(g, c).turns) == Members(g.turns)
    ensures Played(g, c).state == Play && Played(g, c).ctr7 == g.ctr7 && Played(g, c).top.Some?
    ensures c.rank == Seven ==> Played(g, c).chosenSuit == None
    ensures c.rank == Jack ==> g.ctr7 == 0
    ensures g.ctr7 > 0 ==> Played(g, c).chosenSuit == None
  {
    var p := g.turns.queue[0];
    var t1 := PlayFrom(g.turns, p, c);
    assert Members(t1) == Members(g.turns);
    FlagKeepsWf(t1, p);
  }

  lemma PlayKeepsInv(g: Game, c: Card)
    requires GameInv(g)
    ensures GameInv(PlayCard(g, c))
    ensures Members(PlayCard(g, c).turns) == Members(g.turns)
  {
    if LegalPlay(g, c) {
      PlayedKeepsInv(g, c);
      var h := Played(g, c);
      match c.rank {
        case Eight => AdvanceKeepsWf(h.turns, 2);
        case Jack =>
        case _ => AdvanceKeepsWf(h.turns, 1);
      }
    }
  }

  lemma PickSuitKeepsInv(g: Game, s: Suit)
    requires GameInv(g)
    ensures GameInv(PickSuit(g, s))
    ensures Members(PickSuit(g, s).turns) == Members(g.turns)
  {
    AdvanceKeepsWf(g.turns, 1);
  }

  lemma SkipKeepsInv(g: Game)
    requires GameInv(g)
    ensures GameInv(SkipTurn(g))
    ensures Members(SkipTurn(g).turns) == Members(g.turns)
  {
    if g.state == Play && g.ctr7 == 0 && g.turns.queue != [] {
      var t1 := DrawnBy(g.turns, g.turns.queue[0], 1);
      assert Members(t1) == Members(g.turns);
      AdvanceKeepsWf(t1, 1);
    }
  }

  lemma DeclineSevensKeepsInv(g: Game)
    requires GameInv(g)
    ensures GameInv(DeclineSevens(g))
    ensures Members(DeclineSevens(g).turns) == Members(g.turns)
  {
    assert Members(DeclineSevens(g).turns) == Members(g.turns);
  }

  lemma EnrollKeepsInv(g: Game, p: Player)
    requires GameInv(g) && p !in g.turns.ranking
    ensures GameInv(Enroll(g, p).0)
  {
    if Enroll(g, p).1 == Added {
      RegisterKeepsWf(g.turns, p);
    }
  }

  lemma StartKeepsInv(g: Game, dealt: map<Player, multiset<Card>>, firstTop: Card)
    requires GameInv(g)
    ensures GameInv(Start(g, dealt, firstTop))
  {
    assert Members(Deal(g.turns, dealt)) == Members(g.turns);
  }

  lemma MauKeepsInv(g: Game, p: Player)
    requires GameInv(g)
    ensures GameInv(CallMau(g, p))
  {
    AnnounceEffect(g.turns, p);
  }

  lemma MauMauKeepsInv(g: Game, p: Player)
    requires GameInv(g)
    ensures GameInv(CallMauMau(g, p))
    ensures Members(CallMauMau(g, p).turns) == Members(g.turns)
  {
    MauMauEffect(g.turns, p);
  }

  // ---------------------------------------------------------------------
  // The handler object
  // ---------------------------------------------------------------------

  class ActionHandler {
    /** The game's turn sub-machine (`game.getPlayerHandler()`). */
    const playerHandler: PlayerHandler
    var chosenSuit: Option<Suit>
    var ctr7: nat
    var state: GameState
    /** The discard pile's top card (`game.getCardHandler().top()`). */
    var top: Option<Card>

    ghost function Model(): Game
      reads this, playerHandler
    {
      Game(state, chosenSuit, ctr7, top, playerHandler.Model())
    }

    ghost predicate Valid()
      reads this, playerHandler
    {
      GameInv(Model())
    }

    constructor ()
      ensures Model() == InitialGame && Valid()
      ensures fresh(playerHandler)
    {
      playerHandler := new PlayerHandler();
      chosenSuit, ctr7, state, top := None, 0, GameInitialized, None;
    }

    /** `addPlayer(p)`. */
    method AddPlayer(p: Player) returns (r: AddResult)
      modifies playerHandler
      ensures (Model(), r) == Enroll(old(Model()), p)
    {
      if state != GameInitialized {
        return GameStarted;
      }
      var ok := playerHandler.AddPlayer(p);
      r := if ok then Added else DuplicateName;
    }

    /** `startGame()`; the cards the card collaborator deals and turns up are parameters. */
    method StartGame(dealt: map<Player, multiset<Card>>, firstTop: Card)
      modifies this, playerHandler
      ensures Model() == Start(old(Model()), dealt, firstTop)
      ensures old(Valid()) ==> Valid()
    {
      if Valid() { StartKeepsInv(Model(), dealt, firstTop); }
      if state != GameInitialized {
        return;
      }
      playerHandler.DealCards(dealt);
      top := Some(firstTop);
      state := Play;
    }

    /** `finishGame()`. */
    method FinishGame()
      modifies this
      ensures Model() == old(Model()).(state := GameOver)
    {
      state := GameOver;
    }

    /** `cancelGame()`. */
    method CancelGame()
      modifies this
      ensures Model() == old(Model()).(state := GameCanceled)
    {
      state := GameCanceled;
    }

    /** `reset7Counter()`. */
    method Reset7Counter()
      modifies this
      ensures Model() == old(Model()).(ctr7 := 0)
    {
      ctr7 := 0;
    }

    /** `increment7Counter()`. */
    method Increment7Counter()
      modifies this
      ensures Model() == old(Model()).(ctr7 := old(ctr7) + 1)
    {
      ctr7 := ctr7 + 1;
    }

    /** `getChosenSuit()`: under the invariant a restriction never coexists with a sevens chain. */
    function GetChosenSuit(): (s: Option<Suit>)
      reads this, playerHandler
      ensures Valid() && s.Some? ==> ctr7 == 0
    {
      chosenSuit
    }

    /** `get7Counter()`: under the invariant a pending chain means no suit is pending or being chosen. */
    function Get7Counter(): (n: nat)
      reads this, playerHandler
      ensures Valid() && n > 0 ==> chosenSuit == None && state != GameState.ChooseSuit
    {
      ctr7
    }

    /** `getGameState()`: under the invariant there is a top card whenever cards are played. */
    function GetGameState(): (s: GameState)
      reads this, playerHandler
      ensures Valid() && (s == Play || s == GameState.ChooseSuit) ==> top.Some?
    {
      state
    }

    /** `chooseCard(c)`. */
    method ChooseCard(c: Card)
      requires Ready(Model())
      modifies this, playerHandler
      ensures Model() == PlayCard(old(Model()), c)
      ensures old(Valid()) ==> Valid()
    {
      if Valid() { PlayKeepsInv(Model(), c); }
      if state != Play {
        return;
      }
      var current := playerHandler.CurrentPlayer();
      if current.None? || c !in playerHandler.Hand(current.value) {
        return;
      }
      if !CanPlay(state, ctr7, chosenSuit, top, c) {
        return;
      }
      PlaceCard(current.value, c);
      ApplyRank(c.rank);
    }

    /** The part of `chooseCard(c)` before the rank dispatch, for the current player `p`. */
    method PlaceCard(p: Player, c: Card)
      requires playerHandler.players != [] && p == playerHandler.players[0]
      modifies this, playerHandler
      ensures Model() == Played(old(Model()), c)
    {
      playerHandler.PlayCard(p, c);
      top := Some(c);
      if |playerHandler.Hand(p)| == 1 && !playerHandler.DidCallMau(p) {
        playerHandler.FlagMissedMau(p);
      }
      if chosenSuit.Some? && c.suit == chosenSuit.value {
        chosenSuit := None;
      }
    }

    /** The rank dispatch of `chooseCard(c)`. */
    method ApplyRank(r: Rank)
      modifies this, playerHandler
      ensures Model() == Dispatch(old(Model()), r)
    {
      match r {
        case Seven =>
          Increment7Counter();
          playerHandler.NextTurn(1);
        case Eight =>
          Reset7Counter();
          playerHandler.NextTurn(2);
        case Jack =>
          chosenSuit := None;
          state := GameState.ChooseSuit;
        case _ =>
          Reset7Counter();
          playerHandler.NextTurn(1);
      }
    }

    /** `chooseSuit(s)`. */
    method ChooseSuit(s: Suit)
      modifies this, playerHandler
      ensures Model() == PickSuit(old(Model()), s)
      ensures old(Valid()) ==> Valid()
    {
      if Valid() { PickSuitKeepsInv(Model(), s); }
      if state != GameState.ChooseSuit {
        return;
      }
      chosenSuit := Some(s);
      state := Play;
      playerHandler.NextTurn(1);
    }

    /** `skip()`. */
    method Skip()
      modifies this, playerHandler
      ensures Model() == SkipTurn(old(Model()))
      ensures old(Valid()) ==> Valid()
    {
      if Valid() { SkipKeepsInv(Model()); }
      if state != Play || ctr7 > 0 {
        return;
      }
      var current := playerHandler.CurrentPlayer();
      if current.None? {
        return;
      }
      playerHandler.DrawCards(current.value, 1);
      playerHandler.NextTurn(1);
    }

    /** `no7()`. */
    method No7()
      modifies this, playerHandler
      ensures Model() == DeclineSevens(old(Model()))
      ensures old(Valid()) ==> Valid()
    {
      if Valid() { DeclineSevensKeepsInv(Model()); }
      if state != Play || ctr7 == 0 {
        return;
      }
      var current := playerHandler.CurrentPlayer();
      if current.None? {
        return;
      }
      playerHandler.DrawCards(current.value, ctr7 * 2);
      Reset7Counter();
    }

    /** `mau(p)` on the turn sub-machine. */
    method Mau(p: Player)
      modifies playerHandler
      ensures Model() == CallMau(old(Model()), p)
      ensures old(Valid()) ==> Valid()
    {
      if Valid() { MauKeepsInv(Model(), p); }
      playerHandler.Mau(p);
    }

    /** `maumau(p)` on the turn sub-machine, with its `finishGame` callback. */
    method MauMau(p: Player)
      modifies this, playerHandler
      ensures Model() == CallMauMau(old(Model()), p)
      ensures old(Valid()) ==> Valid()
    {
      if Valid() { MauMauKeepsInv(Model(), p); }
      var over := playerHandler.MauMau(p);
      if over {
        FinishGame();
      }
    }
  }
}
