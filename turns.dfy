/**
 * The turn/ranking sub-machine of a Mau-Mau game (`PlayerHandler`): the turn
 * queue whose front is the current player, the finish-order ranking, the
 * nested two-state "Mau" machine, the delayed missed-Mau penalty and the
 * finishing of players.
 *
 * The pure functions below describe each operation on a snapshot of the
 * handler's fields (`TurnState`); the class `PlayerHandler` at the end keeps
 * the fields and updates them in place, and each of its methods is proved to
 * produce the snapshot the corresponding function describes.
 */
module Turns {
  import opened Optional
  import opened Cards

  /**
   * A player object. Java compares players by reference; two distinct
   * objects are told apart by `id`. The name is what duplicate detection
   * compares.
   */
  datatype Player = Player(id: nat, name: string)

  /** The two states of the nested Mau machine. */
  datatype MauPhase = DefaultState | MauState

  /** One call of `drawCards(count)` on `who`. */
  datatype Draw = Draw(who: Player, count: nat)

  /** A snapshot of the handler's fields, plus the hands of the players and the log of draws. */
  datatype TurnState = TurnState(
    queue: seq<Player>,
    ranking: seq<Player>,
    phase: MauPhase,
    remember: Option<Player>,
    penalized: Option<Player>,
    armed: bool,
    hands: map<Player, multiset<Card>>,
    draws: seq<Draw>)

  /** The handler as constructed: nobody registered, Mau machine in its default state. */
  const Initial: TurnState := TurnState([], [], DefaultState, None, None, false, map[], [])

  /** `getCurrentPlayer`: the front of the queue, if any. */
  function CurrentOf(q: seq<Player>): Option<Player>
  {
    if q == [] then None else Some(q[0])
  }

  /** The cards player `p` holds. */
  function HandOf(t: TurnState, p: Player): multiset<Card>
  {
    if p in t.hands then t.hands[p] else multiset{}
  }

  /** Every registered player, in the queue or in the ranking. */
  function Members(t: TurnState): multiset<Player>
  {
    multiset(t.queue) + multiset(t.ranking)
  }

  /**
   * The invariant of the sub-machine: queue and ranking are disjoint and
   * hold no player twice; the default state remembers nobody; a remembered
   * announcer is still in the queue.
   */
  ghost predicate Wf(t: TurnState)
  {
    && (forall p :: Members(t)[p] <= 1)
    && (t.phase == DefaultState ==> t.remember == None)
    && (t.remember.Some? ==> t.remember.value in t.queue)
  }

  // ---------------------------------------------------------------------
  // Turn rotation
  // ---------------------------------------------------------------------

  /** Java's `a % b` for b > 0: the remainder truncated toward zero, negative for negative `a`. */
  function JavaRem(a: int, b: int): (r: int)
    requires b > 0
    ensures -b < r < b
  {
    if a >= 0 then a % b else -((-a) % b)
  }

  /** The rotation distance `((n % size) + size) % size` of `localNextTurn`. */
  function Normalize(n: int, size: nat): (k: nat)
    requires size > 0
    ensures k < size
  {
    (JavaRem(n, size) + size) % size
  }

  /** Rotate left by `k`: the first `k` players move to the back, in order. */
  function RotateLeft(q: seq<Player>, k: nat): seq<Player>
    requires k <= |q|
  {
    q[k..] + q[..k]
  }

  /** The queue after `localNextTurn(n)`: unchanged when empty, else rotated by the normalized distance. */
  function Rotated(q: seq<Player>, n: int): seq<Player>
  {
    if q == [] then q else RotateLeft(q, Normalize(n, |q|))
  }

  lemma {:induction false} MulAtLeast(m: int, x: int)
    requires m > 0 && x >= 1
    ensures m * x >= m
  {
    if x > 1 {
      MulAtLeast(m, x - 1);
      assert m * x == m * (x - 1) + m;
    }
  }

  /** If `a == m * d + r` with `0 <= r < m` then `a % m == r`. */
  lemma ModUnique(a: int, m: int, d: int, r: int)
    requires m > 0 && 0 <= r < m && a == m * d + r
    ensures a % m == r
  {
    var q, s := a / m, a % m;
    assert a == m * q + s;
    var e := q - d;
    assert m * e == m * q - m * d;
    assert m * e == r - s;
    if e >= 1 {
      MulAtLeast(m, e);
    } else if e <= -1 {
      MulAtLeast(m, -e);
    }
  }

  /**
   * The Java double remainder is the mathematical (Euclidean) modulo, also
   * for negative `n`: the rotation distance never goes backwards.
   */
  lemma NormalizeIsMod(n: int, m: nat)
    requires m > 0
    ensures Normalize(n, m) == n % m
  {
    var j := JavaRem(n, m);
    if n >= 0 {
      ModUnique(j + m, m, 1, j);
    } else {
      var r := (-n) % m;
      var q := (-n) / m;
      assert -n == m * q + r;
      if r == 0 {
        ModUnique(j + m, m, 1, 0);
        ModUnique(n, m, -q, 0);
      } else {
        ModUnique(j + m, m, 0, m - r);
        ModUnique(n, m, -q - 1, m - r);
      }
    }
  }

  /** Rotation keeps the queue's length and its multiset of players. */
  lemma RotatedPermutes(q: seq<Player>, n: int)
    ensures |Rotated(q, n)| == |q|
    ensures multiset(Rotated(q, n)) == multiset(q)
  {
    if q != [] {
      var k := Normalize(n, |q|);
      assert q == q[..k] + q[k..];
    }
  }

  /** Rotating by `k` and then by `size - k` restores the queue. */
  lemma RotateLeftInverse(q: seq<Player>, k: nat)
    requires k <= |q|
    ensures RotateLeft(RotateLeft(q, k), |q| - k) == q
  {
    var r := RotateLeft(q, k);
    assert r[|q| - k..] == q[..k];
    assert r[..|q| - k] == q[k..];
  }

  /** `nextTurn(n)` followed by `nextTurn(size - n)` restores the queue, for every `n`. */
  lemma RotatedInverse(q: seq<Player>, n: int)
    ensures Rotated(Rotated(q, n), |q| - n) == q
  {
    if q != [] {
      var m := |q|;
      var k := Normalize(n, m);
      NormalizeIsMod(n, m);
      NormalizeIsMod(m - n, m);
      RotatedPermutes(q, n);
      assert Rotated(q, n) == RotateLeft(q, k);
      var d := n / m;
      assert n == m * d + k;
      var r := RotateLeft(q, k);
      assert |r| == m;
      if k == 0 {
        ModUnique(m - n, m, 1 - d, 0);
        assert Normalize(m - n, m) == 0;
        assert r == q;
        assert Rotated(r, m - n) == RotateLeft(r, 0) == r;
      } else {
        ModUnique(m - n, m, -d, m - k);
        assert Normalize(m - n, m) == m - k;
        assert Rotated(r, m - n) == RotateLeft(r, m - k);
        RotateLeftInverse(q, k);
      }
    }
  }

  // ---------------------------------------------------------------------
  // Delayed missed-Mau penalty
  // ---------------------------------------------------------------------

  /** The penalty record after one turn advance, and whether the penalized player drew. */
  datatype Arming = Arming(penalized: Option<Player>, armed: bool, drew: bool)

  /**
   * The penalty check that ends `nextTurn`: the penalized player draws only
   * when current and already armed; any other advance arms the record.
   */
  function ArmPenalty(penalized: Option<Player>, armed: bool, current: Option<Player>): (a: Arming)
    ensures a.drew <==> penalized.Some? && current == penalized && armed
    ensures a.drew ==> a.penalized == None
    ensures penalized.Some? && !a.drew ==> a.penalized == penalized && a.armed
    ensures penalized.None? ==> a == Arming(penalized, armed, false)
  {
    if penalized.None? then Arming(penalized, armed, false)
    else if current == penalized then
      if armed then Arming(None, armed, true) else Arming(penalized, true, false)
    else Arming(penalized, true, false)
  }

  /** `flagMissedMau(p)`: record `p` as owing a penalty card, not yet armed. */
  function Flag(t: TurnState, p: Player): TurnState
  {
    t.(penalized := Some(p), armed := false)
  }

  // ---------------------------------------------------------------------
  // Advancing the turn
  // ---------------------------------------------------------------------

  /**
   * `nextTurn(n)`: the current Mau state rotates the queue (the default
   * state also forgets any remembered announcer), then the penalty check runs
   * against the new current player.
   */
  function Advance(t: TurnState, n: int): TurnState
  {
    var q := Rotated(t.queue, n);
    var a := ArmPenalty(t.penalized, t.armed, CurrentOf(q));
    t.(queue := q,
       remember := if t.phase == DefaultState then None else t.remember,
       penalized := a.penalized,
       armed := a.armed,
       draws := if a.drew then t.draws + [Draw(t.penalized.value, 1)] else t.draws)
  }

  /** `didCallMau(p)`: the machine is in its Mau state and remembers `p`. */
  predicate Announced(t: TurnState, p: Player)
  {
    t.phase == MauState && t.remember == Some(p)
  }

  /**
   * An advance rotates the queue as `Rotated` says and touches neither the
   * ranking nor the hands nor the Mau state; it forgets the remembered
   * announcer only in the default state.
   */
  lemma AdvanceEffect(t: TurnState, n: int)
    ensures Advance(t, n).queue == Rotated(t.queue, n)
    ensures Advance(t, n).ranking == t.ranking && Advance(t, n).hands == t.hands
    ensures Advance(t, n).phase == t.phase
    ensures t.phase == DefaultState ==> Advance(t, n).remember == None
    ensures t.phase == MauState ==> Advance(t, n).remember == t.remember
    ensures forall p :: Announced(Advance(t, n), p) <==> Announced(t, p)
  {
  }

  /** Advances keep the invariant and the set of registered players. */
  lemma AdvanceKeepsWf(t: TurnState, n: int)
    requires Wf(t)
    ensures Wf(Advance(t, n))
    ensures Members(Advance(t, n)) == Members(t)
  {
    RotatedPermutes(t.queue, n);
    var u := Advance(t, n);
    assert multiset(u.queue) == multiset(t.queue);
    assert u.ranking == t.ranking;
    assert Members(u) == Members(t);
    if u.remember.Some? {
      assert multiset(u.queue)[u.remember.value] > 0;
    }
  }

  /** `nextTurn(n)` then `nextTurn(size - n)` gives back the original queue and current player. */
  lemma AdvanceRoundTrip(t: TurnState, n: int)
    ensures Advance(Advance(t, n), |t.queue| - n).queue == t.queue
    ensures CurrentOf(Advance(Advance(t, n), |t.queue| - n).queue) == CurrentOf(t.queue)
  {
    RotatedPermutes(t.queue, n);
    RotatedInverse(t.queue, n);
  }

  /**
   * The first advance after flagging never draws: the record stays on the
   * flagged player and is armed from then on.
   */
  lemma FlagThenAdvance(t: TurnState, p: Player, n: int)
    ensures Advance(Flag(t, p), n).draws == t.draws
    ensures Advance(Flag(t, p), n).penalized == Some(p)
    ensures Advance(Flag(t, p), n).armed
  {
  }

  /**
   * An advance draws at most one card, for the penalized player, exactly
   * when that player is the new current player and the record was armed;
   * the record is then cleared.
   */
  lemma AdvanceDraws(t: TurnState, n: int)
    ensures Advance(t, n).draws == t.draws || Advance(t, n).draws == t.draws + [Draw(t.penalized.value, 1)]
    ensures Advance(t, n).draws != t.draws <==>
      t.penalized.Some? && t.armed && CurrentOf(Rotated(t.queue, n)) == t.penalized
    ensures Advance(t, n).draws != t.draws ==> Advance(t, n).penalized == None
  {
    var a := ArmPenalty(t.penalized, t.armed, CurrentOf(Rotated(t.queue, n)));
    if a.drew {
      assert |Advance(t, n).draws| == |t.draws| + 1;
    }
  }

  /**
   * Over a run of advances whose new current players are `cs`, the index of
   * the first advance at which the penalized player draws.
   */
  function FirstDraw(penalized: Option<Player>, armed: bool, cs: seq<Option<Player>>): Option<nat>
    decreases |cs|
  {
    if cs == [] then None
    else
      var a := ArmPenalty(penalized, armed, cs[0]);
      if a.drew then Some(0)
      else
        match FirstDraw(a.penalized, a.armed, cs[1..])
        case None => None
        case Some(k) => Some(k + 1)
  }

  /** `k` is the first index from `from` on at which `p` is current. */
  predicate FirstTurnOf(p: Player, cs: seq<Option<Player>>, from: nat, k: nat)
  {
    from <= k < |cs| && cs[k] == Some(p) && forall j :: from <= j < k ==> cs[j] != Some(p)
  }

  /** `p` is never current from index `from` on. */
  predicate NeverTurnOf(p: Player, cs: seq<Option<Player>>, from: nat)
  {
    forall j :: from <= j < |cs| ==> cs[j] != Some(p)
  }

  /** An armed record draws the first time its player is current. */
  lemma {:induction false} ArmedDrawsAtFirstTurn(p: Player, cs: seq<Option<Player>>)
    ensures FirstDraw(Some(p), true, cs).None? <==> NeverTurnOf(p, cs, 0)
    ensures FirstDraw(Some(p), true, cs).Some? ==> FirstTurnOf(p, cs, 0, FirstDraw(Some(p), true, cs).value)
  {
    if cs != [] && cs[0] != Some(p) {
      ArmedDrawsAtFirstTurn(p, cs[1..]);
      var r := FirstDraw(Some(p), true, cs[1..]);
      if r.Some? {
        var k := r.value;
        forall j | 0 <= j < k + 1 ensures cs[j] != Some(p) {
          if j > 0 { assert cs[j] == cs[1..][j - 1]; }
        }
      } else {
        forall j | 0 <= j < |cs| ensures cs[j] != Some(p) {
          if j > 0 { assert cs[j] == cs[1..][j - 1]; }
        }
      }
      if NeverTurnOf(p, cs, 0) {
        forall j | 0 <= j < |cs[1..]| ensures cs[1..][j] != Some(p) {
          assert cs[1..][j] == cs[j + 1];
        }
      }
    }
  }

  /**
   * A freshly flagged penalty is applied the first time the flagged player
   * is current at some advance after the first one, never at the first
   * advance itself, and not at all if that never happens.
   */
  lemma {:induction false} PenaltyDelay(p: Player, cs: seq<Option<Player>>)
    ensures FirstDraw(Some(p), false, cs) != Some(0)
    ensures FirstDraw(Some(p), false, cs).None? <==> NeverTurnOf(p, cs, 1)
    ensures FirstDraw(Some(p), false, cs).Some? ==> FirstTurnOf(p, cs, 1, FirstDraw(Some(p), false, cs).value)
  {
    if cs != [] {
      ArmedDrawsAtFirstTurn(p, cs[1..]);
      var r := FirstDraw(Some(p), true, cs[1..]);
      assert FirstDraw(Some(p), false, cs) == if r.None? then None else Some(r.value + 1);
      if r.Some? {
        forall j | 1 <= j < r.value + 1 ensures cs[j] != Some(p) {
          assert cs[j] == cs[1..][j - 1];
        }
      } else {
        forall j | 1 <= j < |cs| ensures cs[j] != Some(p) {
          assert cs[j] == cs[1..][j - 1];
        }
      }
      if NeverTurnOf(p, cs, 1) {
        forall j | 0 <= j < |cs[1..]| ensures cs[1..][j] != Some(p) {
          assert cs[1..][j] == cs[j + 1];
        }
      }
    }
  }

  /** A run of advances `nextTurn(ns[0])`, `nextTurn(ns[1])`, ... from `t`. */
  function Run(t: TurnState, ns: seq<int>): TurnState
    decreases |ns|
  {
    if ns == [] then t else Run(Advance(t, ns[0]), ns[1..])
  }

  /** The new current player after each advance of the run. */
  function Currents(t: TurnState, ns: seq<int>): (cs: seq<Option<Player>>)
    decreases |ns|
    ensures |cs| == |ns|
  {
    if ns == [] then [] else
      var u := Advance(t, ns[0]);
      [CurrentOf(u.queue)] + Currents(u, ns[1..])
  }

  /** Without a penalty record nothing is ever drawn. */
  lemma {:induction false} NoRecordNoDraw(armed: bool, cs: seq<Option<Player>>)
    ensures FirstDraw(None, armed, cs) == None
    decreases |cs|
  {
    if cs != [] {
      NoRecordNoDraw(armed, cs[1..]);
    }
  }

  /**
   * `FirstDraw` describes an actual run of advances: after the first `j`
   * advances the log holds one penalty draw for the penalized player exactly
   * when `FirstDraw`, taken over the players that become current, falls
   * before `j`, and nothing else.
   */
  lemma {:induction false} RunDraws(t: TurnState, ns: seq<int>, j: nat)
    requires j <= |ns|
    ensures FirstDraw(t.penalized, t.armed, Currents(t, ns)).Some? ==> t.penalized.Some?
    ensures var f := FirstDraw(t.penalized, t.armed, Currents(t, ns));
      Run(t, ns[..j]).draws == t.draws + (if f.Some? && f.value < j then [Draw(t.penalized.value, 1)] else [])
    decreases |ns|
  {
    if t.penalized.None? {
      NoRecordNoDraw(t.armed, Currents(t, ns));
    }
    if j > 0 {
      var u := Advance(t, ns[0]);
      var a := ArmPenalty(t.penalized, t.armed, CurrentOf(u.queue));
      assert ns[..j][0] == ns[0];
      assert ns[..j][1..] == ns[1..][..j - 1];
      assert Run(t, ns[..j]) == Run(u, ns[1..][..j - 1]);
      var cs := Currents(t, ns);
      assert cs[0] == CurrentOf(u.queue) && cs[1..] == Currents(u, ns[1..]);
      RunDraws(u, ns[1..], j - 1);
      if a.drew {
        NoRecordNoDraw(u.armed, Currents(u, ns[1..]));
      }
    }
  }

  /**
   * After `flagMissedMau(p)` and a run of advances, `p` has drawn exactly one
   * penalty card if and only if `p` became current at some advance after the
   * first one, and none otherwise.
   */
  lemma FlaggedRunDraws(t: TurnState, p: Player, ns: seq<int>)
    ensures var cs := Currents(Flag(t, p), ns);
      Run(Flag(t, p), ns).draws == t.draws + (if NeverTurnOf(p, cs, 1) then [] else [Draw(p, 1)])
  {
    var cs := Currents(Flag(t, p), ns);
    RunDraws(Flag(t, p), ns, |ns|);
    assert ns[..|ns|] == ns;
    PenaltyDelay(p, cs);
  }

  /**
   * `flagMissedMau(p)` overwrites the record: a penalty still owed by another
   * player `q` is dropped, and no run of advances afterwards makes `q` draw.
   */
  lemma FlagDropsOtherRecord(t: TurnState, p: Player, q: Player, ns: seq<int>)
    requires q != p
    ensures Flag(t, p).penalized == Some(p)
    ensures |t.draws| <= |Run(Flag(t, p), ns).draws| <= |t.draws| + 1
    ensures Run(Flag(t, p), ns).draws[..|t.draws|] == t.draws
    ensures forall i :: |t.draws| <= i < |Run(Flag(t, p), ns).draws| ==> Run(Flag(t, p), ns).draws[i].who != q
  {
    FlaggedRunDraws(t, p, ns);
  }

  // ---------------------------------------------------------------------
  // Registration, finishing, Mau and Mau-Mau
  // ---------------------------------------------------------------------

  /** Some player in the queue already has this name. */
  ghost predicate NameTaken(t: TurnState, name: string)
  {
    exists q :: q in t.queue && q.name == name
  }

  /** `addPlayer` when no name clashes: append the player to the queue. */
  function Register(t: TurnState, p: Player): TurnState
  {
    t.(queue := t.queue + [p])
  }

  /** A successful registration adds exactly `p` to the players and keeps the invariant when `p` is new. */
  lemma RegisterKeepsWf(t: TurnState, p: Player)
    requires Wf(t) && p !in t.queue && p !in t.ranking
    ensures Wf(Register(t, p))
    ensures Members(Register(t, p)) == Members(t) + multiset{p}
    ensures CurrentOf(Register(t, p).queue) == if t.queue == [] then Some(p) else CurrentOf(t.queue)
  {
    var u := Register(t, p);
    assert Members(u) == Members(t) + multiset{p};
    if u.remember.Some? {
      assert u.remember.value in t.queue;
    }
  }

  /** The index of the first occurrence of `p` in `s`. */
  function FirstIndex(s: seq<Player>, p: Player): (i: nat)
    requires p in s
    ensures i < |s| && s[i] == p && p !in s[..i]
  {
    if s[0] == p then 0
    else
      var i := FirstIndex(s[1..], p) + 1;
      assert s[..i] == [s[0]] + s[1..][..i - 1];
      i
  }

  /** `players.remove(p)`: drop the first occurrence of `p`. */
  function Remove(s: seq<Player>, p: Player): (r: seq<Player>)
    ensures multiset(r) == multiset(s) - multiset{p}
  {
    if s == [] then []
    else if s[0] == p then (assert s == [s[0]] + s[1..]; s[1..])
    else (assert s == [s[0]] + s[1..]; [s[0]] + Remove(s[1..], p))
  }

  /** `Remove` of a player who is not in the list leaves the list unchanged. */
  lemma {:induction false} RemoveMissing(s: seq<Player>, p: Player)
    requires p !in s
    ensures Remove(s, p) == s
  {
    if s != [] {
      RemoveMissing(s[1..], p);
    }
  }

  /** Dropping index `j + 1` of `x` followed by `t` is `x` followed by `t` without index `j`. */
  lemma DropAfterHead(x: Player, t: seq<Player>, j: nat)
    requires j < |t|
    ensures ([x] + t)[..j + 1] + ([x] + t)[j + 2..] == [x] + (t[..j] + t[j + 1..])
  {
    var s := [x] + t;
    assert s[..j + 1] == [x] + t[..j];
    assert s[j + 2..] == t[j + 1..];
  }

  /**
   * `Remove` is `List.remove(Object)`: exactly the first occurrence of `p`
   * goes and the other players keep their order.
   */
  lemma {:induction false} RemoveFirst(s: seq<Player>, p: Player)
    requires p in s
    ensures Remove(s, p) == s[..FirstIndex(s, p)] + s[FirstIndex(s, p) + 1..]
  {
    if s[0] != p {
      var t := s[1..];
      assert s == [s[0]] + t;
      assert p in t;
      RemoveFirst(t, p);
      var j := FirstIndex(t, p);
      assert FirstIndex(s, p) == j + 1;
      assert Remove(s, p) == [s[0]] + Remove(t, p);
      DropAfterHead(s[0], t, j);
    }
  }

  /** `finishPlayer(p)`: move `p` from the queue to the end of the ranking, dropping a penalty on `p`. */
  function Finish(t: TurnState, p: Player): TurnState
  {
    t.(queue := Remove(t.queue, p),
       ranking := t.ranking + [p],
       penalized := if t.penalized == Some(p) then None else t.penalized)
  }

  /**
   * Finishing keeps the partition of the registered players between queue
   * and ranking: `p` leaves the queue, is appended to the ranking once, and
   * no penalty remains on it.
   */
  lemma FinishPartition(t: TurnState, p: Player)
    requires Wf(t) && p in t.queue
    ensures Members(Finish(t, p)) == Members(t)
    ensures p !in Finish(t, p).queue
    ensures Finish(t, p).ranking == t.ranking + [p]
    ensures Finish(t, p).penalized != Some(p)
    ensures forall x :: Members(Finish(t, p))[x] <= 1
  {
    var u := Finish(t, p);
    assert Members(t)[p] <= 1;
    assert multiset(t.queue)[p] == 1;
    assert multiset(u.queue)[p] == 0;
    assert Members(u) == Members(t);
  }

  /** If at most one player remains, rank the rest and empty the queue; the flag says the game is over. */
  function CloseIfLast(t: TurnState): (TurnState, bool)
  {
    if |t.queue| <= 1 then (t.(ranking := t.ranking + t.queue, queue := []), true) else (t, false)
  }

  /** `mau(p)`: the current player holding exactly one card becomes the remembered announcer. */
  function Announce(t: TurnState, p: Player): TurnState
  {
    if CurrentOf(t.queue) == Some(p) && |HandOf(t, p)| == 1 then t.(remember := Some(p), phase := MauState) else t
  }

  /**
   * `mau(p)` from anybody but the current player, or with a hand that is
   * not a single card, changes nothing; otherwise `didCallMau(p)` holds
   * afterwards. The invariant is kept.
   */
  lemma AnnounceEffect(t: TurnState, p: Player)
    requires Wf(t)
    ensures Wf(Announce(t, p))
    ensures CurrentOf(t.queue) == Some(p) && |HandOf(t, p)| == 1 ==> Announced(Announce(t, p), p)
    ensures !(CurrentOf(t.queue) == Some(p) && |HandOf(t, p)| == 1) ==> Announce(t, p) == t
    ensures Members(Announce(t, p)) == Members(t)
  {
    assert Members(Announce(t, p)) == Members(t);
  }

  /**
   * `maumau(p)`: the current player finishes with an empty hand; in the Mau
   * state only if they are the remembered announcer, after which the
   * announcer is forgotten. The flag reports that at most one player was
   * left and the game is over.
   */
  function MauMauStep(t: TurnState, p: Player): (TurnState, bool)
  {
    if CurrentOf(t.queue) != Some(p) then (t, false)
    else
      match t.phase
      case DefaultState =>
        if |HandOf(t, p)| == 0 then CloseIfLast(Finish(t, p)) else (t, false)
      case MauState =>
        if t.remember == Some(p) && |HandOf(t, p)| == 0 then
          var f := Finish(t, p).(remember := None);
          if |f.queue| <= 1 then CloseIfLast(f) else (f.(phase := DefaultState), false)
        else (t, false)
  }

  /** Whether `maumau(p)` finishes `p`. */
  predicate MayFinish(t: TurnState, p: Player)
  {
    CurrentOf(t.queue) == Some(p) && |HandOf(t, p)| == 0 && (t.phase == MauState ==> t.remember == Some(p))
  }

  /**
   * The outcome of `maumau(p)`. A call that may not finish `p` changes
   * nothing. One that does removes `p` (the front of the queue) and appends
   * it to the ranking; when at most one player is then left, the rest are
   * ranked after it, the queue empties and the game is over, and only then.
   * The invariant and the set of registered players are kept.
   */
  lemma MauMauEffect(t: TurnState, p: Player)
    requires Wf(t)
    ensures !MayFinish(t, p) ==> MauMauStep(t, p) == (t, false)
    ensures MayFinish(t, p) ==> (MauMauStep(t, p).1 <==> |t.queue| <= 2)
    ensures MayFinish(t, p) && MauMauStep(t, p).1 ==>
      MauMauStep(t, p).0.queue == [] && MauMauStep(t, p).0.ranking == t.ranking + t.queue
    ensures MayFinish(t, p) && !MauMauStep(t, p).1 ==>
      MauMauStep(t, p).0.queue == t.queue[1..] && MauMauStep(t, p).0.ranking == t.ranking + [p] &&
      MauMauStep(t, p).0.phase == DefaultState && MauMauStep(t, p).0.remember == None
    ensures MayFinish(t, p) ==> MauMauStep(t, p).0.penalized != Some(p)
    ensures Wf(MauMauStep(t, p).0)
    ensures Members(MauMauStep(t, p).0) == Members(t)
  {
    if MayFinish(t, p) {
      FinishPartition(t, p);
      assert t.queue == [p] + t.queue[1..];
      assert Remove(t.queue, p) == t.queue[1..];
      var (u, over) := MauMauStep(t, p);
      if over {
        assert t.ranking + [p] + t.queue[1..] == t.ranking + t.queue;
        assert Members(u) == Members(Finish(t, p));
      }
    }
  }

  /** A remembered announcer is always a player still in the queue. */
  lemma AnnouncedIsActive(t: TurnState, p: Player)
    requires Wf(t) && Announced(t, p)
    ensures p in t.queue
  {
  }

  /** The flagged player is recorded as unarmed, nothing else changes. */
  lemma FlagKeepsWf(t: TurnState, p: Player)
    requires Wf(t)
    ensures Wf(Flag(t, p)) && Members(Flag(t, p)) == Members(t)
    ensures Flag(t, p).penalized == Some(p) && !Flag(t, p).armed
  {
    assert Members(Flag(t, p)) == Members(t);
  }

  // ---------------------------------------------------------------------
  // Effects of the player collaborator
  // ---------------------------------------------------------------------

  /** `p.playCard(c)`: one copy of `c` leaves `p`'s hand. */
  function PlayFrom(t: TurnState, p: Player, c: Card): TurnState
  {
    t.(hands := t.hands[p := HandOf(t, p) - multiset{c}])
  }

  /** `p.drawCards(n)`: recorded in the draw log. */
  function DrawnBy(t: TurnState, p: Player, n: nat): TurnState
  {
    t.(draws := t.draws + [Draw(p, n)])
  }

  /** `dealCards`: the hands the card collaborator deals. */
  function Deal(t: TurnState, dealt: map<Player, multiset<Card>>): TurnState
  {
    t.(hands := t.hands + dealt)
  }

  // ---------------------------------------------------------------------
  // The handler object
  // ---------------------------------------------------------------------

  class PlayerHandler {
    var players: seq<Player>
    var ranking: seq<Player>
    var state: MauPhase
    var remember: Option<Player>
    var penalized: Option<Player>
    var penaltyArmed: bool
    /** The hands of the player objects, which the handler reads and the game updates. */
    var hands: map<Player, multiset<Card>>
    /** Every draw the handler or the game has asked a player to make. */
    ghost var draws: seq<Draw>

    ghost function Model(): TurnState
      reads this
    {
      TurnState(players, ranking, state, remember, penalized, penaltyArmed, hands, draws)
    }

    constructor ()
      ensures Model() == Initial
    {
      players, ranking := [], [];
      state, remember := DefaultState, None;
      penalized, penaltyArmed := None, false;
      hands, draws := map[], [];
    }

    /** `getCurrentPlayer`: the front of the queue, or none when it is empty. */
    function CurrentPlayer(): (r: Option<Player>)
      reads this
      ensures r.None? <==> players == []
      ensures r.Some? ==> r.value == players[0] && r.value in players
    {
      if players == [] then None else Some(players[0])
    }

    /** The cards `p` holds. */
    function Hand(p: Player): (h: multiset<Card>)
      reads this
      ensures h == HandOf(Model(), p)
    {
      if p in hands then hands[p] else multiset{}
    }

    /** `didCallMau(p)`: in the Mau state with `p` remembered; such a player is still in the queue. */
    predicate DidCallMau(p: Player)
      reads this
      ensures DidCallMau(p) <==> Announced(Model(), p)
      ensures Wf(Model()) && DidCallMau(p) ==> p in players
    {
      state == MauState && remember == Some(p)
    }

    /** `localNextTurn(n)`: move the front player to the back, `Normalize(n, size)` times. */
    method LocalNextTurn(n: int)
      modifies this`players
      ensures players == Rotated(old(players), n)
    {
      if players == [] {
        return;
      }
      ghost var q := players;
      var size := |players|;
      var k := (JavaRem(n, size) + size) % size;
      var i := 0;
      while i < k
        invariant 0 <= i <= k
        invariant players == RotateLeft(q, i)
      {
        assert players[1..] + [players[0]] == RotateLeft(q, i + 1);
        players := players[1..] + [players[0]];
        i := i + 1;
      }
    }

    /** `nextTurn(n)`: the Mau state's rotation, then the penalty check. */
    method NextTurn(n: int)
      modifies this
      ensures Model() == Advance(old(Model()), n)
    {
      match state {
        case DefaultState =>
          LocalNextTurn(n);
          remember := None;
        case MauState =>
          LocalNextTurn(n);
      }
      if penalized.Some? {
        if penalized == CurrentPlayer() {
          if penaltyArmed {
            DrawCards(penalized.value, 1);
            penalized := None;
          } else {
            penaltyArmed := true;
          }
        } else {
          penaltyArmed := true;
        }
      }
    }

    /** `mau(p)`: only the current player may announce. */
    method Mau(p: Player)
      modifies this
      ensures Model() == Announce(old(Model()), p)
    {
      if Some(p) == CurrentPlayer() {
        match state
        case DefaultState =>
          if |Hand(p)| == 1 {
            remember := Some(p);
            state := MauState;
          }
        case MauState =>
          if |Hand(p)| == 1 {
            remember := Some(p);
          }
      }
    }

    /** `maumau(p)`: only the current player may finish; `over` is the call to `finishGame`. */
    method MauMau(p: Player) returns (over: bool)
      modifies this
      ensures (Model(), over) == MauMauStep(old(Model()), p)
    {
      over := false;
      if Some(p) == CurrentPlayer() {
        match state
        case DefaultState =>
          if |Hand(p)| == 0 {
            FinishPlayer(p);
            if |players| <= 1 {
              ranking := ranking + players;
              players := [];
              over := true;
            }
          }
        case MauState =>
          if remember == Some(p) && |Hand(p)| == 0 {
            FinishPlayer(p);
            remember := None;
            if |players| <= 1 {
              ranking := ranking + players;
              players := [];
              over := true;
            } else {
              state := DefaultState;
            }
          }
      }
    }

    /** `flagMissedMau(p)`. */
    method FlagMissedMau(p: Player)
      modifies this
      ensures Model() == Flag(old(Model()), p)
    {
      penalized := Some(p);
      penaltyArmed := false;
    }

    /** `addPlayer(p)`: fails (`ok` false) when a player of that name is in the queue, else appends `p`. */
    method AddPlayer(p: Player) returns (ok: bool)
      modifies this
      ensures ok <==> !NameTaken(old(Model()), p.name)
      ensures Model() == if ok then Register(old(Model()), p) else old(Model())
    {
      var i := 0;
      while i < |players|
        invariant 0 <= i <= |players|
        invariant forall j :: 0 <= j < i ==> players[j].name != p.name
      {
        if players[i].name == p.name {
          return false;
        }
        i := i + 1;
      }
      players := players + [p];
      return true;
    }

    /** `finishPlayer(p)`. */
    method FinishPlayer(p: Player)
      modifies this
      ensures Model() == Finish(old(Model()), p)
    {
      players := Remove(players, p);
      ranking := ranking + [p];
      if penalized == Some(p) {
        penalized := None;
      }
    }

    /** `p.playCard(c)` on the player object. */
    method PlayCard(p: Player, c: Card)
      modifies this
      ensures Model() == PlayFrom(old(Model()), p, c)
    {
      hands := hands[p := Hand(p) - multiset{c}];
    }

    /** `p.drawCards(count)` on the player object. */
    method DrawCards(p: Player, count: nat)
      modifies this
      ensures Model() == DrawnBy(old(Model()), p, count)
    {
      draws := draws + [Draw(p, count)];
    }

    /** The card collaborator's `dealCards`. */
    method DealCards(dealt: map<Player, multiset<Card>>)
      modifies this
      ensures Model() == Deal(old(Model()), dealt)
    {
      hands := hands + dealt;
    }
  }
}
