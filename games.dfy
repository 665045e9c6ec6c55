/** The game record, the per-player slots, and the pure pieces of the game
    logic: creating a record, writing a commit or a reveal into a slot,
    checking a reveal against its commit, the cancel and timeout guards, and
    the winner. */
module Games {
  import opened Wrappers
  import opened Strings
  import opened Externals
  import opened Payload

  /** Seconds after the last interaction before a timeout can be claimed. */
  const Timeout := 1200

  datatype Phase = Commit | Reveal | Finish | Abort

  datatype Interaction = Created | CommitAdded | RevealAdded | WrongRevealAdded | TimedOut | Canceled

  /** One player's part of a game. */
  datatype Slot = Slot(
    commit: Option<string>,
    parity: Bit,
    commitTs: Option<int>,
    action: Option<int>,
    nonce: Option<string>,
    revealTs: Option<int>)

  /** A game. `phase` and `last` are `None` only between creation and the
      first transition of the message that created the game. */
  datatype Game = Game(
    phase: Option<Phase>,
    players: seq<string>,
    lastTs: int,
    last: Option<Interaction>,
    slots: map<string, Slot>)

  datatype EngineError =
    | NoOpponent
    | SelfPlay
    | NoCommit
    | NoParity
    /** A dictionary lookup of a player who has no slot in the game. */
    | UnknownPlayer(player: string)
    | NoCommitToAdd
    | NoActionToReveal
    | CancelWrongPhase
    | CancelNotAllowed
    | TimeoutWrongPhase
    | TimeoutNoReveal
    | TimeoutOpponentRevealed
    /** Too early; the claim is allowed from `allowedAt` on. */
    | TimeoutTooEarly(allowedAt: int)
    /** `None` added to an integer while summing the actions. */
    | MissingAction(player: string)
    /** No player holds the parity of the sum. */
    | NoWinner
    | InvalidGamePhase
    | InvalidAction(sender: string, gameId: string, phase: Option<Phase>)

  // Python truthiness of the optional values the game logic tests

  /** An integer (a timestamp or an action) that is present and not 0. */
  predicate IsNonzero(o: Option<int>) {
    o.Some? && o.value != 0
  }

  /** A string that is present and not empty. */
  predicate IsNonEmpty(o: Option<string>) {
    o.Some? && o.value != ""
  }

  /** A slot's values and their times are written together: a non-zero
      action exactly when a reveal time is recorded, a non-empty commit
      exactly when a commit time is. */
  predicate SlotConsistent(slot: Slot) {
    && (IsNonzero(slot.action) <==> slot.revealTs.Some?)
    && (IsNonEmpty(slot.commit) <==> slot.commitTs.Some?)
  }

  /** The shape every game has from creation on: two distinct players with
      a slot each, complementary parities, and every slot consistent. */
  ghost predicate WellShaped(g: Game) {
    && |g.players| == 2
    && g.players[0] != g.players[1]
    && g.slots.Keys == {g.players[0], g.players[1]}
    && g.slots[g.players[0]].parity + g.slots[g.players[1]].parity == 1
    && (forall p :: p in g.slots ==> SlotConsistent(g.slots[p]))
  }

  /** The invariant of every game kept in the store; no one has revealed
      while the game is still in the commit phase. */
  ghost predicate Live(g: Game) {
    && WellShaped(g)
    && (g.phase == Some(Commit) || g.phase == Some(Reveal))
    && g.last.Some?
    && (g.phase == Some(Commit) ==> forall p :: p in g.slots ==> g.slots[p].revealTs.None?)
  }

  /** `new_game`: the record the first message of a pair creates. */
  function NewGame(sender: string, ts: int, data: Intent): (r: Result<Game, EngineError>)
    ensures r.Ok? <==>
              && IsNonEmpty(data.opponent)
              && Lower(data.opponent.value) != Lower(sender)
              && IsNonEmpty(data.commit)
              && data.parity == Some(1)
    ensures r.Ok? ==>
              var g := r.value;
              var opponent := data.opponent.value;
              && g.phase == None && g.last == None && g.lastTs == ts
              && g.players == [sender, opponent] && sender != opponent
              && g.slots.Keys == {sender, opponent}
              && g.slots[sender] == Slot(data.commit, 1, Some(ts), None, None, None)
              && g.slots[opponent] == Slot(None, 0, None, None, None, None)
  {
    if !IsNonEmpty(data.opponent) then Err(NoOpponent)
    else if Lower(data.opponent.value) == Lower(sender) then Err(SelfPlay)
    else if !IsNonEmpty(data.commit) then Err(NoCommit)
    else if !(data.parity.Some? && data.parity.value != 0) then Err(NoParity)
    else
      var opponent := data.opponent.value;
      var p := data.parity.value;
      Ok(Game(None, [sender, opponent], ts, None,
              map[sender := Slot(data.commit, p, Some(ts), None, None, None),
                  opponent := Slot(None, 1 - p, None, None, None, None)]))
  }

  /** `add_commit` on a game value: the sender's commit and its time. */
  function PutCommit(g: Game, sender: string, ts: int, data: Intent): (r: Result<Game, EngineError>)
    requires sender in g.slots
    ensures r.Ok? <==> IsNonEmpty(data.commit)
    ensures r.Ok? ==>
              && r.value.slots == g.slots[sender := g.slots[sender].(commit := data.commit, commitTs := Some(ts))]
              && r.value == g.(slots := r.value.slots, lastTs := ts)
  {
    if !IsNonEmpty(data.commit) then Err(NoCommitToAdd)
    else
      var slot := g.slots[sender];
      Ok(g.(slots := g.slots[sender := slot.(commit := data.commit, commitTs := Some(ts))], lastTs := ts))
  }

  /** `add_reveal` on a game value: the sender's action, the nonce if one
      was given, and the time. */
  function PutReveal(g: Game, sender: string, ts: int, data: Intent): (r: Result<Game, EngineError>)
    requires sender in g.slots
    ensures r.Ok? <==> IsNonzero(data.action)
    ensures r.Ok? ==>
              var slot := g.slots[sender];
              && r.value.slots == g.slots[sender := slot.(
                   action := data.action,
                   nonce := if IsNonEmpty(data.nonce) then data.nonce else slot.nonce,
                   revealTs := Some(ts))]
              && r.value == g.(slots := r.value.slots, lastTs := ts)
  {
    if !IsNonzero(data.action) then Err(NoActionToReveal)
    else
      var slot := g.slots[sender];
      var nonce := if IsNonEmpty(data.nonce) then data.nonce else slot.nonce;
      Ok(g.(slots := g.slots[sender := slot.(action := data.action, nonce := nonce, revealTs := Some(ts))],
            lastTs := ts))
  }

  /** A created game is well shaped. */
  lemma NewGameWellShaped(sender: string, ts: int, data: Intent)
    requires NewGame(sender, ts, data).Ok?
    ensures WellShaped(NewGame(sender, ts, data).value)
  {
  }

  /** Writing a commit keeps the shape and touches only the sender's slot. */
  lemma PutCommitWellShaped(g: Game, sender: string, ts: int, data: Intent)
    requires WellShaped(g) && sender in g.slots && PutCommit(g, sender, ts, data).Ok?
    ensures var g1 := PutCommit(g, sender, ts, data).value;
            WellShaped(g1) && g1.players == g.players && g1.phase == g.phase
  {
    var g1 := PutCommit(g, sender, ts, data).value;
    assert g1.slots.Keys == g.slots.Keys;
  }

  /** Writing a reveal keeps the shape and touches only the sender's slot. */
  lemma PutRevealWellShaped(g: Game, sender: string, ts: int, data: Intent)
    requires WellShaped(g) && sender in g.slots && PutReveal(g, sender, ts, data).Ok?
    ensures var g1 := PutReveal(g, sender, ts, data).value;
            WellShaped(g1) && g1.players == g.players && g1.phase == g.phase
  {
    var g1 := PutReveal(g, sender, ts, data).value;
    assert g1.slots.Keys == g.slots.Keys;
  }

  /** Python's `str()` of an optional integer or string. */
  function IntText(o: Option<int>): string {
    match o
    case None => "None"
    case Some(n) => IntToString(n)
  }

  function NonceText(o: Option<string>): string {
    match o
    case None => "None"
    case Some(s) => s
  }

  /** The string a commitment hashes: `"<action>-<nonce>"`. */
  function RevealPreimage(action: Option<int>, nonce: Option<string>): string {
    IntText(action) + "-" + NonceText(nonce)
  }

  /** `check_reveal`: the digest of the revealed action and nonce equals the
      stored commit. */
  predicate CheckReveal(env: Env, g: Game, sender: string): (ok: bool)
    requires sender in g.slots
    ensures ok ==> g.slots[sender].commit.Some?
  {
    var slot := g.slots[sender];
    slot.commit == Some(env.sha512_256Hex(RevealPreimage(slot.action, slot.nonce)))
  }

  /** The preimage determines the action and the printed nonce: a reveal
      other than the committed one can only pass through a digest collision. */
  lemma RevealPreimageInjective(a: int, n: Option<string>, b: int, m: Option<string>)
    requires RevealPreimage(Some(a), n) == RevealPreimage(Some(b), m)
    ensures a == b && NonceText(n) == NonceText(m)
  {
    var x, y := IntToString(a), IntToString(b);
    var s := RevealPreimage(Some(a), n);
    assert s == x + "-" + NonceText(n);
    assert s == y + "-" + NonceText(m);
    DashEndsNumber(x, NonceText(n), 1);
    DashEndsNumber(y, NonceText(m), 1);
    assert x == s[..|x|] == y;
    IntToStringInjective(a, b);
    assert NonceText(n) == s[|x| + 1..] == NonceText(m);
  }

  /** Index of the first `-` at or after `i`. */
  ghost function FindDash(s: string, i: nat): nat
    decreases |s| - i
  {
    if i >= |s| then |s| else if s[i] == '-' then i else FindDash(s, i + 1)
  }

  /** After the sign, the first `-` of a preimage ends the printed action. */
  lemma {:induction false} DashEndsNumber(x: string, t: string, i: nat)
    requires x != [] && forall k :: 1 <= k < |x| ==> IsDigit(x[k])
    requires 1 <= i <= |x|
    ensures FindDash(x + "-" + t, i) == |x|
    decreases |x| - i
  {
    if i < |x| {
      assert (x + "-" + t)[i] == x[i];
      DashEndsNumber(x, t, i + 1);
    }
  }

  /** A reveal of exactly what was committed to passes the check. */
  lemma HonestRevealPasses(env: Env, g: Game, sender: string, a: int, n: string)
    requires sender in g.slots
    requires g.slots[sender].commit == Some(env.sha512_256Hex(IntToString(a) + "-" + n))
    requires g.slots[sender].action == Some(a) && g.slots[sender].nonce == Some(n)
    ensures CheckReveal(env, g, sender)
  {
  }

  /** A reveal that passes the check hashes to the commit; if it differs from
      the committed action or nonce, the digest has a collision. */
  lemma PassingRevealIsCommitted(env: Env, g: Game, sender: string, a: int, n: string)
    requires sender in g.slots
    requires g.slots[sender].commit == Some(env.sha512_256Hex(IntToString(a) + "-" + n))
    requires CheckReveal(env, g, sender)
    requires g.slots[sender].action.Some?
    ensures var slot := g.slots[sender];
            (slot.action.value != a || NonceText(slot.nonce) != n) ==>
              var p := RevealPreimage(slot.action, slot.nonce);
              var q := IntToString(a) + "-" + n;
              p != q && env.sha512_256Hex(p) == env.sha512_256Hex(q)
  {
    var slot := g.slots[sender];
    if slot.action.value != a || NonceText(slot.nonce) != n {
      if RevealPreimage(slot.action, slot.nonce) == IntToString(a) + "-" + n {
        assert RevealPreimage(Some(a), Some(n)) == IntToString(a) + "-" + n;
        RevealPreimageInjective(slot.action.value, slot.nonce, a, Some(n));
      }
    }
  }

  /** `check_cancel_game`: false without the cancel flag; otherwise true only
      in the commit phase, for a sender who has committed while the opponent
      has not, and an error in every other case. */
  function CheckCancel(g: Game, sender: string, data: Intent): (r: Result<bool, EngineError>)
    requires sender in g.slots && data.opponent.Some?
    ensures r == Ok(false) <==> !data.cancel
    ensures r == Ok(true) <==>
              && data.cancel && g.phase == Some(Commit)
              && IsNonzero(g.slots[sender].commitTs)
              && data.opponent.value in g.slots
              && !IsNonzero(g.slots[data.opponent.value].commitTs)
  {
    var opponent := data.opponent.value;
    if !data.cancel then Ok(false)
    else if g.phase != Some(Commit) then Err(CancelWrongPhase)
    else if !IsNonzero(g.slots[sender].commitTs) then Err(CancelNotAllowed)
    else if opponent !in g.slots then Err(UnknownPlayer(opponent))
    else if IsNonzero(g.slots[opponent].commitTs) then Err(CancelNotAllowed)
    else Ok(true)
  }

  /** `check_timeout_game`: false without the timeout flag; otherwise true
      only in the reveal phase, for a sender who has revealed against an
      opponent who has not, once `Timeout` has passed since the last
      interaction, and an error in every other case. */
  function CheckTimeout(g: Game, sender: string, ts: int, data: Intent): (r: Result<bool, EngineError>)
    requires sender in g.slots && data.opponent.Some?
    ensures r == Ok(false) <==> !data.timeout
    ensures r == Ok(true) <==>
              && data.timeout && g.phase == Some(Reveal)
              && IsNonzero(g.slots[sender].revealTs)
              && data.opponent.value in g.slots
              && !IsNonzero(g.slots[data.opponent.value].revealTs)
              && ts >= g.lastTs + Timeout
    ensures r == Err(TimeoutTooEarly(g.lastTs + Timeout)) ==> ts < g.lastTs + Timeout
  {
    var opponent := data.opponent.value;
    if !data.timeout then Ok(false)
    else if g.phase != Some(Reveal) then Err(TimeoutWrongPhase)
    else if !IsNonzero(g.slots[sender].revealTs) then Err(TimeoutNoReveal)
    else if opponent !in g.slots then Err(UnknownPlayer(opponent))
    else if IsNonzero(g.slots[opponent].revealTs) then Err(TimeoutOpponentRevealed)
    else if ts < g.lastTs + Timeout then Err(TimeoutTooEarly(g.lastTs + Timeout))
    else Ok(true)
  }

  // ---------------------------------------------------------------------
  // The winner

  /** The state of `get_winner`'s loop after the players `ps`: the map from
      parity to player, and the sum of the actions. */
  function Tally(g: Game, ps: seq<string>): (r: Result<(map<int, string>, int), EngineError>)
    ensures r.Ok? ==> forall b :: b in r.value.0 ==> r.value.0[b] in ps && r.value.0[b] in g.slots
  {
    if ps == [] then Ok((map[], 0))
    else match Tally(g, ps[..|ps| - 1])
      case Err(e) => Err(e)
      case Ok(acc) =>
        var p := ps[|ps| - 1];
        if p !in g.slots then Err(UnknownPlayer(p))
        else if g.slots[p].action.None? then Err(MissingAction(p))
        else Ok((acc.0[g.slots[p].parity := p], acc.1 + g.slots[p].action.value))
  }

  /** What `get_winner` returns: the player registered under the parity of
      the sum of the actions. */
  function Winner(g: Game): (r: Result<string, EngineError>)
    ensures r.Ok? ==> r.value in g.players && r.value in g.slots
  {
    match Tally(g, g.players)
    case Err(e) => Err(e)
    case Ok(acc) => if acc.1 % 2 in acc.0 then Ok(acc.0[acc.1 % 2]) else Err(NoWinner)
  }

  /** Once the loop has failed on a prefix, it fails on the whole list. */
  lemma {:induction false} TallyErrSticky(g: Game, ps: seq<string>, k: nat)
    requires k <= |ps| && Tally(g, ps[..k]).Err?
    ensures Tally(g, ps) == Tally(g, ps[..k])
    decreases |ps| - k
  {
    if k < |ps| {
      assert ps[..k + 1][..k] == ps[..k];
      TallyErrSticky(g, ps, k + 1);
    } else {
      assert ps[..k] == ps;
    }
  }

  /** `get_winner`: the loop over the players. */
  method GetWinner(g: Game) returns (r: Result<string, EngineError>)
    ensures r == Winner(g)
  {
    var parities: map<int, string> := map[];
    var sum := 0;
    var i := 0;
    while i < |g.players|
      invariant 0 <= i <= |g.players|
      invariant Tally(g, g.players[..i]) == Ok((parities, sum))
    {
      var p := g.players[i];
      assert g.players[..i + 1][..i] == g.players[..i];
      if p !in g.slots {
        TallyErrSticky(g, g.players, i + 1);
        return Err(UnknownPlayer(p));
      }
      parities := parities[g.slots[p].parity := p];
      if g.slots[p].action.None? {
        TallyErrSticky(g, g.players, i + 1);
        return Err(MissingAction(p));
      }
      sum := sum + g.slots[p].action.value;
      i := i + 1;
    }
    assert g.players[..i] == g.players;
    if sum % 2 in parities {
      r := Ok(parities[sum % 2]);
    } else {
      r := Err(NoWinner);
    }
  }

  /** The winner rule: with two players of complementary parities who have
      both played, the winner is the one whose parity is that of the sum of
      the actions (Python's `%` agrees with Dafny's for a divisor of 2). */
  lemma WinnerRule(g: Game)
    requires |g.players| == 2 && g.players[0] in g.slots && g.players[1] in g.slots
    requires g.slots[g.players[0]].parity + g.slots[g.players[1]].parity == 1
    requires g.slots[g.players[0]].action.Some? && g.slots[g.players[1]].action.Some?
    ensures var a, b := g.players[0], g.players[1];
            var sum := g.slots[a].action.value + g.slots[b].action.value;
            Winner(g) == Ok(if g.slots[a].parity == sum % 2 then a else b)
  {
    var a, b := g.players[0], g.players[1];
    var sa, sb := g.slots[a], g.slots[b];
    assert g.players[..1] == [a] && [a][..0] == [];
    assert Tally(g, g.players[..1]) == Ok((map[sa.parity := a], sa.action.value));
    assert g.players[..2] == g.players && g.players[..2][..1] == g.players[..1];
    assert Tally(g, g.players) == Ok((map[sa.parity := a][sb.parity := b], sa.action.value + sb.action.value));
  }

  /** Exactly one of the two players wins. */
  lemma WinnerUnique(g: Game)
    requires Live(g) && g.slots[g.players[0]].action.Some? && g.slots[g.players[1]].action.Some?
    ensures var sum := g.slots[g.players[0]].action.value + g.slots[g.players[1]].action.value;
            Winner(g).Ok? && Winner(g).value in g.slots
            && g.slots[Winner(g).value].parity == sum % 2
            && forall p :: p in g.slots && p != Winner(g).value ==> g.slots[p].parity != sum % 2
  {
    WinnerRule(g);
  }
}
