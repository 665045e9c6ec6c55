/** What one move does to the store, stated case by case. */
module EngineProperties {
  import opened Wrappers
  import opened Strings
  import opened Externals
  import opened Payload
  import opened GameIds
  import opened Games
  import opened Status
  import opened Engine

  // ---------------------------------------------------------------------
  // Creation

  /** A move without an opponent is rejected and changes nothing. */
  lemma NoOpponentRejected(env: Env, games: map<string, Game>, sender: string, ts: int, data: Intent)
    requires StoreShaped(games) && !IsNonEmpty(data.opponent)
    ensures Step(env, games, sender, ts, data) == Outcome(games, Err(NoOpponent))
  {
  }

  /** For a pair without a game, the move creates one exactly when it names
      an opponent other than the sender, a commit, and an odd parity; when
      it does not, nothing is stored. */
  lemma CreationGuards(env: Env, games: map<string, Game>, sender: string, ts: int, data: Intent)
    requires StoreShaped(games) && IsNonEmpty(data.opponent)
    requires GameId(env, sender, data.opponent.value) !in games
    ensures var o := Step(env, games, sender, ts, data);
            && (o.result.Ok? <==>
                  Lower(data.opponent.value) != Lower(sender) && IsNonEmpty(data.commit) && data.parity == Some(1))
            && (o.result.Err? ==> o.games == games)
  {
  }

  /** An even parity is falsy in the source's test, so no game can be
      created with it. */
  lemma EvenParityCannotCreate(env: Env, games: map<string, Game>, sender: string, ts: int, data: Intent)
    requires StoreShaped(games) && IsNonEmpty(data.opponent)
    requires GameId(env, sender, data.opponent.value) !in games
    requires Lower(data.opponent.value) != Lower(sender) && IsNonEmpty(data.commit)
    requires data.parity == Some(0)
    ensures Step(env, games, sender, ts, data) == Outcome(games, Err(NoParity))
  {
  }

  /** A player cannot open a game against themselves, in any letter case. */
  lemma SelfPlayRejected(env: Env, games: map<string, Game>, sender: string, ts: int, data: Intent)
    requires StoreShaped(games) && IsNonEmpty(data.opponent)
    requires GameId(env, sender, data.opponent.value) !in games
    requires Lower(data.opponent.value) == Lower(sender)
    ensures Step(env, games, sender, ts, data) == Outcome(games, Err(SelfPlay))
  {
  }

  /** The game a move creates: the sender's commit at `ts`, odd for the
      sender and even for the opponent, an empty slot for the opponent, in
      the commit phase, last interaction "CREATED". */
  lemma CreatedGame(env: Env, games: map<string, Game>, sender: string, ts: int, data: Intent)
    requires StoreShaped(games) && IsNonEmpty(data.opponent)
    requires GameId(env, sender, data.opponent.value) !in games
    requires NewGame(sender, ts, data).Ok?
    ensures var id := GameId(env, sender, data.opponent.value);
            var opponent := data.opponent.value;
            var o := Step(env, games, sender, ts, data);
            && o.games.Keys == games.Keys + {id}
            && (forall k :: k in games ==> o.games[k] == games[k])
            && o.games[id] == Game(Some(Commit), [sender, opponent], ts, Some(Created),
                                   map[sender := Slot(data.commit, 1, Some(ts), None, None, None),
                                       opponent := Slot(None, 0, None, None, None, None)])
            && o.result == Ok(StatusText(env, o.games, id))
  {
    var id := GameId(env, sender, data.opponent.value);
    var g := NewGame(sender, ts, data).value;
    CreationStep(env, games, sender, ts, data);
    NewGameRecord(sender, ts, data);
    var h := g.(phase := Some(Commit), last := Some(Created));
    UpdateTwice(games, id, g, h);
    var o := Step(env, games, sender, ts, data);
    assert o.games == games[id := h];
  }

  /** The record `new_game` builds, written out. */
  lemma NewGameRecord(sender: string, ts: int, data: Intent)
    requires NewGame(sender, ts, data).Ok?
    ensures NewGame(sender, ts, data).value
            == Game(None, [sender, data.opponent.value], ts, None,
                    map[sender := Slot(data.commit, 1, Some(ts), None, None, None),
                        data.opponent.value := Slot(None, 0, None, None, None, None)])
  {
  }

  /** A creating move stores the new record, in the commit phase. */
  lemma CreationStep(env: Env, games: map<string, Game>, sender: string, ts: int, data: Intent)
    requires StoreShaped(games) && IsNonEmpty(data.opponent)
    requires GameId(env, sender, data.opponent.value) !in games
    requires NewGame(sender, ts, data).Ok?
    ensures var id := GameId(env, sender, data.opponent.value);
            var g := NewGame(sender, ts, data).value;
            var after := games[id := g][id := g.(phase := Some(Commit), last := Some(Created))];
            Step(env, games, sender, ts, data) == Outcome(after, Ok(StatusText(env, after, id)))
  {
    var id := GameId(env, sender, data.opponent.value);
    var g := NewGame(sender, ts, data).value;
    assert Step(env, games, sender, ts, data) == Dispatch(env, games[id := g], id, sender, ts, data);
  }

  // ---------------------------------------------------------------------
  // The commit phase

  /** The game the move from `sender` about `data` reaches, when the store
      has one for the pair and the sender has a slot in it. */
  predicate InGame(env: Env, games: map<string, Game>, sender: string, data: Intent) {
    && IsNonEmpty(data.opponent)
    && GameId(env, sender, data.opponent.value) in games
    && sender in games[GameId(env, sender, data.opponent.value)].slots
  }

  /** A player who has not committed yet and sends a commit, or an action in
      its place, moves the game to the reveal phase. */
  lemma CommitPhaseAdvances(env: Env, games: map<string, Game>, sender: string, ts: int, data: Intent)
    requires StoreShaped(games) && InGame(env, games, sender, data)
    requires var g := games[GameId(env, sender, data.opponent.value)];
             && g.phase == Some(Commit) && !IsNonzero(g.slots[sender].commitTs)
             && (IsNonEmpty(data.commit) || IsNonzero(data.action))
    ensures var id := GameId(env, sender, data.opponent.value);
            var g := games[id];
            var slot := g.slots[sender];
            var o := Step(env, games, sender, ts, data);
            && o.result.Ok?
            && o.games == games[id := g.(
                 phase := Some(Reveal),
                 lastTs := ts,
                 last := Some(if IsNonEmpty(data.commit) then CommitAdded else RevealAdded),
                 slots := g.slots[sender :=
                   if IsNonEmpty(data.commit) then slot.(commit := data.commit, commitTs := Some(ts))
                   else slot.(action := data.action,
                              nonce := if IsNonEmpty(data.nonce) then data.nonce else slot.nonce,
                              revealTs := Some(ts))])]
  {
  }

  /** Cancelling: in the commit phase, a cancel that is not also a first
      commit succeeds exactly when the sender has committed and the opponent
      has not; it aborts the game, which leaves the store. A refused cancel
      changes nothing. */
  lemma CancelRule(env: Env, games: map<string, Game>, sender: string, ts: int, data: Intent)
    requires StoreShaped(games) && InGame(env, games, sender, data)
    requires var g := games[GameId(env, sender, data.opponent.value)];
             && g.phase == Some(Commit) && data.cancel
             && (IsNonzero(g.slots[sender].commitTs) || (!IsNonEmpty(data.commit) && !IsNonzero(data.action)))
    ensures var id := GameId(env, sender, data.opponent.value);
            var g := games[id];
            var opponent := data.opponent.value;
            var o := Step(env, games, sender, ts, data);
            && (o.result.Ok? <==>
                  IsNonzero(g.slots[sender].commitTs) && opponent in g.slots && !IsNonzero(g.slots[opponent].commitTs))
            && (o.result.Ok? ==> o.games == games - {id})
            && (o.result.Err? ==> o.games == games)
  {
  }

  /** Any other move in the commit phase is rejected and changes nothing. */
  lemma CommitPhaseOtherwiseRejected(env: Env, games: map<string, Game>, sender: string, ts: int, data: Intent)
    requires StoreShaped(games) && InGame(env, games, sender, data)
    requires var g := games[GameId(env, sender, data.opponent.value)];
             && g.phase == Some(Commit) && !data.cancel
             && (IsNonzero(g.slots[sender].commitTs) || (!IsNonEmpty(data.commit) && !IsNonzero(data.action)))
    ensures var id := GameId(env, sender, data.opponent.value);
            Step(env, games, sender, ts, data) == Outcome(games, Err(InvalidAction(sender, id, Some(Commit))))
  {
  }

  // ---------------------------------------------------------------------
  // The reveal phase

  /** The game after the sender's reveal is written. */
  function Revealed(env: Env, games: map<string, Game>, sender: string, ts: int, data: Intent): Game
    requires InGame(env, games, sender, data) && IsNonzero(data.action)
  {
    PutReveal(games[GameId(env, sender, data.opponent.value)], sender, ts, data).value
  }

  /** The first reveal of a sender in the reveal phase. */
  predicate FirstReveal(env: Env, games: map<string, Game>, sender: string, data: Intent) {
    && InGame(env, games, sender, data)
    && var g := games[GameId(env, sender, data.opponent.value)];
       g.phase == Some(Reveal) && !IsNonzero(g.slots[sender].revealTs) && IsNonzero(data.action)
  }

  /** A reveal that does not match the commit ends the game with the
      opponent as the winner, and the game leaves the store. */
  lemma WrongRevealLoses(env: Env, games: map<string, Game>, sender: string, ts: int, data: Intent)
    requires StoreShaped(games) && FirstReveal(env, games, sender, data)
    requires !CheckReveal(env, Revealed(env, games, sender, ts, data), sender)
    ensures var id := GameId(env, sender, data.opponent.value);
            var g1 := Revealed(env, games, sender, ts, data);
            var ended := games[id := g1.(phase := Some(Finish), last := Some(WrongRevealAdded))];
            var o := Step(env, games, sender, ts, data);
            && o.games == games - {id}
            && o.result == Ok(WinnerMessage("wrong reveal victory", data.opponent.value, StatusText(env, ended, id)))
  {
    var id := GameId(env, sender, data.opponent.value);
    var g1 := Revealed(env, games, sender, ts, data);
    FirstRevealStep(env, games, sender, ts, data);
    UpdateTwice(games, id, g1, g1.(phase := Some(Finish), last := Some(WrongRevealAdded)));
  }

  /** A matching reveal after the opponent's ends the game, and the game
      leaves the store; the winner named is the one `RevealedWinner` gives
      by the parity rule. */
  lemma RightRevealDecides(env: Env, games: map<string, Game>, sender: string, ts: int, data: Intent)
    requires StoreShaped(games) && FirstReveal(env, games, sender, data)
    requires Live(games[GameId(env, sender, data.opponent.value)])
    requires CheckReveal(env, Revealed(env, games, sender, ts, data), sender)
    requires data.opponent.value != sender
    requires var g1 := Revealed(env, games, sender, ts, data);
             data.opponent.value in g1.slots && IsNonzero(g1.slots[data.opponent.value].revealTs)
    ensures var id := GameId(env, sender, data.opponent.value);
            var g1 := Revealed(env, games, sender, ts, data);
            var ended := games[id := g1.(phase := Some(Finish), last := Some(RevealAdded))];
            var o := Step(env, games, sender, ts, data);
            && Winner(g1).Ok?
            && o.games == games - {id}
            && o.result == Ok(WinnerMessage("normal victory", Winner(g1).value, StatusText(env, ended, id)))
  {
    var id := GameId(env, sender, data.opponent.value);
    var g1 := Revealed(env, games, sender, ts, data);
    RevealedHasWinner(env, games, sender, ts, data);
    FirstRevealStep(env, games, sender, ts, data);
    var opponent := data.opponent.value;
    var after := games[id := g1];
    AfterRevealDecides(env, after, id, sender, opponent);
    UpdateTwice(games, id, g1, g1.(phase := Some(Finish), last := Some(RevealAdded)));
  }

  /** Once both reveals are in and the winner is known, the game ends. */
  lemma AfterRevealDecides(env: Env, games: map<string, Game>, id: string, sender: string, opponent: string)
    requires StoreShaped(games) && id in games && sender in games[id].slots
    requires CheckReveal(env, games[id], sender)
    requires opponent in games[id].slots && IsNonzero(games[id].slots[opponent].revealTs)
    requires Winner(games[id]).Ok?
    ensures var g1 := games[id];
            var ended := games[id := g1.(phase := Some(Finish), last := Some(RevealAdded))];
            var o := AfterReveal(env, games, id, sender, opponent);
            && o.games == games - {id}
            && o.result == Ok(WinnerMessage("normal victory", Winner(g1).value, StatusText(env, ended, id)))
  {
    var g1 := games[id];
    var h := g1.(phase := Some(Finish), last := Some(RevealAdded));
    UpdateTwice(games, id, h, h);
  }

  /** A first reveal is written into the stored game before anything else
      is decided. */
  lemma FirstRevealStep(env: Env, games: map<string, Game>, sender: string, ts: int, data: Intent)
    requires StoreShaped(games) && FirstReveal(env, games, sender, data)
    ensures var id := GameId(env, sender, data.opponent.value);
            var after := games[id := Revealed(env, games, sender, ts, data)];
            && StoreShaped(after) && sender in after[id].slots
            && Step(env, games, sender, ts, data) == AfterReveal(env, after, id, sender, data.opponent.value)
  {
    var id := GameId(env, sender, data.opponent.value);
    assert Step(env, games, sender, ts, data) == RevealStep(env, games, id, sender, ts, data);
  }

  /** With both reveals in, the winner is decided by the parity rule. */
  lemma RevealedWinner(env: Env, games: map<string, Game>, sender: string, ts: int, data: Intent)
    requires FirstReveal(env, games, sender, data) && Live(games[GameId(env, sender, data.opponent.value)])
    requires data.opponent.value != sender
    requires var g1 := Revealed(env, games, sender, ts, data);
             data.opponent.value in g1.slots && IsNonzero(g1.slots[data.opponent.value].revealTs)
    ensures var g1 := Revealed(env, games, sender, ts, data);
            && WellShaped(g1)
            && g1.slots[g1.players[0]].action.Some? && g1.slots[g1.players[1]].action.Some?
            && var a, b := g1.players[0], g1.players[1];
               var sum := g1.slots[a].action.value + g1.slots[b].action.value;
               Winner(g1) == Ok(if g1.slots[a].parity == sum % 2 then a else b)
  {
    var id := GameId(env, sender, data.opponent.value);
    var g := games[id];
    PutRevealWellShaped(g, sender, ts, data);
    var g1 := Revealed(env, games, sender, ts, data);
    var opponent := data.opponent.value;
    assert IsNonzero(g1.slots[sender].action) && IsNonzero(g1.slots[opponent].action);
    assert g1.players[0] in {sender, opponent} && g1.players[1] in {sender, opponent};
    WinnerRule(g1);
  }

  lemma RevealedHasWinner(env: Env, games: map<string, Game>, sender: string, ts: int, data: Intent)
    requires FirstReveal(env, games, sender, data) && Live(games[GameId(env, sender, data.opponent.value)])
    requires data.opponent.value != sender
    requires var g1 := Revealed(env, games, sender, ts, data);
             data.opponent.value in g1.slots && IsNonzero(g1.slots[data.opponent.value].revealTs)
    ensures Winner(Revealed(env, games, sender, ts, data)).Ok?
  {
    RevealedWinner(env, games, sender, ts, data);
  }

  /** A matching reveal before the opponent's keeps the game in the reveal
      phase with the reveal recorded. */
  lemma RightRevealWaits(env: Env, games: map<string, Game>, sender: string, ts: int, data: Intent)
    requires StoreShaped(games) && FirstReveal(env, games, sender, data)
    requires CheckReveal(env, Revealed(env, games, sender, ts, data), sender)
    requires var g1 := Revealed(env, games, sender, ts, data);
             data.opponent.value in g1.slots && !IsNonzero(g1.slots[data.opponent.value].revealTs)
    ensures var id := GameId(env, sender, data.opponent.value);
            var g1 := Revealed(env, games, sender, ts, data);
            var o := Step(env, games, sender, ts, data);
            && o.games == games[id := g1.(phase := Some(Reveal), last := Some(RevealAdded))]
            && o.result.Ok?
  {
    var id := GameId(env, sender, data.opponent.value);
    var g1 := Revealed(env, games, sender, ts, data);
    FirstRevealStep(env, games, sender, ts, data);
    UpdateTwice(games, id, g1, g1.(phase := Some(Reveal), last := Some(RevealAdded)));
  }

  /** A matching reveal naming an opponent who has no slot in the game is
      refused with the failed lookup, but the reveal stays written into the
      stored game. */
  lemma MissingOpponentKeepsReveal(env: Env, games: map<string, Game>, sender: string, ts: int, data: Intent)
    requires StoreShaped(games) && FirstReveal(env, games, sender, data)
    requires CheckReveal(env, Revealed(env, games, sender, ts, data), sender)
    requires data.opponent.value !in Revealed(env, games, sender, ts, data).slots
    ensures var id := GameId(env, sender, data.opponent.value);
            var o := Step(env, games, sender, ts, data);
            && o.result == Err(UnknownPlayer(data.opponent.value))
            && o.games == games[id := Revealed(env, games, sender, ts, data)]
  {
    FirstRevealStep(env, games, sender, ts, data);
  }

  /** A timeout claim that is not also a first reveal succeeds exactly when
      the sender has revealed, the opponent has not, and `Timeout` seconds
      have passed since the last interaction; the sender then wins and the
      game leaves the store. A refused claim changes nothing. */
  lemma TimeoutRule(env: Env, games: map<string, Game>, sender: string, ts: int, data: Intent)
    requires StoreShaped(games) && InGame(env, games, sender, data)
    requires var g := games[GameId(env, sender, data.opponent.value)];
             && g.phase == Some(Reveal) && data.timeout
             && (IsNonzero(g.slots[sender].revealTs) || !IsNonzero(data.action))
    ensures var id := GameId(env, sender, data.opponent.value);
            var g := games[id];
            var opponent := data.opponent.value;
            var o := Step(env, games, sender, ts, data);
            && (o.result.Ok? <==>
                  && IsNonzero(g.slots[sender].revealTs)
                  && opponent in g.slots && !IsNonzero(g.slots[opponent].revealTs)
                  && ts >= g.lastTs + Timeout)
            && (o.result.Ok? ==>
                  var ended := games[id := g.(phase := Some(Finish), last := Some(TimedOut))];
                  o.games == games - {id}
                  && o.result.value == WinnerMessage("W.O. victory", sender, StatusText(env, ended, id)))
            && (o.result.Err? ==> o.games == games)
  {
    var id := GameId(env, sender, data.opponent.value);
    assert Step(env, games, sender, ts, data) == RevealStep(env, games, id, sender, ts, data);
  }

  /** Any other move in the reveal phase is rejected and changes nothing. */
  lemma RevealPhaseOtherwiseRejected(env: Env, games: map<string, Game>, sender: string, ts: int, data: Intent)
    requires StoreShaped(games) && InGame(env, games, sender, data)
    requires var g := games[GameId(env, sender, data.opponent.value)];
             && g.phase == Some(Reveal) && !data.timeout
             && (IsNonzero(g.slots[sender].revealTs) || !IsNonzero(data.action))
    ensures var id := GameId(env, sender, data.opponent.value);
            Step(env, games, sender, ts, data) == Outcome(games, Err(InvalidAction(sender, id, Some(Reveal))))
  {
  }

  // ---------------------------------------------------------------------
  // What a move may change

  /** Slot `t` may follow slot `s`: the parity never changes, a commit is
      kept once its time is set, and a reveal is kept once its time is set. */
  ghost predicate SlotFollows(s: Slot, t: Slot) {
    && t.parity == s.parity
    && (IsNonzero(s.commitTs) ==> t.commit == s.commit && t.commitTs == s.commitTs)
    && (IsNonzero(s.revealTs) ==> t.action == s.action && t.nonce == s.nonce && t.revealTs == s.revealTs)
  }

  /** Game `h` may follow game `g` after a move from `sender`: same players,
      every slot follows, and only the sender's slot changes. */
  ghost predicate GameFollows(g: Game, h: Game, sender: string) {
    && h.players == g.players
    && h.slots.Keys == g.slots.Keys
    && forall p :: p in g.slots ==>
         SlotFollows(g.slots[p], h.slots[p]) && (p != sender ==> h.slots[p] == g.slots[p])
  }

  ghost predicate StoreFollows(before: map<string, Game>, after: map<string, Game>, sender: string) {
    forall k :: k in before && k in after ==> GameFollows(before[k], after[k], sender)
  }

  lemma StoreFollowsUpdate(games: map<string, Game>, id: string, h: Game, sender: string)
    requires id in games && GameFollows(games[id], h, sender)
    ensures StoreFollows(games, games[id := h], sender)
    ensures StoreFollows(games, games[id := h] - {id}, sender)
  {
  }

  /** The store after a first reveal: kept with the reveal recorded (the
      game waits, or a lookup failed), or without the game. */
  lemma AfterRevealStores(env: Env, games: map<string, Game>, id: string, sender: string, opponent: string)
    requires StoreShaped(games) && id in games && sender in games[id].slots
    ensures var o := AfterReveal(env, games, id, sender, opponent);
            || o.games == games
            || o.games == games[id := games[id].(phase := Some(Reveal), last := Some(RevealAdded))]
            || o.games == games - {id}
  {
    var g1 := games[id];
    var o := AfterReveal(env, games, id, sender, opponent);
    if !CheckReveal(env, g1, sender) {
      var h := g1.(phase := Some(Finish), last := Some(WrongRevealAdded));
      UpdateTwice(games, id, h, h);
    } else if opponent in g1.slots && IsNonzero(g1.slots[opponent].revealTs) && Winner(g1).Ok? {
      var h := g1.(phase := Some(Finish), last := Some(RevealAdded));
      UpdateTwice(games, id, h, h);
    }
  }

  /** Writing a commit into a slot that has none, or a reveal into a slot
      that has none, is a change the rules allow. */
  lemma PutFollows(g: Game, sender: string, ts: int, data: Intent, h: Game)
    requires sender in g.slots
    requires || (!IsNonzero(g.slots[sender].commitTs) && PutCommit(g, sender, ts, data).Ok?
                 && h.slots == PutCommit(g, sender, ts, data).value.slots)
             || (!IsNonzero(g.slots[sender].revealTs) && PutReveal(g, sender, ts, data).Ok?
                 && h.slots == PutReveal(g, sender, ts, data).value.slots)
    requires h.players == g.players
    ensures GameFollows(g, h, sender)
  {
  }

  /** A store whose games were kept as they were, dropped or added follows
      the one it came from. */
  lemma StoreFollowsKept(games: map<string, Game>, after: map<string, Game>, sender: string)
    requires forall k :: k in after && k in games ==> after[k] == games[k]
    ensures StoreFollows(games, after, sender)
  {
  }

  lemma CommitPhaseFollows(env: Env, games: map<string, Game>, sender: string, ts: int, data: Intent)
    requires StoreShaped(games) && InGame(env, games, sender, data)
    requires Live(games[GameId(env, sender, data.opponent.value)])
    requires games[GameId(env, sender, data.opponent.value)].phase == Some(Commit)
    ensures StoreFollows(games, Step(env, games, sender, ts, data).games, sender)
  {
    var id := GameId(env, sender, data.opponent.value);
    var g := games[id];
    var o := Step(env, games, sender, ts, data);
    if !IsNonzero(g.slots[sender].commitTs) && (IsNonEmpty(data.commit) || IsNonzero(data.action)) {
      CommitPhaseAdvances(env, games, sender, ts, data);
      var h := o.games[id];
      if IsNonEmpty(data.commit) {
        assert h.slots == PutCommit(g, sender, ts, data).value.slots;
      } else {
        assert h.slots == PutReveal(g, sender, ts, data).value.slots;
      }
      PutFollows(g, sender, ts, data, h);
      StoreFollowsUpdate(games, id, h, sender);
    } else {
      if data.cancel {
        CancelRule(env, games, sender, ts, data);
      } else {
        CommitPhaseOtherwiseRejected(env, games, sender, ts, data);
      }
      StoreFollowsKept(games, o.games, sender);
    }
  }

  lemma RevealPhaseFollows(env: Env, games: map<string, Game>, sender: string, ts: int, data: Intent)
    requires StoreShaped(games) && InGame(env, games, sender, data)
    requires games[GameId(env, sender, data.opponent.value)].phase == Some(Reveal)
    ensures StoreFollows(games, Step(env, games, sender, ts, data).games, sender)
  {
    var id := GameId(env, sender, data.opponent.value);
    var g := games[id];
    var o := Step(env, games, sender, ts, data);
    if !IsNonzero(g.slots[sender].revealTs) && IsNonzero(data.action) {
      FirstRevealStep(env, games, sender, ts, data);
      var g1 := Revealed(env, games, sender, ts, data);
      var after := games[id := g1];
      AfterRevealStores(env, after, id, sender, data.opponent.value);
      PutFollows(g, sender, ts, data, g1);
      StoreFollowsUpdate(games, id, g1, sender);
      var waiting := g1.(phase := Some(Reveal), last := Some(RevealAdded));
      PutFollows(g, sender, ts, data, waiting);
      StoreFollowsUpdate(games, id, waiting, sender);
      UpdateTwice(games, id, g1, waiting);
    } else {
      if data.timeout {
        TimeoutRule(env, games, sender, ts, data);
      } else {
        RevealPhaseOtherwiseRejected(env, games, sender, ts, data);
      }
      StoreFollowsKept(games, o.games, sender);
    }
  }

  lemma CreationFollows(env: Env, games: map<string, Game>, sender: string, ts: int, data: Intent)
    requires StoreShaped(games) && IsNonEmpty(data.opponent)
    requires GameId(env, sender, data.opponent.value) !in games
    ensures StoreFollows(games, Step(env, games, sender, ts, data).games, sender)
  {
    var o := Step(env, games, sender, ts, data);
    if o.result.Ok? {
      CreatedGame(env, games, sender, ts, data);
    } else {
      CreationGuards(env, games, sender, ts, data);
    }
    StoreFollowsKept(games, o.games, sender);
  }

  /** A sender without a slot in the live game of the pair is rejected and
      changes nothing. */
  lemma StrangerRejected(env: Env, games: map<string, Game>, sender: string, ts: int, data: Intent)
    requires StoreShaped(games) && IsNonEmpty(data.opponent)
    requires var id := GameId(env, sender, data.opponent.value);
             id in games && Live(games[id]) && sender !in games[id].slots
    ensures Step(env, games, sender, ts, data) == Outcome(games, Err(UnknownPlayer(sender)))
  {
    var id := GameId(env, sender, data.opponent.value);
    if games[id].phase == Some(Commit) {
      assert Step(env, games, sender, ts, data) == CommitStep(env, games, id, sender, ts, data);
    } else {
      assert Step(env, games, sender, ts, data) == RevealStep(env, games, id, sender, ts, data);
    }
  }

  /** Each move writes a slot's commit and its reveal at most once, changes
      no parity and touches no slot but the sender's. */
  lemma SlotsWrittenOnce(env: Env, games: map<string, Game>, sender: string, ts: int, data: Intent)
    requires ValidGames(games)
    ensures StoreShaped(games) && StoreFollows(games, Step(env, games, sender, ts, data).games, sender)
  {
    ValidIsShaped(games);
    if !IsNonEmpty(data.opponent) {
      NoOpponentRejected(env, games, sender, ts, data);
      StoreFollowsKept(games, games, sender);
      return;
    }
    var id := GameId(env, sender, data.opponent.value);
    if id !in games {
      CreationFollows(env, games, sender, ts, data);
      return;
    }
    var g := games[id];
    assert Live(g);
    if sender !in g.slots {
      StrangerRejected(env, games, sender, ts, data);
      StoreFollowsKept(games, games, sender);
    } else if g.phase == Some(Commit) {
      CommitPhaseFollows(env, games, sender, ts, data);
    } else {
      RevealPhaseFollows(env, games, sender, ts, data);
    }
  }

  // ---------------------------------------------------------------------
  // Refusals

  /** A first reveal against an opponent who holds the other slot always
      succeeds: it loses, wins, or waits. */
  lemma FirstRevealSucceeds(env: Env, games: map<string, Game>, sender: string, ts: int, data: Intent)
    requires ValidGames(games) && StoreShaped(games) && FirstReveal(env, games, sender, data)
    requires data.opponent.value != sender
    requires data.opponent.value in games[GameId(env, sender, data.opponent.value)].slots
    ensures Step(env, games, sender, ts, data).result.Ok?
  {
    assert Live(games[GameId(env, sender, data.opponent.value)]);
    var g1 := Revealed(env, games, sender, ts, data);
    var opponent := data.opponent.value;
    if !CheckReveal(env, g1, sender) {
      WrongRevealLoses(env, games, sender, ts, data);
    } else if IsNonzero(g1.slots[opponent].revealTs) {
      RightRevealDecides(env, games, sender, ts, data);
    } else {
      RightRevealWaits(env, games, sender, ts, data);
    }
  }

  lemma CommitPhaseRefusals(env: Env, games: map<string, Game>, sender: string, ts: int, data: Intent)
    requires StoreShaped(games) && InGame(env, games, sender, data)
    requires games[GameId(env, sender, data.opponent.value)].phase == Some(Commit)
    ensures var o := Step(env, games, sender, ts, data);
            o.result.Err? ==> o.games == games
  {
    var g := games[GameId(env, sender, data.opponent.value)];
    if !IsNonzero(g.slots[sender].commitTs) && (IsNonEmpty(data.commit) || IsNonzero(data.action)) {
      CommitPhaseAdvances(env, games, sender, ts, data);
    } else if data.cancel {
      CancelRule(env, games, sender, ts, data);
    } else {
      CommitPhaseOtherwiseRejected(env, games, sender, ts, data);
    }
  }

  lemma RevealPhaseRefusals(env: Env, games: map<string, Game>, sender: string, ts: int, data: Intent)
    requires ValidGames(games) && StoreShaped(games) && InGame(env, games, sender, data)
    requires data.opponent.value != sender
    requires data.opponent.value in games[GameId(env, sender, data.opponent.value)].slots
    requires games[GameId(env, sender, data.opponent.value)].phase == Some(Reveal)
    ensures var o := Step(env, games, sender, ts, data);
            o.result.Err? ==> o.games == games
  {
    var g := games[GameId(env, sender, data.opponent.value)];
    if !IsNonzero(g.slots[sender].revealTs) && IsNonzero(data.action) {
      FirstRevealSucceeds(env, games, sender, ts, data);
    } else if data.timeout {
      TimeoutRule(env, games, sender, ts, data);
    } else {
      RevealPhaseOtherwiseRejected(env, games, sender, ts, data);
    }
  }

  /** A refused move leaves the store as it was, whenever the opponent named
      holds the other slot of the game it reaches. (When the opponent holds
      no slot, a first reveal is written before the lookup that fails.) */
  lemma ErrorsLeaveStoreUnchanged(env: Env, games: map<string, Game>, sender: string, ts: int, data: Intent)
    requires ValidGames(games)
    requires InGame(env, games, sender, data) ==>
               && data.opponent.value != sender
               && data.opponent.value in games[GameId(env, sender, data.opponent.value)].slots
    ensures StoreShaped(games)
    ensures var o := Step(env, games, sender, ts, data);
            o.result.Err? ==> o.games == games
  {
    ValidIsShaped(games);
    if !IsNonEmpty(data.opponent) {
      NoOpponentRejected(env, games, sender, ts, data);
      return;
    }
    var id := GameId(env, sender, data.opponent.value);
    if id !in games {
      CreationGuards(env, games, sender, ts, data);
      return;
    }
    var g := games[id];
    assert Live(g);
    if sender !in g.slots {
      StrangerRejected(env, games, sender, ts, data);
    } else if g.phase == Some(Commit) {
      CommitPhaseRefusals(env, games, sender, ts, data);
    } else {
      RevealPhaseRefusals(env, games, sender, ts, data);
    }
  }
}
