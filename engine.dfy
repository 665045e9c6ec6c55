/** The game store and the state machine that processes one move. `Step` is
    the transition as a function of the store; `Store.HandleGameLogic` does
    the same work in place and is proved to agree with it. */
module Engine {
  import opened Wrappers
  import opened Strings
  import opened Externals
  import opened Payload
  import opened GameIds
  import opened Games
  import opened Status

  /** Every stored game lists players that have slots. */
  predicate StoreShaped(games: map<string, Game>) {
    forall id :: id in games ==> PlayersHaveSlots(games[id])
  }

  /** The store invariant: every stored game is live. */
  ghost predicate ValidGames(games: map<string, Game>) {
    forall id :: id in games ==> Live(games[id])
  }

  lemma ValidIsShaped(games: map<string, Game>)
    requires ValidGames(games)
    ensures StoreShaped(games)
  {
    forall id | id in games
      ensures PlayersHaveSlots(games[id])
    {
      assert Live(games[id]);
    }
  }

  /** The store after a move, and the notice or the error. */
  datatype Outcome = Outcome(games: map<string, Game>, result: Result<string, EngineError>)

  /** The notice of a decided game: the kind of victory and the winner's
      display id in front of the full status text. */
  function WinnerMessage(victory: string, player: string, status: string): (r: string)
    ensures var head := "WINNER[" + victory + "](" + DisplayId(player) + ") | ";
            |r| == |head| + |status| && r[..|head|] == head && r[|head|..] == status
  {
    "WINNER[" + victory + "](" + DisplayId(player) + ") | " + status
  }

  predicate IsTerminal(p: Option<Phase>) {
    p == Some(Finish) || p == Some(Abort)
  }

  /** The end of every transition: a finished or aborted game leaves the
      store, and a move that produced no message is an invalid action. */
  function Conclude(games: map<string, Game>, id: string, message: Option<string>, sender: string): (o: Outcome)
    requires id in games
    ensures o.games - {id} == games - {id}
    ensures id in o.games <==> !IsTerminal(games[id].phase)
    ensures o.result.Ok? <==> message.Some?
  {
    var phase := games[id].phase;
    var after := if IsTerminal(phase) then games - {id} else games;
    Outcome(after, if message.None? then Err(InvalidAction(sender, id, phase)) else Ok(message.value))
  }

  /** The commit phase. */
  function CommitStep(env: Env, games: map<string, Game>, id: string, sender: string, ts: int, data: Intent): (o: Outcome)
    requires id in games && StoreShaped(games) && data.opponent.Some?
    ensures o.games - {id} == games - {id}
  {
    var g := games[id];
    if sender !in g.slots then Outcome(games, Err(UnknownPlayer(sender)))
    else if !IsNonzero(g.slots[sender].commitTs) && (IsNonEmpty(data.commit) || IsNonzero(data.action)) then
      var added := if IsNonEmpty(data.commit) then PutCommit(g, sender, ts, data) else PutReveal(g, sender, ts, data);
      var interaction := if IsNonEmpty(data.commit) then CommitAdded else RevealAdded;
      match added
      case Err(e) => Outcome(games, Err(e))
      case Ok(g1) =>
        var after := games[id := g1.(last := Some(interaction), phase := Some(Reveal))];
        Conclude(after, id, Some(StatusText(env, after, id)), sender)
    else
      match CheckCancel(g, sender, data)
      case Err(e) => Outcome(games, Err(e))
      case Ok(cancel) =>
        if !cancel then Conclude(games, id, None, sender)
        else
          var after := games[id := g.(phase := Some(Abort), last := Some(Canceled))];
          Conclude(after, id, Some(StatusText(env, after, id)), sender)
  }

  /** The reveal phase once the sender's reveal is written into the stored
      game: a wrong reveal loses, a right one either waits for the opponent
      or decides the game. */
  function AfterReveal(env: Env, games: map<string, Game>, id: string, sender: string, opponent: string): (o: Outcome)
    requires id in games && StoreShaped(games) && sender in games[id].slots
    ensures o.games - {id} == games - {id}
  {
    var g1 := games[id];
    if !CheckReveal(env, g1, sender) then
      var after := games[id := g1.(phase := Some(Finish), last := Some(WrongRevealAdded))];
      Conclude(after, id, Some(WinnerMessage("wrong reveal victory", opponent, StatusText(env, after, id))), sender)
    else if opponent !in g1.slots then Outcome(games, Err(UnknownPlayer(opponent)))
    else if IsNonzero(g1.slots[opponent].revealTs) then
      match Winner(g1)
      case Err(e) => Outcome(games, Err(e))
      case Ok(w) =>
        var after := games[id := g1.(phase := Some(Finish), last := Some(RevealAdded))];
        Conclude(after, id, Some(WinnerMessage("normal victory", w, StatusText(env, after, id))), sender)
    else
      var after := games[id := g1.(phase := Some(Reveal), last := Some(RevealAdded))];
      Conclude(after, id, Some(StatusText(env, after, id)), sender)
  }

  /** The reveal phase. */
  function RevealStep(env: Env, games: map<string, Game>, id: string, sender: string, ts: int, data: Intent): (o: Outcome)
    requires id in games && StoreShaped(games) && data.opponent.Some?
    ensures o.games - {id} == games - {id}
  {
    var g := games[id];
    var opponent := data.opponent.value;
    if sender !in g.slots then Outcome(games, Err(UnknownPlayer(sender)))
    else if !IsNonzero(g.slots[sender].revealTs) && IsNonzero(data.action) then
      match PutReveal(g, sender, ts, data)
      case Err(e) => Outcome(games, Err(e))
      case Ok(g1) => AfterReveal(env, games[id := g1], id, sender, opponent)
    else
      match CheckTimeout(g, sender, ts, data)
      case Err(e) => Outcome(games, Err(e))
      case Ok(timeout) =>
        if !timeout then Conclude(games, id, None, sender)
        else
          var after := games[id := g.(phase := Some(Finish), last := Some(TimedOut))];
          Conclude(after, id, Some(WinnerMessage("W.O. victory", sender, StatusText(env, after, id))), sender)
  }

  /** One move against the game stored under `id`, dispatched on its phase. */
  function Dispatch(env: Env, games: map<string, Game>, id: string, sender: string, ts: int, data: Intent): (o: Outcome)
    requires id in games && StoreShaped(games) && data.opponent.Some?
    ensures o.games - {id} == games - {id}
  {
    match games[id].phase
    case None =>
      var after := games[id := games[id].(phase := Some(Commit), last := Some(Created))];
      Outcome(after, Ok(StatusText(env, after, id)))
    case Some(Commit) => CommitStep(env, games, id, sender, ts, data)
    case Some(Reveal) => RevealStep(env, games, id, sender, ts, data)
    case Some(_) => Outcome(games, Err(InvalidGamePhase))
  }

  /** `handle_game_logic` as a function of the store: the id of the pair,
      the game found or created under it, and the move applied. */
  function Step(env: Env, games: map<string, Game>, sender: string, ts: int, data: Intent): (o: Outcome)
    requires StoreShaped(games)
    ensures IsNonEmpty(data.opponent) ==>
              var id := GameId(env, sender, data.opponent.value);
              o.games - {id} == games - {id}
  {
    if !IsNonEmpty(data.opponent) then Outcome(games, Err(NoOpponent))
    else
      var id := GameId(env, sender, data.opponent.value);
      if id in games then Dispatch(env, games, id, sender, ts, data)
      else match NewGame(sender, ts, data)
        case Err(e) => Outcome(games, Err(e))
        case Ok(g) =>
          UpdateTwice(games, id, g, g);
          Dispatch(env, games[id := g], id, sender, ts, data)
  }

  /** Map facts about writing one key twice, or writing and then dropping it. */
  lemma UpdateTwice(games: map<string, Game>, id: string, g: Game, h: Game)
    ensures games[id := g][id] == g
    ensures games[id := g][id := h] == games[id := h]
    ensures games[id := g] - {id} == games - {id}
  {
  }

  /** Storing a live game keeps the store valid. */
  lemma StoreLive(games: map<string, Game>, id: string, g: Game)
    requires forall k :: k in games && k != id ==> Live(games[k])
    requires Live(g)
    ensures ValidGames(games[id := g])
  {
  }

  /** Dropping terminal games keeps the store valid. */
  lemma ConcludeKeepsValid(games: map<string, Game>, id: string, message: Option<string>, sender: string)
    requires id in games
    requires forall k :: k in games && k != id ==> Live(games[k])
    requires Live(games[id]) || (WellShaped(games[id]) && IsTerminal(games[id].phase))
    ensures ValidGames(Conclude(games, id, message, sender).games)
  {
  }

  /** Ending a game with a record of the same shape keeps the store valid. */
  lemma EndingKeepsValid(games: map<string, Game>, id: string, h: Game, message: Option<string>, sender: string)
    requires ValidGames(games) && id in games
    requires WellShaped(h) && IsTerminal(h.phase)
    ensures ValidGames(Conclude(games[id := h], id, message, sender).games)
  {
    ConcludeKeepsValid(games[id := h], id, message, sender);
  }

  /** Keeping a game live with a new phase and interaction keeps the store
      valid. */
  lemma WaitingKeepsValid(games: map<string, Game>, id: string, h: Game, message: Option<string>, sender: string)
    requires ValidGames(games) && id in games && Live(h)
    ensures ValidGames(Conclude(games[id := h], id, message, sender).games)
  {
    StoreLive(games, id, h);
    ConcludeKeepsValid(games[id := h], id, message, sender);
  }

  lemma AfterRevealKeepsValid(env: Env, games: map<string, Game>, id: string, sender: string, opponent: string)
    requires ValidGames(games) && id in games && sender in games[id].slots
    ensures StoreShaped(games) && ValidGames(AfterReveal(env, games, id, sender, opponent).games)
  {
    ValidIsShaped(games);
    var g1 := games[id];
    assert Live(g1);
    if !CheckReveal(env, g1, sender) {
      var h := g1.(phase := Some(Finish), last := Some(WrongRevealAdded));
      var after := games[id := h];
      var m := WinnerMessage("wrong reveal victory", opponent, StatusText(env, after, id));
      EndingKeepsValid(games, id, h, Some(m), sender);
    } else if opponent in g1.slots && IsNonzero(g1.slots[opponent].revealTs) && Winner(g1).Ok? {
      var h := g1.(phase := Some(Finish), last := Some(RevealAdded));
      var after := games[id := h];
      var m := WinnerMessage("normal victory", Winner(g1).value, StatusText(env, after, id));
      EndingKeepsValid(games, id, h, Some(m), sender);
    } else if opponent in g1.slots && !IsNonzero(g1.slots[opponent].revealTs) {
      var h := g1.(phase := Some(Reveal), last := Some(RevealAdded));
      var after := games[id := h];
      WaitingKeepsValid(games, id, h, Some(StatusText(env, after, id)), sender);
    }
  }

  lemma CommitStepKeepsValid(env: Env, games: map<string, Game>, id: string, sender: string, ts: int, data: Intent)
    requires ValidGames(games) && id in games && data.opponent.Some? && games[id].phase == Some(Commit)
    ensures StoreShaped(games) && ValidGames(CommitStep(env, games, id, sender, ts, data).games)
  {
    ValidIsShaped(games);
    var g := games[id];
    if sender in g.slots && !IsNonzero(g.slots[sender].commitTs) && (IsNonEmpty(data.commit) || IsNonzero(data.action)) {
      var added := if IsNonEmpty(data.commit) then PutCommit(g, sender, ts, data) else PutReveal(g, sender, ts, data);
      if IsNonEmpty(data.commit) {
        PutCommitWellShaped(g, sender, ts, data);
      } else {
        PutRevealWellShaped(g, sender, ts, data);
      }
      var interaction := if IsNonEmpty(data.commit) then CommitAdded else RevealAdded;
      var h := added.value.(last := Some(interaction), phase := Some(Reveal));
      assert Live(h);
      StoreLive(games, id, h);
    }
  }

  lemma RevealStepKeepsValid(env: Env, games: map<string, Game>, id: string, sender: string, ts: int, data: Intent)
    requires ValidGames(games) && id in games && data.opponent.Some? && games[id].phase == Some(Reveal)
    ensures StoreShaped(games) && ValidGames(RevealStep(env, games, id, sender, ts, data).games)
  {
    ValidIsShaped(games);
    var g := games[id];
    if sender in g.slots && !IsNonzero(g.slots[sender].revealTs) && IsNonzero(data.action) {
      PutRevealWellShaped(g, sender, ts, data);
      var g1 := PutReveal(g, sender, ts, data).value;
      StoreLive(games, id, g1);
      AfterRevealKeepsValid(env, games[id := g1], id, sender, data.opponent.value);
    }
  }

  /** Every move keeps every stored game live. */
  lemma StepKeepsValid(env: Env, games: map<string, Game>, sender: string, ts: int, data: Intent)
    requires ValidGames(games)
    ensures StoreShaped(games) && ValidGames(Step(env, games, sender, ts, data).games)
  {
    ValidIsShaped(games);
    if IsNonEmpty(data.opponent) {
      var id := GameId(env, sender, data.opponent.value);
      if id in games {
        match games[id].phase
        case Some(Commit) => CommitStepKeepsValid(env, games, id, sender, ts, data);
        case Some(Reveal) => RevealStepKeepsValid(env, games, id, sender, ts, data);
        case _ =>
      } else if NewGame(sender, ts, data).Ok? {
        var g := NewGame(sender, ts, data).value;
        var h := g.(phase := Some(Commit), last := Some(Created));
        NewGameWellShaped(sender, ts, data);
        assert Live(h);
        StoreLive(games, id, h);
        UpdateTwice(games, id, g, h);
        assert Step(env, games, sender, ts, data).games == games[id := h];
      }
    }
  }

  /** The process-wide store of open games, keyed by game id. */
  class Store {
    const env: Env
    var games: map<string, Game>

    ghost predicate Valid()
      reads this
    {
      ValidGames(games)
    }

    constructor (env: Env)
      ensures Valid() && this.env == env && games == map[]
    {
      this.env := env;
      games := map[];
    }

    /** `get_game`: the game under `id`, created from the move and stored
        when there is none. */
    method GetGame(sender: string, ts: int, data: Intent, id: string) returns (r: Result<Game, EngineError>)
      modifies this
      ensures id in old(games) ==> r == Ok(old(games)[id]) && games == old(games)
      ensures id !in old(games) ==> r == NewGame(sender, ts, data)
      ensures id !in old(games) ==> games == if r.Ok? then old(games)[id := r.value] else old(games)
    {
      if id !in games {
        r := NewGame(sender, ts, data);
        if r.Ok? {
          games := games[id := r.value];
        }
      } else {
        r := Ok(games[id]);
      }
    }

    /** `add_commit` on the stored game. */
    method AddCommit(sender: string, ts: int, data: Intent, id: string) returns (r: Result<(), EngineError>)
      requires id in games && sender in games[id].slots
      requires StoreShaped(games)
      modifies this
      ensures StoreShaped(games)
      ensures var added := PutCommit(old(games)[id], sender, ts, data);
              && r == (if added.Ok? then Ok(()) else Err(added.error))
              && games == if added.Ok? then old(games)[id := added.value] else old(games)
    {
      var added := PutCommit(games[id], sender, ts, data);
      if added.Err? {
        return Err(added.error);
      }
      games := games[id := added.value];
      r := Ok(());
    }

    /** `add_reveal` on the stored game. */
    method AddReveal(sender: string, ts: int, data: Intent, id: string) returns (r: Result<(), EngineError>)
      requires id in games && sender in games[id].slots
      requires StoreShaped(games)
      modifies this
      ensures StoreShaped(games)
      ensures var added := PutReveal(old(games)[id], sender, ts, data);
              && r == (if added.Ok? then Ok(()) else Err(added.error))
              && games == if added.Ok? then old(games)[id := added.value] else old(games)
    {
      var added := PutReveal(games[id], sender, ts, data);
      if added.Err? {
        return Err(added.error);
      }
      games := games[id := added.value];
      r := Ok(());
    }

    /** Sets the phase and the last interaction of the stored game. */
    method Mark(id: string, phase: Phase, last: Interaction)
      requires id in games
      requires StoreShaped(games)
      modifies this
      ensures StoreShaped(games)
      ensures games == old(games)[id := old(games)[id].(phase := Some(phase), last := Some(last))]
    {
      games := games[id := games[id].(phase := Some(phase), last := Some(last))];
    }

    /** `get_game_status_message`: the status line built player by player. */
    method GameStatusMessage(id: string) returns (message: string)
      requires id in games ==> PlayersHaveSlots(games[id])
      ensures message == StatusText(env, games, id)
    {
      message := "Game(" + id + ")";
      if id !in games {
        return;
      }
      var g := games[id];
      var players := "";
      var i := 0;
      while i < |g.players|
        invariant 0 <= i <= |g.players|
        invariant players == PlayersText(env, g, i)
      {
        var status := PlayerStatus(env, g, g.players[i]);
        assert PlayersText(env, g, i + 1) == PlayersText(env, g, i) + " | " + status;
        players := players + " | " + status;
        i := i + 1;
      }
      message := message + Header(env, g) + players;
    }

    /** The tail of `handle_game_logic`: drop a finished or aborted game, and
        reject a move that produced no message. */
    method EndMove(id: string, message: Option<string>, sender: string) returns (r: Result<string, EngineError>)
      requires id in games
      modifies this
      ensures Outcome(games, r) == Conclude(old(games), id, message, sender)
    {
      var phase := games[id].phase;
      if IsTerminal(phase) {
        games := games - {id};
      }
      if message.None? {
        return Err(InvalidAction(sender, id, phase));
      }
      r := Ok(message.value);
    }

    /** `handle_game_logic`: one move from `sender` at time `ts`. */
    method HandleGameLogic(sender: string, ts: int, data: Intent) returns (r: Result<string, EngineError>)
      requires Valid()
      modifies this
      ensures Outcome(games, r) == Step(env, old(games), sender, ts, data)
      ensures Valid()
    {
      ValidIsShaped(games);
      StepKeepsValid(env, games, sender, ts, data);
      if !IsNonEmpty(data.opponent) {
        return Err(NoOpponent);
      }
      var id := GameId(env, sender, data.opponent.value);
      var found := GetGame(sender, ts, data, id);
      if found.Err? {
        return Err(found.error);
      }
      if id !in old(games) {
        NewGameWellShaped(sender, ts, data);
      }
      assert id in games && StoreShaped(games) && games[id] == found.value;
      assert Step(env, old(games), sender, ts, data) == Dispatch(env, games, id, sender, ts, data);
      match found.value.phase
      case None =>
        Mark(id, Commit, Created);
        var message := GameStatusMessage(id);
        r := Ok(message);
      case Some(Commit) =>
        r := CommitMove(id, sender, ts, data);
      case Some(Reveal) =>
        r := RevealMove(id, sender, ts, data);
      case Some(_) =>
        r := Err(InvalidGamePhase);
    }

    /** The commit-phase branch of `handle_game_logic`. */
    method CommitMove(id: string, sender: string, ts: int, data: Intent) returns (r: Result<string, EngineError>)
      requires id in games && StoreShaped(games) && data.opponent.Some?
      modifies this
      ensures Outcome(games, r) == CommitStep(env, old(games), id, sender, ts, data)
    {
      var g := games[id];
      if sender !in g.slots {
        return Err(UnknownPlayer(sender));
      }
      if !IsNonzero(g.slots[sender].commitTs) && (IsNonEmpty(data.commit) || IsNonzero(data.action)) {
        r := FirstCommit(id, sender, ts, data);
      } else {
        r := CancelMove(id, sender, ts, data);
      }
    }

    /** A first commit (or an action sent in its place) moves the game to
        the reveal phase. */
    method FirstCommit(id: string, sender: string, ts: int, data: Intent) returns (r: Result<string, EngineError>)
      requires id in games && StoreShaped(games) && data.opponent.Some?
      requires sender in games[id].slots && !IsNonzero(games[id].slots[sender].commitTs)
      requires IsNonEmpty(data.commit) || IsNonzero(data.action)
      modifies this
      ensures Outcome(games, r) == CommitStep(env, old(games), id, sender, ts, data)
    {
      ghost var g1 := (if IsNonEmpty(data.commit) then PutCommit(games[id], sender, ts, data)
                       else PutReveal(games[id], sender, ts, data)).value;
      var added;
      if IsNonEmpty(data.commit) {
        added := AddCommit(sender, ts, data, id);
        Mark(id, Reveal, CommitAdded);
      } else {
        added := AddReveal(sender, ts, data, id);
        Mark(id, Reveal, RevealAdded);
      }
      assert games == old(games)[id := g1.(last := games[id].last, phase := Some(Reveal))];
      var message := GameStatusMessage(id);
      r := EndMove(id, Some(message), sender);
    }

    /** Any other commit-phase move: a cancel, or nothing. */
    method CancelMove(id: string, sender: string, ts: int, data: Intent) returns (r: Result<string, EngineError>)
      requires id in games && StoreShaped(games) && data.opponent.Some?
      requires sender in games[id].slots
      requires IsNonzero(games[id].slots[sender].commitTs) || (!IsNonEmpty(data.commit) && !IsNonzero(data.action))
      modifies this
      ensures Outcome(games, r) == CommitStep(env, old(games), id, sender, ts, data)
    {
      var cancel := CheckCancel(games[id], sender, data);
      if cancel.Err? {
        return Err(cancel.error);
      }
      if cancel.value {
        Mark(id, Abort, Canceled);
        var message := GameStatusMessage(id);
        r := EndMove(id, Some(message), sender);
      } else {
        r := EndMove(id, None, sender);
      }
    }

    /** The reveal-phase branch of `handle_game_logic`. */
    method RevealMove(id: string, sender: string, ts: int, data: Intent) returns (r: Result<string, EngineError>)
      requires id in games && StoreShaped(games) && data.opponent.Some?
      modifies this
      ensures Outcome(games, r) == RevealStep(env, old(games), id, sender, ts, data)
    {
      var g := games[id];
      var opponent := data.opponent.value;
      if sender !in g.slots {
        return Err(UnknownPlayer(sender));
      }
      if !IsNonzero(g.slots[sender].revealTs) && IsNonzero(data.action) {
        var added := AddReveal(sender, ts, data, id);
        r := CheckAddedReveal(id, sender, opponent);
      } else {
        var timeout := CheckTimeout(g, sender, ts, data);
        if timeout.Err? {
          return Err(timeout.error);
        }
        if timeout.value {
          Mark(id, Finish, TimedOut);
          var status := GameStatusMessage(id);
          r := EndMove(id, Some(WinnerMessage("W.O. victory", sender, status)), sender);
        } else {
          r := EndMove(id, None, sender);
        }
      }
    }

    /** The reveal branch of `handle_game_logic` once the sender's reveal is
        stored. */
    method CheckAddedReveal(id: string, sender: string, opponent: string) returns (r: Result<string, EngineError>)
      requires id in games && StoreShaped(games) && sender in games[id].slots
      modifies this
      ensures Outcome(games, r) == AfterReveal(env, old(games), id, sender, opponent)
    {
      var g1 := games[id];
      if !CheckReveal(env, g1, sender) {
        Mark(id, Finish, WrongRevealAdded);
        var status := GameStatusMessage(id);
        r := EndMove(id, Some(WinnerMessage("wrong reveal victory", opponent, status)), sender);
      } else if opponent !in g1.slots {
        return Err(UnknownPlayer(opponent));
      } else if IsNonzero(g1.slots[opponent].revealTs) {
        var winner := GetWinner(g1);
        if winner.Err? {
          return Err(winner.error);
        }
        Mark(id, Finish, RevealAdded);
        var status := GameStatusMessage(id);
        r := EndMove(id, Some(WinnerMessage("normal victory", winner.value, status)), sender);
      } else {
        Mark(id, Reveal, RevealAdded);
        var message := GameStatusMessage(id);
        r := EndMove(id, Some(message), sender);
      }
    }
  }
}
