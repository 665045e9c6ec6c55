/** The status formatter: the text a notice carries about a game. */
module Status {
  import opened Wrappers
  import opened Strings
  import opened Externals
  import opened Payload
  import opened Games

  /** `get_player_display_id`: `p[0:6] + "..." + p[-4:]`. */
  function DisplayId(p: string): (r: string)
    ensures |p| >= 10 ==> |r| == 13 && r[..6] == p[..6] && r[6..9] == "..." && r[9..] == p[|p| - 4..]
  {
    Prefix(p, 6) + "..." + Suffix(p, 4)
  }

  /** `get_player_parity`. */
  function ParityName(b: Bit): (r: string)
    ensures r == "even" || r == "odd"
  {
    if b == 0 then "even" else "odd"
  }

  /** The parser reads back the parity name the formatter prints. */
  lemma ParityNameRoundTrip(b: Bit)
    ensures ParityBit(ParityName(b)) == Ok(b)
  {
  }

  /** `get_pretty_timestamp`: the calendar rendering of a timestamp, or `-`
      when it is missing or 0. */
  function PrettyTs(env: Env, ts: Option<int>): (r: string)
    ensures !IsNonzero(ts) ==> r == "-"
    ensures IsNonzero(ts) ==> r == env.isoformat(ts.value)
  {
    if IsNonzero(ts) then env.isoformat(ts.value) else "-"
  }

  function PhaseName(p: Option<Phase>): string {
    match p
    case None => "None"
    case Some(Commit) => "COMMIT"
    case Some(Reveal) => "REVEAL"
    case Some(Finish) => "FINISH"
    case Some(Abort) => "ABORT"
  }

  function InteractionName(i: Option<Interaction>): string {
    match i
    case None => "None"
    case Some(Created) => "CREATED"
    case Some(CommitAdded) => "COMMIT ADDED"
    case Some(RevealAdded) => "REVEAL ADDED"
    case Some(WrongRevealAdded) => "WRONG REVEAL ADDED"
    case Some(TimedOut) => "TIMEOUT"
    case Some(Canceled) => "CANCELED"
  }

  /** Distinct phases print names that already differ in their first
      letter. */
  lemma PhaseNameInjective(p: Option<Phase>, q: Option<Phase>)
    requires p != q
    ensures PhaseName(p) != "" && PhaseName(q) != "" && PhaseName(p)[0] != PhaseName(q)[0]
  {
  }

  /** The parts of a player's status: commit, action and nonce, each when set. */
  function StatusParts(slot: Slot): seq<string> {
    (if IsNonEmpty(slot.commit) then ["Commit(" + slot.commit.value + ")"] else [])
    + (if IsNonzero(slot.action) then ["Action(" + IntToString(slot.action.value) + ")"] else [])
    + (if IsNonEmpty(slot.nonce) then ["Nonce(" + slot.nonce.value + ")"] else [])
  }

  /** The timestamp a player's status shows. */
  function TsText(env: Env, slot: Slot): string {
    if IsNonzero(slot.action) then " Ts(" + PrettyTs(env, slot.revealTs) + ")"
    else if IsNonEmpty(slot.commit) then " Ts(" + PrettyTs(env, slot.commitTs) + ")"
    else ""
  }

  /** The parts that are set, or "No Commit". */
  function PartsText(slot: Slot): string {
    var parts := StatusParts(slot);
    if |parts| > 0 then Join(parts, ", ") else "No Commit"
  }

  /** `get_player_status`. The source picks the time by the values it
      finds (an action, else a commit); in a consistent slot that is the time
      of the player's latest step: the reveal's once the player has revealed,
      else the commit's once the player has committed, else none. */
  function PlayerStatus(env: Env, g: Game, p: string): (r: string)
    requires p in g.slots
    ensures var slot := g.slots[p];
            var head := "Player(" + DisplayId(p) + ") Parity(" + ParityName(slot.parity) + ")";
            var shown :=
              if slot.revealTs.Some? then " Ts(" + PrettyTs(env, slot.revealTs) + ")"
              else if slot.commitTs.Some? then " Ts(" + PrettyTs(env, slot.commitTs) + ")"
              else "";
            SlotConsistent(slot) ==> r == head + shown + ": " + PartsText(slot)
  {
    var slot := g.slots[p];
    "Player(" + DisplayId(p) + ") Parity(" + ParityName(slot.parity) + ")" + TsText(env, slot) + ": " + PartsText(slot)
  }

  /** A player with nothing set is shown as "No Commit", and only then. */
  lemma NoCommitShown(slot: Slot)
    ensures StatusParts(slot) == [] <==>
              !IsNonEmpty(slot.commit) && !IsNonzero(slot.action) && !IsNonEmpty(slot.nonce)
  {
  }

  predicate PlayersHaveSlots(g: Game) {
    forall i :: 0 <= i < |g.players| ==> g.players[i] in g.slots
  }

  /** What follows the id in a game's status: phase and last interaction. */
  function Header(env: Env, g: Game): string {
    " Phase(" + PhaseName(g.phase) + ") Last(" + InteractionName(g.last)
    + " - " + PrettyTs(env, Some(g.lastTs)) + ")"
  }

  /** The players' statuses in order, each after ` | `. */
  function PlayersText(env: Env, g: Game, n: nat): string
    requires n <= |g.players| && PlayersHaveSlots(g)
  {
    if n == 0 then ""
    else PlayersText(env, g, n - 1) + " | " + PlayerStatus(env, g, g.players[n - 1])
  }

  /** What `get_game_status_message` returns. */
  function StatusText(env: Env, games: map<string, Game>, id: string): (r: string)
    requires id in games ==> PlayersHaveSlots(games[id])
    ensures r == "Game(" + id + ")" <==> id !in games
  {
    var message := "Game(" + id + ")";
    if id !in games then message
    else message + Header(env, games[id]) + PlayersText(env, games[id], |games[id].players|)
  }

  /** Every status begins with the game id. */
  lemma StatusNamesGame(env: Env, games: map<string, Game>, id: string)
    requires id in games ==> PlayersHaveSlots(games[id])
    ensures var prefix := "Game(" + id + ")";
            |prefix| <= |StatusText(env, games, id)| && StatusText(env, games, id)[..|prefix|] == prefix
  {
    var prefix := "Game(" + id + ")";
    if id in games {
      var rest := Header(env, games[id]) + PlayersText(env, games[id], |games[id].players|);
      assert StatusText(env, games, id) == prefix + rest;
    }
  }

  /** The status of a stored game names its phase: the same game in two
      different phases prints two different statuses. */
  lemma StatusShowsPhase(env: Env, games: map<string, Game>, others: map<string, Game>, id: string)
    requires id in games && PlayersHaveSlots(games[id])
    requires id in others && PlayersHaveSlots(others[id])
    requires games[id].phase != others[id].phase
    ensures StatusText(env, games, id) != StatusText(env, others, id)
  {
    PhaseNameInjective(games[id].phase, others[id].phase);
    HeaderShowsPhase(env, games, id);
    HeaderShowsPhase(env, others, id);
  }

  /** The first letter of the phase name sits at a fixed place in the status. */
  lemma HeaderShowsPhase(env: Env, games: map<string, Game>, id: string)
    requires id in games && PlayersHaveSlots(games[id])
    ensures var at := |"Game(" + id + ")"| + 7;
            PhaseName(games[id].phase) != ""
            && at < |StatusText(env, games, id)|
            && StatusText(env, games, id)[at] == PhaseName(games[id].phase)[0]
  {
    var a := "Game(" + id + ")";
    var h := Header(env, games[id]);
    var rest := PlayersText(env, games[id], |games[id].players|);
    assert StatusText(env, games, id) == a + h + rest;
    HeaderPhaseAt(env, games[id]);
    CharInMiddle(a, h, rest, 7);
  }

  /** The phase name starts right after ` Phase(` in the header. */
  lemma HeaderPhaseAt(env: Env, g: Game)
    ensures PhaseName(g.phase) != "" && 7 < |Header(env, g)| && Header(env, g)[7] == PhaseName(g.phase)[0]
  {
  }

  /** A character of the middle piece of a concatenation. */
  lemma CharInMiddle(a: string, h: string, rest: string, k: nat)
    requires k < |h|
    ensures |a| + k < |a + h + rest| && (a + h + rest)[|a| + k] == h[k]
  {
  }
}
