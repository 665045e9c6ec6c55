# Odds and evens: the game engine

This project models the game engine of the Cartesi "odds and evens" DApp
(`odds-and-evens.py`). Two players play a commit–reveal game of odds and
evens. Each move arrives as a payload of whitespace-separated key/value
tokens. The engine parses the payload into an intent and derives the game id
of the player pair. It then runs one transition of the game's state machine
against a process-wide store of open games:

- COMMIT: both players commit.
- REVEAL: both players reveal their action and nonce.
- FINISH or ABORT: the game ends and is deleted from the store.

Each successful move returns a notice text that describes the game.

The modules follow the program's structure:

- `Strings` (strings.dfy) models the Python built-ins the engine relies on,
  on the inputs it sees: ASCII `lower()`, `split()`, slicing, `<` on
  strings, `str(int)` and `int(str)`.
- `Externals` (externals.dfy) holds the library calls the engine makes:
  - SHA-224 (hex digest) and SHA-512/256 (hex digest), each as a function
    `string -> string`;
  - `datetime.fromtimestamp(ts).isoformat()`, as a function `int -> string`.

  They are fields of an `Env` value. Nothing is assumed about the two
  digests. The rendering is assumed to be total; see `Status.PrettyTs` under
  "## Left out".
- `Payload` (payload.dfy) models `process_payload_to_dict` and
  `get_parity_bit`.
- `GameIds` (game_id.dfy) models `get_game_id`.
- `Games` (games.dfy) models the game record and the pure steps:
  - `new_game`, `add_commit` and `add_reveal` on a game value;
  - `check_reveal`, `check_cancel_game` and `check_timeout_game`;
  - `get_winner`.
- `Status` (status.dfy) models the notice text: `get_player_display_id`,
  `get_player_parity`, `get_player_status` and `get_game_status_message`.
- `Engine` (engine.dfy) models the transition.
  - `Step` is `handle_game_logic` as a function of the store.
  - `Store` is a class whose field `games` is the global dictionary. Its
    methods change the store in place, as the source does. Each is proved
    equal to the matching piece of `Step`.
  - The store invariant `ValidGames` says every stored game is *live*:
    - two distinct players, each with a slot;
    - complementary parities;
    - phase COMMIT or REVEAL, and a last interaction;
    - in every slot, a non-zero action exactly when a reveal time is
      recorded, and a non-empty commit exactly when a commit time is;
    - no reveal while the game is in COMMIT.
- `EngineProperties` (engine_lemmas.dfy) states what one move does, case by
  case. It also covers what a move may change (`SlotsWrittenOnce`) and that a
  refused move changes nothing (`ErrorsLeaveStoreUnchanged`).

The source raises an exception for every refusal. The model returns
`Err(EngineError)` or `Err(ParseError)` instead, with one error value per
`raise`. A failed dictionary lookup (`KeyError`) becomes `UnknownPlayer`.
Adding `None` to an integer (`TypeError`) becomes `MissingAction`.

Python truthiness is written out explicitly:

- `IsNonzero` covers timestamps and actions: `None` and `0` are false.
- `IsNonEmpty` covers strings: `None` and `""` are false.

### Behaviour the model keeps from the code

- **Parity 0 cannot create a game.** `new_game` tests `not data.get("parity")`
  (odds-and-evens.py:215). Parity 0 ("even") is falsy, so only a creator who
  picks odd can open a game. `NewGame` and `EvenParityCannotCreate` state
  this. A narrative in which the creator picks even does not happen under
  this code. The model follows the code.
- **Action 0 is "no action".** Lines 68, 91 and 253 test the action's
  truthiness, so an action of 0 neither advances the commit phase nor counts
  as a reveal.
- **Flag keys swallow the next token.** Tokens are paired two by two
  (line 330), so `cancel` and `timeout` take the token after them as an
  ignored value. `FlagSwallowsNextToken` shows that for every flag key and
  every token after it: that token is never read as a key.
- **A trailing key pairs with `None`.** The last key of an odd-length payload
  pairs with `None` (line 330). The checks that read its value then fail,
  which the model reports as `MissingValue`. A trailing `nonce` is stored as
  `None` and erases a nonce given before it (`LaterNonceOverwrites`).
- **Format checks only.** The opponent is checked for its `0x` prefix and its
  length of 42 (line 334). The commit is checked only for its length of 64
  (line 340). Neither is checked to be hexadecimal.
- **Sender and opponent are treated differently.** The opponent is lowercased
  (line 336), while `sender` is used raw as a dictionary key (lines 222, 68,
  91). The model keeps both as they are. The lemmas that need the two
  spellings to meet say so in their preconditions: `ErrorsLeaveStoreUnchanged`
  requires the opponent to hold the other slot of the game. Deployments pass
  lowercase hex addresses as senders, and under that assumption the
  precondition holds for every pair whose game ids do not collide.
- **A failed lookup after a reveal keeps the reveal.** In the reveal phase,
  the reveal is written into the record (line 93) before the opponent's slot
  is looked up (line 105). A `KeyError` there leaves the record changed. The
  same holds when `get_winner` fails. `Step` keeps the changed record in
  both cases; `MissingOpponentKeepsReveal` states the first.
- **Timestamps.** A timestamp of 0 is falsy, both in the tests at lines 68,
  91 and 289 and in `get_pretty_timestamp`.
- **`%`.** Python's `%` floors and Dafny's is Euclidean. For the divisor 2 used
  by `get_winner` the two agree on every integer, negative sums included.

## Model

| member | source | states |
|---|---|---|
| Strings.Lower | odds-and-evens.py:322 | `lower()` keeps the length, maps each character through `LowerChar`, and leaves no upper-case letter |
| Strings.LowerIdempotent | odds-and-evens.py:322 | lowering twice is lowering once |
| Strings.LessTotal | odds-and-evens.py:322 | two strings differ exactly when `<` orders them one way, and never both ways |
| Strings.Sort2 | odds-and-evens.py:322 | `sorted([a, b])` is a permutation of `a, b` in ascending order |
| Strings.Sort2Symmetric | odds-and-evens.py:322 | sorting two strings does not depend on the order they are given in |
| Strings.Prefix | odds-and-evens.py:172 | `s[:n]` is a prefix of `s` of length `min(n, len(s))` |
| Strings.Suffix | odds-and-evens.py:172 | for `n > 0`, `s[-n:]` has length `min(n, len(s))` and is the end of `s` |
| Strings.Word | odds-and-evens.py:330 | the first token is whitespace-free and stops at whitespace or at the end |
| Strings.Split | odds-and-evens.py:330 | `split()` yields only non-empty, whitespace-free tokens |
| Strings.SplitJoin | odds-and-evens.py:330 | splitting tokens joined by single spaces gives the tokens back |
| Strings.IntToString | odds-and-evens.py:262 | `str(n)` is an optional minus sign followed by digits |
| Strings.ParseInt | odds-and-evens.py:344 | `int(s)` succeeds only on text ending in a digit |
| Strings.ParseIntToString | odds-and-evens.py:344 | `int(str(n)) == n` |
| Strings.IntToStringInjective | odds-and-evens.py:262 | different integers print differently |
| GameIds.GameId | odds-and-evens.py:321-324 | the id is the first 10 characters (or all, if shorter) of the SHA-224 digest of the lowered, sorted, `-`-joined pair |
| GameIds.GameIdSymmetric | odds-and-evens.py:321-324 | the id of `(a, b)` is the id of `(b, a)` |
| GameIds.GameIdCaseInsensitive | odds-and-evens.py:321-324 | the id does not depend on the letter case of either player |
| Payload.ParityBit | odds-and-evens.py:311-317 | `o`/`odd`/`odds` give 1, `e`/`even`/`evens` give 0, and anything else is an error |
| Payload.ApplyPair | odds-and-evens.py:331-352 | one key/value pair is rejected exactly when `PairRejected` holds (a missing value, a bad opponent, parity, commit or action) |
| Payload.Pairs | odds-and-evens.py:330 | `zip_longest` pairs token `2i` with token `2i+1`, or with `None` for a trailing key |
| Payload.ParsePayload | odds-and-evens.py:328-353 | the payload is accepted exactly when none of its pairs is rejected |
| Payload.ProcessPayload | odds-and-evens.py:328-353 | the loop returns the fold `ParsePayload` of the pairs |
| Payload.ParsePairsOkIff | odds-and-evens.py:328-353 | parsing succeeds exactly when no pair is rejected |
| Payload.ParsePairsSnoc | odds-and-evens.py:329-353 | a payload one pair longer is the shorter one's result with that pair applied |
| Payload.UnknownKeyIgnored | odds-and-evens.py:351-352 | an unknown key changes nothing |
| Payload.LaterOpponentOverwrites | odds-and-evens.py:333-336 | a later opponent replaces an earlier one and is stored in lower case |
| Payload.LaterParityOverwrites | odds-and-evens.py:337-338 | a later parity replaces an earlier one, and its word is read in lower case |
| Payload.LaterCommitOverwrites | odds-and-evens.py:339-342 | a later commit replaces an earlier one and is stored in lower case |
| Payload.LaterActionOverwrites | odds-and-evens.py:343-344 | a later action replaces an earlier one, for every spelling `int()` accepts |
| Payload.LaterNonceOverwrites | odds-and-evens.py:345-346 | a later nonce replaces an earlier one; a trailing nonce key with no value stores `None` |
| Payload.KeyCaseInsensitive | odds-and-evens.py:331 | keys are matched without regard to case |
| Payload.FlagSwallowsNextToken | odds-and-evens.py:330-350 | a cancel or timeout key sets only its flag and swallows the token after it, whatever that token is |
| Payload.ApplyPairWellFormed | odds-and-evens.py:333-342 | one step keeps every stored opponent and commit well formed and lower case |
| Payload.ParsePairsWellFormed | odds-and-evens.py:330-353 | the whole loop keeps the intent well formed |
| Payload.ParsePayloadWellFormed | odds-and-evens.py:328-353 | every parsed opponent passed its prefix and length check, every commit its length check, and both are lower case |
| Games.NewGame | odds-and-evens.py:207-238 | creation succeeds exactly with a non-empty opponent other than the sender (ignoring case), a non-empty commit and parity 1; the record then has players `[sender, opponent]`, the creator's commit at `ts` with parity 1, an empty opponent slot with parity 0, and no phase yet |
| Games.NewGameWellShaped | odds-and-evens.py:217-238 | a created game has two distinct players with complementary parities, and in each slot the values and their times are set together |
| Games.PutCommit | odds-and-evens.py:242-247 | `add_commit` fails without a commit, and otherwise sets only the sender's commit, its time and `last_ts` |
| Games.PutReveal | odds-and-evens.py:252-259 | `add_reveal` fails without a non-zero action, and otherwise sets the sender's action, its nonce (only if a new one is given), its reveal time and `last_ts` |
| Games.PutCommitWellShaped | odds-and-evens.py:242-247 | adding a commit keeps the game's shape (slot values and times set together included), players and phase |
| Games.PutRevealWellShaped | odds-and-evens.py:252-259 | adding a reveal keeps the game's shape (slot values and times set together included), players and phase |
| Games.RevealPreimageInjective | odds-and-evens.py:262 | `"<action>-<nonce>"` determines the action and the printed nonce |
| Games.CheckReveal | odds-and-evens.py:261-268 | a reveal passes only against a stored commit (the digest binding is in the two lemmas below) |
| Games.HonestRevealPasses | odds-and-evens.py:261-268 | revealing exactly the committed action and nonce passes `check_reveal` |
| Games.PassingRevealIsCommitted | odds-and-evens.py:261-268 | a reveal that passes but differs from the committed action or nonce exhibits a digest collision |
| Games.CheckCancel | odds-and-evens.py:272-280 | false exactly without the flag; true exactly in COMMIT for a sender who has committed against an opponent who has not; an error otherwise |
| Games.CheckTimeout | odds-and-evens.py:284-297 | false exactly without the flag; true exactly in REVEAL for a sender who has revealed against an opponent who has not, once `last_ts + 1200` is reached; "too early" only before that time |
| Games.TallyErrSticky | odds-and-evens.py:304-306 | once the loop fails on a player, `get_winner` fails with that error |
| Games.Winner | odds-and-evens.py:301-307 | a winner, when there is one, is one of the game's players and holds a slot |
| Games.GetWinner | odds-and-evens.py:301-307 | the loop over the players returns `Winner` |
| Games.WinnerRule | odds-and-evens.py:301-307 | with complementary parities and both actions present, the winner is the player whose parity equals the sum of the actions mod 2 |
| Games.WinnerUnique | odds-and-evens.py:301-307 | in a live game with both actions in, exactly one of the two players has the winning parity, and that player wins |
| Status.DisplayId | odds-and-evens.py:171-172 | for an id of 10 characters or more: its first 6, `...`, then its last 4 |
| Status.ParityName | odds-and-evens.py:175-176 | the parity prints as `even` or `odd` |
| Status.ParityNameRoundTrip | odds-and-evens.py:175-176 | the parser reads the printed parity back as the same bit |
| Status.PrettyTs | odds-and-evens.py:179-180 | a missing or zero timestamp prints as `-`, and any other prints as the calendar rendering |
| Status.PhaseNameInjective | odds-and-evens.py:148 | distinct phases print names that differ in their first letter |
| Status.PlayerStatus | odds-and-evens.py:155-168 | for a slot whose values and times were written together: the display id and parity, then the reveal time once the player has revealed, else the commit time once the player has committed, else no time, then the parts that are set or "No Commit" |
| Status.NoCommitShown | odds-and-evens.py:159-167 | a player shows "No Commit" exactly when it has no commit, no non-zero action and no nonce |
| Status.StatusText | odds-and-evens.py:142-152 | the status is the bare `Game(<id>)` exactly when the game is not stored |
| Status.StatusShowsPhase | odds-and-evens.py:142-148 | the same stored game in two different phases prints two different statuses |
| Status.StatusNamesGame | odds-and-evens.py:142-152 | every status text begins with `Game(<id>)` |
| Engine.WinnerMessage | odds-and-evens.py:102 | a victory notice is `WINNER[<kind>](<display id>)` and a separator, followed by the whole status text |
| Engine.Conclude | odds-and-evens.py:130-135 | the game is removed exactly when it is FINISH or ABORT, no other game changes, and the move succeeds exactly when it produced a message |
| Engine.CommitStep | odds-and-evens.py:67-87 | a commit-phase move changes no game but the pair's |
| Engine.AfterReveal | odds-and-evens.py:95-117 | deciding a written reveal changes no game but the pair's |
| Engine.RevealStep | odds-and-evens.py:89-125 | a reveal-phase move changes no game but the pair's |
| Engine.Dispatch | odds-and-evens.py:55-128 | a move on a stored game changes no game but the pair's |
| Engine.Step | odds-and-evens.py:42-138 | a move with an opponent changes no game but the one under the pair's id |
| Engine.StepKeepsValid | odds-and-evens.py:42-138 | every move keeps every stored game live |
| Engine.CommitStepKeepsValid | odds-and-evens.py:67-87 | a commit-phase move keeps the store live |
| Engine.RevealStepKeepsValid | odds-and-evens.py:89-125 | a reveal-phase move keeps the store live |
| Engine.AfterRevealKeepsValid | odds-and-evens.py:95-117 | deciding a written reveal keeps the store live |
| Engine.ConcludeKeepsValid | odds-and-evens.py:130-131 | deleting finished and aborted games keeps the store live |
| Engine.Store.constructor | odds-and-evens.py:39 | the store starts empty and valid |
| Engine.Store.GetGame | odds-and-evens.py:183-195 | returns the stored game, or creates, stores and returns one; a failed creation stores nothing |
| Engine.Store.AddCommit | odds-and-evens.py:242-247 | writes `PutCommit`'s record into the store |
| Engine.Store.AddReveal | odds-and-evens.py:252-259 | writes `PutReveal`'s record into the store |
| Engine.Store.Mark | odds-and-evens.py:58-61 | sets only the phase and the last interaction of the stored game |
| Engine.Store.GameStatusMessage | odds-and-evens.py:142-152 | the loop over the players builds `StatusText` |
| Engine.Store.EndMove | odds-and-evens.py:130-138 | deletes a FINISH or ABORT game, and rejects a move that produced no message |
| Engine.Store.HandleGameLogic | odds-and-evens.py:42-138 | the in-place move yields the store and result of `Step`, and keeps the store valid |
| Engine.Store.CommitMove | odds-and-evens.py:67-87 | the commit-phase branch in place equals `CommitStep` |
| Engine.Store.FirstCommit | odds-and-evens.py:68-80 | a first commit, or an action in its place, in place equals `CommitStep` |
| Engine.Store.CancelMove | odds-and-evens.py:83-87 | a cancel attempt in place equals `CommitStep` |
| Engine.Store.RevealMove | odds-and-evens.py:89-125 | the reveal-phase branch in place equals `RevealStep` |
| Engine.Store.CheckAddedReveal | odds-and-evens.py:95-117 | deciding a written reveal in place equals `AfterReveal` |
| EngineProperties.NoOpponentRejected | odds-and-evens.py:43-44 | a move without an opponent is refused and changes nothing |
| EngineProperties.CreationGuards | odds-and-evens.py:186-216 | for a new pair, a game is created exactly with a distinct opponent, a commit and odd parity; on refusal nothing is stored |
| EngineProperties.EvenParityCannotCreate | odds-and-evens.py:215-216 | parity 0 is refused as "no parity" |
| EngineProperties.SelfPlayRejected | odds-and-evens.py:210-212 | a player cannot open a game against themselves, in any letter case |
| EngineProperties.CreatedGame | odds-and-evens.py:53-64 | the created game is stored next to the untouched others, in COMMIT, last interaction CREATED, with the fixed slots, and the notice is its status |
| EngineProperties.CommitPhaseAdvances | odds-and-evens.py:68-80 | a first commit (or non-zero action) moves the game to REVEAL with COMMIT ADDED (or REVEAL ADDED), and writes only the sender's slot |
| EngineProperties.CancelRule | odds-and-evens.py:82-87 | a cancel succeeds exactly when the sender has committed and the opponent has not; it removes the game; a refusal changes nothing |
| EngineProperties.CommitPhaseOtherwiseRejected | odds-and-evens.py:67-135 | any other commit-phase move is an invalid action and changes nothing |
| EngineProperties.WrongRevealLoses | odds-and-evens.py:96-102 | a reveal that fails the check removes the game, and the notice names the opponent as winner |
| EngineProperties.RightRevealDecides | odds-and-evens.py:103-111 | a passing reveal after the opponent's removes the game, and the notice names `get_winner`'s player |
| EngineProperties.AfterRevealDecides | odds-and-evens.py:105-111 | with both reveals in and a winner, the game ends and is removed |
| EngineProperties.FirstRevealStep | odds-and-evens.py:91-93 | a first reveal is written into the stored game before anything is decided |
| EngineProperties.RevealedWinner | odds-and-evens.py:105-111 | after a passing reveal with both reveals in, `get_winner` follows the parity rule |
| EngineProperties.RightRevealWaits | odds-and-evens.py:112-117 | a passing reveal before the opponent's keeps the game in REVEAL with the reveal recorded |
| EngineProperties.MissingOpponentKeepsReveal | odds-and-evens.py:91-105 | a passing first reveal naming an opponent with no slot fails with the lookup, and the reveal stays written |
| EngineProperties.TimeoutRule | odds-and-evens.py:121-125 | a timeout claim succeeds exactly when the sender has revealed, the opponent has not and 1200 seconds have passed; the sender then wins and the game is removed; a refusal changes nothing |
| EngineProperties.RevealPhaseOtherwiseRejected | odds-and-evens.py:89-135 | any other reveal-phase move is an invalid action and changes nothing |
| EngineProperties.StrangerRejected | odds-and-evens.py:68 | a sender with no slot in the pair's game is refused and changes nothing |
| EngineProperties.AfterRevealStores | odds-and-evens.py:95-117 | after a first reveal, the game is kept as it was, kept with the reveal recorded, or removed |
| EngineProperties.CommitPhaseFollows | odds-and-evens.py:67-87 | a commit-phase move changes no parity, no earlier commit or reveal, and no other player's slot |
| EngineProperties.RevealPhaseFollows | odds-and-evens.py:89-125 | a reveal-phase move changes no parity, no earlier commit or reveal, and no other player's slot |
| EngineProperties.CreationFollows | odds-and-evens.py:53 | creating a game changes no existing game |
| EngineProperties.SlotsWrittenOnce | odds-and-evens.py:42-138 | any move writes each commit and each reveal at most once, never changes a parity, and touches only the sender's slot |
| EngineProperties.FirstRevealSucceeds | odds-and-evens.py:91-117 | a first reveal against an opponent who holds the other slot always yields a notice |
| EngineProperties.CommitPhaseRefusals | odds-and-evens.py:67-87 | a refused commit-phase move leaves the store unchanged |
| EngineProperties.RevealPhaseRefusals | odds-and-evens.py:89-125 | a refused reveal-phase move leaves the store unchanged when the opponent holds the other slot |
| EngineProperties.ErrorsLeaveStoreUnchanged | odds-and-evens.py:42-138 | any refused move leaves the store as it was, when the named opponent holds the other slot |

## Left out

- The main polling loop, the HTTP `finish` handshake and `send_notice`/`send_report`/`send_post` (odds-and-evens.py:379-390, 446-462) are network I/O.
- `handle_advance` and `handle_inspect` (odds-and-evens.py:396-431) are not modelled. They turn exceptions into rejects, log, and convert hex transport.
- The hex and UTF-8 helpers `hex2bytes`, `hex2str`, `str2hex`, `to_hex` and `str2bytes` (odds-and-evens.py:359-376) are thin codec wrappers. The hashes are modelled on the text before encoding.
- SHA-224 and SHA-512/256 are foreign library calls, so they are uninterpreted functions in `Env`. `PassingRevealIsCommitted` states the binding of a commit only up to a digest collision.
- `datetime.fromtimestamp(...).isoformat()` (lines 180, 296) depends on the local time zone, so it is an uninterpreted function in `Env`. The timeout error carries the allowed timestamp as an integer instead of its rendering.
- `get_current_games_states` (odds-and-evens.py:199-203) is not modelled. It depends on Python's `str()` of a list and on dictionary iteration order.
- The environment read and the logging setup (odds-and-evens.py:22-26) are not modelled. The warning logged for an unknown key (line 352) is not modelled either; the key is simply ignored.
- Strings.Lower: only ASCII letters are lowercased. Python's `str.lower()` also maps non-ASCII letters.
- Strings.ParseInt: only ASCII digits, with an optional sign and single underscores between digits, are accepted. Python's `int()` also accepts other Unicode decimal digits and whitespace around the number, but `split()` has already removed that whitespace. No limit on the number of digits is modelled: CPython 3.11 and later (and the 3.7.14, 3.8.14, 3.9.14 and 3.10.7 security releases) raise `ValueError` for a decimal string of more than 4300 digits, so an `action` that long is rejected by the source (line 344) and accepted by the model. `IntToString` likewise leaves out the same limit on `str()`, which an action parsed under the limit never reaches.
- Games.Game: a game is a record with a `slots` map, not one dictionary holding both the player keys and the fields `phase`, `players`, `last_ts` and `last_interaction`. A player id equal to one of those field names would collide in the source; that case is not modelled.
- Games.Game: parities are stored as bits. A creation with a parity other than 0 or 1 cannot reach `new_game`, because the parser produces only bits.
- The message texts of the exceptions are not modelled; each `raise` becomes one `EngineError` or `ParseError` value.
- Status.PrettyTs: the rendering of a timestamp is assumed to succeed for every value. `datetime.fromtimestamp` raises for timestamps outside datetime's range (from year 10000 on, for instance). The source renders after it has changed the record: a creation then fails with the game already stored, and a deciding reveal fails with the game in FINISH and not deleted. `CreationGuards`, `StepKeepsValid` and `ErrorsLeaveStoreUnchanged` hold only under this assumption. Block timestamps stay far inside the range.
- Engine.Store: the nested per-game dictionaries that the source mutates through aliases are modelled as game values stored back into the `games` map.
- EngineProperties.ErrorsLeaveStoreUnchanged: this is stated only when the named opponent holds the other slot of the game and differs from the sender. Otherwise a reveal is written before a lookup fails, as the source does.
- The `else: raise Exception("Invalid game phase")` branch (line 128) is modelled as `InvalidGamePhase`. A live store never reaches it, because `Live` allows only COMMIT and REVEAL, but no lemma states that separately.
