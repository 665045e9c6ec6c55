/** The game id: one id per unordered pair of players, whatever the case
    of their identities. */
module GameIds {
  import opened Strings
  import opened Externals

  /** Length of the id, a prefix of the SHA-224 hex digest. */
  const IdLength := 10

  /** The text `get_game_id` hashes: both identities lowered, sorted and
      joined with `-`. */
  function PairKey(a: string, b: string): string {
    var players := Sort2(Lower(a), Lower(b));
    players[0] + "-" + players[1]
  }

  /** `get_game_id`: hash the pair key and keep the first ten hex digits. */
  function GameId(env: Env, a: string, b: string): (id: string)
    ensures var digest := env.sha224Hex(PairKey(a, b));
            id <= digest && |id| == if |digest| < IdLength then |digest| else IdLength
  {
    Prefix(env.sha224Hex(PairKey(a, b)), IdLength)
  }

  /** Either player derives the same id. */
  lemma GameIdSymmetric(env: Env, a: string, b: string)
    ensures GameId(env, a, b) == GameId(env, b, a)
  {
    Sort2Symmetric(Lower(a), Lower(b));
  }

  /** The id ignores the case of the identities. */
  lemma GameIdCaseInsensitive(env: Env, a: string, b: string)
    ensures GameId(env, Lower(a), Lower(b)) == GameId(env, a, b)
  {
    LowerIdempotent(a);
    LowerIdempotent(b);
  }
}
