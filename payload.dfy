/** The payload parser: a move arrives as whitespace-separated key/value
    tokens and becomes an `Intent`, the typed form of the dictionary the
    game logic reads. */
module Payload {
  import opened Wrappers
  import opened Strings

  /** A parity bit: 1 for odd, 0 for even. */
  type Bit = x: int | 0 <= x <= 1

  /** The dictionary `process_payload_to_dict` returns. An absent key is
      `None`; so is a `nonce` key that had no value after it. */
  datatype Intent = Intent(
    opponent: Option<string>,
    parity: Option<Bit>,
    commit: Option<string>,
    action: Option<int>,
    nonce: Option<string>,
    cancel: bool,
    timeout: bool)

  const NoIntent := Intent(None, None, None, None, None, false, false)

  datatype ParseError =
    | WrongOpponentFormat
    | WrongCommitFormat
    | InvalidParity
    | MalformedAction
    /** A key that needs a value came last, with nothing after it. */
    | MissingValue(key: string)

  const OddWords: seq<string> := ["o", "odd", "odds"]
  const EvenWords: seq<string> := ["e", "even", "evens"]
  const OpponentKeys: seq<string> := ["opponent", "o"]
  const ParityKeys: seq<string> := ["parity", "p"]
  const CommitKeys: seq<string> := ["commit", "commitment", "c"]
  const ActionKeys: seq<string> := ["action", "a"]
  const NonceKeys: seq<string> := ["nonce", "n"]
  const CancelKeys: seq<string> := ["cancel", "x", "abort"]
  const TimeoutKeys: seq<string> := ["timeout", "t"]

  predicate IsKnownKey(k: string) {
    k in OpponentKeys || k in ParityKeys || k in CommitKeys || k in ActionKeys
    || k in NonceKeys || k in CancelKeys || k in TimeoutKeys
  }

  /** `get_parity_bit`: the parity word (already lower case) as a bit. */
  function ParityBit(p: string): (r: Result<Bit, ParseError>)
    ensures r.Ok? <==> p in OddWords || p in EvenWords
    ensures r == Ok(1) <==> p in OddWords
    ensures r == Ok(0) <==> p in EvenWords
  {
    if p in OddWords then Ok(1)
    else if p in EvenWords then Ok(0)
    else Err(InvalidParity)
  }

  /** The opponent check: `0x` prefix and 42 characters; nothing says hex. */
  predicate OpponentShaped(v: string) {
    Prefix(v, 2) == "0x" && |v| == 42
  }

  /** The commit check: 64 characters; nothing says hex. */
  predicate CommitShaped(v: string) {
    |v| == 64
  }

  /** True when a key/value pair makes the parser raise, whatever came
      before it. */
  predicate PairRejected(key: string, value: Option<string>) {
    var k := Lower(key);
    if k in OpponentKeys || k in ParityKeys || k in CommitKeys || k in ActionKeys then
      value.None?
      || (k in OpponentKeys && !OpponentShaped(value.value))
      || (k in ParityKeys && ParityBit(Lower(value.value)).Err?)
      || (k in CommitKeys && !CommitShaped(value.value))
      || (k in ActionKeys && ParseInt(value.value).None?)
    else false
  }

  /** One iteration of the parser's loop: fold one pair into the dictionary. */
  function ApplyPair(d: Intent, key: string, value: Option<string>): (r: Result<Intent, ParseError>)
    ensures r.Err? <==> PairRejected(key, value)
  {
    var k := Lower(key);
    if k in OpponentKeys then
      if value.None? then Err(MissingValue(k))
      else if !OpponentShaped(value.value) then Err(WrongOpponentFormat)
      else Ok(d.(opponent := Some(Lower(value.value))))
    else if k in ParityKeys then
      if value.None? then Err(MissingValue(k))
      else match ParityBit(Lower(value.value))
        case Ok(b) => Ok(d.(parity := Some(b)))
        case Err(e) => Err(e)
    else if k in CommitKeys then
      if value.None? then Err(MissingValue(k))
      else if !CommitShaped(value.value) then Err(WrongCommitFormat)
      else Ok(d.(commit := Some(Lower(value.value))))
    else if k in ActionKeys then
      if value.None? then Err(MissingValue(k))
      else match ParseInt(value.value)
        case Some(n) => Ok(d.(action := Some(n)))
        case None => Err(MalformedAction)
    else if k in NonceKeys then
      Ok(d.(nonce := value))
    else if k in CancelKeys then
      Ok(d.(cancel := true))
    else if k in TimeoutKeys then
      Ok(d.(timeout := true))
    else
      Ok(d)
  }

  /** `zip_longest(*[iter(tokens)] * 2)`: consecutive tokens paired up, the
      last key of an odd-length list paired with `None`. */
  function Pairs(ts: seq<string>): (ps: seq<(string, Option<string>)>)
    ensures |ps| == (|ts| + 1) / 2
    ensures forall i :: 0 <= i < |ps| ==> ps[i].0 == ts[2 * i]
    ensures forall i :: 0 <= i < |ps| ==>
              ps[i].1 == if 2 * i + 1 < |ts| then Some(ts[2 * i + 1]) else None
  {
    if ts == [] then []
    else if |ts| == 1 then [(ts[0], None)]
    else [(ts[0], Some(ts[1]))] + Pairs(ts[2..])
  }

  /** The parser's loop, as a left fold that stops at the first rejected pair. */
  function ParsePairs(ps: seq<(string, Option<string>)>, d: Intent): Result<Intent, ParseError>
    decreases |ps|
  {
    if ps == [] then Ok(d)
    else match ApplyPair(d, ps[0].0, ps[0].1)
      case Err(e) => Err(e)
      case Ok(d') => ParsePairs(ps[1..], d')
  }

  /** What `process_payload_to_dict` computes: it raises exactly when one
      of the pairs is rejected. */
  function ParsePayload(payload: string): (r: Result<Intent, ParseError>)
    ensures r.Ok? <==> NoneRejected(Pairs(Split(payload)))
  {
    ParsePairsOkIff(Pairs(Split(payload)), NoIntent);
    ParsePairs(Pairs(Split(payload)), NoIntent)
  }

  /** `process_payload_to_dict`: the loop over the pairs, building the
      dictionary one key at a time. */
  method ProcessPayload(payload: string) returns (r: Result<Intent, ParseError>)
    ensures r == ParsePayload(payload)
  {
    var ps := Pairs(Split(payload));
    var d := NoIntent;
    var i := 0;
    while i < |ps|
      invariant 0 <= i <= |ps|
      invariant ParsePairs(ps[i..], d) == ParsePayload(payload)
    {
      assert ps[i..][1..] == ps[i + 1..];
      var step := ApplyPair(d, ps[i].0, ps[i].1);
      if step.Err? {
        return Err(step.error);
      }
      d := step.value;
      i := i + 1;
    }
    r := Ok(d);
  }

  // ---------------------------------------------------------------------
  // Properties of the parser

  predicate NoneRejected(ps: seq<(string, Option<string>)>) {
    forall i :: 0 <= i < |ps| ==> !PairRejected(ps[i].0, ps[i].1)
  }

  /** The parse succeeds exactly when no pair is rejected. */
  lemma {:induction false} ParsePairsOkIff(ps: seq<(string, Option<string>)>, d: Intent)
    ensures ParsePairs(ps, d).Ok? <==> NoneRejected(ps)
  {
    if ps != [] {
      var step := ApplyPair(d, ps[0].0, ps[0].1);
      if step.Ok? {
        ParsePairsOkIff(ps[1..], step.value);
        assert forall i :: 1 <= i < |ps| ==> ps[i] == ps[1..][i - 1];
      }
    }
  }

  /** Appending one pair to the payload folds it into the result of the rest. */
  lemma {:induction false} ParsePairsSnoc(ps: seq<(string, Option<string>)>, key: string, value: Option<string>, d: Intent)
    ensures ParsePairs(ps + [(key, value)], d) ==
            match ParsePairs(ps, d)
            case Err(e) => Err(e)
            case Ok(d') => ApplyPair(d', key, value)
  {
    if ps == [] {
      assert ([] + [(key, value)])[1..] == [];
    } else {
      assert (ps + [(key, value)])[1..] == ps[1..] + [(key, value)];
      var step := ApplyPair(d, ps[0].0, ps[0].1);
      if step.Ok? {
        ParsePairsSnoc(ps[1..], key, value, step.value);
      }
    }
  }

  /** A key the parser does not know is ignored. */
  lemma UnknownKeyIgnored(ps: seq<(string, Option<string>)>, key: string, value: Option<string>, d: Intent)
    requires !IsKnownKey(Lower(key))
    ensures ParsePairs(ps + [(key, value)], d) == ParsePairs(ps, d)
  {
    ParsePairsSnoc(ps, key, value, d);
  }

  /** A later opponent overwrites an earlier one, and is stored lower case. */
  lemma LaterOpponentOverwrites(ps: seq<(string, Option<string>)>, key: string, v: string, d: Intent)
    requires Lower(key) in OpponentKeys && OpponentShaped(v)
    requires ParsePairs(ps, d).Ok?
    ensures ParsePairs(ps + [(key, Some(v))], d) == Ok(ParsePairs(ps, d).value.(opponent := Some(Lower(v))))
  {
    ParsePairsSnoc(ps, key, Some(v), d);
  }

  /** A later parity overwrites an earlier one; the word is read in lower case. */
  lemma LaterParityOverwrites(ps: seq<(string, Option<string>)>, key: string, v: string, d: Intent)
    requires Lower(key) in ParityKeys && (Lower(v) in OddWords || Lower(v) in EvenWords)
    requires ParsePairs(ps, d).Ok?
    ensures ParsePairs(ps + [(key, Some(v))], d)
            == Ok(ParsePairs(ps, d).value.(parity := Some(if Lower(v) in OddWords then 1 else 0)))
  {
    ParsePairsSnoc(ps, key, Some(v), d);
    var k := Lower(key);
    assert k == "parity" || k == "p";
    assert k !in OpponentKeys;
  }

  /** A later commit overwrites an earlier one, and is stored lower case. */
  lemma LaterCommitOverwrites(ps: seq<(string, Option<string>)>, key: string, v: string, d: Intent)
    requires Lower(key) in CommitKeys && CommitShaped(v)
    requires ParsePairs(ps, d).Ok?
    ensures ParsePairs(ps + [(key, Some(v))], d) == Ok(ParsePairs(ps, d).value.(commit := Some(Lower(v))))
  {
    ParsePairsSnoc(ps, key, Some(v), d);
    var k := Lower(key);
    assert k == "commit" || k == "commitment" || k == "c";
    assert k !in OpponentKeys && k !in ParityKeys;
  }

  /** A later action overwrites an earlier one, whatever spelling `int()`
      accepts for it (`5`, `+5`, `0_5`). */
  lemma LaterActionOverwrites(ps: seq<(string, Option<string>)>, key: string, v: string, n: int, d: Intent)
    requires Lower(key) in ActionKeys && ParseInt(v) == Some(n)
    requires ParsePairs(ps, d).Ok?
    ensures ParsePairs(ps + [(key, Some(v))], d) == Ok(ParsePairs(ps, d).value.(action := Some(n)))
  {
    ParsePairsSnoc(ps, key, Some(v), d);
    var k := Lower(key);
    assert k == "action" || k == "a";
    assert k !in OpponentKeys && k !in ParityKeys && k !in CommitKeys;
  }

  /** A later nonce overwrites an earlier one. A trailing nonce key with no
      value after it stores `None`, erasing the nonce given before it. */
  lemma LaterNonceOverwrites(ps: seq<(string, Option<string>)>, key: string, v: Option<string>, d: Intent)
    requires Lower(key) in NonceKeys
    requires ParsePairs(ps, d).Ok?
    ensures ParsePairs(ps + [(key, v)], d) == Ok(ParsePairs(ps, d).value.(nonce := v))
  {
    ParsePairsSnoc(ps, key, v, d);
    var k := Lower(key);
    assert k == "nonce" || k == "n";
    assert k !in OpponentKeys && k !in ParityKeys && k !in CommitKeys && k !in ActionKeys;
  }

  /** Keys are matched without regard to case. */
  lemma KeyCaseInsensitive(d: Intent, key: string, value: Option<string>)
    ensures ApplyPair(d, Lower(key), value) == ApplyPair(d, key, value)
  {
    LowerIdempotent(key);
  }

  /** The flag keys take the token after them as a value that is thrown
      away: whatever that token is, it is never read as a key, and parsing
      goes on two tokens later with only the flag set. */
  lemma FlagSwallowsNextToken(ts: seq<string>, d: Intent)
    requires |ts| >= 2 && (Lower(ts[0]) in CancelKeys || Lower(ts[0]) in TimeoutKeys)
    ensures ParsePairs(Pairs(ts), d)
            == ParsePairs(Pairs(ts[2..]), if Lower(ts[0]) in CancelKeys then d.(cancel := true) else d.(timeout := true))
  {
    var k := Lower(ts[0]);
    assert k == "cancel" || k == "x" || k == "abort" || k == "timeout" || k == "t";
    assert !(k in OpponentKeys || k in ParityKeys || k in CommitKeys || k in ActionKeys || k in NonceKeys);
    assert Pairs(ts)[1..] == Pairs(ts[2..]);
  }

  /** Shape of a parsed intent: opponents and commits passed their length
      and prefix checks and are lower case. */
  ghost predicate WellFormed(d: Intent) {
    && (d.opponent.Some? ==> OpponentShaped(d.opponent.value) && Lower(d.opponent.value) == d.opponent.value)
    && (d.commit.Some? ==> CommitShaped(d.commit.value) && Lower(d.commit.value) == d.commit.value)
  }

  /** Lower-casing an opponent that passed the format check keeps it
      passing the check. */
  lemma LowerOpponentShaped(v: string)
    requires Prefix(v, 2) == "0x" && |v| == 42
    ensures OpponentShaped(Lower(v)) && Lower(Lower(v)) == Lower(v)
  {
    LowerIdempotent(v);
    assert v[0] == '0' && v[1] == 'x';
  }

  /** A step on any key but an opponent or commit key leaves those two
      entries as they were. */
  lemma ApplyPairKeepsShaped(d: Intent, key: string, value: Option<string>)
    requires Lower(key) !in OpponentKeys && Lower(key) !in CommitKeys
    ensures var r := ApplyPair(d, key, value);
            r.Ok? ==> r.value.opponent == d.opponent && r.value.commit == d.commit
  {
  }

  /** One parser step keeps the intent well formed. */
  lemma ApplyPairWellFormed(d: Intent, key: string, value: Option<string>)
    requires WellFormed(d)
    ensures ApplyPair(d, key, value).Ok? ==> WellFormed(ApplyPair(d, key, value).value)
  {
    var k := Lower(key);
    var r := ApplyPair(d, key, value);
    if k in OpponentKeys {
      if r.Ok? {
        assert r == Ok(d.(opponent := Some(Lower(value.value))));
        LowerOpponentShaped(value.value);
      }
    } else if k in CommitKeys {
      if r.Ok? {
        assert r == Ok(d.(commit := Some(Lower(value.value))));
        LowerIdempotent(value.value);
      }
    } else {
      ApplyPairKeepsShaped(d, key, value);
    }
  }

  lemma {:induction false} ParsePairsWellFormed(ps: seq<(string, Option<string>)>, d: Intent)
    requires WellFormed(d)
    ensures ParsePairs(ps, d).Ok? ==> WellFormed(ParsePairs(ps, d).value)
  {
    if ps != [] {
      ApplyPairWellFormed(d, ps[0].0, ps[0].1);
      var step := ApplyPair(d, ps[0].0, ps[0].1);
      if step.Ok? {
        ParsePairsWellFormed(ps[1..], step.value);
      }
    }
  }

  /** Every intent the parser returns is well formed. */
  lemma ParsePayloadWellFormed(payload: string)
    ensures ParsePayload(payload).Ok? ==> WellFormed(ParsePayload(payload).value)
  {
    ParsePairsWellFormed(Pairs(Split(payload)), NoIntent);
  }
}
