/** The proof of work asked for before the TLS handshake: a challenge, a search and its check. */
module ProofOfWork {
  import opened Wrappers
  import opened Bytes

  type Salt = s: seq<byte> | |s| == 16 witness seq(16, _ => 0)
  type Digest = s: seq<byte> | |s| == 32 witness seq(32, _ => 0)

  /** Any function will do for SHA-256. */
  type Hash = seq<byte> -> Digest

  const CHALLENGE_MAGIC: uint32 := 0x418e1291
  const RESPONSE_MAGIC: uint32 := 0x01827319
  const MAX_DIFFICULTY: int32 := 32

  // ---- leading zeros ---------------------------------------------------------------------------------

  function BitLength(v: nat): nat { if v == 0 then 0 else 1 + BitLength(v / 2) }

  lemma {:induction false} BitLengthFits(v: nat, n: nat)
    ensures BitLength(v) <= n <==> v < Pow2(n)
    decreases n
  {
    if n > 0 && v > 0 {
      BitLengthFits(v / 2, n - 1);
    }
  }

  function LeadingZeros64(v: uint64): int { 64 - BitLength(v) }

  /** At least `d` leading zeros means below 2^(64-d); more than 64 are never reached. */
  lemma LeadingZerosMeanSmall(v: uint64, d: int)
    ensures LeadingZeros64(v) >= d <==> d <= 0 || (d <= 64 && v < Pow2(64 - d))
  {
    hide Pow2, BitLength;
    Widths();
    BitLengthFits(v, 64);
    if 0 <= d <= 64 {
      BitLengthFits(v, 64 - d);
    }
  }

  // ---- the check -------------------------------------------------------------------------------------

  function Value(hash: Hash, salt: Salt, nonce: int64): uint64 {
    Pow256Values();
    FromLE(hash(salt + LE(ToU64(nonce), 8))[..8])
  }

  predicate VerifyPoWResponse(hash: Hash, salt: Salt, difficulty: int32, nonce: int64) {
    LeadingZeros64(Value(hash, salt, nonce)) >= difficulty
  }

  /** The check is a bound on the hash value. */
  lemma VerifyIsABound(hash: Hash, salt: Salt, difficulty: int32, nonce: int64)
    ensures VerifyPoWResponse(hash, salt, difficulty, nonce)
            <==> difficulty <= 0 || (difficulty <= 64 && Value(hash, salt, nonce) < Pow2(64 - difficulty))
  {
    LeadingZerosMeanSmall(Value(hash, salt, nonce), difficulty);
  }

  // ---- the search ------------------------------------------------------------------------------------

  /** The smallest nonnegative nonce that is accepted. */
  ghost predicate Least(hash: Hash, salt: Salt, difficulty: int32, nonce: int64) {
    && nonce >= 0 && VerifyPoWResponse(hash, salt, difficulty, nonce)
    && forall m: int64 :: 0 <= m < nonce ==> !VerifyPoWResponse(hash, salt, difficulty, m)
  }

  ghost predicate Hopeless(hash: Hash, salt: Salt, difficulty: int32) {
    forall m: int64 :: m >= 0 ==> !VerifyPoWResponse(hash, salt, difficulty, m)
  }

  /** No nonce below `n` is accepted. */
  ghost predicate Tried(hash: Hash, salt: Salt, difficulty: int32, n: int) {
    forall m: int64 :: 0 <= m < n ==> !VerifyPoWResponse(hash, salt, difficulty, m)
  }

  lemma NothingTried(hash: Hash, salt: Salt, difficulty: int32)
    ensures Tried(hash, salt, difficulty, 0)
  {
  }

  lemma TriedOne(hash: Hash, salt: Salt, difficulty: int32, n: int64)
    requires n >= 0 && Tried(hash, salt, difficulty, n)
    ensures if VerifyPoWResponse(hash, salt, difficulty, n) then Least(hash, salt, difficulty, n)
            else Tried(hash, salt, difficulty, n + 1) && (n + 1 == TWO_63 ==> Hopeless(hash, salt, difficulty))
  {
    hide VerifyPoWResponse;
  }

  function WrapI64(n: int): int64 { (n + TWO_63) % TWO_64 - TWO_63 }

  lemma NextNonce(n: int64)
    ensures WrapI64(n + 1) == if n + 1 < TWO_63 then n + 1 else -TWO_63
  {
  }

  method NewData(salt: Salt) returns (data: array<byte>)
    ensures fresh(data) && data.Length == 24 && data[..16] == salt
  {
    data := new byte[24](i requires 0 <= i < 24 => if i < 16 then salt[i] else 0);
  }

  method PutUint64(data: array<byte>, v: uint64)
    requires data.Length == 24
    modifies data
    ensures data[..] == old(data[..16]) + LE(v, 8)
  {
    hide LE;
    var bytes := LE(v, 8);
    for i := 0 to 8
      invariant data[..16] == old(data[..16])
      invariant data[16..16 + i] == bytes[..i]
    {
      data[16 + i] := bytes[i];
      assert bytes[..i + 1] == bytes[..i] + [bytes[i]];
    }
    assert data[..] == data[..16] + data[16..24];
  }

  /** One attempt: the nonce goes into the last eight bytes, the salt stays. */
  method TryNonce(hash: Hash, data: array<byte>, ghost salt: Salt, difficulty: int32, nonce: int64) returns (hit: bool)
    requires data.Length == 24 && data[..16] == salt
    modifies data
    ensures data[..16] == salt && hit == VerifyPoWResponse(hash, salt, difficulty, nonce)
  {
    hide LE, FromLE, LeadingZeros64, VerifyPoWResponse, Value;
    PutUint64(data, ToU64(nonce));
    assert data[..16] == data[..][..16] == salt;
    var h := hash(data[..]);
    ValueIs(hash, salt, nonce, difficulty);
    var v := FromLE(h[..8]);
    return LeadingZeros64(v) >= difficulty;
  }

  /** Tries 0, 1, 2, … until the counter would turn negative. */
  method FindNonce(hash: Hash, salt: Salt, difficulty: int32) returns (r: Option<int64>)
    ensures r.Some? ==> Least(hash, salt, difficulty, r.value)
    ensures r.None? ==> Hopeless(hash, salt, difficulty)
  {
    if difficulty == 0 {
      ZeroIsFree(hash, salt);
      return Some(0);
    }
    hide VerifyPoWResponse, WrapI64, Tried, Hopeless, Least;
    NothingTried(hash, salt, difficulty);
    var data := NewData(salt);
    var nonce: int64 := 0;
    while nonce >= 0
      invariant data[..16] == salt
      invariant nonce >= 0 ==> Tried(hash, salt, difficulty, nonce)
      invariant nonce < 0 ==> Hopeless(hash, salt, difficulty)
      decreases if nonce < 0 then 0 else TWO_63 - nonce
    {
      var hit := TryNonce(hash, data, salt, difficulty, nonce);
      TriedOne(hash, salt, difficulty, nonce);
      if hit {
        return Some(nonce);
      }
      NextNonce(nonce);
      nonce := WrapI64(nonce + 1);
    }
    return None;
  }

  lemma ValueIs(hash: Hash, salt: Salt, nonce: int64, difficulty: int32)
    ensures var v := FromLE(hash(salt + LE(ToU64(nonce), 8))[..8]);
            v < TWO_64 && (VerifyPoWResponse(hash, salt, difficulty, nonce) <==> LeadingZeros64(v) >= difficulty)
  {
    Pow256Values();
  }

  lemma ZeroIsFree(hash: Hash, salt: Salt)
    ensures Least(hash, salt, 0, 0)
  {
    hide Pow2;
    VerifyIsABound(hash, salt, 0, 0);
  }

  // ---- the exchange -----------------------------------------------------------------------------------

  function Challenge(difficulty: int32, salt: Salt): (c: seq<byte>)
    ensures |c| == 24
  {
    LE(CHALLENGE_MAGIC, 4) + LE(ToU32(difficulty), 4) + salt
  }

  function Response(nonce: int64): (r: seq<byte>)
    ensures |r| == 12
  {
    LE(RESPONSE_MAGIC, 4) + LE(ToU64(nonce), 8)
  }

  datatype Asked = Asked(magic: uint32, difficulty: int32, salt: Salt)

  function ReadChallenge(c: seq<byte>): Asked
    requires |c| == 24
  {
    Pow256Values();
    Asked(FromLE(c[..4]), ToI32(FromLE(c[4..8])), SaltOf(c))
  }

  function SaltOf(c: seq<byte>): Salt
    requires |c| == 24
  {
    c[8..24]
  }

  function ReadResponse(r: seq<byte>): (uint32, int64)
    requires |r| == 12
  {
    Pow256Values();
    (FromLE(r[..4]), ToI64(FromLE(r[4..])))
  }

  lemma ChallengeReadsBack(difficulty: int32, salt: Salt)
    ensures ReadChallenge(Challenge(difficulty, salt)) == Asked(0x418e1291, difficulty, salt)
  {
    hide LE, FromLE;
    var c := Challenge(difficulty, salt);
    Pow256Values();
    assert c[..4] == LE(CHALLENGE_MAGIC, 4) && c[4..8] == LE(ToU32(difficulty), 4) && c[8..24] == salt;
    FromLEofLE(CHALLENGE_MAGIC, 4);
    FromLEofLE(ToU32(difficulty), 4);
  }

  lemma ResponseReadsBack(nonce: int64)
    ensures ReadResponse(Response(nonce)) == (0x01827319, nonce)
  {
    hide LE, FromLE;
    var r := Response(nonce);
    Pow256Values();
    assert r[..4] == LE(RESPONSE_MAGIC, 4) && r[4..] == LE(ToU64(nonce), 8);
    FromLEofLE(RESPONSE_MAGIC, 4);
    FromLEofLE(ToU64(nonce), 8);
  }

  datatype Outcome = Solved | ReadError | MagicMismatch | DifficultyTooHigh | NonceOverflow | WriteError

  /** A connection: the bytes still to come, those sent, and how many more a write gets through. */
  class Conn {
    var incoming: seq<byte>
    var sent: seq<byte>
    const room: nat

    constructor (incoming: seq<byte>, room: nat)
      ensures this.incoming == incoming && this.sent == [] && this.room == room
    {
      this.incoming, this.sent, this.room := incoming, [], room;
    }
  }

  function Limit(maxDifficulty: int32): int32 { if maxDifficulty <= 0 then MAX_DIFFICULTY else maxDifficulty }

  /** Why nothing is searched for: too few bytes, not a challenge, or too hard a one. */
  function Refusal(incoming: seq<byte>, maxDifficulty: int32): Option<Outcome> {
    if |incoming| < 24 then Some(ReadError)
    else
      var asked := ReadChallenge(incoming[..24]);
      if asked.magic != CHALLENGE_MAGIC then Some(MagicMismatch)
      else if asked.difficulty < 0 || asked.difficulty > Limit(maxDifficulty) then Some(DifficultyTooHigh)
      else None
  }

  /** Bytes that do not start with the magic are no challenge, and fewer than 24 are none either. */
  lemma OtherBytesAreRefused(incoming: seq<byte>, maxDifficulty: int32)
    ensures |incoming| < 24 <==> Refusal(incoming, maxDifficulty) == Some(ReadError)
    ensures |incoming| >= 24 ==>
              (FromLE(incoming[..4]) != 0x418e1291 <==> Refusal(incoming, maxDifficulty) == Some(MagicMismatch))
  {
    hide FromLE;
    assert |incoming| >= 24 ==> incoming[..24][..4] == incoming[..4];
  }

  /** A server's challenge is taken up exactly if its difficulty is within the limit, whatever follows it. */
  lemma ChallengeIsTaken(difficulty: int32, salt: Salt, more: seq<byte>, maxDifficulty: int32)
    ensures var incoming := Challenge(difficulty, salt) + more;
            && incoming[..24] == Challenge(difficulty, salt)
            && (Refusal(incoming, maxDifficulty) == None
                <==> 0 <= difficulty <= if maxDifficulty <= 0 then 32 else maxDifficulty)
            && Refusal(incoming, maxDifficulty) in [None, Some(DifficultyTooHigh)]
  {
    hide Challenge, ReadChallenge;
    ChallengeReadsBack(difficulty, salt);
    assert (Challenge(difficulty, salt) + more)[..24] == Challenge(difficulty, salt);
  }

  /**
   Takes 24 bytes off the connection whatever they are; answers only with the least accepted nonce.
   A write that fails has put a proper prefix of that answer on the wire.
   */
  method SolvePoW(conn: Conn, maxDifficulty: int32, hash: Hash) returns (r: Outcome)
    modifies conn
    ensures conn.incoming == if |old(conn.incoming)| < 24 then [] else old(conn.incoming)[24..]
    ensures var refusal := Refusal(old(conn.incoming), maxDifficulty);
            match refusal
            case Some(e) => r == e && conn.sent == old(conn.sent)
            case None =>
              var asked := ReadChallenge(old(conn.incoming)[..24]);
              if Hopeless(hash, asked.salt, asked.difficulty) then r == NonceOverflow && conn.sent == old(conn.sent)
              else
                && r == (if conn.room >= 12 then Solved else WriteError)
                && (r == Solved ==> |conn.sent| == |old(conn.sent)| + 12
                                    && var (magic, nonce) := ReadResponse(conn.sent[|old(conn.sent)|..]);
                                       magic == 0x01827319 && Least(hash, asked.salt, asked.difficulty, nonce))
                && exists nonce :: Least(hash, asked.salt, asked.difficulty, nonce)
                                   && conn.sent == old(conn.sent)
                                                   + Response(nonce)[..if r == Solved then 12 else conn.room]
  {
    hide LE, FromLE, VerifyPoWResponse;
    var limit := if maxDifficulty <= 0 then MAX_DIFFICULTY else maxDifficulty;
    if |conn.incoming| < 24 {
      conn.incoming := [];
      return ReadError;
    }
    var challenge := conn.incoming[..24];
    conn.incoming := conn.incoming[24..];
    Pow256Values();
    var magic := FromLE(challenge[..4]);
    if magic != CHALLENGE_MAGIC {
      return MagicMismatch;
    }
    var difficulty := ToI32(FromLE(challenge[4..8]));
    if difficulty < 0 || difficulty > limit {
      return DifficultyTooHigh;
    }
    var salt := SaltOf(challenge);
    var nonce := FindNonce(hash, salt, difficulty);
    if nonce.None? {
      return NonceOverflow;
    }
    var resp := LE(RESPONSE_MAGIC, 4) + LE(ToU64(nonce.value), 8);
    assert resp == Response(nonce.value) && resp[..12] == resp;
    r := if conn.room >= |resp| then Solved else WriteError;
    ghost var before := conn.sent;
    conn.sent := conn.sent + resp[..if r == Solved then 12 else conn.room];
    ResponseReadsBack(nonce.value);
    assert r == Solved ==> conn.sent[|before|..] == resp;
  }

  /** What the server makes of a complete response: its magic, and a nonce it accepts. */
  lemma ResponseIsAccepted(hash: Hash, salt: Salt, difficulty: int32, nonce: int64)
    requires Least(hash, salt, difficulty, nonce)
    ensures ReadResponse(Response(nonce)).0 == 0x01827319
    ensures VerifyPoWResponse(hash, salt, difficulty, ReadResponse(Response(nonce)).1)
    ensures forall m: int64 :: 0 <= m < ReadResponse(Response(nonce)).1 ==>
              !VerifyPoWResponse(hash, salt, difficulty, m)
  {
    hide VerifyPoWResponse, ReadResponse, Response;
    ResponseReadsBack(nonce);
  }
}
