/**
 * The byte-level and text-level parts of the security helpers: PKCS#7
 * padding around the block cipher (section 6.3 of RFC 5652), the XOR
 * fallback cipher, and the layout of access tokens. The block cipher, the
 * hashes and HMAC (RFC 2104) are not modelled; the token signer is a
 * caller-supplied function from text to its hex digest.
 */
module Security {
  import opened Wrappers
  import Strings

  /** The cipher's block size in bytes. */
  const BLOCK_SIZE: nat := 16

  /** The number of pad bytes: 16 - len mod 16, so a whole block is added to an exact multiple. */
  function PadLen(n: nat): (p: nat)
    ensures 1 <= p <= BLOCK_SIZE && (n + p) % BLOCK_SIZE == 0
  {
    BLOCK_SIZE - n % BLOCK_SIZE
  }

  /** encrypt_data's padding: PadLen(|data|) bytes each holding that length. */
  function Pad(data: seq<bv8>): (r: seq<bv8>)
    ensures |r| % BLOCK_SIZE == 0 && |data| < |r| <= |data| + BLOCK_SIZE
    ensures r[..|data|] == data
    ensures forall i :: |data| <= i < |r| ==> r[i] as int == |r| - |data|
  {
    var p := PadLen(|data|);
    data + seq(p, _ => p as bv8)
  }

  /**
   * decrypt_data's unpadding: drop as many bytes as the last byte says, with
   * Python's slice data[:-p]. An empty input raises, modelled as none; a
   * last byte of zero or larger than the data leaves nothing.
   */
  function Unpad(d: seq<bv8>): (r: Option<seq<bv8>>)
    ensures r.None? <==> d == []
    ensures r.Some? ==> var p := d[|d| - 1] as nat;
      && (1 <= p <= |d| ==> r.value == d[..|d| - p])
      && (p == 0 || p > |d| ==> r.value == [])
  {
    if d == [] then None
    else
      var p := d[|d| - 1] as nat;
      Some(if p == 0 || p > |d| then [] else d[..|d| - p])
  }

  /** Unpadding a padded message gives the message back. */
  lemma UnpadPad(m: seq<bv8>)
    ensures Unpad(Pad(m)) == Some(m)
  {
    var r := Pad(m);
    assert r[|r| - 1] as int == |r| - |m|;
  }

  /** The XOR fallback: byte i is combined with key byte i mod |key|; the key is a 16-byte MD5 digest. */
  function Xor(data: seq<bv8>, key: seq<bv8>): (r: seq<bv8>)
    requires |key| > 0
    ensures |r| == |data|
  {
    seq(|data|, i requires 0 <= i < |data| => data[i] ^ key[i % |key|])
  }

  /** Decrypting with the same key undoes encrypting: _fallback_decrypt(_fallback_encrypt(m)) == m on bytes. */
  lemma XorRoundTrip(data: seq<bv8>, key: seq<bv8>)
    requires |key| > 0
    ensures Xor(Xor(data, key), key) == data
  {
    var once := Xor(data, key);
    var twice := Xor(once, key);
    forall i | 0 <= i < |data| ensures twice[i] == data[i] {
      XorTwice(data[i], key[i % |key|]);
    }
  }

  lemma XorTwice(a: bv8, k: bv8)
    ensures (a ^ k) ^ k == a
  {
  }

  /** int(x) for a float: truncation toward zero. */
  function Trunc(r: real): (i: int)
    ensures r >= 0.0 ==> i as real <= r < i as real + 1.0
    ensures r < 0.0 ==> i as real - 1.0 < r <= i as real
  {
    if r >= 0.0 then r.Floor else -((-r).Floor)
  }

  /** The signed part of a token: user_id:expiry:nonce. */
  function TokenData(userId: string, expiry: string, nonce: string): string
  {
    userId + ":" + expiry + ":" + nonce
  }

  /**
   * generate_token: the expiry is int(now + expire_seconds) in decimal, the
   * nonce is given (32 hex digits in the source), and the HMAC hex digest of
   * the data is appended after a colon.
   */
  function GenerateToken(userId: string, now: real, expireSeconds: int, nonce: string, sign: string -> string): (t: string)
    ensures var expiry := Strings.IntToString(Trunc(now + expireSeconds as real));
      ':' !in userId && ':' !in nonce ==>
        Strings.SplitAtMost(t, ':', 3) == [userId, expiry, nonce, sign(TokenData(userId, expiry, nonce))]
  {
    var data := TokenData(userId, Strings.IntToString(Trunc(now + expireSeconds as real)), nonce);
    if ':' in userId || ':' in nonce then data + ":" + sign(data)
    else
      TokenParts(userId, Trunc(now + expireSeconds as real), nonce, sign(data));
      data + ":" + sign(data)
  }

  /**
   * verify_token: split at the first three colons; fewer than four parts or
   * an expiry that is not an integer raise and give none. An expiry before
   * now gives none, and so does a signature that differs from the signer's
   * digest of the first three parts as written; otherwise the user id.
   */
  function VerifyToken(token: string, now: real, sign: string -> string): (r: Option<string>)
    ensures r.Some? ==>
      var parts := Strings.SplitAtMost(token, ':', 3);
      && |parts| == 4 && r.value == parts[0]
      && token == TokenData(parts[0], parts[1], parts[2]) + ":" + sign(TokenData(parts[0], parts[1], parts[2]))
      && Strings.ParseInt(parts[1]).Some? && now <= Strings.ParseInt(parts[1]).value as real
  {
    var parts := Strings.SplitAtMost(token, ':', 3);
    if |parts| != 4 then None
    else
      match Strings.ParseInt(parts[1])
      case None => None
      case Some(expiry) =>
        if (expiry as real) < now then None
        else if parts[3] != sign(TokenData(parts[0], parts[1], parts[2])) then None
        else
          Strings.SplitAtMostJoin(token, ':', 3);
          JoinFour(parts, ':');
          Some(parts[0])
  }

  /** How generate_token's output splits back into its four parts. */
  lemma TokenParts(userId: string, expiry: int, nonce: string, signature: string)
    requires ':' !in userId && ':' !in nonce
    ensures Strings.SplitAtMost(TokenData(userId, Strings.IntToString(expiry), nonce) + ":" + signature, ':', 3)
         == [userId, Strings.IntToString(expiry), nonce, signature]
  {
    var e := Strings.IntToString(expiry);
    Strings.IntToStringAvoids(expiry, ':');
    TokenShape(userId, e, nonce, signature);
    SplitFour(userId, e, nonce, signature);
  }

  lemma TokenShape(a: string, b: string, c: string, d: string)
    ensures TokenData(a, b, c) + ":" + d == a + [':'] + (b + [':'] + (c + [':'] + d))
  {
  }

  /** Three colon-free fields and a remainder split back apart at the first three colons. */
  lemma SplitFour(a: string, b: string, c: string, d: string)
    requires ':' !in a && ':' !in b && ':' !in c
    ensures Strings.SplitAtMost(a + [':'] + (b + [':'] + (c + [':'] + d)), ':', 3) == [a, b, c, d]
  {
    SplitThree(b, c, d);
    Strings.SplitAtMostCut(a, b + [':'] + (c + [':'] + d), ':', 3);
  }

  lemma SplitThree(b: string, c: string, d: string)
    requires ':' !in b && ':' !in c
    ensures Strings.SplitAtMost(b + [':'] + (c + [':'] + d), ':', 2) == [b, c, d]
  {
    SplitTwo(c, d);
    Strings.SplitAtMostCut(b, c + [':'] + d, ':', 2);
  }

  lemma SplitTwo(c: string, d: string)
    requires ':' !in c
    ensures Strings.SplitAtMost(c + [':'] + d, ':', 1) == [c, d]
  {
    assert Strings.SplitAtMost(d, ':', 0) == [d];
    Strings.SplitAtMostCut(c, d, ':', 1);
  }

  /** A join of four parts, written out. */
  lemma JoinFour(parts: seq<string>, sep: char)
    requires |parts| == 4
    ensures Strings.Join(parts, sep) == parts[0] + [sep] + parts[1] + [sep] + parts[2] + [sep] + parts[3]
  {
    assert parts[1..][1..][1..] == [parts[3]];
    assert Strings.Join(parts[1..][1..], sep) == parts[2] + [sep] + parts[3];
  }

  /**
   * A token verifies, with the same signer, to the user it was made for at
   * any time up to its expiry, and to nothing after it. A user id or nonce
   * holding a colon would shift the fields, so both are colon-free here.
   */
  lemma TokenRoundTrip(userId: string, now: real, expireSeconds: int, nonce: string, sign: string -> string, later: real)
    requires ':' !in userId && ':' !in nonce
    ensures var expiry := Trunc(now + expireSeconds as real);
      VerifyToken(GenerateToken(userId, now, expireSeconds, nonce, sign), later, sign)
        == if later <= expiry as real then Some(userId) else None
  {
    var expiry := Trunc(now + expireSeconds as real);
    var data := TokenData(userId, Strings.IntToString(expiry), nonce);
    TokenParts(userId, expiry, nonce, sign(data));
    Strings.ParseIntRoundTrip(expiry);
  }

  /** A token whose signature part is not the signer's digest of its data never verifies. */
  lemma ForgedTokenRefused(userId: string, expiry: int, nonce: string, signature: string, now: real, sign: string -> string)
    requires ':' !in userId && ':' !in nonce
    requires signature != sign(TokenData(userId, Strings.IntToString(expiry), nonce))
    ensures VerifyToken(TokenData(userId, Strings.IntToString(expiry), nonce) + ":" + signature, now, sign) == None
  {
    TokenParts(userId, expiry, nonce, signature);
  }
}
