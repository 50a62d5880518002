/**
 * The stored password format of PasswordHasher.cs: the base64 text of a
 * 16-byte salt followed by the 32-byte PBKDF2 key (HMAC-SHA256, 10000
 * iterations) derived from the password and that salt. The key derivation
 * and the random salt are parameters.
 */
module Passwords {
  import opened Common
  import opened Base64

  const SaltSize := 16
  const KeySize := 32
  const Iterations := 10000
  const EmptyPasswordMessage := "Password cannot be null or empty"

  type Salt = s: seq<byte> | |s| == SaltSize witness seq(SaltSize, _ => 0)
  type Key = k: seq<byte> | |k| == KeySize witness seq(KeySize, _ => 0)

  /** KeyDerivation.Pbkdf2 with HMACSHA256, `Iterations` rounds and `KeySize` output bytes. */
  type Kdf = (string, Salt) -> Key

  /** CryptographicOperations.FixedTimeEquals: same length and same bytes. */
  function FixedTimeEquals(a: seq<byte>, b: seq<byte>): (r: bool)
    ensures r <==> a == b
  {
    if |a| != |b| then false
    else if a == [] then true
    else
      var rest := FixedTimeEquals(a[1..], b[1..]);
      assert a == [a[0]] + a[1..] && b == [b[0]] + b[1..];
      a[0] == b[0] && rest
  }

  /**
   * HashPassword, with the salt the random generator would produce passed in.
   * The stored text decodes to the salt followed by the derived key.
   */
  function HashPassword(password: string, salt: Salt, pbkdf2: Kdf): (r: Result<string>)
    ensures r.Failure? <==> password == ""
    ensures r.Failure? ==> r.error == Argument(EmptyPasswordMessage)
    ensures r.Success? ==> Decode(r.value) == Some(salt + pbkdf2(password, salt))
    ensures r.Success? ==> |r.value| == 64
  {
    if password == "" then Failure(Argument(EmptyPasswordMessage))
    else
      var hashBytes := salt + pbkdf2(password, salt);
      StoredForm(hashBytes);
      Success(Encode(hashBytes))
  }

  /** VerifyPassword; a FormatException from the decoder is caught and gives false. */
  function VerifyPassword(password: string, hashedPassword: string, pbkdf2: Kdf): (ok: bool)
    ensures password == "" || hashedPassword == "" ==> !ok
    ensures Decode(hashedPassword).None? ==> !ok
    ensures Decode(hashedPassword).Some? && |Decode(hashedPassword).value| != SaltSize + KeySize ==> !ok
  {
    if password == "" then false
    else if hashedPassword == "" then false
    else
      match Decode(hashedPassword)
      case None => false
      case Some(hashBytes) =>
        if |hashBytes| != SaltSize + KeySize then false
        else
          var salt: Salt := hashBytes[..SaltSize];
          var hash := hashBytes[SaltSize..];
          FixedTimeEquals(hash, pbkdf2(password, salt))
  }

  /** A 48-byte blob encodes to 64 characters that decode back to it. */
  lemma StoredForm(blob: seq<byte>)
    requires |blob| == SaltSize + KeySize
    ensures Decode(Encode(blob)) == Some(blob) && |Encode(blob)| == 64
  {
    RoundTrip(blob);
    EncodedLength(blob);
    assert (|blob| + 2) / 3 == 16;
  }

  /** A stored salt and key verify a password exactly when the key is the one derived from it. */
  lemma VerifyIffKeyMatches(password: string, salt: Salt, key: Key, pbkdf2: Kdf)
    requires password != ""
    ensures VerifyPassword(password, Encode(salt + key), pbkdf2) <==> pbkdf2(password, salt) == key
  {
    var blob := salt + key;
    RoundTrip(blob);
    EncodedLength(blob);
    assert blob[..SaltSize] == salt && blob[SaltSize..] == key;
  }

  /** What HashPassword stores, VerifyPassword accepts for the same password. */
  lemma HashThenVerify(password: string, salt: Salt, pbkdf2: Kdf)
    requires password != ""
    ensures HashPassword(password, salt, pbkdf2).Success?
    ensures VerifyPassword(password, HashPassword(password, salt, pbkdf2).value, pbkdf2)
  {
    VerifyIffKeyMatches(password, salt, pbkdf2(password, salt), pbkdf2);
  }

  /** Any decoded length other than 48 bytes is refused. */
  lemma WrongLengthRefused(password: string, bytes: seq<byte>, pbkdf2: Kdf)
    requires |bytes| != SaltSize + KeySize
    ensures !VerifyPassword(password, Encode(bytes), pbkdf2)
  {
    RoundTrip(bytes);
  }
}
