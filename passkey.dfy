// The passkey service of packages/backend/src/services/passkey.service.ts:
// base64UrlToUint8Array and the checks the service makes around the user and
// passkey repositories, which are modelled as maps. What the WebAuthn
// library answers (`verifyRegistrationResponse`,
// `verifyAuthenticationResponse`) is a parameter of the operations.
module Passkey {
  import opened Wrappers
  import opened Strings
  import opened Base64

  // ------------------------------------------------------ base64url input

  /** `s.replace(/-/g, '+').replace(/_/g, '/')`: the alphabet of section 5 of RFC 4648 mapped to that of section 4. */
  function ToStandardAlphabet(s: string): string
  {
    ReplaceChar(ReplaceChar(s, '-', "+"), '_', "/")
  }

  /** The inverse direction, which turns an encoding into its base64url form (section 5 of RFC 4648). */
  function ToUrlAlphabet(s: string): string
  {
    ReplaceChar(ReplaceChar(s, '+', "-"), '/', "_")
  }

  /** `(4 - (n % 4)) % 4` (passkey.service.ts:33). */
  function PadLength(n: nat): nat
  {
    (4 - n % 4) % 4
  }

  function Repeat(c: char, n: nat): string
  {
    seq(n, _ => c)
  }

  /** The string handed to `atob` (passkey.service.ts:32-34). */
  function PaddedBase64(s: string): string
  {
    var base64 := ToStandardAlphabet(s);
    base64 + Repeat('=', PadLength(|base64|))
  }

  /** What storing a number into a Uint8Array keeps: its value modulo 256. */
  function ToUint8(x: int): byte
  {
    (x % 256) as byte
  }

  /** The char codes of a binary string as octets. */
  function Uint8s(bin: string): seq<byte>
  {
    seq(|bin|, i requires 0 <= i < |bin| => ToUint8(bin[i] as int))
  }

  const INVALID_BASE64URL := "Invalid base64url string"

  /** What base64UrlToUint8Array returns, or the error it throws (passkey.service.ts:31-46). */
  function Base64UrlBytes(s: string): Result<seq<byte>>
  {
    match Atob(PaddedBase64(s))
    case None => Err(INVALID_BASE64URL)
    case Some(bin) => Ok(Uint8s(bin))
  }

  /** base64UrlToUint8Array (passkey.service.ts:31-46), with the copying loop of lines 37-40. */
  method Base64UrlToUint8Array(base64urlString: string) returns (r: Result<array<byte>>)
    ensures r.Err? <==> Base64UrlBytes(base64urlString).Err?
    ensures r.Err? ==> r.error == INVALID_BASE64URL
    ensures r.Ok? ==> fresh(r.value) && r.value[..] == Base64UrlBytes(base64urlString).value
  {
    var base64 := ToStandardAlphabet(base64urlString);
    var padLength := PadLength(|base64|);
    var paddedBase64 := base64 + Repeat('=', padLength);
    var decoded := Atob(paddedBase64);
    if decoded.None? {
      return Err(INVALID_BASE64URL);
    }
    var binaryString := decoded.value;
    var uint8Array := new byte[|binaryString|];
    for i := 0 to |binaryString|
      invariant uint8Array[..i] == Uint8s(binaryString)[..i]
    {
      uint8Array[i] := ToUint8(binaryString[i] as int);
    }
    assert uint8Array[..] == uint8Array[..|binaryString|];
    return Ok(uint8Array);
  }

  /** The padding brings the length to the next multiple of four (section 3.2 of RFC 4648), adding fewer than four '='. */
  lemma PadLengthMeaning(n: nat)
    ensures PadLength(n) < 4 && (n + PadLength(n)) % 4 == 0
    ensures n % 4 == 0 ==> PadLength(n) == 0
  {
  }

  /** After the replacement no character of the URL-safe alphabet remains, and nothing else changes. */
  lemma StandardAlphabetAt(s: string)
    ensures |ToStandardAlphabet(s)| == |s|
    ensures forall i | 0 <= i < |s| ::
      ToStandardAlphabet(s)[i] == if s[i] == '-' then '+' else if s[i] == '_' then '/' else s[i]
    ensures '-' !in ToStandardAlphabet(s) && '_' !in ToStandardAlphabet(s)
  {
    ReplaceCharByChar(s, '-', '+');
    ReplaceCharByChar(ReplaceChar(s, '-', "+"), '_', '/');
  }

  lemma UrlAlphabetAt(s: string)
    ensures |ToUrlAlphabet(s)| == |s|
    ensures forall i | 0 <= i < |s| ::
      ToUrlAlphabet(s)[i] == if s[i] == '+' then '-' else if s[i] == '/' then '_' else s[i]
  {
    ReplaceCharByChar(s, '+', '-');
    ReplaceCharByChar(ReplaceChar(s, '+', "-"), '/', '_');
  }

  /** The two replacements undo each other on an encoding, which holds neither '-' nor '_'. */
  lemma StandardOfUrl(s: string)
    requires '-' !in s && '_' !in s
    ensures ToStandardAlphabet(ToUrlAlphabet(s)) == s
  {
    UrlAlphabetAt(s);
    StandardAlphabetAt(ToUrlAlphabet(s));
  }

  /** The padded string's length is a multiple of four and exceeds the input's by fewer than four. */
  lemma PaddedLength(s: string)
    ensures |PaddedBase64(s)| % 4 == 0 && |s| <= |PaddedBase64(s)| < |s| + 4
  {
    StandardAlphabetAt(s);
    PadLengthMeaning(|s|);
  }

  /** An input of length 1 modulo 4 has no decoding, so the call throws. */
  lemma OneModFourRejected(s: string)
    requires |s| % 4 == 1
    ensures Base64UrlBytes(s) == Err(INVALID_BASE64URL)
  {
    StandardAlphabetAt(s);
    var base64 := ToStandardAlphabet(s);
    assert Repeat('=', PadLength(|base64|)) == "===";
    RemoveAppend(base64, "===");
    assert !IsAsciiWhitespace('=');
    RemoveNoWhitespace("===");
    var w := RemoveAsciiWhitespace(base64) + "===";
    assert RemoveAsciiWhitespace(PaddedBase64(s)) == w;
    var t := StripPadding(w);
    assert |t| >= 1 && t[|t| - 1] == '=' && !IsBase64Char(t[|t| - 1]);
  }

  /** Three octets per four padded characters, one fewer for each '=' removed before decoding. */
  lemma DecodedSize(s: string)
    requires Base64UrlBytes(s).Ok?
    ensures var t := StripPadding(RemoveAsciiWhitespace(PaddedBase64(s)));
      |Base64UrlBytes(s).value| == |t| / 4 * 3 + (if |t| % 4 == 0 then 0 else |t| % 4 - 1)
    ensures NoAsciiWhitespace(s) ==>
      var p := PaddedBase64(s);
      |Base64UrlBytes(s).value| == |p| / 4 * 3 - (|p| - |StripPadding(p)|)
  {
    var p := PaddedBase64(s);
    var t := StripPadding(RemoveAsciiWhitespace(p));
    DecodedLength(t);
    if NoAsciiWhitespace(s) {
      PaddedNoWhitespace(s);
      PaddedLength(s);
      var k := |p| / 4;
      assert |p| == 4 * k;
      if |t| == |p| - 1 {
        assert |t| == 4 * (k - 1) + 3;
      } else if |t| == |p| - 2 {
        assert |t| == 4 * (k - 1) + 2;
      }
    }
  }

  /** Without whitespace in the input, `atob` removes none from the padded string. */
  lemma PaddedNoWhitespace(s: string)
    requires NoAsciiWhitespace(s)
    ensures RemoveAsciiWhitespace(PaddedBase64(s)) == PaddedBase64(s)
  {
    StandardAlphabetAt(s);
    var p := PaddedBase64(s);
    var n := |s|;
    assert forall i | 0 <= i < |p| :: p[i] == if i < n then ToStandardAlphabet(s)[i] else '=';
    RemoveNoWhitespace(p);
  }

  lemma Uint8sOfBinary(b: seq<byte>)
    ensures Uint8s(BinaryString(b)) == b
  {
  }

  /** An encoding, padded or not, holds neither character of the URL-safe alphabet. */
  lemma NoUrlChars(b: seq<byte>)
    ensures '-' !in EncodeChars(b) && '_' !in EncodeChars(b)
    ensures '-' !in Encode(b) && '_' !in Encode(b)
  {
    var e, full := EncodeChars(b), Encode(b);
    EncodeCharsShape(b);
    assert forall i | 0 <= i < |e| :: IsBase64Char(e[i]);
    assert forall i | 0 <= i < |full| :: full[i] == if i < |e| then e[i] else '=';
  }

  /** A credential id in the unpadded base64url form of section 5 of RFC 4648 decodes back to the octets it was made from. */
  lemma DecodesUnpadded(b: seq<byte>)
    ensures Base64UrlBytes(ToUrlAlphabet(EncodeChars(b))) == Ok(b)
  {
    PadUnpadded(b);
    AtobEncode(b);
    Uint8sOfBinary(b);
  }

  /** Padding the unpadded base64url form restores the padded encoding. */
  lemma PadUnpadded(b: seq<byte>)
    ensures PaddedBase64(ToUrlAlphabet(EncodeChars(b))) == Encode(b)
  {
    var e := EncodeChars(b);
    NoUrlChars(b);
    StandardOfUrl(e);
    EncodeCharsLength(b);
    RepeatIsPadding(|e|, |b|);
  }

  lemma RepeatIsPadding(m: nat, n: nat)
    requires m % 4 == if n % 3 == 0 then 0 else n % 3 + 1
    ensures Repeat('=', PadLength(m)) == Padding(n)
  {
    if n % 3 == 1 {
      assert PadLength(m) == 2;
      assert Repeat('=', 2) == "==";
    } else if n % 3 == 2 {
      assert PadLength(m) == 1;
      assert Repeat('=', 1) == "=";
    } else {
      assert PadLength(m) == 0;
      assert Repeat('=', 0) == "";
    }
  }

  /** So does the padded base64url form. */
  lemma DecodesPadded(b: seq<byte>)
    ensures Base64UrlBytes(ToUrlAlphabet(Encode(b))) == Ok(b)
  {
    var full := Encode(b);
    NoUrlChars(b);
    StandardOfUrl(full);
    StripEncoded(b);
    PadLengthMeaning(|full|);
    assert Repeat('=', 0) == "";
    assert PaddedBase64(ToUrlAlphabet(full)) == full;
    AtobEncode(b);
    Uint8sOfBinary(b);
  }

  // ------------------------------------------------------------- service

  datatype User = User(id: int, username: string)

  /** A row of the passkeys table, with the transports list already parsed. */
  datatype StoredPasskey = StoredPasskey(
    credentialId: string, userId: int, publicKey: string, counter: int,
    transports: Option<seq<string>>, backedUp: bool, lastUsedAt: Option<nat>)

  datatype CredentialDescriptor = CredentialDescriptor(id: string, transports: Option<seq<string>>)

  /** The options generateRegistrationOptions hands to the WebAuthn library (passkey.service.ts:68-82). */
  datatype RegistrationOptions = RegistrationOptions(
    userId: string, userName: string, userDisplayName: string, timeout: nat, attestationType: string,
    excludeCredentials: set<CredentialDescriptor>, residentKey: string, userVerification: string,
    supportedAlgorithmIds: seq<int>)

  /** The fields of the library's `registrationInfo` the service reads; None where a field is missing or of another type. */
  datatype RegistrationInfo = RegistrationInfo(
    credentialPublicKey: Option<seq<byte>>, credentialId: Option<string>, counter: Option<int>,
    transports: Option<seq<string>>, credentialBackedUp: bool)

  /** What verifyRegistrationResponse answered. */
  datatype RegistrationVerification = RegistrationVerification(verified: bool, registrationInfo: Option<RegistrationInfo>)

  /** verifyRegistration's result: the library's verdict, and the row to save when there is one. */
  datatype RegistrationResult = RegistrationResult(verified: bool, newPasskeyToSave: Option<StoredPasskey>)

  /** What verifyAuthenticationResponse answered; `newCounter` is None when `authenticationInfo` is missing. */
  datatype AuthenticationVerification = AuthenticationVerification(verified: bool, newCounter: Option<int>)

  /** verifyAuthentication's result: the passkey as it was read, and its owner. */
  datatype AuthenticationResult = AuthenticationResult(passkey: StoredPasskey, userId: int)

  const USER_MISMATCH := "User not found or username mismatch"
  const INVALID_HANDLE := "Invalid user handle provided."
  const HANDLE_UNKNOWN := "User not found for the provided handle."
  const UNEXPECTED_INFO := "Failed to process registration info due to unexpected structure."
  const CREDENTIAL_MISSING := "Credential ID missing from authentication response."
  const PASSKEY_NOT_FOUND := "Authentication failed. Passkey not found."
  const AUTH_FAILED := "Authentication failed."
  const DELETE_NOT_FOUND := "Passkey not found."
  const DELETE_UNAUTHORIZED := "Unauthorized to delete this passkey."

  /** The descriptors of a user's passkeys (passkey.service.ts:60-66). */
  function CredentialsOf(passkeys: map<string, StoredPasskey>, userId: int): set<CredentialDescriptor>
  {
    set id | id in passkeys && passkeys[id].userId == userId :: CredentialDescriptor(passkeys[id].credentialId, passkeys[id].transports)
  }

  /** The row verifyRegistration proposes (passkey.service.ts:128-137). */
  function NewPasskey(userId: int, info: RegistrationInfo): StoredPasskey
    requires info.credentialPublicKey.Some? && info.credentialId.Some? && info.counter.Some?
  {
    StoredPasskey(info.credentialId.value, userId, Encode(info.credentialPublicKey.value), info.counter.value,
      info.transports, info.credentialBackedUp, None)
  }

  /** The passkey service over its two repositories: the users, which it only reads, and the passkeys by credential id. */
  class PasskeyService {
    const users: map<int, User>
    var passkeys: map<string, StoredPasskey>

    /** Each repository row sits under its own key. */
    ghost predicate Valid()
      reads this
    {
      && (forall id | id in users :: users[id].id == id)
      && (forall k | k in passkeys :: passkeys[k].credentialId == k)
    }

    constructor (users: map<int, User>, passkeys: map<string, StoredPasskey>)
      requires forall id | id in users :: users[id].id == id
      requires forall k | k in passkeys :: passkeys[k].credentialId == k
      ensures Valid() && this.users == users && this.passkeys == passkeys
    {
      this.users := users;
      this.passkeys := passkeys;
    }

    /**
     * generateRegistrationOptions (passkey.service.ts:54-86): refused unless
     * the user exists under that name; every passkey the user already has
     * is excluded.
     */
    method GenerateRegistrationOptions(username: string, userId: int) returns (r: Result<RegistrationOptions>)
      ensures r.Err? <==> userId !in users || users[userId].username != username
      ensures r.Err? ==> r.error == USER_MISMATCH
      ensures r.Ok? ==>
        && r.value.userName == username && r.value.userDisplayName == username
        && ParseInt(r.value.userId) == Some(userId)
        && r.value.excludeCredentials == CredentialsOf(passkeys, userId)
        && r.value.timeout == 60000 && r.value.attestationType == "none"
        && r.value.supportedAlgorithmIds == [-7, -257]
    {
      if userId !in users || users[userId].username != username {
        return Err(USER_MISMATCH);
      }
      var excludeCredentials := CredentialsOf(passkeys, userId);
      ParseIntOfIntToString(userId);
      r := Ok(RegistrationOptions(IntToString(userId), username, username, 60000, "none",
        excludeCredentials, "preferred", "preferred", [-7, -257]));
    }

    /**
     * verifyRegistration (passkey.service.ts:88-141): the user handle must
     * parse to a known user; a verified response with complete information
     * proposes a new row for that user, whose public key decodes back to
     * the key the authenticator sent.
     */
    method VerifyRegistration(userHandleFromClient: string, verification: RegistrationVerification)
      returns (r: Result<RegistrationResult>)
      requires Valid()
      ensures ParseInt(userHandleFromClient).None? ==> r == Err(INVALID_HANDLE)
      ensures ParseInt(userHandleFromClient).Some? && ParseInt(userHandleFromClient).value !in users ==> r == Err(HANDLE_UNKNOWN)
      ensures ParseInt(userHandleFromClient).Some? && ParseInt(userHandleFromClient).value in users ==>
        var userId := ParseInt(userHandleFromClient).value;
        if verification.verified && verification.registrationInfo.Some? then
          var info := verification.registrationInfo.value;
          if info.credentialPublicKey.None? || info.credentialId.None? || info.counter.None? then r == Err(UNEXPECTED_INFO)
          else
            && r == Ok(RegistrationResult(true, Some(NewPasskey(userId, info))))
            && Atob(r.value.newPasskeyToSave.value.publicKey) == Some(BinaryString(info.credentialPublicKey.value))
        else r == Ok(RegistrationResult(verification.verified, None))
    {
      var userId := ParseInt(userHandleFromClient);
      if userId.None? {
        return Err(INVALID_HANDLE);
      }
      if userId.value !in users {
        return Err(HANDLE_UNKNOWN);
      }
      var user := users[userId.value];
      if verification.verified && verification.registrationInfo.Some? {
        var info := verification.registrationInfo.value;
        if info.credentialPublicKey.None? || info.credentialId.None? || info.counter.None? {
          return Err(UNEXPECTED_INFO);
        }
        AtobEncode(info.credentialPublicKey.value);
        return Ok(RegistrationResult(true, Some(NewPasskey(user.id, info))));
      }
      return Ok(RegistrationResult(verification.verified, None));
    }

    /**
     * verifyAuthentication (passkey.service.ts:169-209): refused for a
     * missing credential id, an unknown passkey, a stored id that is not
     * base64url, or a failed verification. On success only that passkey's
     * counter and last use change, and its owner is returned.
     */
    method VerifyAuthentication(credentialId: string, verification: AuthenticationVerification, now: nat)
      returns (r: Result<AuthenticationResult>)
      requires Valid()
      modifies this`passkeys
      ensures Valid()
      ensures credentialId == "" ==> r == Err(CREDENTIAL_MISSING)
      ensures credentialId != "" && credentialId !in old(passkeys) ==> r == Err(PASSKEY_NOT_FOUND)
      ensures credentialId != "" && credentialId in old(passkeys) ==>
        var pk := old(passkeys)[credentialId];
        if Base64UrlBytes(pk.credentialId).Err? then r == Err(INVALID_BASE64URL)
        else if verification.verified && verification.newCounter.Some? then
          && r == Ok(AuthenticationResult(pk, pk.userId))
          && passkeys == old(passkeys)[credentialId := pk.(counter := verification.newCounter.value, lastUsedAt := Some(now))]
        else r == Err(AUTH_FAILED)
      ensures r.Err? ==> passkeys == old(passkeys)
    {
      if credentialId == "" {
        return Err(CREDENTIAL_MISSING);
      }
      if credentialId !in passkeys {
        return Err(PASSKEY_NOT_FOUND);
      }
      var passkey := passkeys[credentialId];
      var credentialBytes := Base64UrlToUint8Array(passkey.credentialId);
      if credentialBytes.Err? {
        return Err(credentialBytes.error);
      }
      if verification.verified && verification.newCounter.Some? {
        passkeys := passkeys[credentialId := passkey.(counter := verification.newCounter.value)];
        passkeys := passkeys[credentialId := passkeys[credentialId].(lastUsedAt := Some(now))];
        return Ok(AuthenticationResult(passkey, passkey.userId));
      }
      return Err(AUTH_FAILED);
    }

    /**
     * deletePasskey (passkey.service.ts:223-234): only the owner of a known
     * passkey deletes it; every other request throws and deletes nothing.
     */
    method DeletePasskey(userId: int, credentialId: string) returns (r: Result<bool>)
      requires Valid()
      modifies this`passkeys
      ensures Valid()
      ensures credentialId !in old(passkeys) ==> r == Err(DELETE_NOT_FOUND) && passkeys == old(passkeys)
      ensures credentialId in old(passkeys) && old(passkeys)[credentialId].userId != userId ==>
        r == Err(DELETE_UNAUTHORIZED) && passkeys == old(passkeys)
      ensures credentialId in old(passkeys) && old(passkeys)[credentialId].userId == userId ==>
        r == Ok(true) && passkeys == old(passkeys) - {credentialId}
    {
      if credentialId !in passkeys {
        return Err(DELETE_NOT_FOUND);
      }
      var passkey := passkeys[credentialId];
      if passkey.userId != userId {
        return Err(DELETE_UNAUTHORIZED);
      }
      var wasDeleted := credentialId in passkeys;
      passkeys := passkeys - {credentialId};
      return Ok(wasDeleted);
    }
  }
}
