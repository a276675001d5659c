/**
 Secrets at rest: `v1.<iv>.<tag>.<ciphertext>` in base64. The cipher is abstract: any pair of functions of
 which opening undoes sealing under the same key and iv.
 */
module SecretFraming {
  import opened Common
  import opened Text
  import opened Base64

  datatype CryptoError = KeyMissing | KeyMalformed | Malformed | AuthenticationFailed

  /** seal(key, iv, plaintext) gives ciphertext and tag; open(key, iv, tag, ciphertext) the plaintext, if authentic. */
  datatype Cipher = Cipher(
    seal: (Bytes, Bytes, Bytes) -> (Bytes, Bytes),
    open: (Bytes, Bytes, Bytes, Bytes) -> Option<Bytes>)

  ghost predicate OpensWhatItSeals(c: Cipher) {
    forall key, iv, text :: c.open(key, iv, c.seal(key, iv, text).1, c.seal(key, iv, text).0) == Some(text)
  }

  predicate IsHex(c: char) { '0' <= c <= '9' || 'a' <= c <= 'f' || 'A' <= c <= 'F' }

  function HexValue(c: char): (n: int)
    requires IsHex(c)
    ensures 0 <= n < 16
  {
    if '0' <= c <= '9' then (c - '0') as int
    else if 'a' <= c <= 'f' then (c - 'a') as int + 10 else (c - 'A') as int + 10
  }

  function FromHex(s: string): Bytes
    requires |s| % 2 == 0 && forall i | 0 <= i < |s| :: IsHex(s[i])
  {
    if s == "" then [] else [HexValue(s[0]) * 16 + HexValue(s[1])] + FromHex(s[2..])
  }

  function ToKey(hexKey: string): Result<Bytes, CryptoError> {
    if hexKey == "" then Err(KeyMissing)
    else if |hexKey| != 64 || exists i | 0 <= i < |hexKey| :: !IsHex(hexKey[i]) then Err(KeyMalformed)
    else Ok(FromHex(hexKey))
  }

  function Frame(iv: Bytes, tag: Bytes, text: Bytes): string {
    Join(["v1", Encode(iv), Encode(tag), Encode(text)], '.')
  }

  function EncryptSecret(c: Cipher, plaintext: Bytes, hexKey: string, iv: Bytes): Result<string, CryptoError> {
    match ToKey(hexKey)
    case Err(e) => Err(e)
    case Ok(key) =>
      var (text, tag) := c.seal(key, iv, plaintext);
      Ok(Frame(iv, tag, text))
  }

  function DecryptSecret(c: Cipher, payload: string, hexKey: string): Result<Bytes, CryptoError> {
    match ToKey(hexKey)
    case Err(e) => Err(e)
    case Ok(key) =>
      var parts := Split(payload, '.');
      if |parts| != 4 || parts[0] != "v1" then Err(Malformed)
      else
        var iv, tag, text := Decode(parts[1]), Decode(parts[2]), Decode(parts[3]);
        if iv.None? || tag.None? || text.None? then Err(Malformed)
        else match c.open(key, iv.value, tag.value, text.value)
          case None => Err(AuthenticationFailed)
          case Some(plaintext) => Ok(plaintext)
  }

  lemma {:induction false} NoDotInBase64(bs: Bytes)
    ensures '.' !in Encode(bs)
  {
    var n := EncodedMatches(bs);
  }

  /** The frame parses back into exactly the parts it was built from, for any iv, tag and ciphertext. */
  lemma {:induction false} FrameParsesBack(iv: Bytes, tag: Bytes, text: Bytes)
    ensures Split(Frame(iv, tag, text), '.') == ["v1", Encode(iv), Encode(tag), Encode(text)]
    ensures Decode(Encode(iv)) == Some(iv) && Decode(Encode(tag)) == Some(tag) && Decode(Encode(text)) == Some(text)
  {
    NoDotInBase64(iv);
    NoDotInBase64(tag);
    NoDotInBase64(text);
    RoundTrip(iv);
    RoundTrip(tag);
    RoundTrip(text);
    SplitJoin(["v1", Encode(iv), Encode(tag), Encode(text)], '.');
  }

  /** Different parts never share a frame. */
  lemma {:induction false} FramesAreUnambiguous(iv: Bytes, tag: Bytes, text: Bytes, iv': Bytes, tag': Bytes, text': Bytes)
    requires Frame(iv, tag, text) == Frame(iv', tag', text')
    ensures iv == iv' && tag == tag' && text == text'
  {
    FrameParsesBack(iv, tag, text);
    FrameParsesBack(iv', tag', text');
    var p, q := ["v1", Encode(iv), Encode(tag), Encode(text)], ["v1", Encode(iv'), Encode(tag'), Encode(text')];
    assert p[1] == q[1] && p[2] == q[2] && p[3] == q[3];
  }

  /** Only a frame of the current version with three decodable parts is opened, and only if it is authentic under the key. */
  lemma {:induction false} OnlyFramesOpen(c: Cipher, payload: string, hexKey: string)
    requires ToKey(hexKey).Ok?
    ensures var parts, r := Split(payload, '.'), DecryptSecret(c, payload, hexKey);
            var framed := |parts| == 4 && parts[0] == "v1"
                          && Decode(parts[1]).Some? && Decode(parts[2]).Some? && Decode(parts[3]).Some?;
            && (r == Err(Malformed) <==> !framed)
            && (framed ==>
                  match c.open(ToKey(hexKey).value, Decode(parts[1]).value, Decode(parts[2]).value, Decode(parts[3]).value)
                  case Some(plaintext) => r == Ok(plaintext)
                  case None => r == Err(AuthenticationFailed))
  {}

  /** A key is 64 hexadecimal digits and stands for 32 bytes, the high digit of each byte first. */
  lemma {:induction false} KeyBytes(hexKey: string)
    ensures ToKey(hexKey).Ok? <==> |hexKey| == 64 && forall i | 0 <= i < 64 :: IsHex(hexKey[i])
    ensures hexKey == "" <==> ToKey(hexKey) == Err(KeyMissing)
    ensures ToKey(hexKey).Ok? ==>
              && |ToKey(hexKey).value| == 32
              && forall i | 0 <= i < 32 :: ToKey(hexKey).value[i] == 16 * HexValue(hexKey[2 * i]) + HexValue(hexKey[2 * i + 1])
  {
    if ToKey(hexKey).Ok? { HexBytes(hexKey); }
  }

  /** A hexadecimal digit of either case is worth its place among the sixteen. */
  lemma {:induction false} HexDigits(c: char)
    ensures IsHex(c) <==> 48 <= c as int <= 57 || 97 <= c as int <= 102 || 65 <= c as int <= 70
    ensures IsHex(c) ==> HexValue(c) == if c as int <= 57 then c as int - 48 else if c as int <= 70 then c as int - 55 else c as int - 87
  {}

  lemma {:induction false} HexBytes(s: string)
    requires |s| % 2 == 0 && forall i | 0 <= i < |s| :: IsHex(s[i])
    ensures 2 * |FromHex(s)| == |s|
    ensures forall i | 0 <= i < |FromHex(s)| :: FromHex(s)[i] == 16 * HexValue(s[2 * i]) + HexValue(s[2 * i + 1])
  {
    if s != "" {
      HexBytes(s[2..]);
      forall i | 0 < i < |FromHex(s)| ensures FromHex(s)[i] == 16 * HexValue(s[2 * i]) + HexValue(s[2 * i + 1]) {
        assert FromHex(s)[i] == FromHex(s[2..])[i - 1];
        assert s[2..][2 * (i - 1)] == s[2 * i] && s[2..][2 * (i - 1) + 1] == s[2 * i + 1];
      }
    }
  }

  /** With one valid key, decryption undoes encryption; with an invalid one both fail the same way. */
  lemma {:induction false} SecretRoundTrip(c: Cipher, plaintext: Bytes, hexKey: string, iv: Bytes)
    requires OpensWhatItSeals(c)
    ensures var sealed := EncryptSecret(c, plaintext, hexKey, iv);
            if sealed.Ok? then DecryptSecret(c, sealed.value, hexKey) == Ok(plaintext)
            else ToKey(hexKey) == Err(sealed.error) && forall p :: DecryptSecret(c, p, hexKey) == Err(sealed.error)
  {
    var key := ToKey(hexKey);
    if key.Ok? {
      var (text, tag) := c.seal(key.value, iv, plaintext);
      FrameParsesBack(iv, tag, text);
    }
  }
}
