/**
 * Proof Key for Code Exchange with the S256 method of RFC 7636. The browser
 * (`pkce` in app/src/lib/Auth.js) makes a random code verifier and derives
 * its challenge; the server (`verifyPkceChallenge` in api/api.js) recomputes
 * the challenge from the verifier and compares strings. SHA-256 is a
 * parameter of every member that needs it: this model does not compute it,
 * it only relies on its result being 32 bytes long.
 */
module Pkce {
  import opened Common
  import opened Js
  import Utf8
  import opened Base64

  /** A SHA-256 digest. */
  type Digest = d: seq<byte> | |d| == 32 witness seq(32, _ => 0)

  /** `crypto.subtle.digest('SHA-256', ·)`, supplied by the caller. */
  type Sha256 = seq<byte> -> Digest

  /**
   * The challenge transform of section 4.2 of RFC 7636, written the same way
   * in both source files: UTF-8 encode, hash, then the btoa-and-replace
   * encoding. The result is the unpadded base64url text of the digest.
   */
  function S256(verifier: string, sha: Sha256): (challenge: string)
    ensures challenge == Base64UrlNoPad(sha(Utf8.Encode(verifier)))
  {
    EncodeAsWritten(sha(Utf8.Encode(verifier)))
  }

  /** Every challenge is 43 characters of `A-Z a-z 0-9 - _`, with no `=`. */
  lemma ChallengeShape(verifier: string, sha: Sha256)
    ensures |S256(verifier, sha)| == 43
    ensures forall i :: 0 <= i < |S256(verifier, sha)| ==> IsUrlSafe(S256(verifier, sha)[i])
    ensures '=' !in S256(verifier, sha)
  {
    AsWrittenAlphabet(sha(Utf8.Encode(verifier)));
  }

  /**
   * The server-side check of section 4.6 of RFC 7636: true exactly when the
   * stored challenge is the unpadded base64url encoding of the digest of the
   * verifier's UTF-8 bytes.
   */
  function VerifyPkceChallenge(codeChallenge: string, codeVerifier: string, sha: Sha256): (ok: bool)
    ensures ok <==> codeChallenge == Base64UrlNoPad(sha(Utf8.Encode(codeVerifier)))
  {
    S256(codeVerifier, sha) == codeChallenge
  }

  /** An accepted challenge decodes to the digest of the verifier. */
  lemma AcceptedChallengeIsDigest(codeChallenge: string, codeVerifier: string, sha: Sha256)
    requires VerifyPkceChallenge(codeChallenge, codeVerifier, sha)
    ensures DecodeUrlNoPad(codeChallenge) == Some(sha(Utf8.Encode(codeVerifier)))
  {
    DecodeEncode(sha(Utf8.Encode(codeVerifier)));
  }

  /** Two verifiers pass against the same challenge only if their digests are equal. */
  lemma ChallengeBindsDigest(codeChallenge: string, v1: string, v2: string, sha: Sha256)
    requires VerifyPkceChallenge(codeChallenge, v1, sha) && VerifyPkceChallenge(codeChallenge, v2, sha)
    ensures sha(Utf8.Encode(v1)) == sha(Utf8.Encode(v2))
  {
    EncodingInjective(sha(Utf8.Encode(v1)), sha(Utf8.Encode(v2)));
  }

  /** The browser's challenge of a verifier is accepted by the server for that verifier. */
  lemma PkceRoundTrip(codeVerifier: string, sha: Sha256)
    ensures VerifyPkceChallenge(S256(codeVerifier, sha), codeVerifier, sha)
  {
  }

  // ---------------------------------------------------------------------------
  // Code verifier generation (app/src/lib/Auth.js:15-19)

  /** One element of the verifier: `('0' + w.toString(16)).substring(-2)`. */
  function VerifierChunk(w: uint32): string {
    Substring("0" + NumberToString(w, 16), -2)
  }

  /** The chunks of all words, joined without separator: `2n` to `9n` lower-case hex characters for `n` words. */
  function CodeVerifier(words: seq<uint32>): (v: string)
    ensures 2 * |words| <= |v| <= 9 * |words|
    ensures forall i :: 0 <= i < |v| ==> IsHexDigit(v[i])
    decreases |words|
  {
    if words == [] then ""
    else
      var c, rest := VerifierChunk(words[0]), CodeVerifier(words[1..]);
      ChunkShape(words[0]);
      assert forall i :: 0 <= i < |c + rest| ==> (c + rest)[i] == if i < |c| then c[i] else rest[i - |c|];
      c + rest
  }

  /** `substring(-2)` clamps to 0 and keeps the whole chunk: `'0'` and then 1 to 8 hex digits. */
  lemma ChunkShape(w: uint32)
    ensures VerifierChunk(w) == "0" + NumberToString(w, 16)
    ensures 2 <= |VerifierChunk(w)| <= 9
    ensures forall i :: 0 <= i < |VerifierChunk(w)| ==> IsHexDigit(VerifierChunk(w)[i])
  {
    Uint32HexShape(w);
  }

  /** A leading zero digit does not change a value. */
  lemma {:induction false} LeadingZero(s: string, radix: nat)
    ensures DigitsValue("0" + s, radix) == DigitsValue(s, radix)
    decreases |s|
  {
    if s != [] {
      var t := "0" + s;
      assert t[..|t| - 1] == "0" + s[..|s| - 1];
      LeadingZero(s[..|s| - 1], radix);
    }
  }

  /** Each chunk reads back, as hexadecimal, as the random word it came from. */
  lemma ChunkValue(w: uint32)
    ensures DigitsValue(VerifierChunk(w), 16) == w
  {
    LeadingZero(NumberToString(w, 16), 16);
    NumberToStringRoundTrip(w, 16);
  }

  /** `generateCodeVerifier` draws 28 words, so the verifier is 56 to 252 hex characters. */
  lemma GeneratedVerifierShape(words: seq<uint32>)
    requires |words| == 28
    ensures 56 <= |CodeVerifier(words)| <= 252
    ensures forall i :: 0 <= i < |CodeVerifier(words)| ==> IsHexDigit(CodeVerifier(words)[i])
  {
  }
}
