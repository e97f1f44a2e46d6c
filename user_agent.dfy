/**
 * The two foreign functions the fingerprint derivers call: the user-agent
 * parser (each field of its result may be undefined) and the lowercase hex
 * SHA-256 digest. Both are uninterpreted and passed in as function values.
 */
module UserAgent {
  import opened Wrappers

  /** The parser fields the derivers read. */
  datatype ParsedUA = ParsedUA(
    browserName: Option<string>,
    browserMajor: Option<string>,
    osName: Option<string>,
    osVersion: Option<string>,
    cpuArchitecture: Option<string>,
    deviceType: Option<string>,
    deviceModel: Option<string>)

  /** What the parser reports for a user-agent it cannot read. */
  const Unparsed := ParsedUA(None, None, None, None, None, None, None)

  predicate IsLowerHex(c: char) {
    '0' <= c <= '9' || 'a' <= c <= 'f'
  }

  /** `digest("hex")` of SHA-256: 64 lowercase hexadecimal characters. */
  type HexDigest = s: string | |s| == 64 && forall i :: 0 <= i < |s| ==> IsLowerHex(s[i])
    witness seq(64, _ => '0')

  /** A fingerprint: 16 lowercase hexadecimal characters. */
  predicate IsFingerprint(s: string) {
    |s| == 16 && forall i :: 0 <= i < |s| ==> IsLowerHex(s[i])
  }

  /** `slice(0, 16)` / `substring(0, 16)` of a digest. */
  function Truncate(d: HexDigest): (f: string)
    ensures IsFingerprint(f) && f == d[..16]
  {
    d[..16]
  }
}
