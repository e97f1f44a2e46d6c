/**
 * The device fingerprint used by the authentication middleware: device type,
 * CPU architecture and device model, an absent or empty one replaced by
 * "Unknown", joined with ":", hashed and truncated. The browser name is
 * derived too but never hashed.
 */
module DeviceFingerprint {
  import opened Wrappers
  import opened UserAgent

  datatype DeviceInfo = DeviceInfo(browserName: string, deviceType: string, deviceCPU: string, deviceModel: string)

  /** `field || "Unknown"`: an absent and an empty field are both replaced. */
  function OrUnknown(field: Option<string>): (s: string)
    ensures field.Some? && field.value != "" ==> s == field.value
    ensures field.None? || field == Some("") ==> s == "Unknown"
    ensures s != ""
  {
    if field.Some? && field.value != "" then field.value else "Unknown"
  }

  /** `generate`. */
  function Generate(p: ParsedUA): (d: DeviceInfo)
    ensures d.browserName == OrUnknown(p.browserName) && d.deviceType == OrUnknown(p.deviceType)
    ensures d.deviceCPU == OrUnknown(p.cpuArchitecture) && d.deviceModel == OrUnknown(p.deviceModel)
  {
    DeviceInfo(OrUnknown(p.browserName), OrUnknown(p.deviceType), OrUnknown(p.cpuArchitecture), OrUnknown(p.deviceModel))
  }

  /** The hashed text: type, CPU and model joined with ":". */
  function Material(d: DeviceInfo): (m: string)
    ensures |m| == |d.deviceType| + |d.deviceCPU| + |d.deviceModel| + 2
    ensures m[..|d.deviceType|] == d.deviceType && m[|d.deviceType|] == ':'
  {
    d.deviceType + ":" + d.deviceCPU + ":" + d.deviceModel
  }

  /** `generateHash`. */
  function GenerateHash(parse: string -> ParsedUA, sha256: string -> HexDigest, userAgent: string): (f: string)
    ensures IsFingerprint(f)
    ensures f == sha256(Material(Generate(parse(userAgent))))[..16]
  {
    Truncate(sha256(Material(Generate(parse(userAgent)))))
  }

  /** Two user-agents that differ only in the browser (or the OS) get the same fingerprint. */
  lemma BrowserDoesNotMatter(parse: string -> ParsedUA, sha256: string -> HexDigest, ua1: string, ua2: string)
    requires parse(ua1).deviceType == parse(ua2).deviceType
    requires parse(ua1).cpuArchitecture == parse(ua2).cpuArchitecture
    requires parse(ua1).deviceModel == parse(ua2).deviceModel
    ensures GenerateHash(parse, sha256, ua1) == GenerateHash(parse, sha256, ua2)
  {
    assert Material(Generate(parse(ua1))) == Material(Generate(parse(ua2)));
  }

  /** An empty field and an absent one give the same fingerprint. */
  lemma EmptyIsAbsent(p: ParsedUA)
    requires p.deviceModel == Some("")
    ensures Material(Generate(p)) == Material(Generate(p.(deviceModel := None)))
  {
  }

  /** Every user-agent the parser cannot read gets the fingerprint of "Unknown:Unknown:Unknown". */
  lemma UnreadableAgentsCollide(parse: string -> ParsedUA, sha256: string -> HexDigest, ua: string)
    requires parse(ua) == Unparsed
    ensures GenerateHash(parse, sha256, ua) == Truncate(sha256("Unknown:Unknown:Unknown"))
  {
    assert Material(Generate(parse(ua))) == "Unknown:Unknown:Unknown";
  }

  /** The material holds no "|" unless one of the three hashed fields does. */
  lemma MaterialWithoutBar(d: DeviceInfo)
    requires forall i :: 0 <= i < |d.deviceType| ==> d.deviceType[i] != '|'
    requires forall i :: 0 <= i < |d.deviceCPU| ==> d.deviceCPU[i] != '|'
    requires forall i :: 0 <= i < |d.deviceModel| ==> d.deviceModel[i] != '|'
    ensures forall i :: 0 <= i < |Material(d)| ==> Material(d)[i] != '|'
  {
    var m := Material(d);
    forall i | 0 <= i < |m|
      ensures m[i] != '|'
    {
      if i < |d.deviceType| {
        assert m[i] == d.deviceType[i];
      } else if i == |d.deviceType| {
        assert m[i] == ':';
      } else if i < |d.deviceType| + 1 + |d.deviceCPU| {
        assert m[i] == d.deviceCPU[i - |d.deviceType| - 1];
      } else if i == |d.deviceType| + 1 + |d.deviceCPU| {
        assert m[i] == ':';
      } else {
        assert m[i] == d.deviceModel[i - |d.deviceType| - 2 - |d.deviceCPU|];
      }
    }
  }
}
