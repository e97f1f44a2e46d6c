/**
 * The client-heuristic fingerprint used at sign-up: five parser fields, an
 * absent one replaced by "unknown", joined with "|", hashed and truncated.
 */
module ClientHeuristicFingerprint {
  import opened Wrappers
  import opened UserAgent

  datatype ClientHeuristic = ClientHeuristic(browser: string, browserMajor: string, os: string, osVersion: string, cpuArch: string)

  /** `field ?? "unknown"`: only an absent field is replaced; an empty string is kept. */
  function OrUnknown(field: Option<string>): (s: string)
    ensures field.Some? ==> s == field.value
    ensures field.None? ==> s == "unknown"
  {
    field.GetOr("unknown")
  }

  /** `extract`. */
  function Extract(p: ParsedUA): (h: ClientHeuristic)
    ensures h.browser == OrUnknown(p.browserName) && h.browserMajor == OrUnknown(p.browserMajor)
    ensures h.os == OrUnknown(p.osName) && h.osVersion == OrUnknown(p.osVersion)
    ensures h.cpuArch == OrUnknown(p.cpuArchitecture)
  {
    ClientHeuristic(OrUnknown(p.browserName), OrUnknown(p.browserMajor), OrUnknown(p.osName),
      OrUnknown(p.osVersion), OrUnknown(p.cpuArchitecture))
  }

  /** The hashed text: the five fields in their fixed order, joined with "|". */
  function Material(h: ClientHeuristic): (m: string)
    ensures |m| == |h.browser| + |h.browserMajor| + |h.os| + |h.osVersion| + |h.cpuArch| + 4
    ensures m[..|h.browser|] == h.browser && m[|h.browser|] == '|'
  {
    h.browser + "|" + h.browserMajor + "|" + h.os + "|" + h.osVersion + "|" + h.cpuArch
  }

  /** `generateHash`. */
  function GenerateHash(parse: string -> ParsedUA, sha256: string -> HexDigest, userAgent: string): (f: string)
    ensures IsFingerprint(f)
    ensures f == sha256(Material(Extract(parse(userAgent))))[..16]
  {
    Truncate(sha256(Material(Extract(parse(userAgent)))))
  }

  predicate NoBar(s: string) {
    forall i :: 0 <= i < |s| ==> s[i] != '|'
  }

  predicate FieldsWithoutBar(h: ClientHeuristic) {
    NoBar(h.browser) && NoBar(h.browserMajor) && NoBar(h.os) && NoBar(h.osVersion) && NoBar(h.cpuArch)
  }

  /** `a` and `rest` joined with one "|". */
  function Joined(a: string, rest: string): string {
    a + "|" + rest
  }

  /** In `a` joined to `rest` with a bar-free `a`, the first bar is at index |a|. */
  lemma FirstBar(a: string, rest: string)
    requires NoBar(a)
    ensures Joined(a, rest)[|a|] == '|'
    ensures forall i :: 0 <= i < |a| ==> Joined(a, rest)[i] != '|'
  {
    var s := Joined(a, rest);
    forall i | 0 <= i < |a|
      ensures s[i] != '|'
    {
      assert s[i] == a[i];
    }
  }

  /** Splitting at the first bar recovers both halves when the first has no bar. */
  lemma SplitAtBar(a: string, rest: string, b: string, rest': string)
    requires NoBar(a) && NoBar(b)
    requires Joined(a, rest) == Joined(b, rest')
    ensures a == b && rest == rest'
  {
    var s := Joined(a, rest);
    FirstBar(a, rest);
    FirstBar(b, rest');
    assert |a| == |b|;
    assert a == s[..|a|] && b == s[..|b|];
    assert rest == s[|a| + 1..] && rest' == s[|b| + 1..];
  }

  /** The material, read as the first field joined to the material of the rest. */
  lemma MaterialNested(h: ClientHeuristic)
    ensures Material(h) == Joined(h.browser, Joined(h.browserMajor, Joined(h.os, Joined(h.osVersion, h.cpuArch))))
  {
    var bar := "|";
    calc {
      Material(h);
      (((((((h.browser + bar) + h.browserMajor) + bar) + h.os) + bar) + h.osVersion) + bar) + h.cpuArch;
      h.browser + (bar + (h.browserMajor + (bar + (h.os + (bar + (h.osVersion + (bar + h.cpuArch)))))));
    }
  }

  /** The material determines the five fields, provided none contains the separator. */
  lemma MaterialInjective(h1: ClientHeuristic, h2: ClientHeuristic)
    requires FieldsWithoutBar(h1) && FieldsWithoutBar(h2)
    requires Material(h1) == Material(h2)
    ensures h1 == h2
  {
    MaterialNested(h1);
    MaterialNested(h2);
    SplitAtBar(h1.browser, Joined(h1.browserMajor, Joined(h1.os, Joined(h1.osVersion, h1.cpuArch))),
               h2.browser, Joined(h2.browserMajor, Joined(h2.os, Joined(h2.osVersion, h2.cpuArch))));
    SplitAtBar(h1.browserMajor, Joined(h1.os, Joined(h1.osVersion, h1.cpuArch)),
               h2.browserMajor, Joined(h2.os, Joined(h2.osVersion, h2.cpuArch)));
    SplitAtBar(h1.os, Joined(h1.osVersion, h1.cpuArch), h2.os, Joined(h2.osVersion, h2.cpuArch));
    SplitAtBar(h1.osVersion, h1.cpuArch, h2.osVersion, h2.cpuArch);
  }

  /** The hash depends on the user-agent only through the five extracted fields. */
  lemma HashDependsOnlyOnFields(parse: string -> ParsedUA, sha256: string -> HexDigest, ua1: string, ua2: string)
    requires Extract(parse(ua1)) == Extract(parse(ua2))
    ensures GenerateHash(parse, sha256, ua1) == GenerateHash(parse, sha256, ua2)
  {
  }

  /** Every user-agent the parser cannot read gets the fingerprint of five "unknown"s. */
  lemma UnreadableAgentsCollide(parse: string -> ParsedUA, sha256: string -> HexDigest, ua: string)
    requires parse(ua) == Unparsed
    ensures GenerateHash(parse, sha256, ua) == Truncate(sha256("unknown|unknown|unknown|unknown|unknown"))
  {
    assert Material(Extract(parse(ua))) == "unknown|unknown|unknown|unknown|unknown";
  }

  /** An empty parser field is kept, not replaced by "unknown", so the hashed material differs from that of an absent field. */
  lemma EmptyIsNotAbsent(p: ParsedUA)
    requires p.browserName == Some("")
    ensures Extract(p).browser == "" && Extract(p.(browserName := None)).browser == "unknown"
    ensures Material(Extract(p)) != Material(Extract(p.(browserName := None)))
  {
    assert |Material(Extract(p.(browserName := None)))| == |Material(Extract(p))| + 7;
  }

  /** The material always holds a "|", whatever the fields: the one right after the browser name. */
  lemma MaterialHasBar(h: ClientHeuristic)
    ensures !NoBar(Material(h))
  {
    var m := Material(h);
    assert m[|h.browser|] == '|';
  }
}
