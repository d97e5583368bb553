/** The dependency update checker (`scripts/dependency-checker.js`): version
    parsing and comparison, the rule cascade that rates one update, the
    per-package result, the batched run over all packages and the report
    counts. The package registry lookup is an input: its answer for each
    package (`None` when the request failed). */
module DependencyChecker {
  import opened Wrappers
  import opened Text
  import opened Seqs

  // ---------------------------------------------------------------------------
  // Versions.

  datatype Version = Version(major: nat, minor: nat, patch: nat, raw: string)

  predicate IsRangePrefix(c: char)
  {
    c == '^' || c == '~' || c == '>' || c == '=' || c == '<'
  }

  /** `version.replace(/^[\^~>=<]/, '')`: one leading range character. */
  function StripRangePrefix(v: string): string
  {
    if |v| > 0 && IsRangePrefix(v[0]) then v[1..] else v
  }

  /** `Number(part) || 0` for a piece of a dotted version: a plain decimal is
      its value; anything else, and the empty piece, is 0. */
  function ComponentValue(p: string): nat
  {
    if |p| > 0 && AllDigits(p) then DecimalValue(p) else 0
  }

  /** `parts[i] || 0`, with a missing piece read as 0. */
  function ComponentAt(parts: seq<string>, i: nat): nat
  {
    if i < |parts| then ComponentValue(parts[i]) else 0
  }

  function ParseVersion(v: string): (r: Version)
    ensures r.raw == StripRangePrefix(v)
  {
    var cleaned := StripRangePrefix(v);
    var parts := Split(cleaned, '.');
    Version(ComponentAt(parts, 0), ComponentAt(parts, 1), ComponentAt(parts, 2), cleaned)
  }

  /** `major.minor.patch` in decimal. */
  function Render(a: nat, b: nat, c: nat): string
  {
    Join([NatToString(a), NatToString(b), NatToString(c)], ".")
  }

  lemma DigitsFreeOfDot(s: string)
    requires AllDigits(s)
    ensures FreeOf(s, '.')
  {
    forall i | 0 <= i < |s| ensures s[i] != '.' {
      assert IsDigit(s[i]);
    }
  }

  /** Parsing a rendered version, with or without one range character in
      front, gives back its three numbers. */
  lemma ParseRendered(prefix: string, a: nat, b: nat, c: nat)
    requires prefix == "" || (|prefix| == 1 && IsRangePrefix(prefix[0]))
    ensures var v := ParseVersion(prefix + Render(a, b, c));
      v == Version(a, b, c, Render(a, b, c))
  {
    var parts := [NatToString(a), NatToString(b), NatToString(c)];
    DigitsFreeOfDot(parts[0]);
    DigitsFreeOfDot(parts[1]);
    DigitsFreeOfDot(parts[2]);
    JoinThenSplit(parts, '.');
    NatToStringRoundTrip(a);
    NatToStringRoundTrip(b);
    NatToStringRoundTrip(c);
    var s := prefix + Render(a, b, c);
    if prefix == "" {
      assert s == Render(a, b, c);
      if |Render(a, b, c)| > 0 {
        assert Render(a, b, c)[0] == NatToString(a)[0];
        assert IsDigit(NatToString(a)[0]);
      }
    } else {
      assert s[1..] == Render(a, b, c);
    }
  }

  /** A bare major number parses with minor and patch 0. */
  lemma ParseMajorOnly(a: nat)
    ensures ParseVersion(NatToString(a)) == Version(a, 0, 0, NatToString(a))
  {
    DigitsFreeOfDot(NatToString(a));
    SplitFree(NatToString(a), '.');
    NatToStringRoundTrip(a);
    assert IsDigit(NatToString(a)[0]);
  }

  /** Only one range character is stripped: with two the major piece is not
      a number and reads as 0, while minor and patch are still read. */
  lemma ParseDoublePrefix(p: char, q: char, a: nat, b: nat, c: nat)
    requires IsRangePrefix(p) && IsRangePrefix(q)
    ensures var v := ParseVersion([p, q] + Render(a, b, c));
      v.major == 0 && v.minor == b && v.patch == c && v.raw == [q] + Render(a, b, c)
  {
    var parts := [NatToString(a), NatToString(b), NatToString(c)];
    DigitsFreeOfDot(parts[0]);
    DigitsFreeOfDot(parts[1]);
    DigitsFreeOfDot(parts[2]);
    var qparts := [[q] + parts[0], parts[1], parts[2]];
    assert FreeOf(qparts[0], '.');
    JoinThenSplit(qparts, '.');
    assert Join(qparts, ".") == [q] + Render(a, b, c);
    assert ([p, q] + Render(a, b, c))[1..] == [q] + Render(a, b, c);
    assert !IsDigit(qparts[0][0]);
    NatToStringRoundTrip(b);
    NatToStringRoundTrip(c);
  }

  datatype VersionDiff = VersionDiff(majorDiff: int, minorDiff: int, patchDiff: int, isNewer: bool)

  /** `compareVersions(current, latest)`: how far latest is ahead of current,
      component by component, and whether it is strictly newer. */
  function CompareVersions(current: string, latest: string): (d: VersionDiff)
    ensures d.isNewer <==>
      d.majorDiff > 0 || (d.majorDiff == 0 && d.minorDiff > 0) ||
      (d.majorDiff == 0 && d.minorDiff == 0 && d.patchDiff > 0)
  {
    var curr := ParseVersion(current);
    var lat := ParseVersion(latest);
    VersionDiff(lat.major - curr.major, lat.minor - curr.minor, lat.patch - curr.patch,
      lat.major > curr.major ||
      (lat.major == curr.major && lat.minor > curr.minor) ||
      (lat.major == curr.major && lat.minor == curr.minor && lat.patch > curr.patch))
  }

  /** "Newer" is a strict order: comparing the other way negates every
      difference, a version is never newer than itself, and it is
      transitive. */
  lemma CompareVersionsOrder(a: string, b: string, c: string)
    ensures CompareVersions(b, a).majorDiff == -CompareVersions(a, b).majorDiff
    ensures CompareVersions(b, a).minorDiff == -CompareVersions(a, b).minorDiff
    ensures CompareVersions(b, a).patchDiff == -CompareVersions(a, b).patchDiff
    ensures !(CompareVersions(a, b).isNewer && CompareVersions(b, a).isNewer)
    ensures !CompareVersions(a, a).isNewer
    ensures CompareVersions(a, b).isNewer && CompareVersions(b, c).isNewer ==> CompareVersions(a, c).isNewer
  {
  }

  // ---------------------------------------------------------------------------
  // The rule cascade.

  datatype UpdateRules = UpdateRules(
    maxMajorVersionJump: nat,
    maxMinorVersionJump: nat,
    allowedMajorUpdates: seq<string>,
    blockedUpdates: seq<string>,
    criticalDependencies: seq<string>,
    testingDependencies: seq<string>)

  /** `loadUpdateRules()`. */
  const DefaultRules := UpdateRules(
    0, 2, [],
    ["react-scripts", "typescript@5"],
    ["react", "react-dom", "@auth0/auth0-react", "axios", "typescript"],
    ["@testing-library/react", "@testing-library/jest-dom", "@testing-library/user-event", "jest"])

  datatype Vulnerability = Vulnerability(severity: string, title: string)

  /** The registry's answer for one package. */
  datatype SeaworthyData = SeaworthyData(
    latestVersion: Option<string>,
    vulnerabilities: Option<seq<Vulnerability>>,
    license: Option<string>,
    deprecated: Option<bool>)

  /** `risk`: the strings 'low', 'medium', 'high', 'security', and the NaN
      that `Math.max` of two strings yields. */
  datatype Risk = Low | Medium | High | Security | NaN

  datatype Recommendation = Update | Review | Block

  datatype Assessment = Assessment(
    risk: Risk, recommendation: Recommendation, reasons: seq<string>, versionDiff: VersionDiff, safe: bool)

  /** One block-list entry against the package: `pkg@prefix` matches the
      package whose latest version starts with prefix, any other entry
      matches the package of exactly that name. */
  predicate BlockMatches(entry: string, name: string, latest: string)
  {
    if Contains(entry, "@") then
      var pieces := Split(entry, '@');
      pieces[0] == name && |pieces| >= 2 && StartsWith(latest, pieces[1])
    else entry == name
  }

  /** `blockedUpdates.find(...)`: the first matching entry. */
  function FindBlocked(entries: seq<string>, name: string, latest: string): (r: Option<string>)
    ensures r.Some? ==> r.value in entries && BlockMatches(r.value, name, latest)
    ensures r.None? <==> forall e :: e in entries ==> !BlockMatches(e, name, latest)
  {
    if |entries| == 0 then None
    else if BlockMatches(entries[0], name, latest) then Some(entries[0])
    else FindBlocked(entries[1..], name, latest)
  }

  /** `if (blocked)`: a found entry counts unless it is the empty string. */
  predicate IsBlocked(rules: UpdateRules, name: string, latest: string)
  {
    var b := FindBlocked(rules.blockedUpdates, name, latest);
    b.Some? && b.value != ""
  }

  predicate HighSeverity(data: Option<SeaworthyData>)
  {
    data.Some? && data.value.vulnerabilities.Some? && |data.value.vulnerabilities.value| > 0 &&
    exists v :: v in data.value.vulnerabilities.value && (v.severity == "high" || v.severity == "critical")
  }

  /** The facts the cascade looks at, each decided once. */
  datatype Concerns = Concerns(
    majorJump: bool,
    minorJump: bool,
    blocked: bool,
    criticalMajor: bool,
    security: bool,
    diff: VersionDiff)

  function ConcernsOf(name: string, current: string, latest: string, data: Option<SeaworthyData>, rules: UpdateRules): Concerns
  {
    var d := CompareVersions(current, latest);
    Concerns(
      d.majorDiff > rules.maxMajorVersionJump && name !in rules.allowedMajorUpdates,
      d.minorDiff > rules.maxMinorVersionJump,
      IsBlocked(rules, name, latest),
      name in rules.criticalDependencies && d.majorDiff > 0,
      HighSeverity(data),
      d)
  }

  function IntToString(n: int): string
  {
    if n < 0 then "-" + NatToString(-n) else NatToString(n)
  }

  function MajorReason(d: VersionDiff): string
  {
    "Major version change (" + IntToString(d.majorDiff) + " versions)"
  }

  function MinorReason(d: VersionDiff): string
  {
    "Large minor version jump (" + IntToString(d.minorDiff) + " versions)"
  }

  const BlockedReason := "Package is in blocked updates list"
  const CriticalReason := "Critical dependency with major version change"
  const SecurityReason := "Security vulnerabilities found"

  /** The reasons, one per concern that applies, in the order the rules are
      checked. */
  function ReasonsFor(c: Concerns): (r: seq<string>)
    ensures |r| == 0 <==> !(c.majorJump || c.minorJump || c.blocked || c.criticalMajor || c.security)
  {
    (if c.majorJump then [MajorReason(c.diff)] else []) +
    (if c.minorJump then [MinorReason(c.diff)] else []) +
    (if c.blocked then [BlockedReason] else []) +
    (if c.criticalMajor then [CriticalReason] else []) +
    (if c.security then [SecurityReason] else [])
  }

  /** The recommendation the last applicable rule leaves. */
  function RecommendationFor(c: Concerns): Recommendation
  {
    if c.security then Update
    else if c.criticalMajor then Review
    else if c.blocked then Block
    else if c.majorJump then Review
    else Update
  }

  /** The risk the source leaves: a large minor jump turns it into NaN, and
      only a later rule that applies gives it a string value again. */
  function RiskAsWritten(c: Concerns): Risk
  {
    if c.security then Security
    else if c.criticalMajor || c.blocked then High
    else if c.minorJump then NaN
    else if c.majorJump then High
    else Low
  }

  /** The risk the minor-jump rule evidently means: at least 'medium', a
      'high' kept as it is. */
  function RiskIntended(c: Concerns): Risk
  {
    if c.security then Security
    else if c.criticalMajor || c.blocked then High
    else if c.majorJump then High
    else if c.minorJump then Medium
    else Low
  }

  /** `assessUpdateSafety` exactly as written, rule by rule. */
  method AssessUpdateSafetyAsWritten(name: string, current: string, latest: string,
                                     data: Option<SeaworthyData>, rules: UpdateRules)
    returns (a: Assessment)
    ensures var c := ConcernsOf(name, current, latest, data, rules);
      a == Assessment(RiskAsWritten(c), RecommendationFor(c), ReasonsFor(c), c.diff,
                      RiskAsWritten(c) == Low && RecommendationFor(c) == Update)
  {
    var d := CompareVersions(current, latest);
    ghost var c := ConcernsOf(name, current, latest, data, rules);
    ghost var p1 := if c.majorJump then [MajorReason(d)] else [];
    ghost var p2 := if c.minorJump then [MinorReason(d)] else [];
    ghost var p3 := if c.blocked then [BlockedReason] else [];
    ghost var p4 := if c.criticalMajor then [CriticalReason] else [];
    assert ReasonsFor(c) == p1 + p2 + p3 + p4 + (if c.security then [SecurityReason] else []);
    var risk := Low;
    var recommendation := Update;
    var reasons: seq<string> := [];
    if d.majorDiff > rules.maxMajorVersionJump {
      if name !in rules.allowedMajorUpdates {
        risk := High;
        recommendation := Review;
        reasons := reasons + [MajorReason(d)];
      }
    }
    assert reasons == p1;
    if d.minorDiff > rules.maxMinorVersionJump {
      // Math.max of two strings is NaN, whatever the strings are.
      risk := NaN;
      reasons := reasons + [MinorReason(d)];
    }
    assert reasons == p1 + p2;
    if IsBlocked(rules, name, latest) {
      risk := High;
      recommendation := Block;
      reasons := reasons + [BlockedReason];
    }
    assert reasons == p1 + p2 + p3;
    if name in rules.criticalDependencies {
      if d.majorDiff > 0 {
        risk := High;
        recommendation := Review;
        reasons := reasons + [CriticalReason];
      }
    }
    assert reasons == p1 + p2 + p3 + p4;
    if HighSeverity(data) {
      recommendation := Update;
      reasons := reasons + [SecurityReason];
      risk := Security;
    }
    a := Assessment(risk, recommendation, reasons, d, risk == Low && recommendation == Update);
  }

  /** The assessment with the minor-jump rule raising the risk to 'medium'. */
  function AssessmentFor(name: string, current: string, latest: string,
                         data: Option<SeaworthyData>, rules: UpdateRules): Assessment
  {
    var c := ConcernsOf(name, current, latest, data, rules);
    Assessment(RiskIntended(c), RecommendationFor(c), ReasonsFor(c), c.diff,
               RiskIntended(c) == Low && RecommendationFor(c) == Update)
  }

  /** `assessUpdateSafety` rule by rule, with the minor-jump rule corrected. */
  method AssessUpdateSafety(name: string, current: string, latest: string,
                            data: Option<SeaworthyData>, rules: UpdateRules)
    returns (a: Assessment)
    ensures a == AssessmentFor(name, current, latest, data, rules)
  {
    var d := CompareVersions(current, latest);
    ghost var c := ConcernsOf(name, current, latest, data, rules);
    ghost var p1 := if c.majorJump then [MajorReason(d)] else [];
    ghost var p2 := if c.minorJump then [MinorReason(d)] else [];
    ghost var p3 := if c.blocked then [BlockedReason] else [];
    ghost var p4 := if c.criticalMajor then [CriticalReason] else [];
    assert ReasonsFor(c) == p1 + p2 + p3 + p4 + (if c.security then [SecurityReason] else []);
    var risk := Low;
    var recommendation := Update;
    var reasons: seq<string> := [];
    if d.majorDiff > rules.maxMajorVersionJump {
      if name !in rules.allowedMajorUpdates {
        risk := High;
        recommendation := Review;
        reasons := reasons + [MajorReason(d)];
      }
    }
    assert reasons == p1;
    if d.minorDiff > rules.maxMinorVersionJump {
      risk := if risk == Low then Medium else risk;
      reasons := reasons + [MinorReason(d)];
    }
    assert reasons == p1 + p2;
    if IsBlocked(rules, name, latest) {
      risk := High;
      recommendation := Block;
      reasons := reasons + [BlockedReason];
    }
    assert reasons == p1 + p2 + p3;
    if name in rules.criticalDependencies {
      if d.majorDiff > 0 {
        risk := High;
        recommendation := Review;
        reasons := reasons + [CriticalReason];
      }
    }
    assert reasons == p1 + p2 + p3 + p4;
    if HighSeverity(data) {
      recommendation := Update;
      reasons := reasons + [SecurityReason];
      risk := Security;
    }
    a := Assessment(risk, recommendation, reasons, d, risk == Low && recommendation == Update);
  }

  /** Every rule that moves risk or recommendation away from low/update also
      adds a reason, so an update is safe exactly when no reason was given,
      and the two versions of the risk agree on that. */
  lemma SafeIffNoReasons(c: Concerns)
    ensures (RiskIntended(c) == Low && RecommendationFor(c) == Update) <==> ReasonsFor(c) == []
    ensures (RiskAsWritten(c) == Low && RecommendationFor(c) == Update) <==> ReasonsFor(c) == []
  {
  }

  /** A high or critical vulnerability decides last: 'security'/'update'
      whatever the block list and the version jump said. Otherwise a block
      is final unless a critical dependency jumps a major version. */
  lemma CascadePrecedence(c: Concerns)
    ensures c.security ==> RiskIntended(c) == Security && RecommendationFor(c) == Update
    ensures !c.security && c.criticalMajor ==> RecommendationFor(c) == Review && RiskIntended(c) == High
    ensures !c.security && !c.criticalMajor && c.blocked ==> RecommendationFor(c) == Block && RiskIntended(c) == High
    ensures RecommendationFor(c) == Block <==> c.blocked && !c.criticalMajor && !c.security
  {
  }

  /** The corrected risk is always one of the four strings, never below what
      the step before the minor rule had, and 'medium' exactly for a minor
      jump with no other concern. */
  lemma RiskIntendedSound(c: Concerns)
    ensures RiskIntended(c) != NaN
    ensures RiskIntended(c) == Medium <==> c.minorJump && !c.majorJump && !c.blocked && !c.criticalMajor && !c.security
    ensures c.majorJump && !c.security ==> RiskIntended(c) == High
    ensures RiskIntended(c) != RiskAsWritten(c) ==> RiskAsWritten(c) == NaN
  {
  }

  /** The as-written risk: a large minor jump yields NaN, even over an
      earlier 'high' from a major jump; e.g. a non-critical package going
      from 1.0.0 to 2.5.0 is marked 'review' with risk NaN. */
  lemma MinorJumpYieldsNaN(name: string)
    requires name !in DefaultRules.criticalDependencies
    requires FindBlocked(DefaultRules.blockedUpdates, name, Render(2, 5, 0)).None?
    ensures var c := ConcernsOf(name, Render(1, 0, 0), Render(2, 5, 0), None, DefaultRules);
      c.majorJump && c.minorJump && RiskAsWritten(c) == NaN &&
      RecommendationFor(c) == Review && RiskIntended(c) == High
  {
    ParseRendered("", 1, 0, 0);
    ParseRendered("", 2, 5, 0);
  }

  // ---------------------------------------------------------------------------
  // One package, all packages, the report.

  datatype CheckResult =
    | CheckError(package: string, currentVersion: string, message: string)
    | Checked(package: string, currentVersion: string, latestVersion: string,
              assessment: Assessment, vulnerabilities: seq<Vulnerability>,
              license: Option<string>, deprecated: Option<bool>)

  /** `checkDependency` given the registry's answer. */
  function CheckDependency(name: string, current: string, data: Option<SeaworthyData>): (r: CheckResult)
    ensures r.package == name && r.currentVersion == current
    ensures r.CheckError? <==> data.None?
    ensures r.Checked? ==>
      r.latestVersion == (if data.value.latestVersion.Some? && data.value.latestVersion.value != ""
                          then data.value.latestVersion.value else current) &&
      r.assessment == AssessmentFor(name, current, r.latestVersion, data, DefaultRules)
  {
    match data
    case None => CheckError(name, current, "Unable to fetch package data")
    case Some(sd) =>
      var latest := if sd.latestVersion.Some? && sd.latestVersion.value != "" then sd.latestVersion.value else current;
      Checked(name, current, latest, AssessmentFor(name, current, latest, data, DefaultRules),
              sd.vulnerabilities.GetOr([]), sd.license, sd.deprecated)
  }

  /** A package whose registry entry has no newer version than its own is
      rated safe when it is neither blocked nor vulnerable. */
  lemma UnchangedIsSafe(name: string, current: string, sd: SeaworthyData)
    requires sd.latestVersion.None?
    requires !IsBlocked(DefaultRules, name, current) && !HighSeverity(Some(sd))
    ensures CheckDependency(name, current, Some(sd)).assessment.safe
  {
  }

  predicate KeysDistinct(entries: seq<(string, string)>)
  {
    forall i, j :: 0 <= i < j < |entries| ==> entries[i].0 != entries[j].0
  }

  function Lookup(entries: seq<(string, string)>, key: string): Option<string>
  {
    if |entries| == 0 then None
    else if entries[0].0 == key then Some(entries[0].1)
    else Lookup(entries[1..], key)
  }

  /** `{ ...dependencies, ...devDependencies }`: the keys of the first object
      in order, then the new keys of the second; a key in both takes the
      second object's version. */
  function MergeDeps(deps: seq<(string, string)>, dev: seq<(string, string)>): (r: seq<(string, string)>)
    decreases |deps| + |dev|
  {
    if |deps| > 0 then
      var k := deps[0].0;
      [(k, Lookup(dev, k).GetOr(deps[0].1))] + MergeDeps(deps[1..], Filter(dev, (e: (string, string)) => e.0 != k))
    else dev
  }

  lemma {:induction false} LookupFilter(dev: seq<(string, string)>, k: string, key: string)
    requires key != k
    ensures Lookup(Filter(dev, (e: (string, string)) => e.0 != k), key) == Lookup(dev, key)
    decreases |dev|
  {
    if |dev| > 0 {
      var f := (e: (string, string)) => e.0 != k;
      LookupFilter(dev[1..], k, key);
      if f(dev[0]) {
        assert Filter(dev, f) == [dev[0]] + Filter(dev[1..], f);
      } else {
        assert Filter(dev, f) == Filter(dev[1..], f);
      }
    }
  }

  lemma {:induction false} LookupIn(entries: seq<(string, string)>, key: string)
    ensures Lookup(entries, key).Some? <==> exists i :: 0 <= i < |entries| && entries[i].0 == key
    decreases |entries|
  {
    if |entries| > 0 {
      LookupIn(entries[1..], key);
      if Lookup(entries[1..], key).Some? {
        var i :| 0 <= i < |entries[1..]| && entries[1..][i].0 == key;
        assert entries[i + 1].0 == key;
      }
      if exists i :: 0 <= i < |entries| && entries[i].0 == key {
        var i :| 0 <= i < |entries| && entries[i].0 == key;
        if i > 0 { assert entries[1..][i - 1].0 == key; }
      }
    }
  }

  /** In the merged object a key's version is the second object's when it
      has one, else the first object's. */
  lemma {:induction false} MergeDepsLookup(deps: seq<(string, string)>, dev: seq<(string, string)>, key: string)
    ensures Lookup(MergeDeps(deps, dev), key) ==
      if Lookup(dev, key).Some? then Lookup(dev, key) else Lookup(deps, key)
    decreases |deps| + |dev|
  {
    if |deps| > 0 {
      var k := deps[0].0;
      var rest := Filter(dev, (e: (string, string)) => e.0 != k);
      FilterMultiset(dev, (e: (string, string)) => e.0 != k);
      MergeDepsLookup(deps[1..], rest, key);
      if key != k {
        LookupFilter(dev, k, key);
      }
    }
  }

  /** `checkAllDependencies`: one check per package, awaited five at a time
      and appended batch by batch, so the results follow the packages. */
  method CheckAllDependencies(packages: seq<(string, string)>, answers: seq<Option<SeaworthyData>>)
    returns (results: seq<CheckResult>)
    requires |answers| == |packages|
    ensures |results| == |packages|
    ensures forall i :: 0 <= i < |packages| ==>
      results[i] == CheckDependency(packages[i].0, packages[i].1, answers[i])
  {
    var checks: seq<CheckResult> := [];
    var k := 0;
    while k < |packages|
      invariant 0 <= k <= |packages| && |checks| == k
      invariant forall i :: 0 <= i < k ==> checks[i] == CheckDependency(packages[i].0, packages[i].1, answers[i])
    {
      checks := checks + [CheckDependency(packages[k].0, packages[k].1, answers[k])];
      k := k + 1;
    }
    var batchSize := 5;
    results := [];
    var i := 0;
    while i < |checks|
      invariant 0 <= i && (i < |checks| ==> |results| == i) && (i >= |checks| ==> |results| == |checks|)
      invariant results == checks[..|results|]
      decreases |checks| - i
    {
      var end := if i + batchSize < |checks| then i + batchSize else |checks|;
      var batch := checks[i..end];
      results := results + batch;
      assert results == checks[..end];
      i := i + batchSize;
    }
    assert results == checks;
  }

  datatype Summary = Summary(total: nat, vulnerabilities: nat, safeUpdates: nat, riskyUpdates: nat, blockedUpdates: nat)

  datatype Report = Report(
    vulnerabilities: seq<CheckResult>,
    safeUpdates: seq<CheckResult>,
    riskyUpdates: seq<CheckResult>,
    blockedUpdates: seq<CheckResult>,
    summary: Summary)

  predicate HasVulnerabilities(r: CheckResult) { r.Checked? && |r.vulnerabilities| > 0 }
  predicate IsSafe(r: CheckResult) { r.Checked? && r.assessment.safe }
  predicate IsRisky(r: CheckResult) { r.Checked? && !r.assessment.safe && r.assessment.recommendation == Review }
  predicate IsBlockedResult(r: CheckResult) { r.Checked? && r.assessment.recommendation == Block }

  /** A result as `checkDependency` builds it: `safe` means low risk and
      recommendation 'update'. */
  predicate Consistent(r: CheckResult)
  {
    r.Checked? ==> (r.assessment.safe <==> r.assessment.risk == Low && r.assessment.recommendation == Update)
  }

  lemma CheckDependencyConsistent(name: string, current: string, data: Option<SeaworthyData>)
    ensures Consistent(CheckDependency(name, current, data))
  {
  }

  /** `generateReport(results)`, without the console output. */
  function GenerateReport(results: seq<CheckResult>): (rep: Report)
    ensures rep.summary.total == |results|
    ensures rep.summary.vulnerabilities == |rep.vulnerabilities| && rep.summary.safeUpdates == |rep.safeUpdates|
    ensures rep.summary.riskyUpdates == |rep.riskyUpdates| && rep.summary.blockedUpdates == |rep.blockedUpdates|
  {
    var v := Filter(results, HasVulnerabilities);
    var s := Filter(results, IsSafe);
    var r := Filter(results, IsRisky);
    var b := Filter(results, IsBlockedResult);
    Report(v, s, r, b, Summary(|results|, |v|, |s|, |r|, |b|))
  }

  /** Safe, review and blocked updates are three disjoint selections of the
      results: no package is counted twice, so their counts add up to at
      most the total; and each list holds exactly the results of its kind. */
  lemma ReportPartition(results: seq<CheckResult>)
    requires forall r :: r in results ==> Consistent(r)
    ensures var rep := GenerateReport(results);
      rep.summary.safeUpdates + rep.summary.riskyUpdates + rep.summary.blockedUpdates <= rep.summary.total &&
      (forall x :: x in rep.safeUpdates <==> x in results && IsSafe(x)) &&
      (forall x :: x in rep.riskyUpdates <==> x in results && IsRisky(x)) &&
      (forall x :: x in rep.blockedUpdates <==> x in results && IsBlockedResult(x))
  {
    var s, r, b := (x: CheckResult) => Consistent(x) && IsSafe(x), IsRisky, IsBlockedResult;
    DisjointFilters(results, s, r, b);
    FilterExt(results, s, IsSafe);
    FilterMembers(results, IsSafe);
    FilterMembers(results, IsRisky);
    FilterMembers(results, IsBlockedResult);
  }
}
