/**
 Choosing the next release: the version order of `scripts/version.py` (PEP 440,
 "Summary of permitted suffixes and relative ordering") and `next_version`.
 */
module ReleaseVersions {
  import opened Wrappers
  import opened TextUnits

  datatype Stage = Alpha | Beta | Rc

  datatype Version = Version(major: nat, minor: nat, patch: nat, stage: Option<Stage>, number: nat)

  /** A stable version has no prerelease number. */
  predicate Canonical(v: Version) { v.stage.None? ==> v.number == 0 }

  function StageRank(stage: Option<Stage>): nat
  {
    match stage
    case Some(Alpha) => 0
    case Some(Beta) => 1
    case Some(Rc) => 2
    case None => 3
  }

  predicate LineLess(a: Version, b: Version)
  {
    || a.major < b.major
    || (a.major == b.major && a.minor < b.minor)
    || (a.major == b.major && a.minor == b.minor && a.patch < b.patch)
  }

  predicate SameLine(a: Version, b: Version)
  {
    a.major == b.major && a.minor == b.minor && a.patch == b.patch
  }

  /** `_release_sort_key(a) < _release_sort_key(b)`. */
  predicate Less(a: Version, b: Version)
  {
    || LineLess(a, b)
    || (SameLine(a, b) && StageRank(a.stage) < StageRank(b.stage))
    || (SameLine(a, b) && a.stage == b.stage && a.number < b.number)
  }

  /** The order is total on the versions, so a greatest one is unique. */
  lemma LessIsTotalOrder(a: Version, b: Version, c: Version)
    ensures !Less(a, a)
    ensures Less(a, b) && Less(b, c) ==> Less(a, c)
    ensures a == b || Less(a, b) || Less(b, a)
  {
    assert StageRank(a.stage) == StageRank(b.stage) ==> a.stage == b.stage;
  }

  // ---- Spelling --------------------------------------------------------------------

  function StageText(stage: Stage): string
  {
    match stage
    case Alpha => "a"
    case Beta => "b"
    case Rc => "rc"
  }

  function Format(v: Version): string
  {
    Decimal(v.major) + "." + (Decimal(v.minor) + "." + (Decimal(v.patch)
    + if v.stage.None? then "" else StageText(v.stage.value) + Decimal(v.number)))
  }

  function DigitRun(s: string): (n: nat)
    ensures n <= |s| && forall i :: 0 <= i < n ==> IsDigit(s[i])
  {
    if s == "" || !IsDigit(s[0]) then 0 else 1 + DigitRun(s[1..])
  }

  /** A leading numeral and what follows it. */
  function TakeNumber(s: string): Option<(nat, string)>
  {
    var n := DigitRun(s);
    if n == 0 then None else Some((DecimalValue(s[..n]), s[n..]))
  }

  function TakeFinalNumber(s: string): Option<nat>
  {
    match TakeNumber(s)
    case Some((n, "")) => Some(n)
    case _ => None
  }

  function ParseStage(s: string): Option<(Option<Stage>, nat)>
  {
    if s == "" then Some((None, 0))
    else
      var stage := if "rc" <= s then Some(Rc) else if "a" <= s then Some(Alpha)
                   else if "b" <= s then Some(Beta) else None;
      if stage.None? then None
      else
        match TakeFinalNumber(s[|StageText(stage.value)|..])
        case Some(n) => Some((stage, n))
        case None => None
  }

  /** `X.Y.Z`, `X.Y.ZaN`, `X.Y.ZbN` or `X.Y.ZrcN`; leading zeros are accepted. */
  function ParseVersion(s: string): (r: Option<Version>)
    ensures r.Some? ==> Canonical(r.value)
  {
    match TakeNumber(s)
    case None => None
    case Some((major, s1)) =>
      if !("." <= s1) then None
      else
        match TakeNumber(s1[1..])
        case None => None
        case Some((minor, s2)) =>
          if !("." <= s2) then None
          else
            match TakeNumber(s2[1..])
            case None => None
            case Some((patch, s3)) =>
              match ParseStage(s3)
              case None => None
              case Some((stage, number)) =>
                Some(Version(major, minor, patch, stage, if stage.None? then 0 else number))
  }

  lemma {:induction false} DigitRunStops(digits: string, rest: string)
    requires forall i :: 0 <= i < |digits| ==> IsDigit(digits[i])
    requires rest == "" || !IsDigit(rest[0])
    ensures DigitRun(digits + rest) == |digits|
  {
    if digits == "" {
      assert digits + rest == rest;
    } else {
      assert (digits + rest)[1..] == digits[1..] + rest;
      DigitRunStops(digits[1..], rest);
    }
  }

  /** Digits that stand for this number; leading zeros are allowed. */
  predicate IsNumeral(s: string, n: nat)
  {
    s != "" && (forall i :: 0 <= i < |s| ==> IsDigit(s[i])) && DecimalValue(s) == n
  }

  lemma DecimalIsNumeral(n: nat)
    ensures IsNumeral(Decimal(n), n)
  {
    DecimalRoundTrip(n);
  }

  lemma TakeNumberOf(numeral: string, n: nat, rest: string)
    requires IsNumeral(numeral, n) && (rest == "" || !IsDigit(rest[0]))
    ensures TakeNumber(numeral + rest) == Some((n, rest))
  {
    DigitRunStops(numeral, rest);
    assert (numeral + rest)[..|numeral|] == numeral;
    assert (numeral + rest)[|numeral|..] == rest;
  }

  lemma TakenNumberIs(s: string)
    requires TakeNumber(s).Some?
    ensures var (n, rest) := TakeNumber(s).value;
            exists numeral :: IsNumeral(numeral, n) && s == numeral + rest
    ensures var (n, rest) := TakeNumber(s).value; rest == "" || !IsDigit(rest[0])
  {
    var k := DigitRun(s);
    assert IsNumeral(s[..k], DecimalValue(s[..k]));
    assert s == s[..k] + s[k..];
    DigitRunEnds(s);
  }

  lemma {:induction false} DigitRunEnds(s: string)
    ensures DigitRun(s) < |s| ==> !IsDigit(s[DigitRun(s)])
  {
    if s != "" && IsDigit(s[0]) {
      DigitRunEnds(s[1..]);
    }
  }

  /** What stands behind the three numbers. */
  ghost predicate IsSuffix(s: string, stage: Option<Stage>, number: nat)
  {
    match stage
    case None => s == "" && number == 0
    case Some(stage) => exists numeral :: IsNumeral(numeral, number) && s == StageText(stage) + numeral
  }

  lemma SuffixIsNoDigit(s: string, stage: Option<Stage>, number: nat)
    requires IsSuffix(s, stage, number)
    ensures s == "" || !IsDigit(s[0])
  {
    if stage.Some? {
      assert s[0] == StageText(stage.value)[0];
    }
  }

  lemma SuffixIsRead(s: string, stage: Option<Stage>, number: nat)
    requires IsSuffix(s, stage, number)
    ensures ParseStage(s) == Some((stage, number))
  {
    hide TakeNumber, IsNumeral;
    if stage.Some? {
      var numeral :| IsNumeral(numeral, number) && s == StageText(stage.value) + numeral;
      assert s[|StageText(stage.value)|..] == numeral;
      TakeNumberOf(numeral, number, "");
      assert numeral + "" == numeral;
      assert s[0] == StageText(stage.value)[0];
    }
  }

  lemma ReadIsSuffix(s: string, stage: Option<Stage>, number: nat)
    requires ParseStage(s) == Some((stage, number))
    ensures IsSuffix(s, stage, number)
  {
    hide TakeNumber, IsNumeral;
    if stage.Some? {
      var rest := s[|StageText(stage.value)|..];
      assert s == StageText(stage.value) + rest;
      TakenNumberIs(rest);
      var numeral :| IsNumeral(numeral, number) && rest == numeral + "";
      assert rest == numeral;
    }
  }

  /** The text is three numbers with dots between them, and perhaps a stage with its number. */
  ghost predicate Spells(s: string, v: Version)
  {
    exists major, minor, patch, suffix :: IsSpelling(s, v, major, minor, patch, suffix)
  }

  ghost predicate IsSpelling(s: string, v: Version, major: string, minor: string, patch: string, suffix: string)
  {
    && IsNumeral(major, v.major) && IsNumeral(minor, v.minor) && IsNumeral(patch, v.patch)
    && IsSuffix(suffix, v.stage, v.number)
    && s == major + ("." + (minor + ("." + (patch + suffix))))
  }

  /** A text is read as a version exactly when it spells it. */
  lemma ParseVersionIff(s: string, v: Version)
    ensures ParseVersion(s) == Some(v) <==> Spells(s, v)
  {
    if ParseVersion(s) == Some(v) {
      ReadIsSpelled(s, v);
    } else if Spells(s, v) {
      SpelledIsRead(s, v);
    }
  }

  lemma SpelledIsRead(s: string, v: Version)
    requires Spells(s, v)
    ensures ParseVersion(s) == Some(v)
  {
    hide TakeNumber, ParseStage, IsNumeral, IsSuffix;
    var major, minor, patch, suffix :| IsSpelling(s, v, major, minor, patch, suffix);
    SuffixIsNoDigit(suffix, v.stage, v.number);
    SuffixIsRead(suffix, v.stage, v.number);
    TakeNumberOf(patch, v.patch, suffix);
    var s2 := "." + (patch + suffix);
    assert s2[1..] == patch + suffix;
    TakeNumberOf(minor, v.minor, s2);
    var s1 := "." + (minor + s2);
    assert s1[1..] == minor + s2;
    TakeNumberOf(major, v.major, s1);
    SuffixIsCanonical(suffix, v.stage, v.number);
  }

  lemma SuffixIsCanonical(s: string, stage: Option<Stage>, number: nat)
    requires IsSuffix(s, stage, number)
    ensures stage.None? ==> number == 0
  {
  }

  lemma ReadIsSpelled(s: string, v: Version)
    requires ParseVersion(s) == Some(v)
    ensures Spells(s, v)
  {
    hide TakeNumber, ParseStage, IsNumeral, IsSuffix;
    var (_, s1) := TakeNumber(s).value;
    var (_, s2) := TakeNumber(s1[1..]).value;
    var (_, s3) := TakeNumber(s2[1..]).value;
    TakenNumberIs(s);
    TakenNumberIs(s1[1..]);
    TakenNumberIs(s2[1..]);
    var major :| IsNumeral(major, v.major) && s == major + s1;
    var minor :| IsNumeral(minor, v.minor) && s1[1..] == minor + s2;
    var patch :| IsNumeral(patch, v.patch) && s2[1..] == patch + s3;
    assert s1 == "." + s1[1..] && s2 == "." + s2[1..];
    NoStageIsZero(s3);
    ReadIsSuffix(s3, v.stage, v.number);
    assert IsSpelling(s, v, major, minor, patch, s3);
  }

  lemma NoStageIsZero(s: string)
    ensures ParseStage(s).Some? && ParseStage(s).value.0.None? ==> ParseStage(s).value.1 == 0
  {
  }

  /** Reading back a written version gives the version. */
  lemma ParseFormat(v: Version)
    requires Canonical(v)
    ensures ParseVersion(Format(v)) == Some(v)
  {
    hide IsNumeral, Decimal, StageText;
    DecimalIsNumeral(v.major);
    DecimalIsNumeral(v.minor);
    DecimalIsNumeral(v.patch);
    DecimalIsNumeral(v.number);
    var suffix := if v.stage.None? then "" else StageText(v.stage.value) + Decimal(v.number);
    assert IsSuffix(suffix, v.stage, v.number);
    DotsAssociate(Decimal(v.major), Decimal(v.minor), Decimal(v.patch) + suffix);
    assert IsSpelling(Format(v), v, Decimal(v.major), Decimal(v.minor), Decimal(v.patch), suffix);
    SpelledIsRead(Format(v), v);
  }

  lemma DotsAssociate(a: string, b: string, c: string)
    ensures a + "." + (b + "." + c) == a + ("." + (b + ("." + c)))
  {
  }

  // ---- Release policy -----------------------------------------------------------------

  /** `Auto` is the default; `Pre` are the alpha, beta and rc kinds. */
  datatype Kind = Auto | Pre(target: Stage) | Stable | Patch | Minor | Major

  function IncrementPatch(v: Version): Version
  {
    Version(v.major, v.minor, v.patch + 1, None, 0)
  }

  function FirstCandidateAfter(highest: Version, stage: Option<Stage>): Version
  {
    if stage.Some? && highest.stage.Some? && StageRank(stage) > StageRank(highest.stage) then
      highest.(stage := stage, number := 1)
    else IncrementPatch(highest).(stage := stage, number := if stage.Some? then 1 else 0)
  }

  function CandidateForKind(current: Version, kind: Kind): Version
  {
    match kind
    case Auto => if current.stage.Some? then current.(number := current.number + 1) else IncrementPatch(current)
    case Stable => if current.stage.Some? then current.(stage := None, number := 0) else IncrementPatch(current)
    case Patch => IncrementPatch(current)
    case Minor => Version(current.major, current.minor + 1, 0, None, 0)
    case Major => Version(current.major + 1, 0, 0, None, 0)
    case Pre(target) =>
      if current.stage == Some(target) then current.(number := current.number + 1)
      else
        var base := if current.stage.None? || StageRank(Some(target)) <= StageRank(current.stage)
                    then IncrementPatch(current) else current;
        base.(stage := Some(target), number := 1)
  }

  function CandidateAfterHighest(candidate: Version, highest: Version, kind: Kind): Version
  {
    if kind.Minor? then Version(highest.major, highest.minor + 1, 0, None, 0)
    else if kind.Major? then Version(highest.major + 1, 0, 0, None, 0)
    else if candidate.stage.None? then
      if highest.stage.Some? then highest.(stage := None, number := 0) else IncrementPatch(highest)
    else if SameLine(candidate, highest) && candidate.stage == highest.stage then
      candidate.(number := highest.number + 1)
    else if candidate.stage == highest.stage then highest.(number := highest.number + 1)
    else FirstCandidateAfter(highest, candidate.stage)
  }

  predicate Taken(candidate: Version, highest: Option<Version>)
  {
    highest.Some? && !Less(highest.value, candidate)
  }

  /** The policy's answer, given the highest occupied version. */
  function Next(current: Version, kind: Kind, highest: Option<Version>): Version
  {
    var candidate := CandidateForKind(current, kind);
    if Taken(candidate, highest) then CandidateAfterHighest(candidate, highest.value, kind) else candidate
  }

  // ---- What the answer is -----------------------------------------------------------------

  /** The versions a request of this kind may be answered with. */
  predicate Eligible(v: Version, current: Version, kind: Kind)
  {
    && Canonical(v)
    && match kind
       case Auto => v.stage == current.stage && (v.stage.Some? ==> v.number >= 1)
       case Pre(target) => v.stage == Some(target) && v.number >= 1
       case Stable => v.stage.None?
       case Patch => v.stage.None? && LineLess(current, v)
       case Minor => v.stage.None? && v.patch == 0
                     && (current.major < v.major || (current.major == v.major && current.minor < v.minor))
       case Major => v.stage.None? && v.patch == 0 && v.minor == 0 && current.major < v.major
  }

  predicate Above(v: Version, current: Version, highest: Option<Version>)
  {
    Less(current, v) && (highest.Some? ==> Less(highest.value, v))
  }

  ghost predicate IsLeast(v: Version, current: Version, kind: Kind, highest: Option<Version>)
  {
    && Eligible(v, current, kind) && Above(v, current, highest)
    && forall w :: Eligible(w, current, kind) && Above(w, current, highest) ==> !Less(w, v)
  }

  /** A prerelease of an X.Y.0 line (X.0.0 for `major`) is the highest version and blocks the first candidate. */
  predicate SkipsItsLine(current: Version, kind: Kind, highest: Option<Version>)
  {
    && Taken(CandidateForKind(current, kind), highest)
    && highest.value.stage.Some? && highest.value.patch == 0
    && (kind.Minor? || (kind.Major? && highest.value.minor == 0))
  }

  /** One move behind the highest version always clears it, whatever the kind. */
  lemma OneMoveClears(current: Version, kind: Kind, highest: Option<Version>)
    requires Canonical(current) && (highest.Some? ==> Canonical(highest.value))
    ensures var next := Next(current, kind, highest);
            Canonical(next) && Less(current, next) && !Taken(next, highest)
  {
  }

  /** Nothing eligible lies strictly between the first candidate and what it must be above. */
  lemma CandidateIsLeast(current: Version, kind: Kind, w: Version)
    requires Canonical(current) && Eligible(w, current, kind) && Less(current, w)
    ensures !Less(w, CandidateForKind(current, kind))
  {
  }

  lemma AfterHighestIsLeast(current: Version, kind: Kind, highest: Version, w: Version)
    requires Canonical(current) && Canonical(highest)
    requires Taken(CandidateForKind(current, kind), Some(highest)) && !SkipsItsLine(current, kind, Some(highest))
    requires Eligible(w, current, kind) && Less(highest, w)
    ensures !Less(w, CandidateAfterHighest(CandidateForKind(current, kind), highest, kind))
  {
  }

  /**
   The answer is the least eligible version above the current and every
   occupied one, except that `minor` and `major` pass over the release of the
   very line whose prerelease is the highest version.
   */
  lemma NextIsLeastIff(current: Version, kind: Kind, highest: Option<Version>)
    requires Canonical(current) && (highest.Some? ==> Canonical(highest.value))
    ensures IsLeast(Next(current, kind, highest), current, kind, highest)
            <==> !SkipsItsLine(current, kind, highest)
  {
    var next := Next(current, kind, highest);
    OneMoveClears(current, kind, highest);
    NextIsEligible(current, kind, highest);
    if SkipsItsLine(current, kind, highest) {
      SkippedReleaseIsFree(current, kind, highest.value);
    } else {
      hide CandidateAfterHighest, CandidateForKind, Eligible, Less;
      forall w | Eligible(w, current, kind) && Above(w, current, highest) ensures !Less(w, next) {
        if Taken(CandidateForKind(current, kind), highest) {
          AfterHighestIsLeast(current, kind, highest.value, w);
        } else {
          CandidateIsLeast(current, kind, w);
        }
      }
    }
  }

  lemma NextIsEligible(current: Version, kind: Kind, highest: Option<Version>)
    requires Canonical(current) && (highest.Some? ==> Canonical(highest.value))
    ensures Eligible(Next(current, kind, highest), current, kind)
  {
  }

  lemma SkippedReleaseIsFree(current: Version, kind: Kind, highest: Version)
    requires Canonical(current) && Canonical(highest) && SkipsItsLine(current, kind, Some(highest))
    ensures var release := highest.(stage := None, number := 0);
            && Eligible(release, current, kind) && Above(release, current, Some(highest))
            && Less(release, Next(current, kind, Some(highest)))
  {
  }

  lemma MinorPassesOverItsOwnPrerelease()
    ensures Next(Version(3, 3, 0, None, 0), Minor, Some(Version(3, 5, 0, Some(Beta), 1)))
         == Version(3, 6, 0, None, 0)
    ensures Eligible(Version(3, 5, 0, None, 0), Version(3, 3, 0, None, 0), Minor)
    ensures Above(Version(3, 5, 0, None, 0), Version(3, 3, 0, None, 0), Some(Version(3, 5, 0, Some(Beta), 1)))
  {
  }

  // ---- The search ------------------------------------------------------------------------------

  predicate AllVersions(occupied: set<string>)
  {
    forall s :: s in occupied ==> ParseVersion(s).Some?
  }

  /** The release token a text is in full, as the token pattern spells it. */
  type TokenPattern = string -> Option<string>

  /** `_normalize_candidate_version`. */
  function Normalize(token: TokenPattern, text: string): (r: Option<string>)
  {
    var normalized := token(Strip(text));
    if normalized.Some? && ParseVersion(normalized.value).Some? then normalized else None
  }

  /** The readable ones of the published versions, normalized. */
  function Occupied(token: TokenPattern, published: set<string>): (occupied: set<string>)
    ensures AllVersions(occupied)
  {
    set text | text in published && Normalize(token, text).Some? :: Normalize(token, text).value
  }

  /** The version a published text names, if any. */
  function Named(token: TokenPattern, text: string): Option<Version>
  {
    match token(Strip(text))
    case None => None
    case Some(release) => ParseVersion(release)
  }

  /** The greatest version that a published text names. */
  ghost predicate IsTop(h: Option<Version>, token: TokenPattern, published: set<string>)
  {
    && (h.Some? ==> exists text :: text in published && Named(token, text) == h)
    && forall text :: text in published && Named(token, text).Some? ==>
         h.Some? && !Less(h.value, Named(token, text).value)
  }

  lemma TopIsHighest(h: Option<Version>, token: TokenPattern, published: set<string>)
    ensures IsTop(h, token, published) <==> IsHighest(h, Occupied(token, published))
  {
    hide ParseVersion, Less, Strip;
    var occupied := Occupied(token, published);
    forall text | text in published ensures Named(token, text).Some? <==> Normalize(token, text).Some? {
      OccupiedIsNamed(token, published, text);
    }
    forall text | text in published && Named(token, text).Some?
      ensures Normalize(token, text).value in occupied
      ensures ParseVersion(Normalize(token, text).value) == Named(token, text) {
      OccupiedIsNamed(token, published, text);
    }
    forall s | s in occupied ensures exists text :: text in published && Named(token, text) == ParseVersion(s) {
      var text :| text in published && Normalize(token, text) == Some(s);
      OccupiedIsNamed(token, published, text);
    }
    if h.Some? {
      NamedIsCanonical(token, published);
    }
  }

  lemma OccupiedIsNamed(token: TokenPattern, published: set<string>, text: string)
    requires text in published
    ensures Named(token, text).Some? <==> Normalize(token, text).Some?
    ensures Named(token, text).Some? ==>
              && Normalize(token, text) == token(Strip(text)) && Normalize(token, text).value in Occupied(token, published)
              && ParseVersion(Normalize(token, text).value) == Named(token, text)
  {
    hide Strip, ParseVersion;
  }

  lemma NamedIsCanonical(token: TokenPattern, published: set<string>)
    ensures forall text :: text in published && Named(token, text).Some? ==> Canonical(Named(token, text).value)
  {
    hide Strip;
  }

  ghost predicate IsHighest(h: Option<Version>, occupied: set<string>)
    requires AllVersions(occupied)
  {
    && (h.None? <==> occupied == {})
    && (h.Some? ==> Canonical(h.value) && exists s :: s in occupied && ParseVersion(s) == h)
    && (h.Some? ==> forall s :: s in occupied ==> !Less(h.value, ParseVersion(s).value))
  }

  lemma ParsedIsCanonical(s: string)
    requires ParseVersion(s).Some?
    ensures Canonical(ParseVersion(s).value)
  {
  }

  function Higher(highest: Option<Version>, v: Version): Option<Version>
  {
    if highest.Some? && !Less(highest.value, v) then highest else Some(v)
  }

  lemma HigherIsHighest(highest: Option<Version>, seen: set<string>, s: string)
    requires AllVersions(seen) && IsHighest(highest, seen) && ParseVersion(s).Some?
    ensures IsHighest(Higher(highest, ParseVersion(s).value), seen + {s})
  {
    hide ParseVersion, Less;
    var v := ParseVersion(s).value;
    var h := Higher(highest, v);
    ParsedIsCanonical(s);
    LessIsTotalOrder(v, v, v);
    assert s in seen + {s} && ParseVersion(s) == Some(v);
    if highest.Some? {
      forall t | t in seen ensures !Less(h.value, ParseVersion(t).value) {
        LessIsTotalOrder(highest.value, v, ParseVersion(t).value);
      }
    }
  }

  method FindHighest(occupied: set<string>) returns (highest: Option<Version>)
    requires AllVersions(occupied)
    ensures IsHighest(highest, occupied)
  {
    hide ParseVersion, Less, IsHighest;
    highest := None;
    var rest := occupied;
    ghost var seen: set<string> := {};
    NothingIsHighest();
    while rest != {}
      invariant rest + seen == occupied && AllVersions(seen)
      invariant IsHighest(highest, seen)
      decreases |rest|
    {
      var s :| s in rest;
      HigherIsHighest(highest, seen, s);
      var v := ParseVersion(s).value;
      if highest.None? || Less(highest.value, v) {
        highest := Some(v);
      }
      rest, seen := rest - {s}, seen + {s};
    }
    assert seen == occupied;
  }

  lemma NothingIsHighest()
    ensures IsHighest(None, {})
  {
  }

  /** A spelled-out candidate can only be occupied when it is not above the highest version. */
  lemma OccupiedIsTaken(candidate: Version, highest: Option<Version>, occupied: set<string>)
    requires AllVersions(occupied) && IsHighest(highest, occupied) && Canonical(candidate)
    ensures Format(candidate) in occupied ==> Taken(candidate, highest)
  {
    hide ParseVersion, Format;
    ParseFormat(candidate);
  }

  /** No published text names this version in these words. */
  ghost predicate IsUnpublished(answer: string, token: TokenPattern, published: set<string>)
  {
    forall text :: text in published && Named(token, text).Some? ==> token(Strip(text)) != Some(answer)
  }

  lemma NotOccupiedIsUnpublished(answer: string, token: TokenPattern, published: set<string>)
    requires answer !in Occupied(token, published)
    ensures IsUnpublished(answer, token, published)
  {
    hide Strip, Occupied, Named;
    forall text | text in published && Named(token, text).Some? ensures token(Strip(text)) != Some(answer) {
      OccupiedIsNamed(token, published, text);
    }
  }

  /**
   `next_version`.  The loop body runs at most once, `highest is None` never
   blocks a candidate, and the "does not advance" error cannot be raised.
   */
  method NextVersion(token: TokenPattern, currentText: string, kind: Kind, published: set<string>)
    returns (r: Option<string>, ghost h: Option<Version>)
    ensures r.None? <==> ParseVersion(currentText).None?
    ensures r.Some? ==>
              && IsTop(h, token, published)
              && r.value == Format(Next(ParseVersion(currentText).value, kind, h))
              && IsUnpublished(r.value, token, published)
              && IsFree(Next(ParseVersion(currentText).value, kind, h), token, published)
  {
    hide ParseVersion, Format, Normalize;
    var parsed := ParseVersion(currentText);
    if parsed.None? {
      return None, None;
    }
    var current := parsed.value;
    ParsedIsCanonical(currentText);
    var occupied := Occupied(token, published);
    var highest := FindHighest(occupied);
    h := highest;
    TopIsHighest(h, token, published);
    OneMoveClears(current, kind, highest);
    ghost var next := Next(current, kind, highest);
    var candidate := CandidateForKind(current, kind);
    CandidateIsCanonical(current, kind);
    OccupiedIsTaken(candidate, highest, occupied);
    OccupiedIsTaken(next, highest, occupied);
    while Format(candidate) in occupied || Taken(candidate, highest)
      invariant candidate == next || candidate == CandidateForKind(current, kind)
      invariant !Taken(candidate, highest) ==> candidate == next
      decreases if Taken(candidate, highest) then 1 else 0
    {
      if highest.None? {
        assert false;  // without occupied versions nothing blocks a candidate
      } else {
        candidate := CandidateAfterHighest(candidate, highest.value, kind);
      }
    }
    if !Less(current, candidate) {
      assert false;  // the "does not advance" error
    }
    NotOccupiedIsUnpublished(Format(candidate), token, published);
    NotTakenIsFree(candidate, token, published, h);
    return Some(Format(candidate)), h;
  }

  lemma CandidateIsCanonical(current: Version, kind: Kind)
    requires Canonical(current)
    ensures Canonical(CandidateForKind(current, kind)) && Less(current, CandidateForKind(current, kind))
  {
  }

  /** There is only one such version. */
  lemma TopIsUnique(g: Option<Version>, h: Option<Version>, token: TokenPattern, published: set<string>)
    requires IsTop(g, token, published) && IsTop(h, token, published)
    ensures g == h
  {
    hide Named, Less;
    if g.Some? && h.Some? {
      LessIsTotalOrder(g.value, h.value, g.value);
    }
  }

  /** `v` is above every version that a published text names. */
  ghost predicate IsFree(v: Version, token: TokenPattern, published: set<string>)
  {
    forall text :: text in published && Named(token, text).Some? ==> Less(Named(token, text).value, v)
  }

  lemma NotTakenIsFree(v: Version, token: TokenPattern, published: set<string>, h: Option<Version>)
    requires IsTop(h, token, published)
    ensures IsFree(v, token, published) <==> !Taken(v, h)
  {
    hide Named, Less;
    if !Taken(v, h) {
      forall text | text in published && Named(token, text).Some? ensures Less(Named(token, text).value, v) {
        LessIsTotalOrder(Named(token, text).value, h.value, v);
      }
    }
  }

  /**
   The whole search, stated on the published texts, readable or not: the answer
   parses back and is the least of its channel above the current version and
   every text that names a version.
   */
  lemma AnswerIsLeastFree(token: TokenPattern, currentText: string, kind: Kind, published: set<string>, h: Option<Version>)
    requires ParseVersion(currentText).Some? && IsTop(h, token, published)
    requires !SkipsItsLine(ParseVersion(currentText).value, kind, h)
    ensures var current := ParseVersion(currentText).value;
            var next := Next(current, kind, h);
            && ParseVersion(Format(next)) == Some(next)
            && Less(current, next) && Eligible(next, current, kind)
            && IsFree(next, token, published)
            && (forall w :: Eligible(w, current, kind) && Less(current, w) && IsFree(w, token, published)
                  ==> !Less(w, next))
  {
    hide ParseVersion, Format, Next, Named, Less, Eligible, SkipsItsLine, IsFree;
    ParsedIsCanonical(currentText);
    var current := ParseVersion(currentText).value;
    var next := Next(current, kind, h);
    TopIsHighest(h, token, published);
    OneMoveClears(current, kind, h);
    NextIsLeastIff(current, kind, h);
    ParseFormat(next);
    NotTakenIsFree(next, token, published, h);
    forall w | Eligible(w, current, kind) && Less(current, w) && IsFree(w, token, published)
      ensures !Less(w, next)
    {
      NotTakenIsFree(w, token, published, h);
      assert Above(w, current, h);
    }
  }
}
