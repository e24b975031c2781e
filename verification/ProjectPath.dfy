/**
 The normal form of project paths that decides whether a GitHub publication belongs to a connection
 (apps/windows/GitHubControls.cs).  Path.GetFullPath and the ordinal case folding belong to the
 platform and are parameters.
 */
module ProjectPath {
  import opened Wrappers
  import opened Text
  import opened Splitting

  const DOT: CodeUnit := 0x2E
  const QUESTION: CodeUnit := 0x3F
  const VERBATIM: Utf16 := [0x5C, 0x5C, 0x3F, 0x5C]
  const DEVICE: Utf16 := [0x5C, 0x5C, 0x2E, 0x5C]
  const NT_OBJECT: Utf16 := [0x5C, 0x3F, 0x3F, 0x5C]
  const UNC: Utf16 := [0x55, 0x4E, 0x43, 0x5C]
  const SHARE_ROOT: Utf16 := [0x5C, 0x5C]
  const CON: Utf16 := [0x43, 0x4F, 0x4E]
  const PRN: Utf16 := [0x50, 0x52, 0x4E]
  const AUX: Utf16 := [0x41, 0x55, 0x58]
  const NUL_DEVICE: Utf16 := [0x4E, 0x55, 0x4C]
  const CLOCK: Utf16 := [0x43, 0x4C, 0x4F, 0x43, 0x4B, 0x24]
  const COM: Utf16 := [0x43, 0x4F, 0x4D]
  const LPT: Utf16 := [0x4C, 0x50, 0x54]

  /** `full` is GetFullPath, None for the exceptions it may throw; `fold` the folding of one unit under
      OrdinalIgnoreCase. */
  datatype Platform = Platform(full: Utf16 -> Option<Utf16>, fold: CodeUnit -> CodeUnit)

  predicate IsLetter(u: CodeUnit) {
    0x41 <= u <= 0x5A || 0x61 <= u <= 0x7A
  }

  /** What the theorems need of the platform: folding identifies nothing but letters of one ASCII letter
      and non-ASCII units that are not blank, and a full path is its own full path. */
  ghost predicate Reasonable(h: Platform) {
    && (forall x, y :: h.fold(x) == h.fold(y) ==>
          x == y || (IsLetter(x) && IsLetter(y)) || (x >= 0x80 && y >= 0x80 && !IsWhite(x) && !IsWhite(y)))
    && (forall p :: h.full(p).Some? ==> h.full(h.full(p).value) == h.full(p))
  }

  predicate StartsFold(h: Platform, s: Utf16, prefix: Utf16) {
    |s| >= |prefix| && SameFold(h.fold, s[..|prefix|], prefix)
  }

  predicate IsTrimmed(s: Utf16) {
    s != [] && !IsWhite(s[0]) && !IsWhite(s[|s| - 1])
  }

  predicate IsDrive(s: Utf16) {
    |s| >= 3 && IsLetter(s[0]) && s[1] == COLON && (s[2] == BACKSLASH || s[2] == SLASH)
  }

  /** First separator at or after `from`, or the length. */
  function SeparatorFrom(s: Utf16, from: nat): (i: nat)
    requires from <= |s|
    ensures from <= i <= |s|
    decreases |s| - from
  {
    if from == |s| || s[from] == BACKSLASH || s[from] == SLASH then from else SeparatorFrom(s, from + 1)
  }

  predicate IsDots(s: Utf16) {
    s == [DOT] || s == [DOT, DOT]
  }

  predicate IsShare(s: Utf16) {
    && |s| >= 5 && s[0] == BACKSLASH && s[1] == BACKSLASH
    && var serverEnd := SeparatorFrom(s, 2);
       && 2 < serverEnd < |s| - 1
       && var shareEnd := SeparatorFrom(s, serverEnd + 1);
          shareEnd > serverEnd + 1 && !IsDots(s[2..serverEnd]) && !IsDots(s[serverEnd + 1..shareEnd])
  }

  function BeforeDot(s: Utf16): Utf16 {
    if s == [] || s[0] == DOT then [] else [s[0]] + BeforeDot(s[1..])
  }

  predicate IsReserved(h: Platform, device: Utf16) {
    SameFold(h.fold, device, CON) || SameFold(h.fold, device, PRN) || SameFold(h.fold, device, AUX) || SameFold(h.fold, device, NUL_DEVICE)
    || SameFold(h.fold, device, CLOCK)
    || (|device| == 4 && (SameFold(h.fold, device[..3], COM) || SameFold(h.fold, device[..3], LPT)) && 0x31 <= device[3] <= 0x39)
  }

  predicate IsPlainUnit(u: CodeUnit) {
    u >= 0x20 && u !in {0x3C, 0x3E, 0x22, 0x7C, 0x3F, 0x2A}
  }

  predicate IsPart(h: Platform, part: Utf16) {
    && part != [] && !IsDots(part) && part[|part| - 1] != DOT && part[|part| - 1] != SPACE
    && (forall i :: 0 <= i < |part| ==> IsPlainUnit(part[i]))
    && !IsReserved(h, BeforeDot(part))
  }

  predicate AllParts(h: Platform, parts: seq<Utf16>) {
    forall i :: 0 <= i < |parts| ==> IsPart(h, parts[i])
  }

  predicate IsCanonical(h: Platform, s: Utf16) {
    && SLASH !in s
    && if IsDrive(s) then COLON !in s[2..] && (s[3..] == [] || AllParts(h, Split(s[3..], BACKSLASH)))
       else IsShare(s) && COLON !in s && AllParts(h, Split(s[2..], BACKSLASH))
  }

  /** The spelling without a verbatim prefix; device and object paths have none. */
  function Candidate(h: Platform, s: Utf16): Option<Utf16> {
    if StartsFold(h, s, VERBATIM) then
      var rest := s[4..];
      if StartsFold(h, rest, UNC) then
        if IsShare(SHARE_ROOT + rest[4..]) then Some(SHARE_ROOT + rest[4..]) else None
      else if IsDrive(rest) then Some(rest) else None
    else if StartsFold(h, s, DEVICE) || StartsFold(h, s, NT_OBJECT) then None
    else Some(s)
  }

  function Accepted(h: Platform, candidate: Utf16): Option<Utf16> {
    if !IsCanonical(h, candidate) then None
    else
      var n := h.full(candidate);
      if n.Some? && (IsDrive(n.value) || IsShare(n.value)) && SameFold(h.fold, candidate, n.value) then n else None
  }

  function Normalize(h: Platform, s: Utf16): Option<Utf16> {
    if !IsTrimmed(s) || Candidate(h, s).None? then None else Accepted(h, Candidate(h, s).value)
  }

  // ---------- Folding keeps the shape ----------

  lemma {:induction false} SplitFold(h: Platform, a: Utf16, b: Utf16)
    requires Reasonable(h) && SameFold(h.fold, a, b)
    ensures var p, q := Split(a, BACKSLASH), Split(b, BACKSLASH);
      |p| == |q| && forall i :: 0 <= i < |p| ==> SameFold(h.fold, p[i], q[i])
  {
    if a != [] {
      assert h.fold(a[0]) == h.fold(b[0]) && (a[0] == BACKSLASH <==> b[0] == BACKSLASH);
      SplitFold(h, a[1..], b[1..]);
      FirstPartFold(h, a[0], b[0], Split(a[1..], BACKSLASH)[0], Split(b[1..], BACKSLASH)[0]);
    }
  }

  lemma FirstPartFold(h: Platform, x: CodeUnit, y: CodeUnit, s: Utf16, t: Utf16)
    requires h.fold(x) == h.fold(y) && SameFold(h.fold, s, t)
    ensures SameFold(h.fold, [x] + s, [y] + t)
  {
  }

  lemma BeforeDotFold(h: Platform, a: Utf16, b: Utf16)
    requires Reasonable(h) && SameFold(h.fold, a, b)
    ensures SameFold(h.fold, BeforeDot(a), BeforeDot(b))
  {
    if a != [] {
      BeforeDotFold(h, a[1..], b[1..]);
    }
  }

  lemma PartFold(h: Platform, a: Utf16, b: Utf16)
    requires Reasonable(h) && SameFold(h.fold, a, b) && IsPart(h, a)
    ensures IsPart(h, b)
  {
    BeforeDotFold(h, a, b);
    var d, e := BeforeDot(a), BeforeDot(b);
    if |d| == 4 {
      assert SameFold(h.fold, d[..3], e[..3]);
    }
    assert h.fold(a[|a| - 1]) == h.fold(b[|a| - 1]);
    forall i | 0 <= i < |b| ensures IsPlainUnit(b[i]) {
      assert IsPlainUnit(a[i]);
    }
  }

  lemma SeparatorFold(h: Platform, a: Utf16, b: Utf16, from: nat)
    requires Reasonable(h) && SameFold(h.fold, a, b) && from <= |a|
    ensures SeparatorFrom(a, from) == SeparatorFrom(b, from)
    decreases |a| - from
  {
    if from < |a| {
      assert h.fold(a[from]) == h.fold(b[from]);
      SeparatorFold(h, a, b, from + 1);
    }
  }

  lemma DotsFold(h: Platform, a: Utf16, b: Utf16)
    requires Reasonable(h) && SameFold(h.fold, a, b)
    ensures IsDots(a) <==> IsDots(b)
  {
  }

  lemma ShareFold(h: Platform, a: Utf16, b: Utf16)
    requires Reasonable(h) && SameFold(h.fold, a, b)
    ensures IsShare(a) <==> IsShare(b)
  {
    if |a| >= 5 {
      assert h.fold(a[0]) == h.fold(b[0]) && h.fold(a[1]) == h.fold(b[1]);
      SeparatorFold(h, a, b, 2);
      var serverEnd := SeparatorFrom(a, 2);
      if serverEnd < |a| - 1 {
        SeparatorFold(h, a, b, serverEnd + 1);
        DotsFold(h, a[2..serverEnd], b[2..serverEnd]);
        var shareEnd := SeparatorFrom(a, serverEnd + 1);
        DotsFold(h, a[serverEnd + 1..shareEnd], b[serverEnd + 1..shareEnd]);
      }
    }
  }

  lemma DriveFold(h: Platform, a: Utf16, b: Utf16)
    requires Reasonable(h) && SameFold(h.fold, a, b)
    ensures IsDrive(a) <==> IsDrive(b)
  {
    if |a| >= 3 {
      assert h.fold(a[0]) == h.fold(b[0]) && h.fold(a[1]) == h.fold(b[1]) && h.fold(a[2]) == h.fold(b[2]);
    }
  }

  lemma PartsFold(h: Platform, a: Utf16, b: Utf16)
    requires Reasonable(h) && SameFold(h.fold, a, b) && AllParts(h, Split(a, BACKSLASH))
    ensures AllParts(h, Split(b, BACKSLASH))
  {
    SplitFold(h, a, b);
    var p, q := Split(a, BACKSLASH), Split(b, BACKSLASH);
    forall i | 0 <= i < |q| ensures IsPart(h, q[i]) {
      PartFold(h, p[i], q[i]);
    }
  }

  lemma AbsentFold(h: Platform, a: Utf16, b: Utf16, u: CodeUnit)
    requires Reasonable(h) && SameFold(h.fold, a, b) && u < 0x80 && !IsLetter(u) && u !in a
    ensures u !in b
  {
    forall i | 0 <= i < |b| ensures b[i] != u {
      assert h.fold(a[i]) == h.fold(b[i]) && a[i] != u;
    }
  }

  lemma CanonicalFold(h: Platform, a: Utf16, b: Utf16)
    requires Reasonable(h) && SameFold(h.fold, a, b) && IsCanonical(h, a)
    ensures IsCanonical(h, b)
  {
    AbsentFold(h, a, b, SLASH);
    DriveFold(h, a, b);
    ShareFold(h, a, b);
    if IsDrive(a) {
      AbsentFold(h, a[2..], b[2..], COLON);
      if a[3..] != [] {
        PartsFold(h, a[3..], b[3..]);
      }
    } else {
      AbsentFold(h, a, b, COLON);
      PartsFold(h, a[2..], b[2..]);
    }
  }

  // ---------- A canonical path carries no prefix ----------

  lemma PrefixExact(h: Platform, s: Utf16, prefix: Utf16)
    requires Reasonable(h)
    requires prefix == VERBATIM || prefix == DEVICE || prefix == NT_OBJECT
    ensures StartsFold(h, s, prefix) <==> prefix <= s
  {
    if StartsFold(h, s, prefix) {
      forall i | 0 <= i < |prefix| ensures s[i] == prefix[i] {
        assert h.fold(s[..|prefix|][i]) == h.fold(prefix[i]);
      }
    }
  }

  lemma {:induction false} QuestionStaysInPart(h: Platform, s: Utf16)
    requires s != [] && s[0] != BACKSLASH
    ensures Split(s, BACKSLASH)[0] != [] && Split(s, BACKSLASH)[0][0] == s[0]
  {
  }

  lemma VerbatimIsNotCanonical(h: Platform, s: Utf16)
    requires VERBATIM <= s
    ensures !IsCanonical(h, s)
  {
    assert s[0] == BACKSLASH && s[2] == QUESTION;
    QuestionStaysInPart(h, s[2..]);
    var part := Split(s[2..], BACKSLASH)[0];
    assert !IsPlainUnit(part[0]);
    assert !IsPart(h, part);
  }

  lemma DeviceIsNotShare(s: Utf16)
    requires DEVICE <= s
    ensures !IsShare(s) && !IsDrive(s)
  {
    assert s[0] == BACKSLASH && s[2] == DOT && s[3] == BACKSLASH;
    assert SeparatorFrom(s, 3) == 3 && SeparatorFrom(s, 2) == 3;
    assert s[2..3] == [DOT];
  }

  lemma CanonicalHasNoPrefix(h: Platform, s: Utf16)
    ensures IsCanonical(h, s) ==> !(VERBATIM <= s) && !(DEVICE <= s) && !(NT_OBJECT <= s)
  {
    if VERBATIM <= s {
      VerbatimIsNotCanonical(h, s);
    } else if DEVICE <= s {
      DeviceIsNotShare(s);
    } else if NT_OBJECT <= s {
      assert s[0] == BACKSLASH && s[1] == QUESTION;
    }
  }

  ghost predicate Unprefixed(s: Utf16) {
    !(VERBATIM <= s) && !(DEVICE <= s) && !(NT_OBJECT <= s)
  }

  lemma CandidateOfUnprefixed(h: Platform, s: Utf16)
    requires Reasonable(h) && Unprefixed(s)
    ensures Candidate(h, s) == Some(s)
  {
    PrefixExact(h, s, VERBATIM);
    PrefixExact(h, s, DEVICE);
    PrefixExact(h, s, NT_OBJECT);
  }

  lemma AcceptsItself(h: Platform, n: Utf16)
    requires IsCanonical(h, n) && h.full(n) == Some(n)
    ensures Accepted(h, n) == Some(n)
  {
  }

  lemma TrimmedFold(h: Platform, c: Utf16, n: Utf16)
    requires Reasonable(h) && SameFold(h.fold, c, n) && IsTrimmed(c)
    ensures IsTrimmed(n)
  {
    assert h.fold(c[0]) == h.fold(n[0]) && h.fold(c[|c| - 1]) == h.fold(n[|n| - 1]);
  }

  lemma FullTwice(h: Platform, c: Utf16, n: Utf16)
    requires Reasonable(h) && h.full(c) == Some(n)
    ensures h.full(n) == Some(n)
  {
  }

  // ---------- Main results ----------

  /** What Normalize yields is canonical, unprefixed, and spells the candidate up to case. */
  lemma NormalShape(h: Platform, s: Utf16)
    requires Reasonable(h) && Normalize(h, s).Some?
    ensures var n := Normalize(h, s).value;
      && IsCanonical(h, n) && !(VERBATIM <= n) && !(DEVICE <= n) && !(NT_OBJECT <= n)
      && SameFold(h.fold, Candidate(h, s).value, n) && h.full(Candidate(h, s).value) == Some(n)
  {
    var candidate, n := Candidate(h, s).value, Normalize(h, s).value;
    CanonicalFold(h, candidate, n);
    CanonicalHasNoPrefix(h, n);
  }

  lemma CandidateIsTrimmed(h: Platform, s: Utf16)
    requires IsTrimmed(s) && Candidate(h, s).Some?
    ensures IsTrimmed(Candidate(h, s).value)
  {
    var c := Candidate(h, s).value;
    assert c[|c| - 1] == s[|s| - 1];
  }

  /** Normalizing twice changes nothing. */
  lemma NormalizeIsIdempotent(h: Platform, s: Utf16)
    requires Reasonable(h) && Normalize(h, s).Some?
    ensures Normalize(h, Normalize(h, s).value) == Normalize(h, s)
  {
    var c, n := Candidate(h, s).value, Normalize(h, s).value;
    NormalShape(h, s);
    CandidateIsTrimmed(h, s);
    TrimmedFold(h, c, n);
    FullTwice(h, c, n);
    CandidateOfUnprefixed(h, n);
    AcceptsItself(h, n);
  }

  lemma VerbatimDriveCandidate(h: Platform, p: Utf16)
    requires Reasonable(h) && IsDrive(p)
    ensures Candidate(h, VERBATIM + p) == Some(p)
  {
    var v := VERBATIM + p;
    PrefixExact(h, v, VERBATIM);
    assert v[4..] == p;
    assert h.fold(p[1]) != h.fold(UNC[1]);
    assert |p| >= 4 ==> p[..4][1] == p[1];
  }

  lemma TrimmedDrive(p: Utf16)
    requires IsDrive(p)
    ensures IsTrimmed(VERBATIM + p) <==> IsTrimmed(p)
  {
    var v := VERBATIM + p;
    assert v[0] == BACKSLASH && v[|v| - 1] == p[|p| - 1];
  }

  /** A verbatim drive path has exactly the normal form of the plain one, accepted or not. */
  lemma VerbatimDrive(h: Platform, p: Utf16)
    requires Reasonable(h) && IsDrive(p)
    ensures Normalize(h, VERBATIM + p) == Normalize(h, p)
  {
    var v := VERBATIM + p;
    VerbatimDriveCandidate(h, p);
    CandidateOfUnprefixed(h, p);
    TrimmedDrive(p);
    NormalOfCandidate(h, v);
    NormalOfCandidate(h, p);
  }

  lemma VerbatimShareCandidate(h: Platform, rest: Utf16)
    requires Reasonable(h)
    ensures Candidate(h, VERBATIM + UNC + rest) == if IsShare(SHARE_ROOT + rest) then Some(SHARE_ROOT + rest) else None
  {
    var v := VERBATIM + UNC + rest;
    PrefixExact(h, v, VERBATIM);
    assert v[4..] == UNC + rest && v[4..][..4] == UNC && v[4..][4..] == rest;
  }

  lemma TrimmedTogether(rest: Utf16)
    ensures IsTrimmed(VERBATIM + UNC + rest) <==> IsTrimmed(SHARE_ROOT + rest)
  {
    var v, p := VERBATIM + UNC + rest, SHARE_ROOT + rest;
    assert v[0] == BACKSLASH && p[0] == BACKSLASH;
    assert v[|v| - 1] == p[|p| - 1];
  }

  lemma NotShareNotCanonical(h: Platform, rest: Utf16)
    requires !IsShare(SHARE_ROOT + rest)
    ensures !IsCanonical(h, SHARE_ROOT + rest)
  {
    assert (SHARE_ROOT + rest)[0] == BACKSLASH;
  }

  lemma NormalOfCandidate(h: Platform, s: Utf16)
    ensures Normalize(h, s) == if IsTrimmed(s) && Candidate(h, s).Some? then Accepted(h, Candidate(h, s).value) else None
  {
  }

  lemma ShareCandidate(h: Platform, rest: Utf16)
    requires Reasonable(h) && !(VERBATIM <= SHARE_ROOT + rest)
    ensures Candidate(h, SHARE_ROOT + rest) == if DEVICE <= SHARE_ROOT + rest then None else Some(SHARE_ROOT + rest)
  {
    var p := SHARE_ROOT + rest;
    assert p[1] == BACKSLASH;
    PrefixExact(h, p, VERBATIM);
    PrefixExact(h, p, DEVICE);
    PrefixExact(h, p, NT_OBJECT);
  }

  /** A verbatim share path has the normal form of the plain one, unless what follows would itself read
      as a verbatim path; then it has none. */
  lemma VerbatimShare(h: Platform, rest: Utf16)
    requires Reasonable(h)
    ensures Normalize(h, VERBATIM + UNC + rest)
         == if VERBATIM <= SHARE_ROOT + rest then None else Normalize(h, SHARE_ROOT + rest)
  {
    var v, p := VERBATIM + UNC + rest, SHARE_ROOT + rest;
    VerbatimShareCandidate(h, rest);
    TrimmedTogether(rest);
    NormalOfCandidate(h, v);
    NormalOfCandidate(h, p);
    if VERBATIM <= p {
      VerbatimIsNotCanonical(h, p);
    } else {
      ShareCandidate(h, rest);
      if DEVICE <= p {
        DeviceIsNotShare(p);
      } else if !IsShare(p) {
        NotShareNotCanonical(h, rest);
      }
    }
  }

  // ---------- Publications ----------

  /** Strings are None where they may be null. */
  datatype Publication = Publication(
    status: Option<Utf16>, run: Option<Utf16>, candidate: Option<Utf16>, project: Option<Utf16>, repository: Option<Utf16>,
    baseBranch: Option<Utf16>, branch: Option<Utf16>, sourceHead: Option<Utf16>, mergeCommit: Option<Utf16>,
    pullRequest: Option<Utf16>, pullRequestNumber: Option<Utf16>, connectionRevision: int, completionRevision: int)

  datatype Connection = Connection(
    revision: int, project: Option<Utf16>, repository: Option<Utf16>, baseBranch: Option<Utf16>, sourceHead: Option<Utf16>)

  datatype Report = Report(run: Option<Utf16>, candidate: Option<Utf16>)

  /** The pull request checks rest on System.Uri. */
  datatype Checks = Checks(pullRequest: (Option<Utf16>, Option<Utf16>) -> bool, number: (Option<Utf16>, Option<Utf16>) -> bool)

  const SUCCEEDED: Utf16 := [0x73, 0x75, 0x63, 0x63, 0x65, 0x65, 0x64, 0x65, 0x64]
  const BRANCH_PREFIX: Utf16 :=
    [0x61, 0x73, 0x73, 0x65, 0x6D, 0x62, 0x6C, 0x79, 0x77, 0x72, 0x69, 0x67, 0x68, 0x74, 0x2F]

  predicate IsNullOrBlank(s: Option<Utf16>) {
    s.None? || IsBlank(s.value)
  }

  predicate SameFoldOrNull(h: Platform, a: Option<Utf16>, b: Option<Utf16>) {
    a == b || (a.Some? && b.Some? && SameFold(h.fold, a.value, b.value))
  }

  predicate IsCommit(s: Option<Utf16>) {
    s.Some? && (|s.value| == 40 || |s.value| == 64)
    && forall i :: 0 <= i < |s.value| ==> 0x30 <= s.value[i] <= 0x39 || 0x61 <= s.value[i] <= 0x66
  }

  function NormalizeProject(h: Platform, project: Option<Utf16>): Option<Utf16> {
    if IsNullOrBlank(project) then None else Normalize(h, project.value)
  }

  predicate MatchesCommon(h: Platform, k: Checks, p: Publication, r: Report, c: Connection) {
    var a, b := NormalizeProject(h, p.project), NormalizeProject(h, c.project);
    && a.Some? && b.Some? && p.status == Some(SUCCEEDED)
    && p.run == r.run && p.candidate == r.candidate && SameFold(h.fold, a.value, b.value)
    && SameFoldOrNull(h, p.repository, c.repository) && p.baseBranch == c.baseBranch
    && p.completionRevision > p.connectionRevision && !IsNullOrBlank(p.sourceHead)
    && p.branch == Some(BRANCH_PREFIX + if r.run.Some? then r.run.value else [])
    && k.pullRequest(p.pullRequest, c.repository) && k.number(p.pullRequest, p.pullRequestNumber) && IsCommit(p.mergeCommit)
  }

  predicate PublicationMatches(h: Platform, k: Checks, p: Publication, r: Report, c: Connection) {
    MatchesCommon(h, k, p, r, c) && p.connectionRevision == c.revision && !IsNullOrBlank(c.sourceHead) && p.sourceHead == c.sourceHead
  }

  predicate ReconciledPublicationMatches(h: Platform, k: Checks, p: Publication, r: Report, c: Connection) {
    && MatchesCommon(h, k, p, r, c) && !IsNullOrBlank(c.sourceHead)
    && var original := p.connectionRevision == c.revision && p.sourceHead == c.sourceHead;
       var fastForward := c.revision > p.connectionRevision && c.sourceHead == p.mergeCommit;
       original || fastForward
  }

  /** Reconciliation accepts every match, and beyond those exactly a later connection standing on the
      publication's own merge commit. */
  lemma ReconciledExactly(h: Platform, k: Checks, p: Publication, r: Report, c: Connection)
    ensures ReconciledPublicationMatches(h, k, p, r, c) <==>
      PublicationMatches(h, k, p, r, c)
      || (MatchesCommon(h, k, p, r, c) && c.revision > p.connectionRevision && c.sourceHead == p.mergeCommit)
  {
    if IsCommit(p.mergeCommit) {
      assert !IsWhite(p.mergeCommit.value[0]);
    }
  }

  /** `v` spells the drive or share path `p` with a verbatim prefix. */
  ghost predicate VerbatimSpelling(v: Utf16, p: Utf16) {
    (IsDrive(p) && v == VERBATIM + p)
    || (SHARE_ROOT <= p && !(VERBATIM <= p) && v == VERBATIM + UNC + p[2..])
  }

  /** Whether a publication matches does not depend on which side spells its project verbatim. */
  lemma MatchIgnoresSpelling(h: Platform, k: Checks, p: Publication, r: Report, c: Connection, v: Utf16, w: Utf16)
    requires Reasonable(h) && p.project.Some? && c.project.Some?
    requires VerbatimSpelling(v, p.project.value) && VerbatimSpelling(w, c.project.value)
    ensures PublicationMatches(h, k, p.(project := Some(v)), r, c) == PublicationMatches(h, k, p, r, c)
    ensures PublicationMatches(h, k, p, r, c.(project := Some(w))) == PublicationMatches(h, k, p, r, c)
    ensures ReconciledPublicationMatches(h, k, p.(project := Some(v)), r, c) == ReconciledPublicationMatches(h, k, p, r, c)
    ensures ReconciledPublicationMatches(h, k, p, r, c.(project := Some(w))) == ReconciledPublicationMatches(h, k, p, r, c)
  {
    SpellingHasSameNormal(h, v, p.project.value);
    SpellingHasSameNormal(h, w, c.project.value);
  }

  lemma SpellingHasSameNormal(h: Platform, v: Utf16, p: Utf16)
    requires Reasonable(h) && VerbatimSpelling(v, p)
    ensures NormalizeProject(h, Some(v)) == NormalizeProject(h, Some(p))
  {
    assert !IsWhite(v[0]) && !IsWhite(p[0]);
    if IsDrive(p) {
      VerbatimDrive(h, p);
    } else {
      assert p == SHARE_ROOT + p[2..];
      VerbatimShare(h, p[2..]);
    }
  }

  // ---------- Which paths are accepted ----------

  /** Names that stand for devices, in any case. */
  predicate IsDeviceName(h: Platform, stem: Utf16) {
    || SameFold(h.fold, stem, Ascii("CON")) || SameFold(h.fold, stem, Ascii("PRN"))
    || SameFold(h.fold, stem, Ascii("AUX")) || SameFold(h.fold, stem, Ascii("NUL"))
    || SameFold(h.fold, stem, Ascii("CLOCK$"))
    || exists n: CodeUnit :: 0x31 <= n <= 0x39 && IsPort(h, stem, n)
  }

  predicate IsPort(h: Platform, stem: Utf16, n: CodeUnit) {
    && |stem| == 4 && stem[3] == n
    && (SameFold(h.fold, stem[..3], Ascii("COM")) || SameFold(h.fold, stem[..3], Ascii("LPT")))
  }

  const FORBIDDEN := "<>:\"/|?*"

  /** The names a canonical path has between its separators. */
  predicate IsName(h: Platform, part: Utf16) {
    && part != [] && part != Ascii(".") && part != Ascii("..")
    && part[|part| - 1] != '.' as int as CodeUnit && part[|part| - 1] != ' ' as int as CodeUnit
    && (forall u :: u in part ==> u >= 32 && u !in Ascii(FORBIDDEN))
    && (forall k :: 0 <= k <= |part| && DotAt(part, k) ==> !IsDeviceName(h, part[..k]))
  }

  /** The first dot is at `k`, or there is none and `k` is the length. */
  predicate DotAt(part: Utf16, k: nat)
    requires k <= |part|
  {
    '.' as int as CodeUnit !in part[..k] && (k < |part| ==> part[k] == '.' as int as CodeUnit)
  }

  lemma {:induction false} StemIsBeforeDot(part: Utf16, k: nat)
    requires k <= |part| && DotAt(part, k)
    ensures BeforeDot(part) == part[..k]
  {
    if k > 0 {
      assert part[0] == part[..k][0];
      assert part[1..][..k - 1] == part[..k][1..];
      assert DotAt(part[1..], k - 1);
      StemIsBeforeDot(part[1..], k - 1);
    }
  }

  lemma {:induction false} SomeDot(part: Utf16) returns (k: nat)
    ensures k <= |part| && DotAt(part, k)
  {
    if part == [] || part[0] == DOT {
      k := 0;
    } else {
      var n := SomeDot(part[1..]);
      k := n + 1;
      assert part[..k] == [part[0]] + part[1..][..n];
    }
  }

  lemma DeviceNames(h: Platform, stem: Utf16)
    ensures IsDeviceName(h, stem) <==> IsReserved(h, stem)
  {
    assert Ascii("CON") == CON && Ascii("PRN") == PRN && Ascii("AUX") == AUX && Ascii("NUL") == NUL_DEVICE;
    assert Ascii("CLOCK$") == CLOCK && Ascii("COM") == COM && Ascii("LPT") == LPT;
    if IsReserved(h, stem) && |stem| == 4 {
      assert 0x31 <= stem[3] <= 0x39 ==> (IsPort(h, stem, stem[3]) <==> SameFold(h.fold, stem[..3], COM) || SameFold(h.fold, stem[..3], LPT));
    }
  }

  lemma ForbiddenUnits(u: CodeUnit)
    ensures u in Ascii(FORBIDDEN) <==> u in {0x3C, 0x3E, 0x3A, 0x22, 0x2F, 0x7C, 0x3F, 0x2A}
  {
    assert Ascii(FORBIDDEN) == [0x3C, 0x3E, 0x3A, 0x22, 0x2F, 0x7C, 0x3F, 0x2A];
  }

  lemma NamesAreParts(h: Platform, part: Utf16)
    ensures IsName(h, part) <==> IsPart(h, part) && COLON !in part && SLASH !in part
  {
    var k := SomeDot(part);
    StemIsBeforeDot(part, k);
    DeviceNames(h, part[..k]);
    assert Ascii(".") == [DOT] && Ascii("..") == [DOT, DOT];
    forall u ensures u in Ascii(FORBIDDEN) <==> u in {0x3C, 0x3E, 0x3A, 0x22, 0x2F, 0x7C, 0x3F, 0x2A} {
      ForbiddenUnits(u);
    }
    forall j | 0 <= j <= |part| && DotAt(part, j) ensures part[..j] == part[..k] {
      StemIsBeforeDot(part, j);
    }
    if IsPart(h, part) && COLON !in part && SLASH !in part {
      assert forall u :: u in part ==> IsPlainUnit(u);
    }
    if IsName(h, part) {
      assert forall i :: 0 <= i < |part| ==> part[i] in part;
    }
  }

  predicate AllNames(h: Platform, parts: seq<Utf16>) {
    forall i :: 0 <= i < |parts| ==> IsName(h, parts[i])
  }

  lemma NamesArePartsAll(h: Platform, parts: seq<Utf16>)
    requires parts != []
    ensures AllNames(h, parts) <==>
      AllParts(h, parts) && COLON !in Rejoin(parts, BACKSLASH) && SLASH !in Rejoin(parts, BACKSLASH)
  {
    RejoinMembers(parts, BACKSLASH, COLON);
    RejoinMembers(parts, BACKSLASH, SLASH);
    forall i | 0 <= i < |parts| ensures IsName(h, parts[i]) <==> IsPart(h, parts[i]) && COLON !in parts[i] && SLASH !in parts[i] {
      NamesAreParts(h, parts[i]);
    }
  }

  /** A drive letter, a colon and names between separators are canonical, and no other parts are. */
  lemma DriveExactly(h: Platform, letter: CodeUnit, parts: seq<Utf16>)
    requires IsLetter(letter) && parts != [] && parts != [[]] && Without(parts, BACKSLASH)
    ensures IsCanonical(h, [letter, COLON, BACKSLASH] + Rejoin(parts, BACKSLASH)) <==> AllNames(h, parts)
    ensures IsCanonical(h, [letter, COLON, BACKSLASH])
  {
    var rest := Rejoin(parts, BACKSLASH);
    var s := [letter, COLON, BACKSLASH] + rest;
    SplitRejoin(parts, BACKSLASH);
    NamesArePartsAll(h, parts);
    assert s[3..] == rest && s[2..] == [BACKSLASH] + rest;
    assert Split<CodeUnit>([], BACKSLASH) == [[]];
  }

  lemma {:induction false} SeparatorAfter(s: Utf16, from: nat, part: Utf16)
    requires from + |part| <= |s| && s[from..from + |part|] == part && BACKSLASH !in part && SLASH !in part
    requires from + |part| < |s| ==> s[from + |part|] == BACKSLASH
    ensures SeparatorFrom(s, from) == from + |part|
    decreases |part|
  {
    if part != [] {
      assert s[from] == part[0];
      assert s[from + 1..from + |part|] == part[1..];
      SeparatorAfter(s, from + 1, part[1..]);
    }
  }

  lemma ShareParts(s: Utf16, server: Utf16, share: Utf16, rest: Utf16)
    requires s == SHARE_ROOT + server + [BACKSLASH] + share + rest && (rest == [] || rest[0] == BACKSLASH)
    requires server != [] && share != [] && !IsDots(server) && !IsDots(share)
    requires BACKSLASH !in server && SLASH !in server && BACKSLASH !in share && SLASH !in share
    ensures IsShare(s)
  {
    var end := 2 + |server|;
    assert s[2..end] == server && s[end] == BACKSLASH;
    SeparatorAfter(s, 2, server);
    assert s[end + 1..end + 1 + |share|] == share;
    SeparatorAfter(s, end + 1, share);
  }

  lemma NamesMakeShare(h: Platform, parts: seq<Utf16>)
    requires |parts| >= 2 && Without(parts, BACKSLASH) && AllNames(h, parts)
    ensures IsShare(SHARE_ROOT + Rejoin(parts, BACKSLASH))
  {
    NamesAreParts(h, parts[0]);
    NamesAreParts(h, parts[1]);
    RejoinHead(parts, BACKSLASH);
    var tail := parts[1..];
    var rest: Utf16;
    if |parts| == 2 {
      rest := [];
      assert Rejoin(tail, BACKSLASH) == parts[1];
    } else {
      RejoinHead(tail, BACKSLASH);
      rest := [BACKSLASH] + Rejoin(tail[1..], BACKSLASH);
    }
    assert Rejoin(tail, BACKSLASH) == parts[1] + rest;
    ShareParts(SHARE_ROOT + Rejoin(parts, BACKSLASH), parts[0], parts[1], rest);
  }

  /** Two backslashes and at least a server and a share, all names, are canonical, and no other parts are. */
  lemma ShareExactly(h: Platform, parts: seq<Utf16>)
    requires |parts| >= 2 && Without(parts, BACKSLASH)
    ensures IsCanonical(h, SHARE_ROOT + Rejoin(parts, BACKSLASH)) <==> AllNames(h, parts)
  {
    var rest := Rejoin(parts, BACKSLASH);
    var s := SHARE_ROOT + rest;
    SplitRejoin(parts, BACKSLASH);
    NamesArePartsAll(h, parts);
    assert s[2..] == rest && s[0] == BACKSLASH && s[1] == BACKSLASH;
    assert COLON in s <==> COLON in rest;
    assert SLASH in s <==> SLASH in rest;
    if AllNames(h, parts) {
      NamesMakeShare(h, parts);
    }
  }

  /** A path without a device or verbatim prefix has a normal form exactly when it is trimmed, canonical and its
      full path is the same but for case, and it is then the full path. */
  lemma PlainExactly(h: Platform, p: Utf16)
    requires Reasonable(h) && Unprefixed(p)
    ensures Normalize(h, p) == if IsTrimmed(p) && IsCanonical(h, p) && h.full(p).Some? && SameFold(h.fold, p, h.full(p).value)
                               then h.full(p) else None
  {
    CandidateOfUnprefixed(h, p);
    if IsCanonical(h, p) && h.full(p).Some? && SameFold(h.fold, p, h.full(p).value) {
      CanonicalFold(h, p, h.full(p).value);
    }
  }

  /** A device path, and a verbatim path of anything but a drive or a share, has none. */
  lemma PrefixedHasNone(h: Platform, s: Utf16)
    requires Reasonable(h)
    requires DEVICE <= s || NT_OBJECT <= s || (VERBATIM <= s && !IsDrive(s[4..]) && !StartsFold(h, s[4..], UNC))
    ensures Normalize(h, s).None?
  {
    PrefixExact(h, s, VERBATIM);
    PrefixExact(h, s, DEVICE);
    PrefixExact(h, s, NT_OBJECT);
    if DEVICE <= s || NT_OBJECT <= s {
      assert s[2] != VERBATIM[2] || s[1] != VERBATIM[1];
    }
  }

  // ---------- What a match says ----------

  /** A match is exactly this agreement of the publication with the report and the connection. */
  lemma MatchExactly(h: Platform, k: Checks, p: Publication, r: Report, c: Connection)
    ensures PublicationMatches(h, k, p, r, c) <==>
      && p.status == Some(Ascii("succeeded")) && p.run == r.run && p.candidate == r.candidate
      && p.branch == Some(Ascii("assemblywright/") + if r.run.Some? then r.run.value else [])
      && p.connectionRevision == c.revision && p.completionRevision > c.revision
      && p.sourceHead == c.sourceHead && p.sourceHead.Some? && !IsBlank(p.sourceHead.value)
      && p.baseBranch == c.baseBranch && SameFoldOrNull(h, p.repository, c.repository)
      && SameProject(h, p.project, c.project)
      && k.pullRequest(p.pullRequest, c.repository) && k.number(p.pullRequest, p.pullRequestNumber)
      && p.mergeCommit.Some? && IsHex(p.mergeCommit.value)
  {
    assert Ascii("succeeded") == SUCCEEDED && Ascii("assemblywright/") == BRANCH_PREFIX;
    if p.mergeCommit.Some? {
      HexExactly(p.mergeCommit.value);
    }
  }

  predicate SameProject(h: Platform, a: Option<Utf16>, b: Option<Utf16>) {
    && a.Some? && b.Some? && !IsBlank(a.value) && !IsBlank(b.value)
    && Normalize(h, a.value).Some? && Normalize(h, b.value).Some?
    && SameFold(h.fold, Normalize(h, a.value).value, Normalize(h, b.value).value)
  }

  /** A commit name in lower-case hexadecimal. */
  predicate IsHex(s: Utf16) {
    (|s| == 40 || |s| == 64) && forall u :: u in s ==> u in Ascii("0123456789abcdef")
  }

  lemma HexExactly(s: Utf16)
    ensures IsHex(s) <==> IsCommit(Some(s))
  {
    assert Ascii("0123456789abcdef") == [0x30, 0x31, 0x32, 0x33, 0x34, 0x35, 0x36, 0x37, 0x38, 0x39, 0x61, 0x62, 0x63, 0x64, 0x65, 0x66];
    assert forall i :: 0 <= i < |s| ==> s[i] in s;
    forall u: CodeUnit ensures u in Ascii("0123456789abcdef") <==> 0x30 <= u <= 0x39 || 0x61 <= u <= 0x66 {
    }
  }

  /** One publication matches the reports of one run and one candidate, on connections of one revision. */
  lemma MatchBinds(h: Platform, k: Checks, p: Publication, r: Report, c: Connection, r2: Report, c2: Connection)
    requires PublicationMatches(h, k, p, r, c) && PublicationMatches(h, k, p, r2, c2)
    ensures r == r2 && c.revision == c2.revision && c.sourceHead == c2.sourceHead && c.baseBranch == c2.baseBranch
  {
  }
}
