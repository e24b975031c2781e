/**
 The normal form of Windows drive paths that binds a status reply to the configured workspace
 (scripts/developer-connection.py).
 */
module DrivePath {
  import opened Wrappers
  import opened Splitting

  const VERBATIM := "\\\\?\\"
  const PROJECTS := "\\projects"

  predicate IsLetter(c: char) {
    'A' <= c <= 'Z' || 'a' <= c <= 'z'
  }

  predicate IsSegmentChar(c: char) {
    IsLetter(c) || '0' <= c <= '9' || c == '_' || c == '@' || c == '.' || c == '-'
  }

  function LowerChar(c: char): char {
    if 'A' <= c <= 'Z' then c - 'A' + 'a' else c
  }

  function Lower(s: string): (r: string)
    ensures |r| == |s| && forall i :: 0 <= i < |s| ==> r[i] == LowerChar(s[i])
  {
    seq(|s|, i requires 0 <= i < |s| => LowerChar(s[i]))
  }

  function Backslashed(s: string): (r: string)
    ensures |r| == |s| && forall i :: 0 <= i < |s| ==> r[i] == if s[i] == '/' then '\\' else s[i]
  {
    seq(|s|, i requires 0 <= i < |s| => if s[i] == '/' then '\\' else s[i])
  }

  function StripRight(s: string): (r: string)
    ensures r <= s && (r == [] || r[|r| - 1] != '\\')
    ensures forall i :: |r| <= i < |s| ==> s[i] == '\\'
  {
    if s != [] && s[|s| - 1] == '\\' then StripRight(s[..|s| - 1]) else s
  }

  predicate IsSegment(s: string) {
    s != [] && (forall i :: 0 <= i < |s| ==> IsSegmentChar(s[i])) && s != "." && s != ".."
  }

  /** A drive letter, a colon, and non-empty segments none of which is `.` or `..`. */
  predicate IsDrivePath(s: string) {
    && |s| >= 3 && IsLetter(s[0]) && s[1] == ':' && s[2] == '\\'
    && AllSegments(Split(s[3..], '\\'))
  }

  predicate AllSegments(parts: seq<string>) {
    forall i :: 0 <= i < |parts| ==> IsSegment(parts[i])
  }

  function Unprefixed(s: string): string {
    if VERBATIM <= s then s[4..] else s
  }

  function Candidate(v: string): string {
    Unprefixed(StripRight(Backslashed(v)))
  }

  /** `value` is None when the JSON value is not a string. */
  function Normalize(value: Option<string>): Option<string> {
    if value.Some? && IsDrivePath(Candidate(value.value)) then Some(Lower(Candidate(value.value))) else None
  }

  predicate IsNormal(s: string) {
    IsDrivePath(s) && Lower(s) == s
  }

  ghost predicate Separators(s: string) {
    forall i :: 0 <= i < |s| ==> s[i] == '\\'
  }

  /** `v` is a spelling of `path`: up to slash direction and letter case it is `path`, optionally
      with the verbatim prefix, optionally followed by separators. */
  ghost predicate Spells(v: string, path: string) {
    exists prefix: string, trailing: string ::
      SpelledWith(v, path, prefix, trailing)
  }

  ghost predicate SpelledWith(v: string, path: string, prefix: string, trailing: string) {
    (prefix == [] || prefix == VERBATIM) && Separators(trailing)
    && Lower(Backslashed(v)) == prefix + path + trailing
  }

  // ---------- Case does not matter to the shape ----------

  function LowerAll(parts: seq<string>): (r: seq<string>)
    ensures |r| == |parts| && forall i :: 0 <= i < |parts| ==> r[i] == Lower(parts[i])
  {
    seq(|parts|, i requires 0 <= i < |parts| => Lower(parts[i]))
  }

  lemma LowerAllCons(first: string, rest: seq<string>)
    ensures LowerAll([first] + rest) == [Lower(first)] + LowerAll(rest)
  {
  }

  lemma LowerAllTail(parts: seq<string>)
    requires parts != []
    ensures LowerAll(parts)[0] == Lower(parts[0]) && LowerAll(parts[1..]) == LowerAll(parts)[1..]
  {
  }

  lemma LowerHead(s: string)
    requires s != []
    ensures Lower(s) != [] && Lower(s)[0] == LowerChar(s[0]) && Lower(s)[1..] == Lower(s[1..])
    ensures Lower(s)[0] == '\\' <==> s[0] == '\\'
  {
  }

  lemma {:induction false} SplitLower(s: string)
    ensures Split(Lower(s), '\\') == LowerAll(Split(s, '\\'))
  {
    if s != [] {
      var rest := Split(s[1..], '\\');
      SplitLower(s[1..]);
      LowerHead(s);
      LowerAllTail(rest);
      if s[0] == '\\' {
        LowerAllCons([], rest);
      } else {
        LowerCons(s[0], rest[0]);
        LowerAllCons([s[0]] + rest[0], rest[1..]);
      }
    }
  }

  lemma LowerCons(c: char, t: string)
    ensures Lower([c] + t) == [LowerChar(c)] + Lower(t)
  {
  }

  lemma SegmentLower(s: string)
    ensures IsSegment(Lower(s)) <==> IsSegment(s)
  {
    var t := Lower(s);
    assert forall i :: 0 <= i < |s| ==> (IsSegmentChar(t[i]) <==> IsSegmentChar(s[i]));
    assert forall i :: 0 <= i < |s| ==> (t[i] == '.' <==> s[i] == '.');
  }

  lemma DrivePathLower(s: string)
    ensures IsDrivePath(Lower(s)) <==> IsDrivePath(s)
  {
    if |s| >= 3 {
      assert Lower(s)[3..] == Lower(s[3..]);
      SplitLower(s[3..]);
      var parts := Split(s[3..], '\\');
      forall i | 0 <= i < |parts| ensures IsSegment(Lower(parts[i])) <==> IsSegment(parts[i]) {
        SegmentLower(parts[i]);
      }
    }
  }

  lemma DrivePathEnd(s: string)
    requires IsDrivePath(s)
    ensures s[|s| - 1] != '\\'
  {
    var rest := s[3..];
    SplitDecomposes(rest, '\\');
    var parts := Split(rest, '\\');
    var last := parts[|parts| - 1];
    assert IsSegment(last);
    assert rest[|rest| - 1] == last[|last| - 1];
    assert rest[|rest| - 1] == s[|s| - 1];
  }

  // ---------- Main results ----------

  lemma LowerConcat(s: string, t: string)
    ensures Lower(s + t) == Lower(s) + Lower(t)
  {
  }

  lemma LowerSymbols(s: string)
    requires forall i :: 0 <= i < |s| ==> s[i] == '\\' || s[i] == '?'
    ensures Lower(s) == s
  {
  }

  lemma LowerTwice(s: string)
    ensures Lower(Lower(s)) == Lower(s)
  {
  }

  lemma LowerAround(prefix: string, path: string, trailing: string)
    requires prefix == [] || prefix == VERBATIM
    requires Separators(trailing)
    ensures Lower(prefix + path + trailing) == prefix + Lower(path) + trailing
  {
    LowerConcat(prefix + path, trailing);
    LowerConcat(prefix, path);
    LowerSymbols(prefix);
    LowerSymbols(trailing);
  }

  lemma NormalOf(candidate: string)
    requires IsDrivePath(candidate)
    ensures IsNormal(Lower(candidate))
  {
    DrivePathLower(candidate);
    LowerTwice(candidate);
  }

  lemma SpelledBy(v: string, prefix: string, candidate: string, trailing: string)
    requires prefix == [] || prefix == VERBATIM
    requires Separators(trailing) && Backslashed(v) == prefix + candidate + trailing
    ensures Spells(v, Lower(candidate))
  {
    LowerAround(prefix, candidate, trailing);
    assert SpelledWith(v, Lower(candidate), prefix, trailing);
  }

  lemma Unstripped(whole: string) returns (trailing: string)
    ensures Separators(trailing) && whole == StripRight(whole) + trailing
  {
    trailing := whole[|StripRight(whole)|..];
  }

  lemma Prefix(s: string) returns (prefix: string)
    ensures (prefix == [] || prefix == VERBATIM) && s == prefix + Unprefixed(s)
  {
    prefix := if VERBATIM <= s then VERBATIM else [];
  }

  lemma CandidateSpells(v: string)
    ensures Spells(v, Lower(Candidate(v)))
  {
    var stripped := StripRight(Backslashed(v));
    var trailing := Unstripped(Backslashed(v));
    var prefix := Prefix(stripped);
    SpelledBy(v, prefix, Candidate(v), trailing);
  }

  lemma NormalIsSpelled(v: string)
    requires Normalize(Some(v)).Some?
    ensures IsNormal(Normalize(Some(v)).value) && Spells(v, Normalize(Some(v)).value)
  {
    NormalOf(Candidate(v));
    CandidateSpells(v);
  }

  lemma StripExact(s: string, keep: nat)
    requires 0 < keep <= |s| && s[keep - 1] != '\\'
    requires forall i :: keep <= i < |s| ==> s[i] == '\\'
    ensures StripRight(s) == s[..keep]
  {
  }

  lemma LowerSlice(whole: string, a: nat, b: nat)
    requires a <= b <= |whole|
    ensures Lower(whole[a..b]) == Lower(whole)[a..b]
  {
  }

  /** Separators and `?` are nothing's lower case but their own. */
  lemma LowerSymbolsBack(s: string)
    requires forall i :: 0 <= i < |s| ==> Lower(s)[i] == '\\' || Lower(s)[i] == '?'
    ensures Lower(s) == s
  {
    assert forall i :: 0 <= i < |s| ==> Lower(s)[i] == LowerChar(s[i]);
  }

  lemma ThreePieces(whole: string, prefix: string, path: string, trailing: string)
    requires whole == prefix + path + trailing
    ensures whole[0..|prefix|] == prefix && whole[|prefix|..|prefix| + |path|] == path
    ensures whole[|prefix| + |path|..|whole|] == trailing
  {
  }

  lemma ThreeSlices(whole: string, a: nat, b: nat)
    requires a <= b <= |whole|
    ensures whole == whole[0..a] + whole[a..b] + whole[b..|whole|]
  {
  }

  /** Undoing `Lower` piece by piece. */
  lemma LowerPieces(whole: string, prefix: string, path: string, trailing: string) returns (candidate: string)
    requires Lower(whole) == prefix + path + trailing
    requires prefix == [] || prefix == VERBATIM
    requires Separators(trailing)
    ensures whole == prefix + candidate + trailing && Lower(candidate) == path
  {
    var a, b := |prefix|, |prefix| + |path|;
    ThreePieces(Lower(whole), prefix, path, trailing);
    LowerSlice(whole, 0, a);
    LowerSlice(whole, a, b);
    LowerSlice(whole, b, |whole|);
    LowerSymbolsBack(whole[0..a]);
    LowerSymbolsBack(whole[b..|whole|]);
    ThreeSlices(whole, a, b);
    candidate := whole[a..b];
  }

  lemma StripTail(s: string, trailing: string)
    requires s != [] && s[|s| - 1] != '\\' && Separators(trailing)
    ensures StripRight(s + trailing) == s
  {
    StripExact(s + trailing, |s|);
    assert (s + trailing)[..|s|] == s;
  }

  lemma UnprefixedPath(prefix: string, candidate: string)
    requires prefix == [] || prefix == VERBATIM
    requires candidate != [] && IsLetter(candidate[0])
    ensures Unprefixed(prefix + candidate) == candidate
  {
    assert (prefix + candidate)[|prefix|] == candidate[0];
  }

  lemma SpelledIsNormal(v: string, path: string, prefix: string, trailing: string)
    requires IsNormal(path) && SpelledWith(v, path, prefix, trailing)
    ensures Normalize(Some(v)) == Some(path)
  {
    var candidate := LowerPieces(Backslashed(v), prefix, path, trailing);
    DrivePathLower(candidate);
    DrivePathEnd(candidate);
    LastOfBoth(prefix, candidate);
    StripTail(prefix + candidate, trailing);
    UnprefixedPath(prefix, candidate);
  }

  lemma LastOfBoth(prefix: string, candidate: string)
    requires candidate != []
    ensures prefix + candidate != [] && (prefix + candidate)[|prefix + candidate| - 1] == candidate[|candidate| - 1]
  {
  }

  /** The normal form is exact: it is `path` if and only if the value is one of the spellings. */
  lemma NormalizeExactly(v: string, path: string)
    ensures Normalize(Some(v)) == Some(path) <==> IsNormal(path) && Spells(v, path)
  {
    if Normalize(Some(v)) == Some(path) {
      NormalIsSpelled(v);
    }
    if IsNormal(path) && Spells(v, path) {
      var prefix, trailing :| SpelledWith(v, path, prefix, trailing);
      SpelledIsNormal(v, path, prefix, trailing);
    }
  }

  lemma NormalizeIsIdempotent(value: Option<string>)
    ensures Normalize(value).Some? ==> Normalize(Normalize(value)) == Normalize(value)
  {
    if Normalize(value).Some? {
      var path := Normalize(value).value;
      NormalIsSpelled(value.value);
      assert '/' !in path by {
        NormalHasNoSlash(path);
      }
      assert Backslashed(path) == path;
      assert path == [] + path + [];
      assert SpelledWith(path, path, [], []);
      SpelledIsNormal(path, path, [], []);
    }
  }

  lemma NormalHasNoSlash(path: string)
    requires IsDrivePath(path)
    ensures '/' !in path
  {
    var rest := path[3..];
    var parts := Split(rest, '\\');
    SplitDecomposes(rest, '\\');
    assert IsSegment(parts[|parts| - 1]);
    TerminatedMembers(parts[..|parts| - 1]);
    assert path == path[..3] + rest;
  }

  lemma {:induction false} TerminatedMembers(parts: seq<string>)
    requires AllSegments(parts)
    ensures '/' !in Terminated(parts, '\\')
  {
    if parts != [] {
      TerminatedMembers(parts[1..]);
      assert IsSegment(parts[0]);
    }
  }

  // ---------- The workspace root ----------

  /** The roots the configuration accepts. */
  predicate IsConfiguredRoot(root: string) {
    && |root| >= 4 && IsLetter(root[0]) && root[1] == ':' && (root[2] == '/' || root[2] == '\\')
    && forall i :: 3 <= i < |root| ==>
         IsLetter(root[i]) || '0' <= root[i] <= '9' || root[i] in {'_', '-', '/', '\\'}
  }

  function Remote(root: string): string {
    StripRight(Backslashed(root))
  }

  function ExpectedWorkspaceRoot(root: string): Option<string> {
    Normalize(Some(Remote(root) + PROJECTS))
  }

  predicate NoDoubledSeparator(s: string) {
    forall i :: 0 <= i < |s| - 1 ==> !(s[i] == '\\' && s[i + 1] == '\\')
  }

  predicate PlainChars(s: string) {
    forall i :: 0 <= i < |s| ==> s[i] == '\\' || (IsSegmentChar(s[i]) && s[i] != '.')
  }

  /** No part after the first is empty. */
  predicate Tight(s: string) {
    s == [] || (Tight(s[1..]) && (s[0] == '\\' ==> |s| > 1 && s[1] != '\\'))
  }

  lemma {:induction false} TightExactly(s: string)
    ensures Tight(s) <==> NoDoubledSeparator(s) && (s == [] || s[|s| - 1] != '\\')
  {
    if |s| > 1 {
      TightExactly(s[1..]);
      var t := s[1..];
      assert forall i :: 0 <= i < |t| ==> t[i] == s[i + 1];
      assert NoDoubledSeparator(s) ==> NoDoubledSeparator(t);
      assert NoDoubledSeparator(t) && !(s[0] == '\\' && s[1] == '\\') ==> NoDoubledSeparator(s) by {
        assert forall i :: 1 <= i < |s| ==> s[i] == t[i - 1];
      }
    }
  }

  lemma {:induction false} SplitParts(s: string)
    requires PlainChars(s)
    ensures var parts := Split(s, '\\');
      && ((forall i :: 1 <= i < |parts| ==> parts[i] != []) <==> Tight(s))
      && (parts[0] == [] <==> s == [] || s[0] == '\\')
      && (forall i :: 0 <= i < |parts| ==> PlainChars(parts[i]) && '\\' !in parts[i])
  {
    if s != [] {
      SplitParts(s[1..]);
      var rest := Split(s[1..], '\\');
      var parts := Split(s, '\\');
      if s[0] == '\\' {
        assert parts[1..] == rest;
        assert forall i :: 1 <= i < |parts| ==> parts[i] == rest[i - 1];
      } else {
        assert parts[1..] == rest[1..];
        assert forall i :: 1 <= i < |parts| ==> parts[i] == rest[i];
      }
    }
  }

  lemma DrivePathExactly(s: string)
    requires |s| >= 3 && IsLetter(s[0]) && s[1] == ':' && s[2] == '\\' && PlainChars(s[3..])
    ensures IsDrivePath(s) <==> NoDoubledSeparator(s) && s[|s| - 1] != '\\'
  {
    var rest := s[3..];
    SplitParts(rest);
    TightExactly(rest);
    var parts := Split(rest, '\\');
    forall i | 0 <= i < |parts| ensures IsSegment(parts[i]) <==> parts[i] != [] {
      assert '.' !in parts[i];
    }
    assert NoDoubledSeparator(s) <==> NoDoubledSeparator(rest) && !(rest != [] && rest[0] == '\\');
    assert rest != [] ==> rest[|rest| - 1] == s[|s| - 1];
  }

  /** A configured root with `\projects` is a drive letter, a colon and plain characters. */
  lemma RemoteShape(root: string)
    requires IsConfiguredRoot(root)
    ensures var whole := Remote(root) + PROJECTS;
      && |Remote(root)| >= 2 && Backslashed(whole) == whole && !(VERBATIM <= whole)
      && IsLetter(whole[0]) && whole[1] == ':' && whole[2] == '\\' && PlainChars(whole[3..]) && whole[|whole| - 1] == 's'
  {
    var remote := Remote(root);
    assert Backslashed(root)[1] == ':';
    assert |remote| >= 2;
    var whole := remote + PROJECTS;
    assert '/' !in remote;
    assert whole[0] != '\\';
    forall i | 3 <= i < |whole| ensures whole[i] == '\\' || (IsSegmentChar(whole[i]) && whole[i] != '.') {
      if i < |remote| {
        assert whole[i] == Backslashed(root)[i];
      } else {
        assert whole[i] == PROJECTS[i - |remote|];
      }
    }
  }

  lemma DoubledOnlyInside(remote: string)
    requires remote == [] || remote[|remote| - 1] != '\\'
    ensures NoDoubledSeparator(remote + PROJECTS) <==> NoDoubledSeparator(remote)
  {
    var whole := remote + PROJECTS;
    assert NoDoubledSeparator(PROJECTS);
    assert forall i :: 0 <= i < |whole| ==> whole[i] == if i < |remote| then remote[i] else PROJECTS[i - |remote|];
  }

  /** The expected workspace root exists exactly when the root, once stripped, has no doubled
      separator; it is then the lower-cased root with `\projects`. */
  lemma ExpectedRootExactly(root: string)
    requires IsConfiguredRoot(root)
    ensures ExpectedWorkspaceRoot(root)
         == if NoDoubledSeparator(Remote(root)) then Some(Lower(Remote(root) + PROJECTS)) else None
  {
    var whole := Remote(root) + PROJECTS;
    RemoteShape(root);
    StripExact(whole, |whole|);
    assert whole[..|whole|] == whole;
    DrivePathExactly(whole);
    DoubledOnlyInside(Remote(root));
  }

  /** The status check binds the reply to the workspace exactly when the root has no doubled
      separator; with one, only replies whose own root has no normal form compare equal. */
  lemma WorkspaceBinding(root: string, reported: Option<string>)
    requires IsConfiguredRoot(root)
    ensures Normalize(reported) == ExpectedWorkspaceRoot(root) <==>
      if NoDoubledSeparator(Remote(root))
      then reported.Some? && Spells(reported.value, Lower(Remote(root) + PROJECTS))
      else Normalize(reported).None?
  {
    ExpectedRootExactly(root);
    if NoDoubledSeparator(Remote(root)) {
      NormalIsSpelled(Remote(root) + PROJECTS);
      if reported.Some? {
        NormalizeExactly(reported.value, Lower(Remote(root) + PROJECTS));
      }
    }
  }

  /** The accepted root `C:/a//b` is one without a normal form. */
  lemma DoubledSeparatorHasNoRoot()
    ensures IsConfiguredRoot("C:/a//b") && ExpectedWorkspaceRoot("C:/a//b").None?
  {
    var root := "C:/a//b";
    var whole := Backslashed(root);
    assert whole == "C:\\a\\\\b";
    StripExact(whole, |whole|);
    assert whole[..|whole|] == whole;
    assert whole[4] == '\\' && whole[5] == '\\';
    ExpectedRootExactly(root);
  }

  // ---------- Which paths are accepted ----------

  /** The names a path may have between its separators. */
  predicate IsName(s: string) {
    && s != "" && s != "." && s != ".."
    && forall c :: c in s ==> 'A' <= c <= 'Z' || 'a' <= c <= 'z' || '0' <= c <= '9' || c in "_@.-"
  }

  lemma NamesAreSegments(s: string)
    ensures IsName(s) <==> IsSegment(s)
  {
    assert forall c :: c in "_@.-" <==> c == '_' || c == '@' || c == '.' || c == '-';
    if IsName(s) {
      assert forall i :: 0 <= i < |s| ==> s[i] in s;
    }
  }

  lemma BuiltCandidate(path: string)
    requires path != [] && IsLetter(path[0]) && '/' !in path && path[|path| - 1] != '\\'
    ensures Candidate(path) == path
  {
    assert Backslashed(path) == path;
    StripExact(path, |path|);
    assert path[..|path|] == path;
  }

  lemma BuiltPath(letter: char, names: seq<string>, path: string)
    requires IsLetter(letter) && names != [] && names[|names| - 1] != ""
    requires forall i :: 0 <= i < |names| ==> '\\' !in names[i] && '/' !in names[i]
    requires path == [letter] + ":\\" + Rejoin(names, '\\')
    ensures Candidate(path) == path
  {
    RejoinMembers(names, '\\', '/');
    LastOfBoth([letter] + ":\\" + Terminated(names[..|names| - 1], '\\'), names[|names| - 1]);
    assert path == [letter] + ":\\" + Terminated(names[..|names| - 1], '\\') + names[|names| - 1];
    assert path[0] == letter;
    BuiltCandidate(path);
  }

  /** A drive letter, a colon and names between separators are accepted, and no other parts are. */
  lemma BuiltExactly(letter: char, names: seq<string>)
    requires IsLetter(letter) && names != [] && names[|names| - 1] != ""
    requires forall i :: 0 <= i < |names| ==> '\\' !in names[i] && '/' !in names[i]
    ensures var path := [letter] + ":\\" + Rejoin(names, '\\');
      Normalize(Some(path)) == if forall i :: 0 <= i < |names| ==> IsName(names[i]) then Some(Lower(path)) else None
  {
    var rest := Rejoin(names, '\\');
    var path := [letter] + ":\\" + rest;
    BuiltPath(letter, names, path);
    SplitRejoin(names, '\\');
    assert path[3..] == rest && path[0] == letter;
    forall i | 0 <= i < |names| ensures IsName(names[i]) <==> IsSegment(names[i]) {
      NamesAreSegments(names[i]);
    }
  }
}
