/**
 The bounded text buffers of the Windows client (apps/windows/ProcessSupport.cs).  Lengths in bytes
 follow the replacement encoder: one to three bytes a unit (section 3 of RFC 3629), four for a
 surrogate pair (section 2 of RFC 2781), three for a lone surrogate, which becomes U+FFFD.
 */
module Buffers {
  import opened Wrappers
  import opened Text

  predicate IsHigh(u: CodeUnit) {
    0xD800 <= u < 0xDC00
  }

  predicate IsLow(u: CodeUnit) {
    0xDC00 <= u < 0xE000
  }

  predicate StartsWithPair(s: Utf16) {
    |s| >= 2 && IsHigh(s[0]) && IsLow(s[1])
  }

  function UnitBytes(u: CodeUnit): nat {
    if u < 0x80 then 1 else if u < 0x800 then 2 else 3
  }

  function ByteCount(s: Utf16): nat {
    if s == [] then 0
    else if StartsWithPair(s) then 4 + ByteCount(s[2..])
    else UnitBytes(s[0]) + ByteCount(s[1..])
  }

  /** Well-formed UTF-16: every surrogate belongs to a pair. */
  predicate WellFormed(s: Utf16) {
    s == [] || if StartsWithPair(s) then WellFormed(s[2..])
               else !IsHigh(s[0]) && !IsLow(s[0]) && WellFormed(s[1..])
  }

  ghost predicate IsSuffix(s: Utf16, whole: Utf16) {
    |s| <= |whole| && s == whole[|whole| - |s|..]
  }

  // ---------- Byte lengths ----------

  lemma {:induction false} BytesPerUnit(s: Utf16)
    ensures |s| <= ByteCount(s) <= 3 * |s|
  {
    if s != [] {
      BytesPerUnit(if StartsWithPair(s) then s[2..] else s[1..]);
    }
  }

  /** A longer stream never has fewer bytes, even when the boundary splits a surrogate pair. */
  lemma {:induction false} PrefixBytes(p: Utf16, q: Utf16)
    ensures ByteCount(p) <= ByteCount(p + q)
  {
    var s := p + q;
    if |p| >= 2 || (|p| == 1 && !StartsWithPair(s)) {
      var k := if StartsWithPair(s) then 2 else 1;
      assert s[k..] == p[k..] + q;
      PrefixBytes(p[k..], q);
    }
  }

  /** What the replacement encoder encodes: the scalar of a pair, U+FFFD for a lone surrogate. */
  function Scalars(s: Utf16): (r: seq<nat>)
    ensures forall i :: 0 <= i < |r| ==> r[i] < 0x11_0000
  {
    if s == [] then []
    else if StartsWithPair(s) then
      [0x1_0000 + 0x400 * (s[0] as nat - 0xD800) + (s[1] as nat - 0xDC00)] + Scalars(s[2..])
    else [if 0xD800 <= s[0] < 0xE000 then 0xFFFD else s[0] as nat] + Scalars(s[1..])
  }

  /** The bytes of one scalar (section 3 of RFC 3629). */
  function Encode(c: nat): (bytes: seq<Byte>)
    requires c < 0x11_0000
  {
    var last := (0x80 + c % 0x40) as Byte;
    if c <= 0x7F then [c as Byte]
    else if c <= 0x7FF then [(0xC0 + c / 0x40) as Byte, last]
    else if c <= 0xFFFF then [(0xE0 + c / 0x1000) as Byte, (0x80 + c / 0x40 % 0x40) as Byte, last]
    else [(0xF0 + c / 0x4_0000) as Byte, (0x80 + c / 0x1000 % 0x40) as Byte, (0x80 + c / 0x40 % 0x40) as Byte, last]
  }

  function EncodeAll(scalars: seq<nat>): seq<Byte>
    requires forall i :: 0 <= i < |scalars| ==> scalars[i] < 0x11_0000
  {
    if scalars == [] then [] else Encode(scalars[0]) + EncodeAll(scalars[1..])
  }

  /** The byte count is the length of the UTF-8 text. */
  lemma {:induction false} ByteCountIsUtf8(s: Utf16)
    ensures ByteCount(s) == |EncodeAll(Scalars(s))|
  {
    if s != [] {
      ByteCountIsUtf8(if StartsWithPair(s) then s[2..] else s[1..]);
      assert Scalars(s)[1..] == Scalars(if StartsWithPair(s) then s[2..] else s[1..]);
    }
  }

  // ---------- Well-formedness ----------

  lemma {:induction false} WellFormedConcat(s: Utf16, t: Utf16)
    requires WellFormed(s) && WellFormed(t)
    ensures WellFormed(s + t)
  {
    if s == [] {
      assert s + t == t;
    } else {
      var k := if StartsWithPair(s) then 2 else 1;
      assert (s + t)[k..] == s[k..] + t;
      WellFormedConcat(s[k..], t);
    }
  }

  predicate SplitsPair(s: Utf16, i: nat)
    requires i <= |s|
  {
    0 < i < |s| && IsLow(s[i]) && IsHigh(s[i - 1])
  }

  lemma {:induction false} WellFormedSuffix(s: Utf16, i: nat)
    requires WellFormed(s) && i <= |s| && !SplitsPair(s, i)
    ensures WellFormed(s[i..])
  {
    if i > 0 {
      var k := if StartsWithPair(s) then 2 else 1;
      assert i >= k;
      assert s[k..][i - k..] == s[i..];
      WellFormedSuffix(s[k..], i - k);
    } else {
      assert s[i..] == s;
    }
  }

  // ---------- BoundedLog ----------

  /** How many units one pass of the trimming loop drops. */
  function Cut(s: Utf16): (n: nat)
    requires s != []
    ensures 1 <= n <= |s|
    ensures WellFormed(s) ==> !SplitsPair(s, n)
  {
    var eighth := |s| / 8;
    var remove := if eighth > 1 then eighth else 1;
    if remove < |s| && IsLow(s[remove]) && IsHigh(s[remove - 1]) then remove + 1 else remove
  }

  function Trimmed(s: Utf16, maximum: int): Utf16 {
    if ByteCount(s) > maximum && |s| > 0 then Trimmed(s[Cut(s)..], maximum) else s
  }

  lemma {:induction false} TrimmedFits(s: Utf16, maximum: int)
    ensures IsSuffix(Trimmed(s, maximum), s)
    ensures ByteCount(Trimmed(s, maximum)) <= maximum || (maximum < 0 && Trimmed(s, maximum) == [])
    ensures WellFormed(s) ==> WellFormed(Trimmed(s, maximum))
    decreases |s|
  {
    if ByteCount(s) > maximum && |s| > 0 {
      TrimmedFits(s[Cut(s)..], maximum);
      if WellFormed(s) {
        WellFormedSuffix(s, Cut(s));
      }
    }
  }

  /** Trimming is not wasteful: what is kept has at least about 7/24 of the limit in units. */
  lemma {:induction false} TrimmedKeepsEnough(s: Utf16, maximum: int)
    ensures Trimmed(s, maximum) == s || 24 * |Trimmed(s, maximum)| >= 7 * maximum - 48
    decreases |s|
  {
    if ByteCount(s) > maximum && |s| > 0 {
      BytesPerUnit(s);
      TrimmedKeepsEnough(s[Cut(s)..], maximum);
    }
  }

  /** An eighth of the units, at least one. */
  predicate IsEighth(s: Utf16, k: nat) {
    (k == 1 && 0 < |s| < 16) || (2 <= k && 8 * k <= |s| < 8 * k + 8)
  }

  /** One pass over a text that is too long: an eighth goes, and the low half of a pair it would split. */
  ghost predicate DropsAnEighth(s: Utf16, t: Utf16, maximum: int) {
    && ByteCount(s) > maximum
    && exists k :: IsEighth(s, k) && t == s[if SplitsPair(s, k) then k + 1 else k..]
  }

  /** The texts the passes go through, up to one that fits or is empty. */
  ghost predicate Passes(texts: seq<Utf16>, maximum: int) {
    && texts != []
    && (forall i :: 0 <= i < |texts| - 1 ==> DropsAnEighth(texts[i], texts[i + 1], maximum))
    && (ByteCount(texts[|texts| - 1]) <= maximum || texts[|texts| - 1] == [])
  }

  ghost predicate TrimsTo(s: Utf16, t: Utf16, maximum: int) {
    exists texts :: Passes(texts, maximum) && texts[0] == s && texts[|texts| - 1] == t
  }

  lemma CutDropsAnEighth(s: Utf16, maximum: int)
    requires ByteCount(s) > maximum && s != []
    ensures DropsAnEighth(s, s[Cut(s)..], maximum)
  {
    var k := if |s| / 8 > 1 then |s| / 8 else 1;
    assert IsEighth(s, k);
  }

  /** Trimming is these passes, one after another, and no more: a text that fits is kept whole. */
  lemma {:induction false} TrimmedExactly(s: Utf16, maximum: int)
    ensures TrimsTo(s, Trimmed(s, maximum), maximum)
    ensures ByteCount(s) <= maximum ==> Trimmed(s, maximum) == s
    decreases |s|
  {
    if ByteCount(s) > maximum && |s| > 0 {
      var rest := s[Cut(s)..];
      TrimmedExactly(rest, maximum);
      CutDropsAnEighth(s, maximum);
      var texts :| Passes(texts, maximum) && texts[0] == rest && texts[|texts| - 1] == Trimmed(rest, maximum);
      var all := [s] + texts;
      forall i | 0 <= i < |all| - 1
        ensures DropsAnEighth(all[i], all[i + 1], maximum)
      {
        if i > 0 {
          assert all[i] == texts[i - 1] && all[i + 1] == texts[i - 1 + 1];
        }
      }
      assert Passes(all, maximum);
    } else {
      assert Passes([s], maximum);
    }
  }

  /** A log whose whole stream fits is the whole stream. */
  lemma {:induction false} LogKeepsWhatFits(pieces: seq<Utf16>, maximum: int)
    requires ByteCount(Flatten(pieces)) <= maximum
    ensures LogAll(pieces, maximum) == Flatten(pieces)
  {
    if pieces != [] {
      var before := pieces[..|pieces| - 1];
      PrefixBytes(Flatten(before), pieces[|pieces| - 1]);
      LogKeepsWhatFits(before, maximum);
      TrimmedExactly(Flatten(pieces), maximum);
    }
  }

  function Flatten(pieces: seq<Utf16>): Utf16 {
    if pieces == [] then [] else Flatten(pieces[..|pieces| - 1]) + pieces[|pieces| - 1]
  }

  /** The text of a log after `pieces`, one `Append` at a time. */
  function LogAll(pieces: seq<Utf16>, maximum: int): Utf16 {
    if pieces == [] then []
    else Trimmed(LogAll(pieces[..|pieces| - 1], maximum) + pieces[|pieces| - 1], maximum)
  }

  lemma SuffixThroughAppend(t: Utf16, s: Utf16, whole: Utf16, last: Utf16)
    requires IsSuffix(s, whole) && IsSuffix(t, s + last)
    ensures IsSuffix(t, whole + last)
  {
    var cut := |whole| - |s|;
    assert whole + last == whole[..cut] + (s + last);
  }

  /** Main result over all append sequences: the log holds the end of everything appended, within the
      limit, and never splits a surrogate pair of well-formed input. */
  lemma {:induction false} LogHoldsBoundedSuffix(pieces: seq<Utf16>, maximum: int)
    ensures var text := LogAll(pieces, maximum);
      && IsSuffix(text, Flatten(pieces))
      && (ByteCount(text) <= maximum || (maximum < 0 && text == []))
      && ((forall p :: p in pieces ==> WellFormed(p)) ==> WellFormed(text))
  {
    if pieces != [] {
      var before, last := pieces[..|pieces| - 1], pieces[|pieces| - 1];
      LogHoldsBoundedSuffix(before, maximum);
      TrimmedFits(LogAll(before, maximum) + last, maximum);
      SuffixThroughAppend(LogAll(pieces, maximum), LogAll(before, maximum), Flatten(before), last);
      if forall p :: p in pieces ==> WellFormed(p) {
        assert forall p :: p in before ==> p in pieces;
        assert last in pieces;
        WellFormedConcat(LogAll(before, maximum), last);
      }
    }
  }

  /** The log.  `pieces` is every value appended, null counting as empty. */
  class BoundedLog {
    const maximumBytes: int
    var text: Utf16
    ghost var pieces: seq<Utf16>

    ghost predicate Valid()
      reads this
    {
      text == LogAll(pieces, maximumBytes)
    }

    constructor (maximumBytes: int)
      ensures Valid() && this.maximumBytes == maximumBytes && pieces == []
    {
      this.maximumBytes := maximumBytes;
      text := [];
      pieces := [];
    }

    method Append(value: Option<Utf16>) returns (result: Utf16)
      requires Valid()
      modifies this
      ensures Valid() && result == text
      ensures pieces == old(pieces) + [if value.Some? then value.value else []]
      ensures TrimsTo(old(text) + pieces[|old(pieces)|], text, maximumBytes)
      ensures ByteCount(old(text) + pieces[|old(pieces)|]) <= maximumBytes ==> text == old(text) + pieces[|old(pieces)|]
      ensures ByteCount(Flatten(pieces)) <= maximumBytes ==> text == Flatten(pieces)
      ensures IsSuffix(text, Flatten(pieces))
      ensures ByteCount(text) <= maximumBytes || (maximumBytes < 0 && text == [])
      ensures |text| < |old(text)| + |pieces[|old(pieces)|]| ==> 24 * |text| >= 7 * maximumBytes - 48
    {
      ghost var piece := if value.Some? then value.value else [];
      ghost var whole := text + piece;
      if value.Some? {
        text := text + value.value;
      }
      assert text == whole;
      while ByteCount(text) > maximumBytes && |text| > 0
        invariant Trimmed(text, maximumBytes) == Trimmed(whole, maximumBytes)
        invariant pieces == old(pieces)
        decreases |text|
      {
        var remove := if |text| / 8 > 1 then |text| / 8 else 1;
        if remove < |text| && IsLow(text[remove]) && IsHigh(text[remove - 1]) {
          remove := remove + 1;
        }
        text := text[if remove < |text| then remove else |text|..];
      }
      pieces := pieces + [piece];
      assert pieces[..|pieces| - 1] == old(pieces);
      LogHoldsBoundedSuffix(pieces, maximumBytes);
      TrimmedKeepsEnough(whole, maximumBytes);
      TrimmedExactly(whole, maximumBytes);
      if ByteCount(Flatten(pieces)) <= maximumBytes {
        LogKeepsWhatFits(pieces, maximumBytes);
      }
      return text;
    }
  }

  // ---------- BoundedCapture ----------

  datatype Captured = Captured(text: Utf16, overflowed: bool)

  /** The state of a capture after `pieces`, one `Append` at a time. */
  function CaptureAll(pieces: seq<Utf16>, maximum: int): Captured {
    if pieces == [] then Captured([], false)
    else
      var before := CaptureAll(pieces[..|pieces| - 1], maximum);
      var candidate := before.text + pieces[|pieces| - 1];
      if before.overflowed then before
      else if ByteCount(candidate) > maximum then Captured([], true)
      else Captured(candidate, false)
  }

  /** Main result: only the concatenated stream matters, whatever the chunking. */
  lemma {:induction false} CaptureIsChunkIndependent(pieces: seq<Utf16>, maximum: int)
    ensures CaptureAll(pieces, maximum)
         == if pieces != [] && ByteCount(Flatten(pieces)) > maximum then Captured([], true)
            else Captured(Flatten(pieces), false)
  {
    if pieces != [] {
      var before := pieces[..|pieces| - 1];
      CaptureIsChunkIndependent(before, maximum);
      PrefixBytes(Flatten(before), pieces[|pieces| - 1]);
    }
  }

  /** The capture.  `pieces` is every non-null value appended. */
  class BoundedCapture {
    const maximumBytes: int
    var text: Utf16
    var overflowed: bool
    ghost var pieces: seq<Utf16>

    ghost predicate Valid()
      reads this
    {
      Captured(text, overflowed) == CaptureAll(pieces, maximumBytes)
    }

    constructor (maximumBytes: int)
      ensures Valid() && this.maximumBytes == maximumBytes && pieces == []
    {
      this.maximumBytes := maximumBytes;
      text := [];
      overflowed := false;
      pieces := [];
    }

    method Append(value: Option<Utf16>)
      requires Valid()
      modifies this
      ensures Valid()
      ensures pieces == if value.Some? then old(pieces) + [value.value] else old(pieces)
      ensures value.Some? ==> (overflowed <==> ByteCount(Flatten(pieces)) > maximumBytes)
      ensures value.Some? ==> text == if overflowed then [] else Flatten(pieces)
    {
      if value.None? {
        return;
      }
      pieces := pieces + [value.value];
      assert pieces[..|pieces| - 1] == old(pieces);
      CaptureIsChunkIndependent(pieces, maximumBytes);
      if overflowed {
        return;
      }
      var candidate := text + value.value;
      if ByteCount(candidate) > maximumBytes {
        overflowed := true;
        text := [];
        return;
      }
      text := candidate;
    }
  }
}
