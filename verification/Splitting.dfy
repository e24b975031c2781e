/** Splitting a sequence at every occurrence of a separator, as `bytes.split` and `str.split` do. */
module Splitting {

  function Split<T(==)>(s: seq<T>, sep: T): (parts: seq<seq<T>>)
    ensures |parts| >= 1
  {
    if s == [] then [[]]
    else if s[0] == sep then [[]] + Split(s[1..], sep)
    else
      var rest := Split(s[1..], sep);
      [[s[0]] + rest[0]] + rest[1..]
  }

  ghost predicate Without<T>(parts: seq<seq<T>>, sep: T) {
    forall i :: 0 <= i < |parts| ==> sep !in parts[i]
  }

  /** Every part but the last closed by one separator. */
  function Terminated<T>(parts: seq<seq<T>>, sep: T): seq<T> {
    if parts == [] then [] else parts[0] + [sep] + Terminated(parts[1..], sep)
  }

  lemma {:induction false} SplitPart<T>(part: seq<T>, tail: seq<T>, sep: T)
    requires sep !in part
    ensures Split(part + [sep] + tail, sep) == [part] + Split(tail, sep)
  {
    var s := part + [sep] + tail;
    if part == [] {
      assert s[1..] == tail;
    } else {
      assert s[1..] == part[1..] + [sep] + tail;
      SplitPart(part[1..], tail, sep);
      assert [part[0]] + part[1..] == part;
    }
  }

  lemma {:induction false} SplitNone<T>(tail: seq<T>, sep: T)
    requires sep !in tail
    ensures Split(tail, sep) == [tail]
  {
    if tail != [] {
      SplitNone(tail[1..], sep);
      assert [tail[0]] + tail[1..] == tail;
    }
  }

  /** Splitting undoes terminating. */
  lemma {:induction false} SplitInverts<T>(parts: seq<seq<T>>, tail: seq<T>, sep: T)
    requires Without(parts, sep) && sep !in tail
    ensures Split(Terminated(parts, sep) + tail, sep) == parts + [tail]
  {
    if parts == [] {
      SplitNone(tail, sep);
      assert Terminated(parts, sep) + tail == tail;
    } else {
      var rest := Terminated(parts[1..], sep) + tail;
      assert Terminated(parts, sep) + tail == parts[0] + [sep] + rest;
      SplitPart(parts[0], rest, sep);
      SplitInverts(parts[1..], tail, sep);
      assert [parts[0]] + (parts[1..] + [tail]) == parts + [tail];
    }
  }

  lemma {:induction false} SplitFree<T>(s: seq<T>, sep: T)
    ensures Without(Split(s, sep), sep)
  {
    if s != [] {
      SplitFree(s[1..], sep);
    }
  }

  /** The parts closed by separators, and the last part, are the input again. */
  lemma {:induction false} SplitRejoins<T>(s: seq<T>, sep: T)
    ensures var parts := Split(s, sep);
      s == Terminated(parts[..|parts| - 1], sep) + parts[|parts| - 1]
  {
    if s != [] {
      var rest := Split(s[1..], sep);
      SplitRejoins(s[1..], sep);
      var parts := Split(s, sep);
      var front := rest[..|rest| - 1];
      if s[0] == sep {
        assert parts[..|parts| - 1] == [[]] + front;
        assert ([[]] + front)[1..] == front;
      } else if |rest| > 1 {
        assert parts[..|parts| - 1] == [[s[0]] + rest[0]] + front[1..];
        assert ([[s[0]] + rest[0]] + front[1..])[1..] == front[1..];
      }
    }
  }

  lemma SplitDecomposes<T>(s: seq<T>, sep: T)
    ensures var parts := Split(s, sep);
      Without(parts, sep) && s == Terminated(parts[..|parts| - 1], sep) + parts[|parts| - 1]
  {
    SplitFree(s, sep);
    SplitRejoins(s, sep);
  }

  /** The parts with one separator between each two, as `str.join` does. */
  function Rejoin<T>(parts: seq<seq<T>>, sep: T): seq<T>
    requires parts != []
  {
    Terminated(parts[..|parts| - 1], sep) + parts[|parts| - 1]
  }

  lemma SplitRejoin<T>(parts: seq<seq<T>>, sep: T)
    requires parts != [] && Without(parts, sep)
    ensures Split(Rejoin(parts, sep), sep) == parts
  {
    SplitInverts(parts[..|parts| - 1], parts[|parts| - 1], sep);
    assert parts[..|parts| - 1] + [parts[|parts| - 1]] == parts;
  }

  /** A unit is in the whole exactly when it is the separator between two parts or in one of them. */
  lemma {:induction false} RejoinMembers<T>(parts: seq<seq<T>>, sep: T, x: T)
    requires parts != []
    ensures x in Rejoin(parts, sep) <==> (x == sep && |parts| > 1) || exists i :: 0 <= i < |parts| && x in parts[i]
  {
    if |parts| == 1 {
      assert Rejoin(parts, sep) == parts[0];
    } else {
      var rest := parts[1..];
      RejoinMembers(rest, sep, x);
      RejoinHead(parts, sep);
      assert forall i :: 1 <= i < |parts| ==> parts[i] == rest[i - 1];
      if exists i :: 0 <= i < |rest| && x in rest[i] {
        var i :| 0 <= i < |rest| && x in rest[i];
        assert x in parts[i + 1];
      }
    }
  }

  lemma RejoinHead<T>(parts: seq<seq<T>>, sep: T)
    requires |parts| > 1
    ensures Rejoin(parts, sep) == parts[0] + [sep] + Rejoin(parts[1..], sep)
  {
    assert parts[..|parts| - 1][1..] == parts[1..][..|parts| - 2];
  }
}
