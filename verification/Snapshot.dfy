/**
 Reading a newline-delimited log while another process is still appending to it
 (scripts/developer-runner-github-setup-e2e.py): the unterminated last record is dropped, every
 other record is decoded strictly.
 */
module Snapshot {
  import opened Splitting
  import opened Text

  const NEWLINE: Byte := 10

  /** What one completed record yields: strict UTF-8 and JSON decoding either succeeds or raises. */
  datatype Decoded<T> = Value(value: T) | Malformed

  datatype Outcome<T> = Records(values: seq<T>) | Raised

  function Completed(data: seq<Byte>): seq<seq<Byte>> {
    var segments := Split(data, NEWLINE);
    segments[..|segments| - 1]
  }

  function DecodeAll<T>(segments: seq<seq<Byte>>, decode: seq<Byte> -> Decoded<T>): Outcome<T> {
    if segments == [] then Records([])
    else
      var front := DecodeAll(segments[..|segments| - 1], decode);
      var last := decode(segments[|segments| - 1]);
      if front.Records? && last.Value? then Records(front.values + [last.value]) else Raised
  }

  /** Value i is what decoding record i yields, and there are no others. */
  ghost predicate Decodes<T>(segments: seq<seq<Byte>>, decode: seq<Byte> -> Decoded<T>, values: seq<T>) {
    |values| == |segments| && forall i :: 0 <= i < |segments| ==> decode(segments[i]) == Value(values[i])
  }

  ghost predicate AnyMalformed<T>(segments: seq<seq<Byte>>, decode: seq<Byte> -> Decoded<T>) {
    exists i :: 0 <= i < |segments| && decode(segments[i]).Malformed?
  }

  /** The values are the decodings in order, or the first malformed record raises. */
  lemma {:induction false} DecodeAllExactly<T>(segments: seq<seq<Byte>>, decode: seq<Byte> -> Decoded<T>)
    ensures DecodeAll(segments, decode).Raised? <==> AnyMalformed(segments, decode)
    ensures DecodeAll(segments, decode).Records? ==> Decodes(segments, decode, DecodeAll(segments, decode).values)
  {
    if segments != [] {
      var front := segments[..|segments| - 1];
      DecodeAllExactly(front, decode);
      assert forall i :: 0 <= i < |front| ==> segments[i] == front[i];
      if AnyMalformed(front, decode) {
        var i :| 0 <= i < |front| && decode(front[i]).Malformed?;
        assert decode(segments[i]).Malformed?;
      }
    }
  }

  method ParseSnapshot<T>(data: seq<Byte>, decode: seq<Byte> -> Decoded<T>) returns (outcome: Outcome<T>)
    ensures outcome == DecodeAll(Completed(data), decode)
    ensures outcome.Raised? <==> AnyMalformed(Completed(data), decode)
    ensures outcome.Records? ==> Decodes(Completed(data), decode, outcome.values)
  {
    DecodeAllExactly(Completed(data), decode);
    if data == [] {
      return Records([]);
    }
    var segments := Split(data, NEWLINE);
    var completed: seq<seq<Byte>>;
    if segments[|segments| - 1] == [] {
      completed := segments[..|segments| - 1];
    } else {
      completed := if |segments| > 1 then segments[..|segments| - 1] else [];
    }
    assert completed == Completed(data);
    var results := [];
    for i := 0 to |completed|
      invariant DecodeAll(completed[..i], decode) == Records(results)
    {
      assert completed[..i + 1][..i] == completed[..i];
      var value := decode(completed[i]);
      if value.Malformed? {
        RaisedStays(completed, i + 1, decode);
        return Raised;
      }
      results := results + [value.value];
    }
    assert completed[..|completed|] == completed;
    return Records(results);
  }

  lemma {:induction false} RaisedStays<T>(segments: seq<seq<Byte>>, k: nat, decode: seq<Byte> -> Decoded<T>)
    requires k <= |segments| && DecodeAll(segments[..k], decode).Raised?
    ensures DecodeAll(segments, decode).Raised?
  {
    if k == |segments| {
      assert segments[..k] == segments;
    } else {
      var front := segments[..|segments| - 1];
      assert front[..k] == segments[..k];
      RaisedStays(front, k, decode);
    }
  }

  /** The log a writer has produced: each record followed by a newline. */
  function Log(records: seq<seq<Byte>>): seq<Byte> {
    Terminated(records, NEWLINE)
  }

  /** The newline of record k - 1 lies before the cut, that of record k does not. */
  predicate CutsAfter(records: seq<seq<Byte>>, c: nat, k: nat) {
    k <= |records| && |Log(records[..k])| <= c && (k < |records| ==> c < |Log(records[..k + 1])|)
  }

  /** How many records end before the cut. */
  function Ended(records: seq<seq<Byte>>, c: nat): (k: nat)
    ensures k <= |records|
  {
    if records == [] || c <= |records[0]| then 0 else 1 + Ended(records[1..], c - |records[0]| - 1)
  }

  lemma LogOfFront(records: seq<seq<Byte>>, k: nat)
    requires 0 < k <= |records|
    ensures |Log(records[..k])| == |records[0]| + 1 + |Log(records[1..][..k - 1])|
  {
    assert records[..k][1..] == records[1..][..k - 1];
  }

  /** Every cut has exactly one such number. */
  lemma {:induction false} EndedExactly(records: seq<seq<Byte>>, c: nat, k: nat)
    requires c <= |Log(records)|
    ensures CutsAfter(records, c, k) <==> k == Ended(records, c)
  {
    if records != [] {
      LogOfFront(records, 1);
      if 0 < k <= |records| {
        LogOfFront(records, k);
        if k < |records| {
          LogOfFront(records, k + 1);
        }
      }
      if |records[0]| < c && k > 0 {
        EndedExactly(records[1..], c - |records[0]| - 1, k - 1);
      }
    }
  }

  /** Main result: a snapshot cut at any byte holds exactly the records whose newline lies before the
      cut, and the whole log (c == |Log(records)|) round-trips. */
  lemma SnapshotAtCut(records: seq<seq<Byte>>, c: nat)
    requires Without(records, NEWLINE) && c <= |Log(records)|
    ensures Completed(Log(records)[..c]) == records[..Ended(records, c)]
    ensures c == |Log(records)| ==> Ended(records, c) == |records|
  {
    EndedExactly(records, c, Ended(records, c));
    CompletedAtCut(records, c, Ended(records, c));
    assert records[..|records|] == records;
    EndedExactly(records, c, |records|);
  }

  /** At any cut of a log a reader gets the decodings of exactly the records that end before it, unless one
      of those is malformed. */
  lemma ValuesAtCut<T>(records: seq<seq<Byte>>, c: nat, decode: seq<Byte> -> Decoded<T>)
    requires Without(records, NEWLINE) && c <= |Log(records)|
    ensures var outcome, read := DecodeAll(Completed(Log(records)[..c]), decode), records[..Ended(records, c)];
      if AnyMalformed(read, decode) then outcome.Raised? else outcome.Records? && Decodes(read, decode, outcome.values)
  {
    SnapshotAtCut(records, c);
    DecodeAllExactly(records[..Ended(records, c)], decode);
  }

  lemma {:induction false} CompletedAtCut(records: seq<seq<Byte>>, c: nat, k: nat)
    requires Without(records, NEWLINE) && c <= |Log(records)| && CutsAfter(records, c, k)
    ensures Completed(Log(records)[..c]) == records[..k]
  {
    LogSplits(records, k);
    var tail := Log(records)[|Log(records[..k])|..c];
    if k < |records| {
      LogSplits(records[..k + 1], k);
      assert records[..k + 1][..k] == records[..k] && records[..k + 1][k..] == [records[k]];
      var rest := Log(records[k..]);
      LogOfOne(records[k]);
      assert rest[..|records[k]|] == records[k];
      assert tail == rest[..|tail|] == records[k][..|tail|];
    } else {
      assert records[..k] == records;
    }
    assert Log(records)[..c] == Log(records[..k]) + tail;
    SplitInverts(records[..k], tail, NEWLINE);
  }

  lemma LogOfOne(record: seq<Byte>)
    ensures Log([record]) == record + [NEWLINE]
  {
    var none: seq<seq<Byte>> := [record][1..];
    assert Log(none) == [];
    assert Log([record]) == record + [NEWLINE] + Log(none);
  }

  lemma {:induction false} LogSplits(records: seq<seq<Byte>>, k: nat)
    requires k <= |records|
    ensures Log(records) == Log(records[..k]) + Log(records[k..])
  {
    if k == 0 {
      assert records[0..] == records;
    } else {
      LogSplits(records[1..], k - 1);
      assert records[..k][1..] == records[1..][..k - 1];
      assert records[1..][k - 1..] == records[k..];
    }
  }

  /** Successive snapshots of any append-only byte log form a prefix chain. */
  lemma SnapshotsGrow(earlier: seq<Byte>, appended: seq<Byte>)
    ensures Completed(earlier) <= Completed(earlier + appended)
  {
    var e, later := Split(earlier, NEWLINE), Split(earlier + appended, NEWLINE);
    SplitDecomposes(earlier, NEWLINE);
    var tail := e[|e| - 1] + appended;
    var t := Split(tail, NEWLINE);
    SplitDecomposes(tail, NEWLINE);
    var front := Completed(earlier) + Completed(tail);
    LogSplits(front, |e| - 1);
    assert front[..|e| - 1] == Completed(earlier) && front[|e| - 1..] == Completed(tail);
    assert earlier + appended == Log(Completed(earlier)) + tail;
    assert earlier + appended == Log(front) + t[|t| - 1];
    SplitInverts(front, t[|t| - 1], NEWLINE);
    assert Completed(earlier + appended) == front;
  }

  /** So a reader that succeeds on a later snapshot succeeds on every earlier one, and what it had
      read is a prefix of what it reads now. */
  lemma ReadersSeePrefixes<T>(earlier: seq<Byte>, appended: seq<Byte>, decode: seq<Byte> -> Decoded<T>)
    requires DecodeAll(Completed(earlier + appended), decode).Records?
    ensures DecodeAll(Completed(earlier), decode).Records?
    ensures DecodeAll(Completed(earlier), decode).values <= DecodeAll(Completed(earlier + appended), decode).values
  {
    SnapshotsGrow(earlier, appended);
    var all := Completed(earlier + appended);
    assert all[..|Completed(earlier)|] == Completed(earlier);
    DecodePrefix(all, |Completed(earlier)|, decode);
  }

  lemma {:induction false} DecodePrefix<T>(segments: seq<seq<Byte>>, k: nat, decode: seq<Byte> -> Decoded<T>)
    requires k <= |segments| && DecodeAll(segments, decode).Records?
    ensures DecodeAll(segments[..k], decode).Records?
    ensures DecodeAll(segments[..k], decode).values <= DecodeAll(segments, decode).values
  {
    if k == |segments| {
      assert segments[..k] == segments;
    } else {
      var front := segments[..|segments| - 1];
      assert front[..k] == segments[..k];
      DecodePrefix(front, k, decode);
    }
  }
}
