/** How a game reads its client's log: `sendGameWal` (client/internal/game/session.go) answers a
    query for an index with at most 16 entries, looking each one up on its own while the log may
    grow under it. */
module Paging {
  import opened Bytes
  import opened WalEntry
  import opened Stream
  import Files

  const PAGE: nat := 16

  /** The entries from an index on, at most a page of them. */
  function Batch(log: seq<Entry>, index: nat): (b: seq<Entry>)
    ensures |b| <= PAGE && (b == [] || index + |b| <= |log|)
  {
    if index >= |log| then [] else log[index..Files.Min(index + PAGE, |log|)]
  }

  /** What the loop sends from turn `i` on, when the log is `logs[i]` at turn `i`. The index wraps at
      32 bits. */
  function Turns(logs: seq<seq<Entry>>, index: uint32, i: nat): seq<Indexed>
    requires |logs| == PAGE && i <= PAGE
    decreases PAGE - i
  {
    if i == PAGE then []
    else
      var at := Add32(index, i);
      if at >= |logs[i]| then [] else [Indexed(at, logs[i][at])] + Turns(logs, index, i + 1)
  }

  /** The log at successive turns, growing and never full. */
  predicate Growing(logs: seq<seq<Entry>>) {
    && |logs| == PAGE
    && (forall i :: 0 <= i < PAGE ==> |logs[i]| < UINT32_MODULUS)
    && (forall i, j :: 0 <= i < j < PAGE ==> logs[i] <= logs[j])
  }

  /** `n` consecutive entries of a log with their indices. */
  function Window(log: seq<Entry>, at: nat, n: nat): (w: seq<Indexed>)
    requires at + n <= |log| < UINT32_MODULUS
    ensures |w| == n
  {
    seq(n, k requires 0 <= k < n => Indexed(at + k, log[at + k]))
  }

  lemma WindowCons(log: seq<Entry>, at: nat, n: nat)
    requires at + n + 1 <= |log| < UINT32_MODULUS
    ensures Window(log, at, n + 1) == [Indexed(at, log[at])] + Window(log, at + 1, n)
  {
  }

  lemma {:induction false} TurnsRun(logs: seq<seq<Entry>>, index: uint32, i: nat) returns (n: nat)
    requires Growing(logs) && |logs| == PAGE && i <= PAGE
    requires i > 0 ==> index + i <= |logs[i - 1]|
    ensures n <= PAGE - i && |Turns(logs, index, i)| == n
    ensures var last := logs[PAGE - 1];
            n > 0 ==> index + i + n <= |last| < UINT32_MODULUS && Turns(logs, index, i) == Window(last, index + i, n)
    ensures i < PAGE && index + i < |logs[i]| ==> n >= Files.Min(PAGE - i, |logs[i]| - (index + i))
    decreases PAGE - i
  {
    hide Turns, Window, Growing;
    n := 0;
    if i == PAGE {
      TurnsDone(logs, index);
    } else {
      GrowsAt(logs, i);
      if index + i < |logs[i]| {
        var more := TurnsRun(logs, index, i + 1);
        n := more + 1;
        TurnsCons(logs, index, i);
        WindowCons(logs[PAGE - 1], index + i, more);
      } else {
        TurnsStop(logs, index, i);
      }
    }
  }

  lemma GrowsAt(logs: seq<seq<Entry>>, i: nat)
    requires Growing(logs) && i < PAGE
    ensures |logs[i]| <= |logs[PAGE - 1]| < UINT32_MODULUS
    ensures forall x :: 0 <= x < |logs[i]| ==> logs[i][x] == logs[PAGE - 1][x]
    ensures i + 1 < PAGE ==> |logs[i]| <= |logs[i + 1]|
  {
    assert i < PAGE - 1 ==> logs[i] <= logs[PAGE - 1];
  }

  lemma TurnsDone(logs: seq<seq<Entry>>, index: uint32)
    requires |logs| == PAGE
    ensures Turns(logs, index, PAGE) == []
  {
  }

  lemma TurnsCons(logs: seq<seq<Entry>>, index: uint32, i: nat)
    requires Growing(logs) && i < PAGE && index + i < |logs[i]|
    ensures Turns(logs, index, i) == [Indexed(index + i, logs[i][index + i])] + Turns(logs, index, i + 1)
  {
    assert Add32(index, i) == index + i;
  }

  /** The loop stops at the end of the log, before the sum can wrap. */
  lemma TurnsStop(logs: seq<seq<Entry>>, index: uint32, i: nat)
    requires Growing(logs) && i < PAGE && index + i >= |logs[i]|
    requires i > 0 ==> index + i <= |logs[i - 1]|
    ensures Turns(logs, index, i) == []
  {
    assert index + i < UINT32_MODULUS;
    assert Add32(index, i) == index + i;
  }

  /** The `i`th entry of a page is the entry `i` places on, and the page ends where the log does. */
  lemma BatchAt(log: seq<Entry>, index: uint32, i: nat)
    requires |log| < UINT32_MODULUS && i < PAGE && i <= |Batch(log, index)|
    ensures Add32(index, i) == index + i
    ensures index + i < |log| <==> i < |Batch(log, index)|
    ensures i < |Batch(log, index)| ==> Batch(log, index)[i] == log[index + i]
  {
  }

  /** However the log grows during the loop, the game gets a contiguous run of it that starts at the
      index it asked for, never one the 32-bit sum wrapped to; at least what was there at the start
      and at most what is there at the end, up to a page. */
  lemma BatchContiguous(logs: seq<seq<Entry>>, index: uint32)
    requires Growing(logs)
    ensures var sent, first, last := Turns(logs, index, 0), logs[0], logs[PAGE - 1];
            && |Batch(first, index)| <= |sent| <= |Batch(last, index)|
            && (sent != [] ==> index + |sent| <= |last| && sent == Window(last, index, |sent|))
  {
    hide Turns, Window;
    var n := TurnsRun(logs, index, 0);
    GrowsAt(logs, 0);
  }

  /** When the log stays the same, that is exactly its page. */
  lemma BatchExact(log: seq<Entry>, index: uint32)
    requires |log| < UINT32_MODULUS
    ensures var sent := Turns(seq(PAGE, _ => log), index, 0);
            && |sent| == |Batch(log, index)|
            && forall k :: 0 <= k < |sent| ==> sent[k] == Indexed(index + k, Batch(log, index)[k])
  {
    hide Turns;
    BatchContiguous(seq(PAGE, _ => log), index);
  }

  // ---- Reading it all ------------------------------------------------------

  /** A game that keeps asking for the index it has reached, until it gets nothing. */
  function Download(log: seq<Entry>, held: seq<Entry>): seq<Entry>
    decreases |log| - |held|
  {
    var batch := Batch(log, |held|);
    if batch == [] then held else Download(log, held + batch)
  }

  /** How many of its queries were answered with something. */
  function Queries(log: seq<Entry>, held: nat): nat
    decreases |log| - held
  {
    var n := |Batch(log, held)|;
    if n == 0 then 0 else 1 + Queries(log, held + n)
  }

  /** A game that holds a prefix of the log ends up with the whole log, nothing skipped and nothing
      twice, ... */
  lemma {:induction false} DownloadsAll(log: seq<Entry>, held: seq<Entry>)
    requires held <= log
    ensures Download(log, held) == log
    decreases |log| - |held|
  {
    var batch := Batch(log, |held|);
    if batch != [] {
      assert held + batch == log[..|held| + |batch|];
      DownloadsAll(log, held + batch);
    }
  }

  /** ... after as many queries as there are pages. */
  lemma {:induction false} QueriesNeeded(log: seq<Entry>, held: nat)
    requires held <= |log|
    ensures Queries(log, held) == (|log| - held + 15) / 16
    decreases |log| - held
  {
    if held < |log| {
      QueriesNeeded(log, held + |Batch(log, held)|);
    }
  }
}
