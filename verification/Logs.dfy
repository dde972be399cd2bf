/** Reading a console log in chunks while it grows: the agent's half and the client's. */
module Logs {
  import opened Common
  import opened Text

  type Bytes = seq<bv8>

  const LOG_CHUNK: nat := 1048576

  /** Up to a chunk of the log from `offset`: nothing past its end, or when there is no log. */
  function Chunk(log: Bytes, offset: nat): (bytes: Bytes)
    ensures |bytes| <= LOG_CHUNK
    ensures offset <= |log| ==> log[..offset] + bytes <= log
    ensures offset <= |log| ==> offset + |bytes| == Min(offset + LOG_CHUNK, |log|)
    ensures offset <= |log| && |bytes| < LOG_CHUNK ==> log[..offset] + bytes == log
  {
    if offset >= |log| then [] else log[offset..Min(offset + LOG_CHUNK, |log|)]
  }

  /** One poll: when the agent looked at the VM's state, and when it then read the log. */
  datatype Poll = Poll(looked: nat, read: nat)

  /** The log at each moment, which is only ever added to. */
  ghost predicate Grows(file: seq<Bytes>) { forall i, j | 0 <= i <= j < |file| :: GoesOn(file, i, j) }

  /** What was written by the moment `i` is still there at `j`. */
  predicate GoesOn(file: seq<Bytes>, i: int, j: int)
    requires 0 <= i <= j < |file|
  {
    file[i] <= file[j]
  }

  /** Each poll looks before it reads, and comes after the one before. */
  ghost predicate InTime(polls: seq<Poll>, moments: nat) {
    && (forall k | 0 <= k < |polls| :: polls[k].looked <= polls[k].read < moments)
    && (forall j, k | 0 <= j < k < |polls| :: polls[j].read <= polls[k].looked)
  }

  /** How much of the log the first `k` polls have read. */
  ghost function OffsetAt(file: seq<Bytes>, polls: seq<Poll>, k: nat): nat
    requires InTime(polls, |file|) && k <= |polls|
  {
    if k == 0 then 0
    else Min(OffsetAt(file, polls, k - 1) + LOG_CHUNK, |file[polls[k - 1].read]|)
  }

  /** The poll reads all that is left of the log, which is short of a chunk. */
  ghost predicate ReadsShort(file: seq<Bytes>, polls: seq<Poll>, k: nat)
    requires InTime(polls, |file|) && k < |polls|
  {
    |file[polls[k].read]| < OffsetAt(file, polls, k) + LOG_CHUNK
  }

  /** The poll is one that a `logs`, or a `logs` that follows, stops at. */
  ghost predicate StopsAt(file: seq<Bytes>, ended: seq<bool>, polls: seq<Poll>, follow: bool, k: nat)
    requires InTime(polls, |file|) && |ended| == |file| && k < |polls|
  {
    ReadsShort(file, polls, k) && (!follow || ended[polls[k].looked])
  }

  /** What the first `k` polls have read. */
  ghost function ReadAt(file: seq<Bytes>, polls: seq<Poll>, k: nat): Bytes
    requires InTime(polls, |file|) && k <= |polls|
  {
    if k == 0 then [] else file[polls[k - 1].read][..OffsetAt(file, polls, k)]
  }

  /** A poll's chunk goes on where the one before it left off. */
  lemma OnePoll(file: seq<Bytes>, polls: seq<Poll>, k: nat)
    requires Grows(file) && InTime(polls, |file|) && k < |polls|
    ensures var log, offset := file[polls[k].read], OffsetAt(file, polls, k);
            && offset <= |log| && ReadAt(file, polls, k) + Chunk(log, offset) == ReadAt(file, polls, k + 1)
            && (|Chunk(log, offset)| < LOG_CHUNK <==> ReadsShort(file, polls, k))
            && offset + |Chunk(log, offset)| == OffsetAt(file, polls, k + 1)
  {
    var log, offset := file[polls[k].read], OffsetAt(file, polls, k);
    if k > 0 {
      assert GoesOn(file, polls[k - 1].read, polls[k].read);
      assert ReadAt(file, polls, k) == log[..offset];
    }
  }

  /** A short read is of all there is, and so of all there was. */
  lemma AllRead(file: seq<Bytes>, polls: seq<Poll>, k: nat)
    requires Grows(file) && InTime(polls, |file|) && k < |polls| && ReadsShort(file, polls, k)
    ensures ReadAt(file, polls, k + 1) == file[polls[k].read]
    ensures file[polls[0].looked] <= file[polls[k].read] && file[polls[k].looked] <= file[polls[k].read]
  {
    assert GoesOn(file, polls[0].looked, polls[k].read) && GoesOn(file, polls[k].looked, polls[k].read);
  }

  /** Where no read is short, each is a whole chunk. */
  lemma {:induction false} WholeChunks(file: seq<Bytes>, polls: seq<Poll>, k: nat)
    requires InTime(polls, |file|) && k <= |polls| && forall j: nat | j < k :: !ReadsShort(file, polls, j)
    ensures OffsetAt(file, polls, k) == k * LOG_CHUNK
  {
    if k > 0 {
      WholeChunks(file, polls, k - 1);
      assert !ReadsShort(file, polls, k - 1);
    }
  }

  /** The polls before the one that stops, and that one. */
  ghost predicate StopsFirst(file: seq<Bytes>, ended: seq<bool>, polls: seq<Poll>, follow: bool, stopped: bool, used: nat)
    requires InTime(polls, |file|) && |ended| == |file| && used <= |polls|
  {
    && (stopped ==> used > 0)
    && forall k: nat | k < used :: StopsAt(file, ended, polls, follow, k) <==> stopped && k == used - 1
  }

  lemma PlainStops(file: seq<Bytes>, ended: seq<bool>, polls: seq<Poll>, stopped: bool, used: nat)
    requires Grows(file) && |ended| == |file| && InTime(polls, |file|) && used <= |polls|
    requires StopsFirst(file, ended, polls, false, stopped, used)
    ensures !stopped ==> OffsetAt(file, polls, used) == used * LOG_CHUNK
    ensures stopped ==> (used - 1) * LOG_CHUNK <= OffsetAt(file, polls, used) < used * LOG_CHUNK
  {
    var whole := if stopped then used - 1 else used;
    forall j: nat | j < whole ensures !ReadsShort(file, polls, j) { assert !StopsAt(file, ended, polls, false, j); }
    WholeChunks(file, polls, whole);
    if stopped {
      assert StopsAt(file, ended, polls, false, used - 1);
      OnePoll(file, polls, used - 1);
    }
  }

  lemma WhatIsPrinted(file: seq<Bytes>, ended: seq<bool>, polls: seq<Poll>, follow: bool, stopped: bool, used: nat)
    requires Grows(file) && |ended| == |file| && InTime(polls, |file|) && used <= |polls|
    requires StopsFirst(file, ended, polls, follow, stopped, used)
    ensures var printed := ReadAt(file, polls, used);
            && |printed| == OffsetAt(file, polls, used)
            && (used > 0 ==> printed <= file[polls[used - 1].read])
            && (stopped ==> printed == file[polls[used - 1].read] && file[polls[0].looked] <= printed)
            && (stopped && follow ==> ended[polls[used - 1].looked] && file[polls[used - 1].looked] <= printed)
            && (!follow ==> |printed| >= (if stopped then used - 1 else used) * LOG_CHUNK)
            && (!follow && stopped ==> |printed| < used * LOG_CHUNK)
  {
    if stopped {
      assert StopsAt(file, ended, polls, follow, used - 1);
      AllRead(file, polls, used - 1);
    }
    if !follow { PlainStops(file, ended, polls, stopped, used); }
  }

  /** However the log grows between polls, what is printed is always the beginning of the log; a follow that stops
      has printed all that was written when the VM was seen to have ended; and a plain `logs` all that was there
      when it began.  A plain `logs` stops at the first read that is short of a chunk, however fast the log grows, and
      a follow at the first such read whose poll saw the VM ended. */
  method PrintLog(file: seq<Bytes>, ended: seq<bool>, polls: seq<Poll>, follow: bool)
    returns (printed: Bytes, stopped: bool, used: nat)
    requires Grows(file) && |ended| == |file| && InTime(polls, |file|)
    ensures used <= |polls| && (!stopped ==> used == |polls|)
    ensures used > 0 ==> printed <= file[polls[used - 1].read]
    ensures stopped ==> used > 0 && printed == file[polls[used - 1].read] && file[polls[0].looked] <= printed
    ensures stopped && follow ==> ended[polls[used - 1].looked] && file[polls[used - 1].looked] <= printed
    ensures |printed| == OffsetAt(file, polls, used)
    ensures StopsFirst(file, ended, polls, follow, stopped, used)
    ensures !follow ==> |printed| >= (if stopped then used - 1 else used) * LOG_CHUNK
    ensures !follow && stopped ==> |printed| < used * LOG_CHUNK
  {
    printed, stopped, used := [], false, 0;
    var offset := 0;
    while used < |polls| && !stopped
      invariant used <= |polls| && offset == OffsetAt(file, polls, used) && printed == ReadAt(file, polls, used)
      invariant StopsFirst(file, ended, polls, follow, stopped, used)
      decreases |polls| - used
    {
      OnePoll(file, polls, used);
      var poll := polls[used];
      var bytes := Chunk(file[poll.read], offset);
      printed := printed + bytes;
      offset := offset + |bytes|;
      used := used + 1;
      if |bytes| != LOG_CHUNK {
        stopped := !follow || ended[poll.looked];
      }
    }
    WhatIsPrinted(file, ended, polls, follow, stopped, used);
  }

  // ------------------------------------------------------------------ file names --

  const U64_MAX: nat := 0xFFFF_FFFF_FFFF_FFFF
  const SUFFIX := ".log"

  function LogName(name: string, n: nat): string { name + "." + Print(n) + SUFFIX }

  /** The number a console log's file carries. */
  function LogNumber(file: string): Option<nat> {
    if |file| < |SUFFIX| || file[|file| - |SUFFIX|..] != SUFFIX then None
    else
      var parts := SplitLast(file[..|file| - |SUFFIX|], '.');
      if parts.None? then None else Parse(parts.value.1, U64_MAX)
  }

  /** A log's number is read back from its file, whatever the VM's name. */
  lemma LogNumberRoundTrip(name: string, n: nat)
    requires n <= U64_MAX
    ensures LogNumber(LogName(name, n)) == Some(n)
  {
    var file := LogName(name, n);
    var stem := name + "." + Print(n);
    assert file[..|file| - |SUFFIX|] == stem && file[|file| - |SUFFIX|..] == SUFFIX;
    assert '.' !in Print(n);
    SplitLastIs(name, '.', Print(n));
    ParseOfPrint(n, U64_MAX);
  }

  /** One past the highest, 0 if there is none. */
  method OnePast(numbers: set<nat>) returns (next: nat)
    ensures forall n | n in numbers :: n < next
    ensures next == 0 || next - 1 in numbers
  {
    next := 0;
    var left := numbers;
    while left != {}
      invariant left <= numbers && (next == 0 || next - 1 in numbers)
      invariant forall n | n in numbers && n !in left :: n < next
      decreases left
    {
      var n :| n in left;
      left := left - {n};
      if n >= next { next := n + 1; }
    }
  }

  function Numbers(files: set<string>): set<nat> {
    set f | f in files && LogNumber(f).Some? :: LogNumber(f).value
  }

  /** The number for the next log: one past the highest any file carries. */
  method NextLogNumber(files: set<string>) returns (next: nat)
    ensures forall n | n in Numbers(files) :: n < next
    ensures next == 0 || next - 1 in Numbers(files)
  {
    next := OnePast(Numbers(files));
  }

  lemma CarriedNumber(files: set<string>, file: string)
    requires file in files && LogNumber(file).Some?
    ensures LogNumber(file).value in Numbers(files)
  {
  }

  /** So no start reuses a log that is there, for any name and as long as the numbers last. */
  lemma NewLogIsNew(files: set<string>, next: nat, name: string, n: nat)
    requires (forall i | i in Numbers(files) :: i < next) && next <= n <= U64_MAX
    ensures LogName(name, n) !in files
  {
    LogNumberRoundTrip(name, n);
    if LogName(name, n) in files { CarriedNumber(files, LogName(name, n)); }
  }
}
