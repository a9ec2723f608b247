/**
 The gateway's byte streams: the log pipeline from many loggers through one
 FIFO into the log file, and the loop that receives a fixed-size packet.

 A write to the FIFO may take any part of what is offered or fail; a read may
 return any part of what is there.
 */
module ByteStreams {
  const LOG_BUFFER_SIZE: nat := 512

  /** A formatted log line: it fits its buffer and, being C text, holds no terminator. */
  type LogRecord = s: string | |s| < LOG_BUFFER_SIZE && '\0' !in s witness "\n"

  /** What `%s` prints of a buffer. */
  function CText(s: string): string {
    if s == [] || s[0] == '\0' then [] else [s[0]] + CText(s[1..])
  }

  lemma {:induction false} CTextIsWhole(s: string)
    requires '\0' !in s
    ensures CText(s) == s
  {
    if s != [] {
      assert s[0] in s;
      CTextIsWhole(s[1..]);
    }
  }

  // ---- The pipeline as a state machine ----

  /** What became of one record: how much of it reached the FIFO, and whether its write failed. */
  datatype Delivery = Delivery(record: LogRecord, written: nat, failed: bool)

  datatype Writer = Free | Writing(record: LogRecord, written: nat)  // the log mutex and its holder

  datatype Pipeline = Pipeline(done: seq<Delivery>, writer: Writer, fifo: string, chunk: string, file: string)

  datatype Action =
    | Lock(record: LogRecord)  // some logger gets the mutex
    | Write(accepted: nat)     // the FIFO takes that many bytes of what is left
    | WriteError
    | Unlock                   // everything was written
    | Read(count: nat)         // the log thread reads a chunk
    | Append                   // and prints it to the file

  const EMPTY := Pipeline([], Free, [], [], [])

  function Step(p: Pipeline, a: Action): Pipeline {
    match a
    case Lock(record) => if p.writer.Free? then p.(writer := Writing(record, 0)) else p
    case Write(n) =>
      if p.writer.Writing? && 0 < n <= |p.writer.record| - p.writer.written then
        var w := p.writer.written;
        p.(writer := Writing(p.writer.record, w + n), fifo := p.fifo + p.writer.record[w..w + n])
      else p
    case WriteError =>
      if p.writer.Writing? && p.writer.written < |p.writer.record| then
        p.(writer := Free, done := p.done + [Delivery(p.writer.record, p.writer.written, true)])
      else p
    case Unlock =>
      if p.writer.Writing? && p.writer.written >= |p.writer.record| then
        p.(writer := Free, done := p.done + [Delivery(p.writer.record, p.writer.written, false)])
      else p
    case Read(n) =>
      if p.chunk == [] && 0 < n <= |p.fifo| && n < LOG_BUFFER_SIZE then
        p.(chunk := p.fifo[..n], fifo := p.fifo[n..])
      else p
    case Append => p.(file := p.file + CText(p.chunk), chunk := [])
  }

  function Run(actions: seq<Action>): Pipeline {
    if actions == [] then EMPTY
    else Step(Run(actions[..|actions| - 1]), actions[|actions| - 1])
  }

  /** The bytes of finished records that reached the FIFO, in lock order. */
  function Delivered(done: seq<Delivery>): string
    requires forall d :: d in done ==> d.written <= |d.record|
  {
    if done == [] then []
    else
      var d := done[|done| - 1];
      Delivered(done[..|done| - 1]) + d.record[..d.written]
  }

  /** Every finished record is whole unless its own write failed, and then a proper prefix of it is left. */
  ghost predicate Recorded(done: seq<Delivery>) {
    forall d :: d in done ==> if d.failed then d.written < |d.record| else d.written == |d.record|
  }

  ghost predicate Intact(p: Pipeline) {
    && Recorded(p.done)
    && (p.writer.Writing? ==> p.writer.written <= |p.writer.record|)
    && p.file + p.chunk + p.fifo
       == Delivered(p.done) + if p.writer.Writing? then p.writer.record[..p.writer.written] else []
  }

  lemma {:induction false} DeliveredHasNoNul(done: seq<Delivery>)
    requires Recorded(done)
    ensures '\0' !in Delivered(done)
  {
    if done != [] {
      DeliveredHasNoNul(done[..|done| - 1]);
    }
  }

  lemma {:induction false} WriteKeepsIntact(p: Pipeline, n: nat)
    requires Intact(p)
    ensures Intact(Step(p, Write(n)))
  {
    var p' := Step(p, Write(n));
    if p' != p {
      var r, w := p.writer.record, p.writer.written;
      NextChunk(r, w, n);
      Grouped(p.file + p.chunk, p.fifo, r[w..w + n]);
      Grouped(Delivered(p.done), r[..w], r[w..w + n]);
    }
  }

  lemma {:induction false} AppendKeepsIntact(p: Pipeline)
    requires Intact(p)
    ensures Intact(Step(p, Append))
  {
    var all := p.file + p.chunk + p.fifo;
    DeliveredHasNoNul(p.done);
    assert '\0' !in all;
    assert '\0' !in p.chunk by {
      forall i | 0 <= i < |p.chunk|
        ensures p.chunk[i] != '\0'
      {
        assert p.chunk[i] == all[|p.file| + i];
      }
    }
    CTextIsWhole(p.chunk);
    assert (p.file + p.chunk) + [] + p.fifo == all;
  }

  lemma {:induction false} ReadKeepsIntact(p: Pipeline, n: nat)
    requires Intact(p)
    ensures Intact(Step(p, Read(n)))
  {
    var p' := Step(p, Read(n));
    if p' != p {
      assert p.fifo == p.fifo[..n] + p.fifo[n..];
      assert p'.file + p'.chunk + p'.fifo == p.file + p.chunk + p.fifo;
    }
  }

  lemma {:induction false} StepKeepsIntact(p: Pipeline, a: Action)
    requires Intact(p)
    ensures Intact(Step(p, a))
  {
    match a
    case Lock(record) => assert record[..0] == [];
    case Write(n) => WriteKeepsIntact(p, n);
    case WriteError => FinishKeepsIntact(p, Step(p, a), true);
    case Unlock => FinishKeepsIntact(p, Step(p, a), false);
    case Read(n) => ReadKeepsIntact(p, n);
    case Append => AppendKeepsIntact(p);
  }

  lemma {:induction false} FinishKeepsIntact(p: Pipeline, p': Pipeline, failed: bool)
    requires Intact(p)
    requires p' == p || (
      && p.writer.Writing?
      && (if failed then p.writer.written < |p.writer.record| else p.writer.written == |p.writer.record|)
      && p' == p.(writer := Free, done := p.done + [Delivery(p.writer.record, p.writer.written, failed)]))
    ensures Intact(p')
  {
    if p' != p {
      assert p'.done[..|p'.done| - 1] == p.done;
    }
  }

  /**
   The pipeline loses, doubles and reorders nothing: in every run, the file,
   the chunk in the log thread's hand and the FIFO hold the records in the
   order the loggers got the mutex, each of them whole unless its own write
   failed, followed by what the current logger has written so far.
   */
  lemma {:induction false} PipelineIsIntact(actions: seq<Action>)
    ensures Intact(Run(actions))
  {
    if actions == [] {
    } else {
      PipelineIsIntact(actions[..|actions| - 1]);
      StepKeepsIntact(Run(actions[..|actions| - 1]), actions[|actions| - 1]);
    }
  }

  function Concat(records: seq<LogRecord>): string {
    if records == [] then [] else Concat(records[..|records| - 1]) + records[|records| - 1]
  }

  /** The records whose logger held the mutex, in that order. */
  function Logged(actions: seq<Action>): seq<LogRecord> {
    if actions == [] then []
    else
      var before, a := actions[..|actions| - 1], actions[|actions| - 1];
      Logged(before) + if a.Lock? && Run(before).writer.Free? then [a.record] else []
  }

  ghost predicate NoWriteFailed(p: Pipeline) {
    forall d :: d in p.done ==> !d.failed
  }

  lemma {:induction false} DeliveredWhole(done: seq<Delivery>, records: seq<LogRecord>)
    requires Recorded(done) && forall d :: d in done ==> !d.failed
    requires |records| == |done| && forall i :: 0 <= i < |done| ==> done[i].record == records[i]
    ensures Delivered(done) == Concat(records)
  {
    if done != [] {
      DeliveredWhole(done[..|done| - 1], records[..|records| - 1]);
      var d := done[|done| - 1];
      assert d in done;
      assert d.record[..d.written] == d.record;
    }
  }

  /** The done list and the current record are the logged records, in lock order. */
  lemma {:induction false} LockOrderKept(actions: seq<Action>)
    ensures var p, logged := Run(actions), Logged(actions);
      && |logged| == |p.done| + (if p.writer.Writing? then 1 else 0)
      && (forall i :: 0 <= i < |p.done| ==> p.done[i].record == logged[i])
      && (p.writer.Writing? ==> p.writer.record == logged[|p.done|])
  {
    if actions != [] {
      LockOrderKept(actions[..|actions| - 1]);
    }
  }

  /** Once nobody is writing and the FIFO is drained, the file is exactly the logged records if no write failed. */
  lemma {:induction false} DrainedFileIsTheLog(actions: seq<Action>)
    requires Run(actions).writer.Free? && Run(actions).fifo == [] && Run(actions).chunk == []
    requires NoWriteFailed(Run(actions))
    ensures Run(actions).file == Concat(Logged(actions))
  {
    PipelineIsIntact(actions);
    LockOrderKept(actions);
    var p := Run(actions);
    DeliveredWhole(p.done, Logged(actions));
    assert p.file + [] + [] == p.file;
    assert Delivered(p.done) + [] == Delivered(p.done);
  }

  // ---- The loops ----

  const WRITE_OK: int := 0  // the least result of a `write` that is not a failure
  const READ_OK: int := 1   // of a `read` or `recv`, where 0 is the end of the stream

  /**
   How far a loop gets that has `left` bytes to move and makes calls until all
   are moved or a call returns less than `ok`.  Each result is what one call
   returned, limited to what was asked for; after the last result the calls
   fail.
   */
  function Progress(left: nat, results: seq<int>, ok: int): (n: nat)
    requires ok >= 0
    ensures n <= left
    decreases |results|
  {
    if left == 0 || results == [] || results[0] < ok then 0
    else var n := Least(results[0], left); n + Progress(left - n, results[1..], ok)
  }

  function Least(a: int, b: int): int {
    if a <= b then a else b
  }

  /** Calls that never fail move everything, if there are as many of them as bytes. */
  lemma {:induction false} ProgressIsAll(left: nat, results: seq<int>, ok: int)
    requires ok == WRITE_OK || ok == READ_OK
    requires |results| >= left && forall k :: 0 <= k < |results| ==> results[k] > 0
    ensures Progress(left, results, ok) == left
    decreases |results|
  {
    if left != 0 {
      ProgressIsAll(left - Least(results[0], left), results[1..], ok);
    }
  }

  /** The writes of one logger, as steps of the pipeline. */
  function Writes(left: nat, results: seq<int>): seq<Action>
    decreases |results|
  {
    if left == 0 || results == [] || results[0] < WRITE_OK then []
    else var n := Least(results[0], left); [Write(n)] + Writes(left - n, results[1..])
  }

  /** The pipeline after more steps. */
  function Then(p: Pipeline, actions: seq<Action>): Pipeline
    decreases |actions|
  {
    if actions == [] then p else Then(Step(p, actions[0]), actions[1..])
  }

  lemma {:induction false} ThenConcat(p: Pipeline, a: seq<Action>, b: seq<Action>)
    ensures Then(p, a + b) == Then(Then(p, a), b)
    decreases |a|
  {
    if a == [] {
      assert a + b == b;
    } else {
      assert (a + b)[1..] == a[1..] + b;
      ThenConcat(Step(p, a[0]), a[1..], b);
    }
  }

  lemma {:induction false} ThenOne(p: Pipeline, a: Action)
    ensures Then(p, [a]) == Step(p, a)
  {
    assert [a][1..] == [];
    assert Then(p, [a]) == Then(Step(p, a), [a][1..]);
  }

  lemma {:induction false} RunIsThen(actions: seq<Action>)
    ensures Run(actions) == Then(EMPTY, actions)
  {
    if actions != [] {
      var n := |actions| - 1;
      RunIsThen(actions[..n]);
      ThenOne(Then(EMPTY, actions[..n]), actions[n]);
      ThenConcat(EMPTY, actions[..n], [actions[n]]);
      assert actions[..n] + [actions[n]] == actions;
    }
  }

  /** The pipeline once its writer has written `n` bytes more. */
  function Wrote(p: Pipeline, n: nat): Pipeline
    requires p.writer.Writing? && p.writer.written + n <= |p.writer.record|
  {
    var record, w := p.writer.record, p.writer.written;
    p.(writer := Writing(record, w + n), fifo := p.fifo + record[w..w + n])
  }

  lemma {:induction false} WroteTwice(p: Pipeline, n: nat, m: nat)
    requires p.writer.Writing? && p.writer.written + n + m <= |p.writer.record|
    ensures Wrote(p, 0) == p
    ensures Wrote(Wrote(p, n), m) == Wrote(p, n + m)
  {
    var record, w := p.writer.record, p.writer.written;
    assert record[w..w + n] + record[w + n..w + n + m] == record[w..w + n + m];
    assert p.fifo + record[w..w + n] + record[w + n..w + n + m] == p.fifo + record[w..w + n + m];
  }

  lemma {:induction false} WriteWrites(p: Pipeline, n: nat)
    requires p.writer.Writing? && p.writer.written + n <= |p.writer.record|
    ensures Step(p, Write(n)) == Wrote(p, n)
  {
    if n == 0 {
      WroteTwice(p, 0, 0);
    }
  }

  lemma {:induction false} FirstWrite(p: Pipeline, left: nat, results: seq<int>)
    requires p.writer.Writing? && |p.writer.record| - p.writer.written == left
    requires left > 0 && results != [] && results[0] >= WRITE_OK
    ensures var n := Least(results[0], left);
      Then(p, Writes(left, results)) == Then(Wrote(p, n), Writes(left - n, results[1..]))
  {
    var n := Least(results[0], left);
    var rest := Writes(left - n, results[1..]);
    assert ([Write(n)] + rest)[1..] == rest;
    WriteWrites(p, n);
  }

  lemma {:induction false} NoWrites(p: Pipeline, left: nat, results: seq<int>)
    requires p.writer.Writing? && |p.writer.record| - p.writer.written == left
    requires left == 0 || results == [] || results[0] < WRITE_OK
    ensures Then(p, Writes(left, results)) == Wrote(p, Progress(left, results, WRITE_OK))
  {
    WroteTwice(p, 0, 0);
  }

  lemma {:induction false} MoreWrites(p: Pipeline, left: nat, results: seq<int>)
    requires p.writer.Writing? && |p.writer.record| - p.writer.written == left
    requires left > 0 && results != [] && results[0] >= WRITE_OK
    requires var n := Least(results[0], left);
      Then(Wrote(p, n), Writes(left - n, results[1..])) == Wrote(Wrote(p, n), Progress(left - n, results[1..], WRITE_OK))
    ensures Then(p, Writes(left, results)) == Wrote(p, Progress(left, results, WRITE_OK))
  {
    var n := Least(results[0], left);
    FirstWrite(p, left, results);
    WroteTwice(p, n, Progress(left - n, results[1..], WRITE_OK));
  }

  lemma {:induction false} ThenWrites(p: Pipeline, left: nat, results: seq<int>)
    requires p.writer.Writing? && |p.writer.record| - p.writer.written == left
    ensures Then(p, Writes(left, results)) == Wrote(p, Progress(left, results, WRITE_OK))
    decreases |results|
  {
    if left == 0 || results == [] || results[0] < WRITE_OK {
      NoWrites(p, left, results);
    } else {
      var n := Least(results[0], left);
      ThenWrites(Wrote(p, n), left - n, results[1..]);
      MoreWrites(p, left, results);
    }
  }

  /** What one logger does from taking the mutex to giving it back. */
  function Logger(record: LogRecord, results: seq<int>): seq<Action> {
    [Lock(record)] +
    (Writes(|record|, results) + [if Progress(|record|, results, WRITE_OK) < |record| then WriteError else Unlock])
  }

  /** A logger's steps in the pipeline do to the FIFO what `LogPipe.FifoLog` does, and record its result. */
  lemma {:induction false} LoggerIsFifoLog(p: Pipeline, record: LogRecord, results: seq<int>)
    requires p.writer.Free?
    ensures var n := Progress(|record|, results, WRITE_OK);
      Then(p, Logger(record, results))
      == p.(fifo := p.fifo + record[..n], done := p.done + [Delivery(record, n, n < |record|)])
  {
    var last := if Progress(|record|, results, WRITE_OK) < |record| then WriteError else Unlock;
    var locked := p.(writer := Writing(record, 0));
    ThenConcat(p, [Lock(record)], Writes(|record|, results) + [last]);
    ThenOne(p, Lock(record));
    ThenConcat(locked, Writes(|record|, results), [last]);
    ThenWrites(locked, |record|, results);
    ThenOne(Wrote(locked, Progress(|record|, results, WRITE_OK)), last);
  }

  /** So it does in the midst of any run: its record goes behind all others, and the run stays intact. */
  lemma {:induction false} LoggerInRun(actions: seq<Action>, record: LogRecord, results: seq<int>)
    requires Run(actions).writer.Free?
    ensures var p, p', n := Run(actions), Run(actions + Logger(record, results)), Progress(|record|, results, WRITE_OK);
      && p' == p.(fifo := p.fifo + record[..n], done := p.done + [Delivery(record, n, n < |record|)])
      && Intact(p') && p'.file + p'.chunk + p'.fifo == p.file + p.chunk + p.fifo + record[..n]
  {
    RunIsThen(actions);
    RunIsThen(actions + Logger(record, results));
    ThenConcat(EMPTY, actions, Logger(record, results));
    LoggerIsFifoLog(Run(actions), record, results);
    PipelineIsIntact(actions + Logger(record, results));
    var p, n := Run(actions), Progress(|record|, results, WRITE_OK);
    Grouped(p.file + p.chunk, p.fifo, record[..n]);
  }

  /** The chunks that `log_manager` asks for are smaller than its buffer. */
  function Chunks(results: seq<int>): seq<int> {
    seq(|results|, k requires 0 <= k < |results| => Least(results[k], LOG_BUFFER_SIZE - 1))
  }

  /** Where the copying stands: `moved` bytes of `was` went from the FIFO to the file. */
  ghost predicate Copied(fifo: string, file: string, was: string, oldFile: string, moved: nat) {
    moved <= |was| && file == oldFile + was[..moved] && fifo == was[moved..]
  }

  lemma {:induction false} PrintedWhole(was: string, from: nat, to: nat)
    requires from <= to <= |was| && '\0' !in was
    ensures CText(was[from..to]) == was[from..to]
  {
    CTextIsWhole(was[from..to]);
  }

  lemma NextChunk(s: string, from: nat, count: nat)
    requires from + count <= |s|
    ensures s[from..][..count] == s[from..from + count] && s[from..][count..] == s[from + count..]
    ensures s[..from] + s[from..from + count] == s[..from + count]
  {
  }

  lemma Grouped(a: string, b: string, c: string)
    ensures a + b + c == a + (b + c)
  {
  }

  lemma {:induction false} CopyChunk(fifo: string, file: string, was: string, oldFile: string, moved: nat, count: nat)
    requires Copied(fifo, file, was, oldFile, moved) && count <= |fifo| && '\0' !in was
    ensures Copied(fifo[count..], file + CText(fifo[..count]), was, oldFile, moved + count)
  {
    NextChunk(was, moved, count);
    PrintedWhole(was, moved, moved + count);
    Grouped(oldFile, was[..moved], was[moved..moved + count]);
  }

  /** The log thread's reads and prints, as steps of the pipeline. */
  function Reader(left: nat, chunks: seq<int>): seq<Action>
    decreases |chunks|
  {
    if left == 0 || chunks == [] || chunks[0] < READ_OK then []
    else var n := Least(chunks[0], left); [Read(n), Append] + Reader(left - n, chunks[1..])
  }

  /** The pipeline once the log thread has moved `n` bytes. */
  function Moved(p: Pipeline, n: nat): Pipeline
    requires n <= |p.fifo|
  {
    p.(file := p.file + p.fifo[..n], fifo := p.fifo[n..])
  }

  lemma {:induction false} MovedTwice(p: Pipeline, n: nat, m: nat)
    requires n + m <= |p.fifo|
    ensures Moved(p, 0) == p && Moved(Moved(p, n), m) == Moved(p, n + m)
  {
    NextChunk(p.fifo, n, m);
    Grouped(p.file, p.fifo[..n], p.fifo[n..n + m]);
    assert p.fifo[n..][m..] == p.fifo[n + m..];
    assert p.file + p.fifo[..0] == p.file;
  }

  lemma {:induction false} ReadAppend(p: Pipeline, n: nat)
    requires p.chunk == [] && '\0' !in p.fifo && 0 < n <= |p.fifo| && n < LOG_BUFFER_SIZE
    ensures Step(Step(p, Read(n)), Append) == Moved(p, n)
  {
    PrintedWhole(p.fifo, 0, n);
    assert p.fifo[0..n] == p.fifo[..n];
  }

  lemma {:induction false} ThenTwo(p: Pipeline, a: Action, b: Action, rest: seq<Action>)
    ensures Then(p, [a, b] + rest) == Then(Step(Step(p, a), b), rest)
  {
    assert ([a, b] + rest)[1..] == [b] + rest && ([b] + rest)[1..] == rest;
  }

  lemma {:induction false} MoreReads(p: Pipeline, chunks: seq<int>)
    requires p.chunk == [] && '\0' !in p.fifo && p.fifo != [] && chunks != [] && READ_OK <= chunks[0] < LOG_BUFFER_SIZE
    requires var n := Least(chunks[0], |p.fifo|);
      Then(Moved(p, n), Reader(|p.fifo| - n, chunks[1..])) == Moved(Moved(p, n), Progress(|p.fifo| - n, chunks[1..], READ_OK))
    ensures Then(p, Reader(|p.fifo|, chunks)) == Moved(p, Progress(|p.fifo|, chunks, READ_OK))
  {
    var n := Least(chunks[0], |p.fifo|);
    ReadAppend(p, n);
    ThenTwo(p, Read(n), Append, Reader(|p.fifo| - n, chunks[1..]));
    MovedTwice(p, n, Progress(|p.fifo| - n, chunks[1..], READ_OK));
  }

  /**
   The log thread's steps in the pipeline move the same bytes from the FIFO to
   the file as `LogPipe.CopyToFile` does, and none is left in its hand.
   */
  lemma {:induction false} ReaderIsCopyToFile(p: Pipeline, chunks: seq<int>)
    requires p.chunk == [] && '\0' !in p.fifo && forall k :: 0 <= k < |chunks| ==> chunks[k] < LOG_BUFFER_SIZE
    ensures Then(p, Reader(|p.fifo|, chunks)) == Moved(p, Progress(|p.fifo|, chunks, READ_OK))
    decreases |chunks|
  {
    var left := |p.fifo|;
    if left == 0 || chunks == [] || chunks[0] < READ_OK {
      MovedTwice(p, 0, 0);
    } else {
      ReaderIsCopyToFile(Moved(p, Least(chunks[0], left)), chunks[1..]);
      MoreReads(p, chunks);
    }
  }

  lemma {:induction false} ProgressStep(left: nat, results: seq<int>, k: nat, ok: int)
    requires k < |results| && left > 0 && results[k] >= ok >= 0
    ensures Progress(left, results[k..], ok)
         == Least(results[k], left) + Progress(left - Least(results[k], left), results[k + 1..], ok)
  {
    assert results[k..][1..] == results[k + 1..];
  }

  class LogPipe {
    var fifo: string
    var file: string

    constructor ()
      ensures fifo == [] && file == []
    {
      fifo, file := [], [];
    }

    /** `fifo_log`: write until everything is out or a write fails. */
    method FifoLog(record: LogRecord, results: seq<int>) returns (written: nat, failed: bool)
      modifies this`fifo
      ensures written == Progress(|record|, results, WRITE_OK) && failed == (written < |record|)
      ensures fifo == old(fifo) + record[..written]
    {
      written, failed := 0, false;
      var calls := 0;
      assert results[0..] == results;
      while written < |record|
        invariant written <= |record| && fifo == old(fifo) + record[..written]
        invariant !failed && calls <= |results|
        invariant written + Progress(|record| - written, results[calls..], WRITE_OK) == Progress(|record|, results, WRITE_OK)
        decreases |results| - calls
      {
        var n := if calls < |results| then results[calls] else -1;
        if n < WRITE_OK {
          failed := true;
          break;
        }
        ProgressStep(|record| - written, results, calls, WRITE_OK);
        var accepted := Least(n, |record| - written);
        fifo := fifo + record[written..written + accepted];
        assert record[..written + accepted] == record[..written] + record[written..written + accepted];
        written := written + accepted;
        calls := calls + 1;
      }
    }

    /**
     `log_manager`: read chunks of at most 511 bytes and print them to the file,
     until a read returns nothing or fails.  What is read moves from the front
     of the FIFO to the end of the file, byte for byte.
     */
    method CopyToFile(results: seq<int>)
      requires '\0' !in fifo
      modifies this
      ensures var n := Progress(|old(fifo)|, Chunks(results), READ_OK);
        file == old(file) + old(fifo)[..n] && fifo == old(fifo)[n..]
    {
      var i := 0;
      ghost var moved, chunks := 0, Chunks(results);
      assert chunks[0..] == chunks;
      while i < |results|
        invariant 0 <= i <= |results| && Copied(fifo, file, old(fifo), old(file), moved)
        invariant moved + Progress(|fifo|, chunks[i..], READ_OK) == Progress(|old(fifo)|, chunks, READ_OK)
      {
        var count := Least(Least(results[i], LOG_BUFFER_SIZE - 1), |fifo|);
        if count <= 0 {
          break;
        }
        ProgressStep(|fifo|, chunks, i, READ_OK);
        CopyChunk(fifo, file, old(fifo), old(file), moved, count);
        var buffer := fifo[..count];
        fifo := fifo[count..];
        file := file + CText(buffer);
        moved := moved + count;
        i := i + 1;
      }
    }
  }

  /** The buffer holds the first `taken` bytes of the stream, and behind them what it held before. */
  ghost predicate Filled(buffer: seq<char>, stream: string, was: seq<char>, taken: nat) {
    && taken <= |stream| && taken <= |buffer| == |was|
    && forall k :: 0 <= k < |buffer| ==> buffer[k] == if k < taken then stream[k] else was[k]
  }

  /** One receive: the next `count` bytes of the stream go where the buffer has been filled to. */
  method Receive(stream: string, buffer: array<char>, taken: nat, count: nat, ghost was: seq<char>)
    requires Filled(buffer[..], stream, was, taken)
    requires taken + count <= buffer.Length && taken + count <= |stream|
    modifies buffer
    ensures Filled(buffer[..], stream, was, taken + count)
  {
    var i := 0;
    while i < count
      invariant 0 <= i <= count && Filled(buffer[..], stream, was, taken + i)
    {
      buffer[taken + i] := stream[taken + i];
      i := i + 1;
    }
  }

  /**
   `recv_all`: fill the whole buffer from the stream, whatever the sizes of the
   single receives, or report that a receive failed or the stream ended first.
   */
  method RecvAll(stream: string, buffer: array<char>, results: seq<int>) returns (ok: bool, taken: nat)
    modifies buffer
    ensures taken == Progress(Least(buffer.Length, |stream|), results, READ_OK) && ok == (taken == buffer.Length)
    ensures Filled(buffer[..], stream, old(buffer[..]), taken)
  {
    taken := 0;
    var calls := 0;
    assert results[0..] == results;
    while taken < buffer.Length
      invariant calls <= |results| && Filled(buffer[..], stream, old(buffer[..]), taken)
      invariant taken + Progress(Least(buffer.Length, |stream|) - taken, results[calls..], READ_OK)
             == Progress(Least(buffer.Length, |stream|), results, READ_OK)
      decreases buffer.Length - taken
    {
      var n := if calls < |results| && taken < |stream| then results[calls] else 0;
      if n < READ_OK {
        return false, taken;
      }
      ProgressStep(Least(buffer.Length, |stream|) - taken, results, calls, READ_OK);
      var received := Least(n, Least(buffer.Length, |stream|) - taken);
      Receive(stream, buffer, taken, received, old(buffer[..]));
      taken := taken + received;
      calls := calls + 1;
    }
    return true, taken;
  }
}
