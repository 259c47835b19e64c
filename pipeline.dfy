/**
 * The ordered-output coordinator of `resolveFilesToWriter`.
 *
 * The coordinator owns a FIFO of per-file futures, a file channel that is
 * open until it reports closed (after which it is nil and never selected
 * again) and the output stream. Each file name that arrives appends a fresh
 * future at the tail and launches a resolution task for it; the task later
 * settles its future, with the resolved bytes or closed without a value.
 * Only the head future is ever received from, so output follows arrival
 * order, never completion order.
 *
 * The goroutines and the `select` are replaced by events: the arrival of a
 * file, the closing of the file channel, the end of the task behind a
 * given future, the coordinator's receive from the head future, and an
 * error from the dependency graph. Any interleaving of these events is a
 * schedule the Go runtime could pick.
 */
module Pipeline {
  import opened Common
  import opened ResolveFile

  /** The delimiter written after every resolved file: "\n---\n". */
  const Separator: Bytes := [10, 45, 45, 45, 10]

  /** A future's channel: nothing sent yet, a value sent, or closed without a value. */
  datatype Slot = Pending | Delivered(body: Bytes) | Closed

  /** One entry of the futures queue: the file it resolves and the state of its channel. */
  datatype Future = Future(file: string, slot: Slot)

  /** Why a run failed: a file's resolution error, or an error from the dependency graph. */
  datatype RunError = ProcessingError(file: string, cause: FileError) | WatchingError(graphError: string)

  /** One thing that can happen while the coordinator loop runs. */
  datatype Event =
    | FileArrived(file: string)
    | SourceClosed
    | TaskFinished(position: nat, outcome: Result<Resolved, FileError>)
    | HeadReceived
    | DependencyFailed(cause: string)

  /** How a run of the loop over a finite schedule ends: it returned, or it is still waiting. */
  datatype RunResult = Returned(error: Option<RunError>) | Waiting

  /** What the coordinator writes when it dequeues a settled future. */
  function Block(f: Future): Bytes
  {
    if f.slot.Delivered? then f.slot.body + Separator else []
  }

  /** The output for a sequence of dequeued futures, in their order. */
  function Emit(fs: seq<Future>): Bytes
  {
    if fs == [] then [] else Emit(fs[..|fs| - 1]) + Block(fs[|fs| - 1])
  }

  /** Output distributes over concatenation: each future's block stands in its place. */
  lemma {:induction false} EmitAppend(a: seq<Future>, b: seq<Future>)
    ensures Emit(a + b) == Emit(a) + Emit(b)
    decreases |b|
  {
    if b == [] {
      assert a + b == a;
    } else {
      var n := |b| - 1;
      var ab := a + b;
      assert ab[..|ab| - 1] == a + b[..n];
      assert ab[|ab| - 1] == b[n];
      assert Emit(ab) == Emit(a + b[..n]) + Block(b[n]);
      EmitAppend(a, b[..n]);
      assert Emit(b) == Emit(b[..n]) + Block(b[n]);
    }
  }

  /** Futures closed without a value (skipped files) contribute nothing to the output. */
  lemma {:induction false} EmitSkipsClosed(a: seq<Future>, b: seq<Future>)
    requires forall k :: 0 <= k < |b| ==> !b[k].slot.Delivered?
    ensures Emit(a + b) == Emit(a)
    decreases |b|
  {
    EmitAppend(a, b);
    EmitNothing(b);
  }

  lemma {:induction false} EmitNothing(b: seq<Future>)
    requires forall k :: 0 <= k < |b| ==> !b[k].slot.Delivered?
    ensures Emit(b) == []
    decreases |b|
  {
    if b != [] {
      EmitNothing(b[..|b| - 1]);
    }
  }

  /** The output length: every delivered body plus its separator, nothing for the rest. */
  lemma {:induction false} EmitLength(fs: seq<Future>)
    ensures |Emit(fs)| == DeliveredSize(fs)
  {
    if fs != [] {
      EmitLength(fs[..|fs| - 1]);
    }
  }

  /** The total size of the delivered bodies of `fs`, each with its separator. */
  function DeliveredSize(fs: seq<Future>): nat
  {
    if fs == [] then 0
    else DeliveredSize(fs[..|fs| - 1]) + (if fs[|fs| - 1].slot.Delivered? then |fs[|fs| - 1].slot.body| + 5 else 0)
  }

  /** From `h0` to `h1` arrivals were only appended and a settled future never changed again. */
  ghost predicate Grows(h0: seq<Future>, h1: seq<Future>)
  {
    && |h0| <= |h1|
    && (forall k :: 0 <= k < |h0| ==> h1[k].file == h0[k].file)
    && (forall k :: 0 <= k < |h0| && h0[k].slot != Pending ==> h1[k] == h0[k])
  }

  /** The slot a finished task leaves behind: its bytes, or closed without a value on error. */
  function SlotOf(outcome: Result<Resolved, FileError>): (s: Slot)
    ensures s != Pending
    ensures s.Delivered? <==> outcome.Success?
  {
    if outcome.Success? then Delivered(outcome.value.body) else Closed
  }

  /** `h` is `h0` followed by futures for exactly the files `names`, in order. */
  ghost predicate Appended(h0: seq<Future>, h: seq<Future>, names: seq<string>)
  {
    && |h| == |h0| + |names|
    && forall k :: 0 <= k < |names| ==> h[|h0| + k].file == names[k]
  }

  /** Whether the file channel is still open after the first `n` events, starting open iff `open`. */
  function OpenAfter(events: seq<Event>, n: nat, open: bool): bool
    requires n <= |events|
  {
    if n == 0 then open else OpenAfter(events, n - 1, open) && !events[n - 1].SourceClosed?
  }

  /** The file one event delivers through the file channel: its name if it is an arrival while open. */
  function Arrival(ev: Event, open: bool): seq<string>
  {
    if ev.FileArrived? && open then [ev.file] else []
  }

  /**
   * The files the first `n` events deliver through the file channel, in
   * order: every `FileArrived` while the channel is open, none once it has
   * closed.
   */
  function ArrivedFiles(events: seq<Event>, n: nat, open: bool): seq<string>
    requires n <= |events|
  {
    if n == 0 then [] else ArrivedFiles(events, n - 1, open) + Arrival(events[n - 1], OpenAfter(events, n - 1, open))
  }

  /** The coordinator's fields as a value: queue, channel open, output, records, first error. */
  datatype State = State(
    futures: seq<Future>, open: bool, out: Bytes,
    records: map<string, seq<string>>, firstError: Option<RunError>)

  /**
   * One turn of the `select` on `ev`, as a function of the state: a case
   * that cannot proceed (closed channel, unknown or settled future, empty
   * queue or unsettled head) leaves the state as it is, and so does a
   * graph error, which only ends the loop.
   */
  function Apply(s: State, ev: Event, watch: bool): (r: State)
    ensures s.out <= r.out
    ensures !s.open ==> r.open == false
    ensures (s.firstError.None? || s.firstError.value.ProcessingError?) ==>
      (r.firstError.None? || r.firstError.value.ProcessingError?)
    ensures watch && s.firstError.None? ==> r.firstError.None?
  {
    match ev
    case FileArrived(file) =>
      if s.open then s.(futures := s.futures + [Future(file, Pending)]) else s
    case SourceClosed =>
      s.(open := false)
    case TaskFinished(i, outcome) =>
      if i < |s.futures| && s.futures[i].slot == Pending then
        var file := s.futures[i].file;
        s.(futures := s.futures[i := Future(file, SlotOf(outcome))],
           records := if outcome.Success? then s.records[file := outcome.value.importPaths] else s.records,
           firstError :=
             if outcome.Failure? && !watch && s.firstError.None?
             then Some(ProcessingError(file, outcome.error))
             else s.firstError)
      else s
    case HeadReceived =>
      if s.futures != [] && s.futures[0].slot != Pending
      then s.(futures := s.futures[1..], out := s.out + Block(s.futures[0]))
      else s
    case DependencyFailed(_) =>
      s
  }

  /** How the loop ends, how many events it took, and the state it leaves. */
  datatype Outcome = Outcome(result: RunResult, taken: nat, final: State)

  /**
   * The loop from event `k` of `events` on: it returns the first task error
   * once the channel is closed and the queue empty, waits when the events
   * run out, returns a graph error in watch mode, and otherwise applies the
   * next event.
   */
  function Drive(s: State, events: seq<Event>, k: nat, watch: bool): (o: Outcome)
    requires k <= |events|
    ensures k <= o.taken <= |events|
    decreases |events| - k
  {
    if !s.open && s.futures == [] then Outcome(Returned(s.firstError), k, s)
    else if k == |events| then Outcome(Waiting, k, s)
    else if watch && events[k].DependencyFailed? then
      Outcome(Returned(Some(WatchingError(events[k].cause))), k + 1, s)
    else Drive(Apply(s, events[k], watch), events, k + 1, watch)
  }

  /**
   * How the loop can end: a normal exit happens only with the channel
   * closed and the queue empty and returns the first task error; a graph
   * error is returned only in watch mode, as the last event taken; and a
   * run that waits has taken every event without meeting its exit
   * condition.
   */
  lemma {:induction false} DriveEnding(s: State, events: seq<Event>, k: nat, watch: bool)
    requires k <= |events|
    requires s.firstError.None? || s.firstError.value.ProcessingError?
    ensures var o := Drive(s, events, k, watch);
      && (o.result.Returned? && (o.result.error.None? || o.result.error.value.ProcessingError?) ==>
            !o.final.open && o.final.futures == [] && o.result.error == o.final.firstError)
      && (o.result.Returned? && o.result.error.Some? && o.result.error.value.WatchingError? ==>
            watch && k < o.taken && events[o.taken - 1] == DependencyFailed(o.result.error.value.graphError))
      && (o.result.Waiting? ==> o.taken == |events| && (o.final.open || o.final.futures != []))
    decreases |events| - k
  {
    if !(!s.open && s.futures == []) && k < |events| && !(watch && events[k].DependencyFailed?) {
      DriveEnding(Apply(s, events[k], watch), events, k + 1, watch);
    }
  }

  class Coordinator {
    /** Whether the run is in watch mode. */
    const watch: bool
    /** The queue of futures, oldest first. */
    var futures: seq<Future>
    /** Whether the file channel is still open (not yet nil). */
    var sourceOpen: bool
    /** Everything written to the output stream so far. */
    var out: Bytes
    /** The file -> import paths map filled in by successful tasks. */
    var records: map<string, seq<string>>
    /** The first error a task returned to the error group. */
    var firstError: Option<RunError>

    /** Every future ever created, in arrival order, with its current slot. */
    ghost var history: seq<Future>
    /** How many futures have been dequeued. */
    ghost var taken: nat

    /**
     * The queue is the not-yet-dequeued tail of the arrivals (so its length
     * is arrivals minus dequeues), every dequeued future had settled, and
     * the output is exactly the blocks of the dequeued futures in arrival
     * order. Only tasks record errors, and in watch mode none.
     */
    ghost predicate Valid()
      reads this
    {
      && taken <= |history|
      && futures == history[taken..]
      && (forall k :: 0 <= k < taken ==> history[k].slot != Pending)
      && out == Emit(history[..taken])
      && (watch ==> firstError.None?)
      && (firstError.Some? ==> firstError.value.ProcessingError?)
    }

    /** Neither more files nor unsettled futures: the loop's exit condition. */
    predicate Exhausted()
      reads this
    {
      !sourceOpen && futures == []
    }

    /** Once exhausted, every future ever created was dequeued and written, in arrival order. */
    lemma ExhaustedTookAll()
      requires Valid() && Exhausted()
      ensures taken == |history| && out == Emit(history)
    {
      assert history[..taken] == history;
    }

    /** The coordinator's state, as a value. */
    function Snapshot(): State
      reads this
    {
      State(futures, sourceOpen, out, records, firstError)
    }

    constructor (watch: bool)
      ensures Valid() && this.watch == watch
      ensures futures == [] && sourceOpen && out == [] && records == map[] && firstError == None
      ensures history == [] && taken == 0
    {
      this.watch := watch;
      futures, sourceOpen, out, records, firstError := [], true, [], map[], None;
      history, taken := [], 0;
    }

    /**
     * What the loop keeps after its first `n` turns on `schedule`, from the
     * state (`h0`, `open0`) it started in: the arrivals are exactly
     * the files the events delivered, the channel is open iff it was and no
     * event closed it.
     */
    ghost predicate Tracks(h0: seq<Future>, open0: bool, schedule: seq<Event>, n: nat)
      reads this
    {
      && n <= |schedule|
      && Appended(h0, history, ArrivedFiles(schedule, n, open0))
      && sourceOpen == OpenAfter(schedule, n, open0)
    }

    /** The file channel yields `file`: a fresh future is appended at the tail. */
    method Receive(file: string)
      requires Valid() && sourceOpen
      modifies this
      ensures Valid()
      ensures Snapshot() == Apply(old(Snapshot()), FileArrived(file), watch)
      ensures history == old(history) + [Future(file, Pending)] && taken == old(taken)
    {
      futures := futures + [Future(file, Pending)];
      history := history + [Future(file, Pending)];
      assert history[..taken] == old(history)[..taken];
    }

    /** The file channel reports closed: it becomes nil and is never selected again. */
    method CloseSource()
      requires Valid() && sourceOpen
      modifies this
      ensures Valid()
      ensures Snapshot() == Apply(old(Snapshot()), SourceClosed, watch)
      ensures history == old(history) && taken == old(taken)
    {
      sourceOpen := false;
    }

    /**
     * The task behind `futures[i]` returns. On success the file's import
     * paths are recorded (replacing any earlier record) and the bytes are
     * sent; on error the future is closed without a value, and outside
     * watch mode the error goes to the error group, which keeps the first.
     */
    method Finish(i: nat, outcome: Result<Resolved, FileError>)
      requires Valid() && i < |futures| && futures[i].slot == Pending
      modifies this
      ensures Valid()
      ensures Snapshot() == Apply(old(Snapshot()), TaskFinished(i, outcome), watch)
      ensures history == old(history)[old(taken) + i := Future(old(futures)[i].file, SlotOf(outcome))]
      ensures taken == old(taken)
    {
      var f := futures[i].file;
      match outcome {
        case Success(resolved) =>
          records := records[f := resolved.importPaths];
        case Failure(cause) =>
          if !watch && firstError.None? {
            firstError := Some(ProcessingError(f, cause));
          }
      }
      var settled := Future(f, SlotOf(outcome));
      futures := futures[i := settled];
      history := history[taken + i := settled];
      assert history[..taken] == old(history)[..taken];
      assert Snapshot() == old(Snapshot()).(futures := futures, records := records, firstError := firstError);
    }

    /**
     * The coordinator receives from the head future: it is dequeued, and if
     * it carries bytes they are written followed by the separator.
     */
    method TakeHead()
      requires Valid() && futures != [] && futures[0].slot != Pending
      modifies this
      ensures Valid()
      ensures Snapshot() == Apply(old(Snapshot()), HeadReceived, watch)
      ensures history == old(history) && taken == old(taken) + 1
    {
      var head := futures[0];
      futures := futures[1..];
      out := out + Block(head);
      taken := taken + 1;
      assert history[..taken][..taken - 1] == history[..taken - 1];
    }

    /**
     * One turn of the `select`: an enabled event happens, a disabled one is
     * skipped. A graph error in watch mode ends the loop with that error.
     */
    method Step(ev: Event) returns (stop: Option<RunError>)
      requires Valid()
      modifies this
      ensures Valid()
      ensures Snapshot() == Apply(old(Snapshot()), ev, watch)
      ensures Appended(old(history), history, Arrival(ev, old(sourceOpen)))
      ensures sourceOpen == (old(sourceOpen) && !ev.SourceClosed?)
      ensures Grows(old(history), history) && old(taken) <= taken
      ensures stop.Some? <==> watch && ev.DependencyFailed?
      ensures stop.Some? ==> stop.value == WatchingError(ev.cause)
    {
      stop := None;
      match ev {
        case FileArrived(file) =>
          if sourceOpen {
            Receive(file);
          }
        case SourceClosed =>
          if sourceOpen { CloseSource(); }
        case TaskFinished(position, outcome) =>
          if position < |futures| && futures[position].slot == Pending {
            Finish(position, outcome);
          }
        case HeadReceived =>
          if futures != [] && futures[0].slot != Pending {
            TakeHead();
          }
        case DependencyFailed(cause) =>
          if watch { stop := Some(WatchingError(cause)); }
      }
    }

    /**
     * Turn `n` of the loop: the `select` on the `n`-th event of `schedule`,
     * keeping what the loop tracks since it started in (`h0`, `open0`).
     */
    method Turn(ghost h0: seq<Future>, ghost open0: bool, schedule: seq<Event>, n: nat)
      returns (stop: Option<RunError>)
      requires Valid() && n < |schedule| && Tracks(h0, open0, schedule, n) && !Exhausted()
      modifies this
      ensures Valid() && Tracks(h0, open0, schedule, n + 1)
      ensures Snapshot() == Apply(old(Snapshot()), schedule[n], watch)
      ensures stop.Some? <==> watch && schedule[n].DependencyFailed?
      ensures stop.Some? ==> !Exhausted()
      ensures stop.None? ==> Drive(old(Snapshot()), schedule, n, watch) == Drive(Snapshot(), schedule, n + 1, watch)
      ensures stop.Some? ==> Drive(old(Snapshot()), schedule, n, watch) == Outcome(Returned(stop), n + 1, Snapshot())
    {
      ghost var before := history;
      ghost var openBefore := sourceOpen;
      DriveTurn(Snapshot(), schedule, n, watch);
      stop := Step(schedule[n]);
      ArrivalsStep(h0, before, history, schedule, n, open0, openBefore, sourceOpen);
    }

    /**
     * The `for`/`select` loop, driven by `schedule`. Each turn first checks
     * the exit condition, then takes the next event; `n` is the number of
     * events taken. A normal exit returns the error group's first error.
     */
    method Run(schedule: seq<Event>) returns (result: RunResult, n: nat)
      requires Valid()
      modifies this
      ensures Valid()
      ensures Outcome(result, n, Snapshot()) == Drive(old(Snapshot()), schedule, 0, watch)
      ensures Tracks(old(history), old(sourceOpen), schedule, n)
      ensures Exhausted() ==> taken == |history| && out == Emit(history)
    {
      n := 0;
      ghost var h0, open0, s0 := history, sourceOpen, Snapshot();
      while true
        invariant Valid() && Tracks(h0, open0, schedule, n)
        invariant Drive(Snapshot(), schedule, n, watch) == Drive(s0, schedule, 0, watch)
        decreases |schedule| - n
      {
        if futures == [] && !sourceOpen {
          ExhaustedTookAll();
          DriveEnds(Snapshot(), schedule, n, watch);
          result := Returned(firstError);
          break;
        }
        if n == |schedule| {
          DriveEnds(Snapshot(), schedule, n, watch);
          result := Waiting;
          break;
        }
        var stop := Turn(h0, open0, schedule, n);
        n := n + 1;
        if stop.Some? {
          result := Returned(stop);
          break;
        }
      }
    }
  }

  /**
   * One more turn of the loop extends the arrivals by the file of the event
   * it took, and closes the channel if that event closed it.
   */
  lemma ArrivalsStep(h0: seq<Future>, before: seq<Future>, after: seq<Future>,
                     events: seq<Event>, n: nat, open0: bool, openBefore: bool, openAfter: bool)
    requires n < |events|
    requires Appended(h0, before, ArrivedFiles(events, n, open0))
    requires openBefore == OpenAfter(events, n, open0)
    requires Grows(before, after) && Appended(before, after, Arrival(events[n], openBefore))
    requires openAfter == (openBefore && !events[n].SourceClosed?)
    ensures Appended(h0, after, ArrivedFiles(events, n + 1, open0))
    ensures openAfter == OpenAfter(events, n + 1, open0)
  {
    assert ArrivedFiles(events, n + 1, open0) == ArrivedFiles(events, n, open0) + Arrival(events[n], openBefore);
  }

  /** The loop's two ways to end before taking an event. */
  lemma DriveEnds(s: State, events: seq<Event>, k: nat, watch: bool)
    requires k <= |events|
    requires (!s.open && s.futures == []) || k == |events|
    ensures !s.open && s.futures == [] ==> Drive(s, events, k, watch) == Outcome(Returned(s.firstError), k, s)
    ensures s.open || s.futures != [] ==> Drive(s, events, k, watch) == Outcome(Waiting, k, s)
  {
  }

  /** A turn of the loop that takes event `k`. */
  lemma DriveTurn(s: State, events: seq<Event>, k: nat, watch: bool)
    requires k < |events| && (s.open || s.futures != [])
    ensures watch && events[k].DependencyFailed? ==>
      Drive(s, events, k, watch) == Outcome(Returned(Some(WatchingError(events[k].cause))), k + 1, s)
    ensures !(watch && events[k].DependencyFailed?) ==>
      Drive(s, events, k, watch) == Drive(Apply(s, events[k], watch), events, k + 1, watch)
  {
  }

  /** Two files arrive, the channel closes, and their tasks finish in reverse order. */
  function ReversedSchedule(a: Bytes, b: Bytes): seq<Event>
  {
    [FileArrived("first.yaml"), FileArrived("second.yaml"), SourceClosed,
     TaskFinished(1, Success(Resolved(b, ["example.com/second"]))),
     TaskFinished(0, Success(Resolved(a, ["example.com/first"]))),
     HeadReceived, HeadReceived]
  }

  /** Two arrivals and then the closing of the channel: two pending futures, in arrival order. */
  lemma ArrivalsThenClose(first: string, second: string, e: seq<Event>, watch: bool)
    requires |e| >= 3 && e[0] == FileArrived(first) && e[1] == FileArrived(second) && e[2] == SourceClosed
    ensures Drive(State([], true, [], map[], None), e, 0, watch) ==
      Drive(State([Future(first, Pending), Future(second, Pending)], false, [], map[], None), e, 3, watch)
  {
    var x, y := Future(first, Pending), Future(second, Pending);
    var s0 := State([], true, [], map[], None);
    var s1 := State([x], true, [], map[], None);
    var s2 := State([x, y], true, [], map[], None);
    DriveTurn(s0, e, 0, watch);
    assert Apply(s0, e[0], watch) == s1;
    DriveTurn(s1, e, 1, watch);
    assert Apply(s1, e[1], watch) == s2;
    DriveTurn(s2, e, 2, watch);
  }

  /** The second file's task finishes first, then the first file's. */
  lemma ReversedFinishes(a: Bytes, b: Bytes, watch: bool)
    ensures Drive(State([Future("first.yaml", Pending), Future("second.yaml", Pending)], false, [], map[], None),
                  ReversedSchedule(a, b), 3, watch) ==
      Drive(State([Future("first.yaml", Delivered(a)), Future("second.yaml", Delivered(b))], false, [],
                  map["second.yaml" := ["example.com/second"], "first.yaml" := ["example.com/first"]], None),
            ReversedSchedule(a, b), 5, watch)
  {
    var e := ReversedSchedule(a, b);
    var x, y := Future("first.yaml", Pending), Future("second.yaml", Pending);
    var s3 := State([x, y], false, [], map[], None);
    var s4 := State([x, Future("second.yaml", Delivered(b))], false, [], map["second.yaml" := ["example.com/second"]], None);
    DriveTurn(s3, e, 3, watch);
    assert Apply(s3, e[3], watch) == s4;
    DriveTurn(s4, e, 4, watch);
  }

  /** Both futures are dequeued in arrival order, and the loop exits. */
  lemma ReversedTakes(a: Bytes, b: Bytes, watch: bool)
    ensures var m := map["second.yaml" := ["example.com/second"], "first.yaml" := ["example.com/first"]];
      Drive(State([Future("first.yaml", Delivered(a)), Future("second.yaml", Delivered(b))], false, [], m, None),
            ReversedSchedule(a, b), 5, watch) ==
      Outcome(Returned(None), 7, State([], false, a + Separator + b + Separator, m, None))
  {
    var e := ReversedSchedule(a, b);
    var m := map["second.yaml" := ["example.com/second"], "first.yaml" := ["example.com/first"]];
    var y := Future("second.yaml", Delivered(b));
    var s5 := State([Future("first.yaml", Delivered(a)), y], false, [], m, None);
    var s6 := State([y], false, a + Separator, m, None);
    DriveTurn(s5, e, 5, watch);
    assert Apply(s5, e[5], watch) == s6;
    DriveTurn(s6, e, 6, watch);
  }

  /**
   * The loop on the reversed-completion schedule takes all seven events,
   * writes the first file's bytes before the second's, records both files
   * and ends cleanly, in either mode.
   */
  lemma ReversedCompletionDrive(a: Bytes, b: Bytes, watch: bool)
    ensures Drive(State([], true, [], map[], None), ReversedSchedule(a, b), 0, watch) ==
      Outcome(Returned(None), 7,
        State([], false, a + Separator + b + Separator,
              map["second.yaml" := ["example.com/second"], "first.yaml" := ["example.com/first"]], None))
  {
    ArrivalsThenClose("first.yaml", "second.yaml", ReversedSchedule(a, b), watch);
    ReversedFinishes(a, b, watch);
    ReversedTakes(a, b, watch);
  }

  /** The coordinator run on the reversed-completion schedule writes in arrival order. */
  method ReversedCompletionExample(a: Bytes, b: Bytes)
  {
    var c := new Coordinator(true);
    var result, n := c.Run(ReversedSchedule(a, b));
    ReversedCompletionDrive(a, b, true);
    assert result == Returned(None) && n == 7;
    assert c.out == a + Separator + b + Separator;
  }

  /** Two files arrive, the channel closes, the first file fails and the second resolves. */
  function FailingSchedule(b: Bytes, cause: FileError): seq<Event>
  {
    [FileArrived("bad.yaml"), FileArrived("good.yaml"), SourceClosed,
     TaskFinished(0, Failure(cause)), TaskFinished(1, Success(Resolved(b, []))),
     HeadReceived, HeadReceived]
  }

  /** Outside watch mode the failure becomes the error group's error, and the later file resolves. */
  lemma FailingFinishes(b: Bytes, cause: FileError)
    ensures Drive(State([Future("bad.yaml", Pending), Future("good.yaml", Pending)], false, [], map[], None),
                  FailingSchedule(b, cause), 3, false) ==
      Drive(State([Future("bad.yaml", Closed), Future("good.yaml", Delivered(b))], false, [],
                  map["good.yaml" := []], Some(ProcessingError("bad.yaml", cause))),
            FailingSchedule(b, cause), 5, false)
  {
    var e := FailingSchedule(b, cause);
    var s3 := State([Future("bad.yaml", Pending), Future("good.yaml", Pending)], false, [], map[], None);
    var s4 := State([Future("bad.yaml", Closed), Future("good.yaml", Pending)], false, [], map[],
                    Some(ProcessingError("bad.yaml", cause)));
    var s5 := State([Future("bad.yaml", Closed), Future("good.yaml", Delivered(b))], false, [],
                    map["good.yaml" := []], Some(ProcessingError("bad.yaml", cause)));
    DriveTurn(s3, e, 3, false);
    assert Apply(s3, e[3], false) == s4;
    DriveTurn(s4, e, 4, false);
    assert Apply(s4, e[4], false) == s5;
  }

  /** The failed file is dequeued without output, the resolved one is written, and the run returns the error. */
  lemma FailingTakes(b: Bytes, cause: FileError)
    ensures var err := Some(ProcessingError("bad.yaml", cause));
      Drive(State([Future("bad.yaml", Closed), Future("good.yaml", Delivered(b))], false, [],
                  map["good.yaml" := []], err), FailingSchedule(b, cause), 5, false) ==
      Outcome(Returned(err), 7, State([], false, b + Separator, map["good.yaml" := []], err))
  {
    var e := FailingSchedule(b, cause);
    var err := Some(ProcessingError("bad.yaml", cause));
    var y := Future("good.yaml", Delivered(b));
    var s5 := State([Future("bad.yaml", Closed), y], false, [], map["good.yaml" := []], err);
    var s6 := State([y], false, [], map["good.yaml" := []], err);
    DriveTurn(s5, e, 5, false);
    assert Apply(s5, e[5], false) == s6;
    DriveTurn(s6, e, 6, false);
  }

  /**
   * Outside watch mode a failing file is still dequeued without output, a
   * later file that resolved is still written, and the run's result is the
   * failing file's error.
   */
  method FailureOutsideWatchExample(b: Bytes, cause: FileError)
  {
    var c := new Coordinator(false);
    var result, n := c.Run(FailingSchedule(b, cause));
    ArrivalsThenClose("bad.yaml", "good.yaml", FailingSchedule(b, cause), false);
    FailingFinishes(b, cause);
    FailingTakes(b, cause);
    assert result == Returned(Some(ProcessingError("bad.yaml", cause))) && n == 7;
    assert c.out == b + Separator;
  }
}
