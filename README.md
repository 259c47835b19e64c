# ko `resolveFilesToWriter` — a Dafny model

This project models the orchestration core of ko's `pkg/commands/resolver.go`:
the command that turns Kubernetes YAML manifests whose image fields name Go
import paths into manifests that name built and published images, streaming
one resolved block per input file to an output writer.

Five modules, one per concern of that file:

- `Common` (`common.dfy`): `Option`, `Result`, bytes.
- `Options` (`options.dfy`): the User-Agent string (`ua`), the builder option
  list (`gobuildOptions`) and the publisher-selection decision of
  `makePublisher` (daemon, error, or ordered multi-publisher wrapped in a
  caching publisher).
- `Watch` (`watch.dfy`): the watch-mode callback that, given the
  file → recorded-import-paths map and a set of changed import paths,
  invalidates each changed path in the caching builder and re-sends the file
  name into the file channel, once per changed path.
- `ResolveFile` (`resolve_file.dfy`): one task's work on one file — selector
  parsing, reading, the multi-document decode loop with selector filtering,
  image-reference resolution and the encode loop, with each stage's error.
- `Pipeline` (`pipeline.dfy`): the coordinator of `resolveFilesToWriter` as a
  class `Coordinator`. Its fields are the futures queue, whether the file
  channel is still open, the output bytes, the file → import paths map and
  the error group's first error. Ghost state (`history`, `taken`) lists every
  future ever created, in arrival order, and how many were dequeued. The
  goroutines and the `select` become events (a file arrives, the channel
  closes, the task behind a given future finishes, the head future is
  received, the dependency graph reports an error); `Run` is the `for`/`select`
  loop driven by any finite schedule of them.

The object invariant `Coordinator.Valid` carries the ordering guarantee: the
queue is exactly the not-yet-dequeued tail of the arrivals (so its length is
arrivals minus dequeues), and the output is exactly the blocks of the
dequeued futures in arrival order (`out == Emit(history[..taken])`), whatever
order the tasks finished in.

Behaviour of `resolver.go` a reader might not expect:

- A task that fails closes its future without a value in both modes
  (`defer close(ch)`, line 261). Outside watch mode the error also goes to
  the error group. The loop does not watch the cancelled context: it goes on
  draining, still writes later files whose tasks succeeded, and returns the
  first error only once the channel is closed and the queue is empty (line
  317). So a failing file does not by itself stop the output of later files.
- The selector is parsed inside `resolveFile` for every file (lines 328-336),
  so a malformed selector is a per-file error (skipped in watch mode), not a
  configuration error detected before processing.
- The watch callback invalidates and re-sends per matching import path, not
  per file: a file with two changed paths is re-sent twice, and each
  invalidation directly precedes its re-send (lines 204-209).

## Model

| member | source | states |
|---|---|---|
| `Options.Ua` | pkg/commands/resolver.go:53-58 | the User-Agent always starts with "ko"; it is exactly "ko" iff the version is empty, and otherwise it is "ko/" followed by the version |
| `Options.UaRoundTrip` | pkg/commands/resolver.go:53-58 | the version can be read back from the User-Agent |
| `Options.UaInjective` | pkg/commands/resolver.go:53-58 | different versions give different User-Agents |
| `Options.GobuildOptions` | pkg/commands/resolver.go:66-81 | a creation-time error is returned as is; otherwise the list starts with the (only) base-image option, holds the creation-time option iff a time is set, and ends with disabled-optimizations iff that flag is set, with nothing else |
| `Options.MakePublisher` | pkg/commands/resolver.go:114-167 | the daemon is chosen whenever local is asked for (by flag or by the `ko.local` repository) whatever else is set; otherwise an unset or unparsable repository, a failing layout publisher or a failing registry publisher is an error, and these are the only errors; a failing layout publisher gives the layout error naming the layout path, and (with the layout step fine) a failing registry publisher gives its own error unchanged; on success the multi-publisher holds the layout, tarball and registry publishers exactly when requested, in that order, and nothing else |
| `Options.Requested` | pkg/commands/resolver.go:136-160 | the list the appends build when every constructor succeeds; it has no contract of its own, and `RequestedIsMulti` characterises it |
| `Options.RequestedIsMulti` | pkg/commands/resolver.go:136-160 | the appended list holds the layout publisher iff a layout path is set, the tarball publisher iff a tarball file is set, the registry publisher iff pushing, nothing else, in that order |
| `Options.RequestedOrdered` | pkg/commands/resolver.go:136-160 | the appends put the layout publisher before the tarball publisher before the registry publisher |
| `Watch.FileActions` | pkg/commands/resolver.go:204-210 | the inner loop for one file: each changed path yields exactly two actions, and every action is either the re-send of that file or the invalidation of one of its paths that changed |
| `Watch.Retrigger` | pkg/commands/resolver.go:199-213 | the callback over the records in range order, one file's actions after another's; it has no contract of its own, and `RetriggerPaired`, `RetriggerInvalidates`, `RetriggerResends`, `RetriggerResendCount` and `RetriggerOfMap` characterise it |
| `Watch.RetriggerPaired` | pkg/commands/resolver.go:199-213 | every invalidation is of a changed path recorded for the file re-sent immediately after it, and every re-send is immediately preceded by such an invalidation |
| `Watch.FileActionsCovers` | pkg/commands/resolver.go:204-209 | for one file, every recorded path that changed is invalidated directly before a re-send of that file |
| `Watch.RetriggerCovers` | pkg/commands/resolver.go:199-213 | for every record and every one of its paths that changed, the actions hold an invalidation of that path directly followed by a re-send of that record's file, so no changed path of any file is missed |
| `Watch.SharedPathExample` | pkg/commands/resolver.go:199-213 | two files sharing a changed path B, one of them also holding changed path A: A is invalidated before the first file's re-send, and B is invalidated once before each file's re-send |
| `Watch.FileActionsMembers` | pkg/commands/resolver.go:204-210 | for one file: a path is invalidated iff it is recorded and changed; only that file is re-sent, iff one of its paths changed, once per changed path |
| `Watch.RetriggerInvalidates` | pkg/commands/resolver.go:199-213 | a path is invalidated iff it changed and some record holds it |
| `Watch.RetriggerResends` | pkg/commands/resolver.go:199-213 | a file is re-sent iff one of its recorded paths changed |
| `Watch.RetriggerResendCount` | pkg/commands/resolver.go:204-209 | a file is re-sent once per changed path of each of its records, duplicates included |
| `Watch.RetriggerOfMap` | pkg/commands/resolver.go:199-213 | over the file → import paths map in any range order: a file is re-sent iff it is in the map with a changed path, as many times as it has changed paths; a path is invalidated iff it changed and is recorded; other entries are untouched |
| `Watch.RetriggerExample` | pkg/commands/resolver.go:199-213 | a file recorded with paths A and B and a change to A only: A is invalidated, then the file is re-sent, and nothing else happens |
| `ResolveFile.SelectorOf` | pkg/commands/resolver.go:328-336 | an empty selector string means no selector; a non-empty one that fails to parse returns the parser's error unchanged, and one that parses gives exactly the parsed selector |
| `ResolveFile.Selected` | pkg/commands/resolver.go:362-370 | filtering never adds documents; `SelectedAppend`, `SelectedCounts` and `SelectedSound` characterise which it keeps |
| `ResolveFile.FirstEvalError` | pkg/commands/resolver.go:362-364 | a reported evaluation error is the error of some document's evaluation; `FirstEvalErrorSpec` shows it is the first |
| `ResolveFile.Filtered` | pkg/commands/resolver.go:347-372 | the decode loop fails only with a selector evaluation error or with the decoder's own error; on success the decoder ended cleanly and at most the decoded documents are kept |
| `ResolveFile.SelectedAppend` | pkg/commands/resolver.go:353-372 | selector filtering keeps input order: it distributes over concatenation |
| `ResolveFile.SelectedCounts` | pkg/commands/resolver.go:362-370 | a document is kept exactly as many times as it occurs when the selector accepts it, and never otherwise |
| `ResolveFile.SelectedSound` | pkg/commands/resolver.go:362-370 | every kept document came from the input and is accepted by the selector |
| `ResolveFile.FirstEvalErrorSpec` | pkg/commands/resolver.go:362-364 | there is no selector evaluation error iff every document evaluates; an error is that of the first document that fails to evaluate |
| `ResolveFile.FilteredWithoutSelector` | pkg/commands/resolver.go:328-336 | with an empty selector every decoded document is kept, in order |
| `ResolveFile.FilterDocuments` | pkg/commands/resolver.go:347-372 | the decode loop returns the first selector evaluation error, else the decoder's error, else all documents (no selector) or the accepted ones in order |
| `ResolveFile.EncodeAll` | pkg/commands/resolver.go:378-390 | an encoding failure is the error of some document's encoding; `EncodeAllAppend`, `EncodeAllSucceeds` and `EncodeAllFirstFailure` characterise it |
| `ResolveFile.EncodeAllAppend` | pkg/commands/resolver.go:378-390 | encoding succeeds on a concatenation iff on both parts, and the bytes are the parts' bytes in document order |
| `ResolveFile.EncodeAllSucceeds` | pkg/commands/resolver.go:382-387 | encoding succeeds iff every document encodes |
| `ResolveFile.EncodeAllFirstFailure` | pkg/commands/resolver.go:382-385 | a failing encode reports the error of the first document that fails to encode: every document before it encodes |
| `ResolveFile.EncodeDocuments` | pkg/commands/resolver.go:378-390 | the encode loop returns the first encoder error or the concatenated encodings |
| `ResolveFile.ResolveFile` | pkg/commands/resolver.go:320-391 | a selector parse error, then a read error, then a decode or selector error, then an image-reference error, then an encoder error is returned as that stage's error, with the stage's own cause; the file resolves iff every stage succeeds, and then yields the encoding of the resolved kept documents and the import paths built |
| `Pipeline.Block` | pkg/commands/resolver.go:301-308 | what one dequeue writes; it has no contract of its own, and `Apply`'s receive case uses it: the body then "\n---\n", or nothing for a future closed without a value |
| `Pipeline.Emit` | pkg/commands/resolver.go:297-308 | the output of a sequence of dequeued futures, in their order; it has no contract of its own, and `EmitAppend`, `EmitSkipsClosed` and `EmitLength` characterise it |
| `Pipeline.EmitAppend` | pkg/commands/resolver.go:297-308 | the output of dequeued futures distributes over concatenation: each future's block stands in its place |
| `Pipeline.EmitSkipsClosed` | pkg/commands/resolver.go:301-308 | futures closed without a value (failed or skipped files) add nothing to the output |
| `Pipeline.EmitLength` | pkg/commands/resolver.go:307 | the output's length is the sum, over delivered futures, of the body length plus the five separator bytes |
| `Pipeline.SlotOf` | pkg/commands/resolver.go:261-279 | a finished task always settles its future; it carries bytes iff resolution succeeded |
| `Pipeline.Apply` | pkg/commands/resolver.go:241-312 | one `select` as a function of the state: the output only grows, a closed channel stays closed, only task errors are ever recorded, and in watch mode none |
| `Pipeline.Drive` | pkg/commands/resolver.go:225-317 | the loop on a schedule from a state; it takes at least the events it started at and no more than the schedule holds, and `DriveEnding` states how it ends |
| `Pipeline.DriveEnding` | pkg/commands/resolver.go:225-317 | the loop returns normally only with the channel closed and the queue empty, and then returns the first task error; a graph error ends it only in watch mode, as the last event taken; a loop still waiting has taken every event and is not at its exit condition |
| `Pipeline.ReversedCompletionDrive` | pkg/commands/resolver.go:225-317 | two files whose tasks finish in reverse order: the loop takes all seven events, returns no error, leaves the queue empty and the channel closed, writes the first file's block before the second's, and records both files' import paths |
| `Pipeline.FailingFinishes` | pkg/commands/resolver.go:260-279 | outside watch mode, a first file failing and a second succeeding settle both futures, record the first file's error and only the second file's import paths |
| `Pipeline.FailingTakes` | pkg/commands/resolver.go:297-317 | dequeuing a failed future then a delivered one writes only the delivered block, and the loop then returns the recorded task error |
| `Pipeline.Coordinator.constructor` | pkg/commands/resolver.go:187-225 | a run starts with an open file channel, an empty queue, empty output and record map, and no error |
| `Pipeline.Coordinator.ExhaustedTookAll` | pkg/commands/resolver.go:297-317 | at the loop's exit condition every future ever created has been dequeued and the output is all their blocks in arrival order |
| `Pipeline.Coordinator.Receive` | pkg/commands/resolver.go:242-255 | an arriving file has exactly `Apply`'s arrival effect (one pending future appended at the tail, nothing else changes), and the arrivals gain exactly that future |
| `Pipeline.Coordinator.CloseSource` | pkg/commands/resolver.go:243-249 | a closed file channel has exactly `Apply`'s closure effect (the channel becomes nil, nothing else changes); the arrivals are unchanged |
| `Pipeline.Coordinator.Finish` | pkg/commands/resolver.go:260-279 | a finished task has exactly `Apply`'s task-end effect: it settles only its own future; on success the file's import paths replace its earlier record; on failure nothing is recorded, and outside watch mode the first error is kept; the arrivals see the same settlement at that future's place |
| `Pipeline.Coordinator.TakeHead` | pkg/commands/resolver.go:297-308 | a settled head future is dequeued with exactly `Apply`'s receive effect: its bytes are written followed by "\n---\n", and a future closed without a value writes nothing; one more arrival counts as dequeued |
| `Pipeline.Coordinator.Step` | pkg/commands/resolver.go:241-312 | one `select` has exactly the effect `Apply` gives the event (a disabled case changes nothing); the arrivals gain exactly the file of an arrival on an open channel, a settled future never changes, the channel is closed by a closure event only, and the loop stops iff in watch mode the event is a graph error, with that error |
| `Pipeline.Coordinator.Turn` | pkg/commands/resolver.go:227-312 | turn `n` of the loop on the `n`-th event of a schedule: the state becomes `Apply` of the event, the arrivals stay exactly the files the first events delivered, the channel stays open iff no event closed it, and `Drive` from before the turn equals `Drive` from after it, or, when a graph error stops it in watch mode, the outcome returning that error |
| `Pipeline.Coordinator.Run` | pkg/commands/resolver.go:225-317 | the result, the number of events taken and the final state are exactly `Drive` on the schedule from the starting state (so `DriveEnding` says how it ends); the futures created are one per `FileArrived` event among those taken that came while the channel was open, in schedule order; the channel is open at the end iff no `SourceClosed` came; at the exit condition every arrival was dequeued and written in arrival order |

## Left out

- `defaultTransport` and `useragentTransport.RoundTrip` (lines 41-64): HTTP plumbing; only `ua` is modelled.
- `makeBuilder` (lines 83-112): `build.NewGo`, `build.NewLimiter` and `build.NewCaching` are foreign constructors; the caching builder appears only as the `Invalidate` action of the watch callback.
- `getCreationTime` and `getBaseImage`: the creation-time lookup's outcome is a parameter of `Options.GobuildOptions`; the base-image option is a tag.
- `Options.MakePublisher`: the publisher constructors, `options.MakeNamer` and the keychain are tags or parameters; `publish.NewCaching` is taken to succeed, as its code is not part of this model; the registry and repository parsers are predicates passed in, and `KO_DOCKER_REPO` is passed in as a string.
- `graph.New`, `g.Shutdown` and the file-system watcher (lines 195-219): external; a failure to create the graph is not modelled.
- `Pipeline.Coordinator.Finish`: does not model the `g.Add` calls after a successful send in watch mode (lines 280-293); an error from the graph enters only as the `DependencyFailed` event.
- Goroutines, the error group's context cancellation, `sync.Map` locking and the blocking hand-off on unbuffered channels: replaced by events in any order; a task cancelled by the context is simply one whose outcome is a failure.
- The watch callback's sends into the file channel: re-sent files enter the coordinator as ordinary `FileArrived` events; the callback is modelled on its own (`Watch.Retrigger`), with the map's range order given as a sequence.
- The watch-mode `log.Print` of a failed file's error (line 272): the error is dropped and the future closed without a value, as modelled; the log output is not modelled.
- Reading the file or standard input, writing and closing `out`: the read's outcome is a parameter, the output is a byte sequence.
- `ResolveFile.EncodeAll`: yaml.v3's encoder is a stream that writes a document separator before every document after the first; the model encodes each document on its own and concatenates, so `EncodeAllAppend` states a property of that abstraction.
- YAML decoding and encoding (including the encoder's indentation and document separators), `labels.Parse`, `resolve.MatchesSelector` and `resolve.ImageReferences`: functions passed in; the import paths `build.Recorder` collects are reported by the reference-resolution function.
- `Pipeline.Coordinator.Run`: covers a finite schedule; when the schedule ends before the exit condition holds it reports that the loop is still waiting.
