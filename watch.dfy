/**
 * The watch-mode re-trigger rule of `resolveFilesToWriter`: when the
 * dependency graph reports a batch of changed import paths, the callback
 * walks the file -> recorded-import-paths map and, for every recorded path
 * that changed, invalidates that path in the caching builder and then sends
 * the file name back into the file channel.
 *
 * The map is walked in whatever order its range operation takes; the model
 * receives that order as a sequence of (file, import paths) records.
 */
module Watch {

  /** What the callback does, one step at a time. */
  datatype Action = Invalidate(importPath: string) | Resend(file: string)

  /** One entry of the file -> import paths map. */
  type Record = (string, seq<string>)

  /** The number of entries of `paths` that are in `changed` (duplicates counted). */
  function Hits(paths: seq<string>, changed: set<string>): (n: nat)
    ensures n <= |paths|
    ensures n > 0 <==> exists p :: p in paths && p in changed
  {
    if paths == [] then 0
    else
      assert forall p :: p in paths <==> p == paths[0] || p in paths[1..];
      (if paths[0] in changed then 1 else 0) + Hits(paths[1..], changed)
  }

  /** The inner loop: the actions for one recorded file, in the order of its import paths. */
  function FileActions(file: string, paths: seq<string>, changed: set<string>): (r: seq<Action>)
    ensures |r| == 2 * Hits(paths, changed)
    ensures forall a :: a in r ==> a == Resend(file) || (a.Invalidate? && a.importPath in paths && a.importPath in changed)
  {
    if paths == [] then []
    else
      (if paths[0] in changed then [Invalidate(paths[0]), Resend(file)] else [])
      + FileActions(file, paths[1..], changed)
  }

  /** The callback: the outer loop over the records, in range order. */
  function Retrigger(records: seq<Record>, changed: set<string>): seq<Action>
  {
    if records == [] then []
    else FileActions(records[0].0, records[0].1, changed) + Retrigger(records[1..], changed)
  }

  // ---------------------------------------------------------------------------
  // Reference notions

  /** `ip` is one of the import paths recorded for `file`. */
  ghost predicate Recorded(records: seq<Record>, file: string, ip: string)
  {
    exists i :: 0 <= i < |records| && records[i].0 == file && ip in records[i].1
  }

  /**
   * At position `j`: an invalidation is of a changed path recorded for the
   * file re-sent right after it, and a re-send directly follows an
   * invalidation.
   */
  ghost predicate PairedAt(acts: seq<Action>, j: nat, records: seq<Record>, changed: set<string>)
    requires j < |acts|
  {
    && (acts[j].Invalidate? ==>
          j + 1 < |acts| && acts[j + 1].Resend? && acts[j].importPath in changed &&
          Recorded(records, acts[j + 1].file, acts[j].importPath))
    && (acts[j].Resend? ==> 0 < j && acts[j - 1].Invalidate?)
  }

  /** Every position of `acts` is paired. */
  ghost predicate Paired(acts: seq<Action>, records: seq<Record>, changed: set<string>)
  {
    forall j: nat :: j < |acts| ==> PairedAt(acts, j, records, changed)
  }

  /** How often `file` is re-sent: once per changed path of every record of `file`. */
  function ResendCount(records: seq<Record>, file: string, changed: set<string>): nat
  {
    if records == [] then 0
    else (if records[0].0 == file then Hits(records[0].1, changed) else 0)
         + ResendCount(records[1..], file, changed)
  }

  /** `records` lists exactly the entries of the map `m`, each key once. */
  ghost predicate Enumerates(records: seq<Record>, m: map<string, seq<string>>)
  {
    && (forall i :: 0 <= i < |records| ==> records[i].0 in m && m[records[i].0] == records[i].1)
    && (forall f :: f in m ==> exists i :: 0 <= i < |records| && records[i].0 == f)
    && (forall i, j :: 0 <= i < j < |records| ==> records[i].0 != records[j].0)
  }

  // ---------------------------------------------------------------------------
  // Ordering: invalidate before re-send

  lemma PairedAppend(a: seq<Action>, b: seq<Action>, records: seq<Record>, changed: set<string>)
    requires Paired(a, records, changed) && Paired(b, records, changed)
    ensures Paired(a + b, records, changed)
  {
    var ab := a + b;
    forall j: nat | j < |ab| ensures PairedAt(ab, j, records, changed) {
      if j < |a| {
        assert PairedAt(a, j, records, changed);
        assert ab[j] == a[j];
        if a[j].Invalidate? { assert ab[j + 1] == a[j + 1]; }
        if a[j].Resend? { assert ab[j - 1] == a[j - 1]; }
      } else {
        var k := j - |a|;
        assert PairedAt(b, k, records, changed);
        assert ab[j] == b[k];
        if b[k].Invalidate? { assert ab[j + 1] == b[k + 1]; }
        if b[k].Resend? { assert ab[j - 1] == b[k - 1]; }
      }
    }
  }

  lemma {:induction false} FileActionsPaired(
    records: seq<Record>, i: nat, paths: seq<string>, changed: set<string>)
    requires i < |records|
    requires forall p :: p in paths ==> p in records[i].1
    ensures Paired(FileActions(records[i].0, paths, changed), records, changed)
  {
    var file := records[i].0;
    if paths != [] {
      var head: seq<Action> := if paths[0] in changed then [Invalidate(paths[0]), Resend(file)] else [];
      if paths[0] in changed {
        assert Recorded(records, file, paths[0]);
      }
      FileActionsPaired(records, i, paths[1..], changed);
      PairedAppend(head, FileActions(file, paths[1..], changed), records, changed);
    }
  }

  lemma {:induction false} RetriggerSuffixPaired(records: seq<Record>, k: nat, changed: set<string>)
    requires k <= |records|
    ensures Paired(Retrigger(records[k..], changed), records, changed)
    decreases |records| - k
  {
    if k < |records| {
      assert records[k..][1..] == records[k + 1..];
      FileActionsPaired(records, k, records[k].1, changed);
      RetriggerSuffixPaired(records, k + 1, changed);
      PairedAppend(FileActions(records[k].0, records[k].1, changed),
                   Retrigger(records[k + 1..], changed), records, changed);
    }
  }

  /**
   * Each invalidation of a changed, recorded path comes immediately before
   * the re-send of the file that recorded it, and no file is re-sent
   * without a preceding invalidation.
   */
  lemma RetriggerPaired(records: seq<Record>, changed: set<string>)
    ensures Paired(Retrigger(records, changed), records, changed)
  {
    assert records[0..] == records;
    RetriggerSuffixPaired(records, 0, changed);
  }

  /** Somewhere in `acts`, `ip` is invalidated and `file` is re-sent right after. */
  ghost predicate InvalidatedThenResent(acts: seq<Action>, ip: string, file: string)
  {
    exists j :: 0 <= j && j + 1 < |acts| && acts[j] == Invalidate(ip) && acts[j + 1] == Resend(file)
  }

  lemma InvalidatedThenResentAppend(a: seq<Action>, b: seq<Action>, ip: string, file: string)
    requires InvalidatedThenResent(a, ip, file) || InvalidatedThenResent(b, ip, file)
    ensures InvalidatedThenResent(a + b, ip, file)
  {
    var ab := a + b;
    if InvalidatedThenResent(a, ip, file) {
      var j :| 0 <= j && j + 1 < |a| && a[j] == Invalidate(ip) && a[j + 1] == Resend(file);
      assert ab[j] == a[j] && ab[j + 1] == a[j + 1];
    } else {
      var j :| 0 <= j && j + 1 < |b| && b[j] == Invalidate(ip) && b[j + 1] == Resend(file);
      assert ab[|a| + j] == b[j] && ab[|a| + j + 1] == b[j + 1];
    }
  }

  /** For one file, each of its changed paths is invalidated directly before a re-send of the file. */
  lemma {:induction false} FileActionsCovers(file: string, paths: seq<string>, changed: set<string>)
    ensures forall ip :: ip in paths && ip in changed ==>
      InvalidatedThenResent(FileActions(file, paths, changed), ip, file)
  {
    if paths != [] {
      var head: seq<Action> := if paths[0] in changed then [Invalidate(paths[0]), Resend(file)] else [];
      var tail := FileActions(file, paths[1..], changed);
      FileActionsCovers(file, paths[1..], changed);
      forall ip | ip in paths && ip in changed
        ensures InvalidatedThenResent(FileActions(file, paths, changed), ip, file)
      {
        if ip == paths[0] {
          assert head[0] == Invalidate(ip) && head[1] == Resend(file);
          assert InvalidatedThenResent(head, ip, file);
        } else {
          assert ip in paths[1..];
        }
        InvalidatedThenResentAppend(head, tail, ip, file);
      }
    }
  }

  /**
   * Every changed path recorded for a file is invalidated directly before
   * a re-send of that file, whichever other files share the path.
   */
  lemma {:induction false} RetriggerCovers(records: seq<Record>, changed: set<string>)
    ensures forall i, ip :: 0 <= i < |records| && ip in records[i].1 && ip in changed ==>
      InvalidatedThenResent(Retrigger(records, changed), ip, records[i].0)
  {
    if records != [] {
      var head := FileActions(records[0].0, records[0].1, changed);
      var tail := Retrigger(records[1..], changed);
      FileActionsCovers(records[0].0, records[0].1, changed);
      RetriggerCovers(records[1..], changed);
      forall i, ip | 0 <= i < |records| && ip in records[i].1 && ip in changed
        ensures InvalidatedThenResent(Retrigger(records, changed), ip, records[i].0)
      {
        if i > 0 {
          assert records[1..][i - 1] == records[i];
        }
        InvalidatedThenResentAppend(head, tail, ip, records[i].0);
      }
    }
  }

  /**
   * The shared-path case: two files recording the same changed path are
   * each re-sent right after an invalidation of that path.
   */
  lemma SharedPathExample()
    ensures Retrigger([("f", ["A", "B"]), ("g", ["B"])], {"A", "B"}) ==
      [Invalidate("A"), Resend("f"), Invalidate("B"), Resend("f"), Invalidate("B"), Resend("g")]
  {
  }

  // ---------------------------------------------------------------------------
  // What is invalidated and re-sent, and how often

  lemma {:induction false} FileActionsMembers(file: string, paths: seq<string>, changed: set<string>)
    ensures forall ip :: Invalidate(ip) in FileActions(file, paths, changed) <==> ip in paths && ip in changed
    ensures forall g :: Resend(g) in FileActions(file, paths, changed) <==>
      g == file && exists ip :: ip in paths && ip in changed
    ensures multiset(FileActions(file, paths, changed))[Resend(file)] == Hits(paths, changed)
    ensures forall g :: g != file ==> multiset(FileActions(file, paths, changed))[Resend(g)] == 0
  {
    if paths != [] {
      FileActionsMembers(file, paths[1..], changed);
      assert forall p :: p in paths <==> p == paths[0] || p in paths[1..];
    }
  }

  /** A path is invalidated exactly when it changed and some file recorded it. */
  lemma {:induction false} RetriggerInvalidates(records: seq<Record>, changed: set<string>)
    ensures forall ip :: Invalidate(ip) in Retrigger(records, changed) <==>
      ip in changed && exists i :: 0 <= i < |records| && ip in records[i].1
  {
    if records != [] {
      FileActionsMembers(records[0].0, records[0].1, changed);
      RetriggerInvalidates(records[1..], changed);
      forall ip | ip in changed && (exists i :: 0 <= i < |records| && ip in records[i].1)
        ensures Invalidate(ip) in Retrigger(records, changed)
      {
        var i :| 0 <= i < |records| && ip in records[i].1;
        if i > 0 { assert records[1..][i - 1] == records[i]; }
      }
      forall ip | Invalidate(ip) in Retrigger(records[1..], changed)
        ensures exists i :: 0 <= i < |records| && ip in records[i].1
      {
        var i :| 0 <= i < |records[1..]| && ip in records[1..][i].1;
        assert ip in records[i + 1].1;
      }
    }
  }

  /** A file is re-sent exactly when one of its recorded paths changed. */
  lemma {:induction false} RetriggerResends(records: seq<Record>, changed: set<string>)
    ensures forall f :: Resend(f) in Retrigger(records, changed) <==>
      exists ip :: ip in changed && Recorded(records, f, ip)
  {
    if records != [] {
      var tail := records[1..];
      FileActionsMembers(records[0].0, records[0].1, changed);
      RetriggerResends(tail, changed);
      forall f, ip | ip in changed && Recorded(records, f, ip)
        ensures Resend(f) in Retrigger(records, changed)
      {
        var i :| 0 <= i < |records| && records[i].0 == f && ip in records[i].1;
        if i > 0 {
          assert tail[i - 1] == records[i];
          assert Recorded(tail, f, ip);
        }
      }
      forall f, ip | ip in changed && Recorded(tail, f, ip)
        ensures Recorded(records, f, ip)
      {
        var i :| 0 <= i < |tail| && tail[i].0 == f && ip in tail[i].1;
        assert records[i + 1] == tail[i];
      }
      forall f | Resend(f) in FileActions(records[0].0, records[0].1, changed)
        ensures exists ip :: ip in changed && Recorded(records, f, ip)
      {
        var ip :| ip in records[0].1 && ip in changed;
        assert Recorded(records, f, ip);
      }
    }
  }

  /** A file is re-sent once per changed path per record of it. */
  lemma {:induction false} RetriggerResendCount(records: seq<Record>, file: string, changed: set<string>)
    ensures multiset(Retrigger(records, changed))[Resend(file)] == ResendCount(records, file, changed)
  {
    if records != [] {
      FileActionsMembers(records[0].0, records[0].1, changed);
      RetriggerResendCount(records[1..], file, changed);
    }
  }

  lemma {:induction false} ResendCountOfKey(records: seq<Record>, i: nat, changed: set<string>)
    requires i < |records|
    requires forall a, b :: 0 <= a < b < |records| ==> records[a].0 != records[b].0
    ensures ResendCount(records, records[i].0, changed) == Hits(records[i].1, changed)
  {
    var tail := records[1..];
    if i == 0 {
      ResendCountOfAbsent(tail, records[0].0, changed);
    } else {
      assert tail[i - 1] == records[i];
      ResendCountOfKey(tail, i - 1, changed);
    }
  }

  lemma {:induction false} ResendCountOfAbsent(records: seq<Record>, file: string, changed: set<string>)
    requires forall i :: 0 <= i < |records| ==> records[i].0 != file
    ensures ResendCount(records, file, changed) == 0
  {
    if records != [] {
      ResendCountOfAbsent(records[1..], file, changed);
    }
  }

  /**
   * The callback over the file -> import paths map itself: a file is
   * re-sent exactly when it is in the map with a changed path, once per
   * such path, and a path is invalidated exactly when it changed and is
   * recorded for some file. Entries without a changed path are untouched.
   */
  lemma RetriggerOfMap(records: seq<Record>, m: map<string, seq<string>>, changed: set<string>)
    requires Enumerates(records, m)
    ensures forall f :: Resend(f) in Retrigger(records, changed) <==>
      f in m && exists ip :: ip in m[f] && ip in changed
    ensures forall f ::
      multiset(Retrigger(records, changed))[Resend(f)] == (if f in m then Hits(m[f], changed) else 0)
    ensures forall ip :: Invalidate(ip) in Retrigger(records, changed) <==>
      ip in changed && exists f :: f in m && ip in m[f]
  {
    var r := Retrigger(records, changed);
    RetriggerResends(records, changed);
    RetriggerInvalidates(records, changed);
    forall f ensures multiset(r)[Resend(f)] == (if f in m then Hits(m[f], changed) else 0) {
      RetriggerResendCount(records, f, changed);
      if f in m {
        var i :| 0 <= i < |records| && records[i].0 == f;
        ResendCountOfKey(records, i, changed);
      } else {
        ResendCountOfAbsent(records, f, changed);
      }
    }
    forall f ensures Resend(f) in r <==> f in m && exists ip :: ip in m[f] && ip in changed {
      if f in m {
        var i :| 0 <= i < |records| && records[i].0 == f;
        if ip :| ip in m[f] && ip in changed {
          assert Recorded(records, f, ip);
        }
      }
    }
    forall ip | Invalidate(ip) in r ensures exists f :: f in m && ip in m[f] {
      var i :| 0 <= i < |records| && ip in records[i].1;
      assert ip in m[records[i].0];
    }
    forall ip | ip in changed && (exists f :: f in m && ip in m[f])
      ensures exists i :: 0 <= i < |records| && ip in records[i].1
    {
      var f :| f in m && ip in m[f];
      var i :| 0 <= i < |records| && records[i].0 == f;
      assert ip in records[i].1;
    }
  }

  /** A file recorded with {A, B} and a change to A only: A is invalidated, then the file is re-sent once. */
  lemma RetriggerExample()
    ensures Retrigger([("app.yaml", ["A", "B"])], {"A"}) == [Invalidate("A"), Resend("app.yaml")]
  {
    assert "B" !in {"A"};
  }
}
