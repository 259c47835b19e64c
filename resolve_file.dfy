/**
 * `resolveFile`: one task's work on one manifest file. The selector is
 * parsed, the file is read, its YAML documents are decoded one by one and
 * those the selector rejects are dropped, image references are resolved in
 * the surviving documents, and the documents are encoded again.
 *
 * YAML decoding and encoding, label-selector parsing and matching, and the
 * reference resolution are foreign libraries: they enter as functions
 * passed in, over an opaque document type `D` and selector type `S`.
 */
module ResolveFile {
  import opened Common

  /** What the YAML decoder yields: the documents, then end-of-file (None) or an error. */
  datatype Decoded<D> = Decoded(docs: seq<D>, end: Option<string>)

  /** What reference resolution returns: the rewritten documents and the import paths it built. */
  datatype Substituted<D> = Substituted(docs: seq<D>, built: seq<string>)

  /** A resolved file: its encoded bytes and the import paths the recording builder saw. */
  datatype Resolved = Resolved(body: Bytes, importPaths: seq<string>)

  /** Why a file could not be resolved, by stage. */
  datatype FileError =
    | SelectorParse(cause: string)
    | ReadFailed(cause: string)
    | DecodeFailed(cause: string)
    | SelectorEval(cause: string)
    | ImageReferencesFailed(cause: string)
    | EncodeFailed(cause: string)

  // ---------------------------------------------------------------------------
  // Document filtering

  /** The documents the selector accepts, in their order. */
  function Selected<D, S>(docs: seq<D>, s: S, matches: (D, S) -> Result<bool, string>): (r: seq<D>)
    ensures |r| <= |docs|
  {
    if docs == [] then []
    else
      var last := docs[|docs| - 1];
      Selected(docs[..|docs| - 1], s, matches) + (if matches(last, s) == Success(true) then [last] else [])
  }

  /** The error of the first document whose selector evaluation fails, if any. */
  function FirstEvalError<D, S>(docs: seq<D>, s: S, matches: (D, S) -> Result<bool, string>): (r: Option<string>)
    ensures r.Some? ==> exists i :: 0 <= i < |docs| && matches(docs[i], s) == Failure(r.value)
  {
    if docs == [] then None
    else
      var last := docs[|docs| - 1];
      match FirstEvalError(docs[..|docs| - 1], s, matches)
      case Some(e) => Some(e)
      case None => if matches(last, s).Failure? then Some(matches(last, s).error) else None
  }

  /**
   * The outcome of the decode-and-filter loop: a selector evaluation error
   * (which happens while the documents are read, so before the decoder's
   * own error at the end), else the decoder's error, else the documents
   * kept: all of them without a selector, the accepted ones with one.
   */
  function Filtered<D, S>(decoded: Decoded<D>, selector: Option<S>, matches: (D, S) -> Result<bool, string>)
    : (r: Result<seq<D>, FileError>)
    ensures r.Failure? ==> r.error.SelectorEval? || (r.error.DecodeFailed? && decoded.end == Some(r.error.cause))
    ensures r.Success? ==> decoded.end.None? && |r.value| <= |decoded.docs|
  {
    if selector.Some? && FirstEvalError(decoded.docs, selector.value, matches).Some? then
      Failure(SelectorEval(FirstEvalError(decoded.docs, selector.value, matches).value))
    else if decoded.end.Some? then
      Failure(DecodeFailed(decoded.end.value))
    else if selector.None? then
      Success(decoded.docs)
    else
      Success(Selected(decoded.docs, selector.value, matches))
  }

  /** Filtering keeps input order: it distributes over concatenation. */
  lemma {:induction false} SelectedAppend<D, S>(a: seq<D>, b: seq<D>, s: S, matches: (D, S) -> Result<bool, string>)
    ensures Selected(a + b, s, matches) == Selected(a, s, matches) + Selected(b, s, matches)
    decreases |b|
  {
    if b != [] {
      var n := |b| - 1;
      assert (a + b)[..|a + b| - 1] == a + b[..n];
      assert (a + b)[|a + b| - 1] == b[n];
      SelectedAppend(a, b[..n], s, matches);
    } else {
      assert a + b == a;
    }
  }

  /** A document is kept exactly as often as it occurs, when accepted, and never otherwise. */
  lemma {:induction false} SelectedCounts<D, S>(docs: seq<D>, s: S, matches: (D, S) -> Result<bool, string>)
    ensures forall d ::
      multiset(Selected(docs, s, matches))[d] == (if matches(d, s) == Success(true) then multiset(docs)[d] else 0)
  {
    if docs != [] {
      var n := |docs| - 1;
      SelectedCounts(docs[..n], s, matches);
      assert docs == docs[..n] + [docs[n]];
    }
  }

  /** Every kept document is accepted by the selector and came from the input. */
  lemma SelectedSound<D, S>(docs: seq<D>, s: S, matches: (D, S) -> Result<bool, string>)
    ensures forall d :: d in Selected(docs, s, matches) ==> d in docs && matches(d, s) == Success(true)
  {
    SelectedCounts(docs, s, matches);
    forall d | d in Selected(docs, s, matches) ensures d in docs && matches(d, s) == Success(true) {
      assert multiset(Selected(docs, s, matches))[d] > 0;
    }
  }

  /** No evaluation error means every document evaluated; an error names the first failing document. */
  lemma {:induction false} FirstEvalErrorSpec<D, S>(docs: seq<D>, s: S, matches: (D, S) -> Result<bool, string>)
    ensures FirstEvalError(docs, s, matches).None? <==> forall i :: 0 <= i < |docs| ==> matches(docs[i], s).Success?
    ensures FirstEvalError(docs, s, matches).Some? ==>
      exists i :: 0 <= i < |docs| && matches(docs[i], s) == Failure(FirstEvalError(docs, s, matches).value) &&
        forall k :: 0 <= k < i ==> matches(docs[k], s).Success?
  {
    if docs != [] {
      var n := |docs| - 1;
      var init := docs[..n];
      FirstEvalErrorSpec(init, s, matches);
      assert forall i :: 0 <= i < n ==> init[i] == docs[i];
      if FirstEvalError(init, s, matches).Some? {
        var i :| 0 <= i < n && matches(init[i], s) == Failure(FirstEvalError(init, s, matches).value) &&
          forall k :: 0 <= k < i ==> matches(init[k], s).Success?;
        assert !matches(docs[i], s).Success?;
      }
    }
  }

  /** Once a prefix has an evaluation error, so has the whole sequence, with the same error. */
  lemma {:induction false} FirstEvalErrorPrefix<D, S>(docs: seq<D>, k: nat, s: S, matches: (D, S) -> Result<bool, string>)
    requires k <= |docs|
    requires FirstEvalError(docs[..k], s, matches).Some?
    ensures FirstEvalError(docs, s, matches) == FirstEvalError(docs[..k], s, matches)
    decreases |docs| - k
  {
    if k < |docs| {
      assert docs[..k + 1][..k] == docs[..k];
      FirstEvalErrorPrefix(docs, k + 1, s, matches);
    } else {
      assert docs[..k] == docs;
    }
  }

  /** Without a selector every decoded document is kept, in order. */
  lemma FilteredWithoutSelector<D, S>(docs: seq<D>, matches: (D, S) -> Result<bool, string>)
    ensures Filtered(Decoded(docs, None), None, matches) == Success(docs)
  {
  }

  /**
   * The decode loop of `resolveFile`: documents are appended to the kept
   * list in input order, skipping those the selector rejects; a selector
   * evaluation error or a decoder error fails the file.
   */
  method FilterDocuments<D, S>(decoded: Decoded<D>, selector: Option<S>, matches: (D, S) -> Result<bool, string>)
    returns (r: Result<seq<D>, FileError>)
    ensures r == Filtered(decoded, selector, matches)
  {
    var docs := decoded.docs;
    var docNodes: seq<D> := [];
    var i := 0;
    while i < |docs|
      invariant 0 <= i <= |docs|
      invariant selector.Some? ==> FirstEvalError(docs[..i], selector.value, matches).None?
      invariant selector.None? ==> docNodes == docs[..i]
      invariant selector.Some? ==> docNodes == Selected(docs[..i], selector.value, matches)
    {
      var doc := docs[i];
      assert docs[..i + 1][..i] == docs[..i];
      var keep := true;
      if selector.Some? {
        var m := matches(doc, selector.value);
        if m.Failure? {
          assert FirstEvalError(docs[..i + 1], selector.value, matches) == Some(m.error);
          FirstEvalErrorPrefix(docs, i + 1, selector.value, matches);
          return Failure(SelectorEval(m.error));
        }
        keep := m.value;
        assert docs[..i + 1][i] == doc;
        assert FirstEvalError(docs[..i + 1], selector.value, matches).None?;
      }
      if keep {
        docNodes := docNodes + [doc];
      }
      assert selector.Some? ==> docNodes == Selected(docs[..i + 1], selector.value, matches);
      i := i + 1;
    }
    assert docs[..i] == docs;
    if decoded.end.Some? {
      return Failure(DecodeFailed(decoded.end.value));
    }
    return Success(docNodes);
  }

  // ---------------------------------------------------------------------------
  // Encoding

  /** Encoding every document in order: the first encoder error, or the concatenated bytes. */
  function EncodeAll<D>(docs: seq<D>, encode: D -> Result<Bytes, string>): (r: Result<Bytes, string>)
    ensures r.Failure? ==> exists i :: 0 <= i < |docs| && encode(docs[i]) == Failure(r.error)
  {
    if docs == [] then Success([])
    else
      match EncodeAll(docs[..|docs| - 1], encode)
      case Failure(e) => Failure(e)
      case Success(b) =>
        var last := encode(docs[|docs| - 1]);
        if last.Failure? then Failure(last.error) else Success(b + last.value)
  }

  /** Encoding keeps document order: it distributes over concatenation. */
  lemma {:induction false} EncodeAllAppend<D>(a: seq<D>, b: seq<D>, encode: D -> Result<Bytes, string>)
    ensures EncodeAll(a + b, encode).Success? <==> EncodeAll(a, encode).Success? && EncodeAll(b, encode).Success?
    ensures EncodeAll(a + b, encode).Success? ==>
      EncodeAll(a + b, encode).value == EncodeAll(a, encode).value + EncodeAll(b, encode).value
    decreases |b|
  {
    if b != [] {
      var n := |b| - 1;
      assert (a + b)[..|a + b| - 1] == a + b[..n];
      assert (a + b)[|a + b| - 1] == b[n];
      EncodeAllAppend(a, b[..n], encode);
    } else {
      assert a + b == a;
    }
  }

  /** Encoding succeeds exactly when every document encodes. */
  lemma {:induction false} EncodeAllSucceeds<D>(docs: seq<D>, encode: D -> Result<Bytes, string>)
    ensures EncodeAll(docs, encode).Success? <==> forall i :: 0 <= i < |docs| ==> encode(docs[i]).Success?
  {
    if docs != [] {
      var n := |docs| - 1;
      EncodeAllSucceeds(docs[..n], encode);
      assert forall i :: 0 <= i < n ==> docs[..n][i] == docs[i];
    }
  }

  /** A failed encoding carries the error of the first document that fails to encode. */
  lemma {:induction false} EncodeAllFirstFailure<D>(docs: seq<D>, encode: D -> Result<Bytes, string>)
    requires EncodeAll(docs, encode).Failure?
    ensures exists i ::
              && 0 <= i < |docs| && encode(docs[i]) == Failure(EncodeAll(docs, encode).error)
              && forall k :: 0 <= k < i ==> encode(docs[k]).Success?
  {
    var n := |docs| - 1;
    var prefix := docs[..n];
    assert forall k :: 0 <= k < n ==> prefix[k] == docs[k];
    if EncodeAll(prefix, encode).Failure? {
      EncodeAllFirstFailure(prefix, encode);
      var i :|
        && 0 <= i < |prefix| && encode(prefix[i]) == Failure(EncodeAll(prefix, encode).error)
        && forall k :: 0 <= k < i ==> encode(prefix[k]).Success?;
      assert encode(docs[i]) == Failure(EncodeAll(docs, encode).error);
    } else {
      EncodeAllSucceeds(prefix, encode);
      assert encode(docs[n]) == Failure(EncodeAll(docs, encode).error);
    }
  }

  /** The encode loop of `resolveFile`. */
  method EncodeDocuments<D>(docs: seq<D>, encode: D -> Result<Bytes, string>) returns (r: Result<Bytes, string>)
    ensures r == EncodeAll(docs, encode)
  {
    var buf: Bytes := [];
    var i := 0;
    while i < |docs|
      invariant 0 <= i <= |docs|
      invariant EncodeAll(docs[..i], encode) == Success(buf)
    {
      assert docs[..i + 1][..i] == docs[..i];
      var e := encode(docs[i]);
      if e.Failure? {
        assert EncodeAll(docs[..i + 1], encode) == Failure(e.error);
        EncodeAllPrefixFails(docs, i + 1, encode);
        return Failure(e.error);
      }
      buf := buf + e.value;
      i := i + 1;
    }
    assert docs[..i] == docs;
    return Success(buf);
  }

  /** Once a prefix fails to encode, the whole sequence fails with the same error. */
  lemma {:induction false} EncodeAllPrefixFails<D>(docs: seq<D>, k: nat, encode: D -> Result<Bytes, string>)
    requires k <= |docs|
    requires EncodeAll(docs[..k], encode).Failure?
    ensures EncodeAll(docs, encode) == EncodeAll(docs[..k], encode)
    decreases |docs| - k
  {
    if k < |docs| {
      assert docs[..k + 1][..k] == docs[..k];
      EncodeAllPrefixFails(docs, k + 1, encode);
    } else {
      assert docs[..k] == docs;
    }
  }

  // ---------------------------------------------------------------------------
  // The whole file

  /** The selector in force: none for an empty selector string, else the parse of it. */
  function SelectorOf<S>(selectorText: string, parseSelector: string -> Result<S, string>): (r: Result<Option<S>, string>)
    ensures selectorText == "" ==> r == Success(None)
    ensures selectorText != "" ==> r.Success? == parseSelector(selectorText).Success?
    ensures r.Failure? ==> parseSelector(selectorText) == Failure(r.error)
    ensures r.Success? && r.value.Some? ==> parseSelector(selectorText) == Success(r.value.value)
    ensures selectorText != "" && parseSelector(selectorText).Success? ==> r == Success(Some(parseSelector(selectorText).value))
  {
    if selectorText == "" then Success(None)
    else if parseSelector(selectorText).Failure? then Failure(parseSelector(selectorText).error)
    else Success(Some(parseSelector(selectorText).value))
  }

  /**
   * Resolves one file. `content` is what reading the file (or standard
   * input, for "-") returned; `imageReferences` resolves the references in
   * the kept documents and reports the import paths it built.
   */
  method ResolveFile<D, S>(
    selectorText: string,
    parseSelector: string -> Result<S, string>,
    content: Result<Bytes, string>,
    decode: Bytes -> Decoded<D>,
    matches: (D, S) -> Result<bool, string>,
    imageReferences: seq<D> -> Result<Substituted<D>, string>,
    encode: D -> Result<Bytes, string>)
    returns (r: Result<Resolved, FileError>)
    ensures SelectorOf(selectorText, parseSelector).Failure? ==>
      r == Failure(SelectorParse(SelectorOf(selectorText, parseSelector).error))
    ensures SelectorOf(selectorText, parseSelector).Success? && content.Failure? ==>
      r == Failure(ReadFailed(content.error))
    ensures SelectorOf(selectorText, parseSelector).Success? && content.Success? &&
            Filtered(decode(content.value), SelectorOf(selectorText, parseSelector).value, matches).Failure? ==>
      r == Failure(Filtered(decode(content.value), SelectorOf(selectorText, parseSelector).value, matches).error)
    ensures r.Success? <==>
      && SelectorOf(selectorText, parseSelector).Success?
      && content.Success?
      && var kept := Filtered(decode(content.value), SelectorOf(selectorText, parseSelector).value, matches);
      && kept.Success?
      && imageReferences(kept.value).Success?
      && EncodeAll(imageReferences(kept.value).value.docs, encode).Success?
    ensures r.Success? ==>
      var kept := Filtered(decode(content.value), SelectorOf(selectorText, parseSelector).value, matches).value;
      var sub := imageReferences(kept).value;
      r.value == Resolved(EncodeAll(sub.docs, encode).value, sub.built)
    ensures SelectorOf(selectorText, parseSelector).Success? && content.Success? ==>
      var kept := Filtered(decode(content.value), SelectorOf(selectorText, parseSelector).value, matches);
      kept.Success? && imageReferences(kept.value).Failure? ==>
        r == Failure(ImageReferencesFailed(imageReferences(kept.value).error))
    ensures SelectorOf(selectorText, parseSelector).Success? && content.Success? ==>
      var kept := Filtered(decode(content.value), SelectorOf(selectorText, parseSelector).value, matches);
      kept.Success? && imageReferences(kept.value).Success? &&
      EncodeAll(imageReferences(kept.value).value.docs, encode).Failure? ==>
        r == Failure(EncodeFailed(EncodeAll(imageReferences(kept.value).value.docs, encode).error))
  {
    var selector: Option<S> := None;
    if selectorText != "" {
      var parsed := parseSelector(selectorText);
      if parsed.Failure? {
        return Failure(SelectorParse(parsed.error));
      }
      selector := Some(parsed.value);
    }
    if content.Failure? {
      return Failure(ReadFailed(content.error));
    }
    var kept := FilterDocuments(decode(content.value), selector, matches);
    if kept.Failure? {
      return Failure(kept.error);
    }
    var sub := imageReferences(kept.value);
    if sub.Failure? {
      return Failure(ImageReferencesFailed(sub.error));
    }
    var body := EncodeDocuments(sub.value.docs, encode);
    if body.Failure? {
      return Failure(EncodeFailed(body.error));
    }
    return Success(Resolved(body.value, sub.value.built));
  }
}
