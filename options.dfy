/**
 * The option and user-agent assembly of `pkg/commands/resolver.go`:
 * `ua`, `gobuildOptions` and the publisher-selection decision of
 * `makePublisher`. The builders and publishers themselves are foreign
 * constructors; here they appear only as tags in the lists assembled.
 */
module Options {
  import opened Common

  // ---------------------------------------------------------------------------
  // ua

  /** The User-Agent string: "ko/<version>" when a version is known, else "ko". */
  function Ua(version: string): (r: string)
    ensures |r| >= 2 && r[..2] == "ko"
    ensures r == "ko" <==> version == ""
    ensures version != "" ==> |r| == 3 + |version| && r[..3] == "ko/" && r[3..] == version
  {
    if version != "" then "ko/" + version else "ko"
  }

  /** Reads the version back out of a User-Agent string built by Ua. */
  function VersionOf(userAgent: string): string
  {
    if |userAgent| > 3 && userAgent[..3] == "ko/" then userAgent[3..] else ""
  }

  /** The version can always be recovered from the User-Agent. */
  lemma UaRoundTrip(version: string)
    ensures VersionOf(Ua(version)) == version
  {
    if version != "" {
      assert Ua(version)[..3] == "ko/";
    }
  }

  /** Distinct versions give distinct User-Agents. */
  lemma UaInjective(v1: string, v2: string)
    requires Ua(v1) == Ua(v2)
    ensures v1 == v2
  {
    UaRoundTrip(v1);
    UaRoundTrip(v2);
  }

  // ---------------------------------------------------------------------------
  // gobuildOptions

  /** The build options `gobuildOptions` may hand to the Go builder. */
  datatype BuildOption =
    | WithBaseImages
    | WithCreationTime(seconds: int)
    | WithDisabledOptimizations

  /** The part of the command's build flags that `gobuildOptions` reads. */
  datatype BuildOptions = BuildOptions(disableOptimizations: bool)

  /**
   * Assembles the builder options. `creationTime` is what the creation-time
   * lookup returned: an error, no time (nil), or a time in seconds.
   */
  method GobuildOptions(bo: BuildOptions, creationTime: Result<Option<int>, string>)
    returns (r: Result<seq<BuildOption>, string>)
    ensures creationTime.Failure? <==> r.Failure?
    ensures creationTime.Failure? ==> r.error == creationTime.error
    ensures r.Success? ==> |r.value| >= 1 && r.value[0] == WithBaseImages
    ensures r.Success? ==>
      forall t :: WithCreationTime(t) in r.value <==> creationTime.value == Some(t)
    ensures r.Success? ==> (WithDisabledOptimizations in r.value <==> bo.disableOptimizations)
    ensures r.Success? ==> WithBaseImages !in r.value[1..]
    ensures r.Success? && bo.disableOptimizations ==> r.value[|r.value| - 1] == WithDisabledOptimizations
    ensures r.Success? ==>
      |r.value| == 1 + (if creationTime.value.Some? then 1 else 0) + (if bo.disableOptimizations then 1 else 0)
  {
    if creationTime.Failure? {
      return Failure(creationTime.error);
    }
    var opts := [WithBaseImages];
    if creationTime.value.Some? {
      opts := opts + [WithCreationTime(creationTime.value.value)];
    }
    if bo.disableOptimizations {
      opts := opts + [WithDisabledOptimizations];
    }
    return Success(opts);
  }

  // ---------------------------------------------------------------------------
  // makePublisher

  /** The repository name that selects the local Docker daemon (publish.LocalDomain). */
  const LocalDomain: string := "ko.local"

  /** The part of the command's publish flags that `makePublisher` reads. */
  datatype PublishOptions = PublishOptions(
    local: bool,
    ociLayoutPath: string,
    tarballFile: string,
    push: bool,
    tags: seq<string>,
    insecureRegistry: bool)

  /** The publishers `makePublisher` may combine. */
  datatype Publisher =
    | Layout(path: string)
    | Tarball(file: string, repo: string, tags: seq<string>)
    | Registry(repo: string, tags: seq<string>, insecure: bool)

  /** The inner publisher: the daemon, or the ordered multi-publisher. */
  datatype Inner = Daemon(tags: seq<string>) | Multi(publishers: seq<Publisher>)

  /** What `makePublisher` returns on success: the inner publisher wrapped in a memoizing one. */
  datatype Caching = Caching(inner: Inner)

  datatype PublisherError =
    | RepoUnset
    | BadRepository(repo: string)
    | LayoutFailed(path: string, cause: string)
    | DefaultFailed(cause: string)

  /** The daemon is chosen when asked for by flag or by the repository name. */
  predicate IsLocal(po: PublishOptions, repoName: string)
  {
    repoName == LocalDomain || po.local
  }

  /** The position of a publisher kind in the multi-publisher. */
  function Rank(p: Publisher): nat
  {
    match p
    case Layout(_) => 0
    case Tarball(_, _, _) => 1
    case Registry(_, _, _) => 2
  }

  /** Layout publishers come before tarball publishers, which come before the registry. */
  predicate Ordered(ps: seq<Publisher>)
  {
    forall i, j :: 0 <= i < j < |ps| ==> Rank(ps[i]) < Rank(ps[j])
  }

  /**
   * Selects and assembles the publisher. `repoName` is the value of the
   * KO_DOCKER_REPO environment variable; `isRegistry` and `isRepository` say
   * whether it parses as a registry or as a repository name; `layoutError`
   * and `defaultError` are the errors the layout and registry publisher
   * constructors would return (None when they succeed).
   */
  method MakePublisher(
    po: PublishOptions,
    repoName: string,
    isRegistry: string -> bool,
    isRepository: string -> bool,
    layoutError: Option<string>,
    defaultError: Option<string>)
    returns (r: Result<Caching, PublisherError>)
    ensures IsLocal(po, repoName) ==> r == Success(Caching(Daemon(po.tags)))
    ensures !IsLocal(po, repoName) && repoName == "" ==> r == Failure(RepoUnset)
    ensures !IsLocal(po, repoName) && repoName != "" && !isRegistry(repoName) && !isRepository(repoName) ==>
      r == Failure(BadRepository(repoName))
    ensures r.Failure? <==>
      !IsLocal(po, repoName) &&
      (repoName == "" || (!isRegistry(repoName) && !isRepository(repoName)) ||
       (po.ociLayoutPath != "" && layoutError.Some?) || (po.push && defaultError.Some?))
    ensures !IsLocal(po, repoName) && repoName != "" && (isRegistry(repoName) || isRepository(repoName)) ==>
      (po.ociLayoutPath != "" && layoutError.Some? ==> r == Failure(LayoutFailed(po.ociLayoutPath, layoutError.value)))
    ensures !IsLocal(po, repoName) && repoName != "" && (isRegistry(repoName) || isRepository(repoName)) ==>
      ((po.ociLayoutPath == "" || layoutError.None?) && po.push && defaultError.Some? ==>
         r == Failure(DefaultFailed(defaultError.value)))
    ensures r.Failure? && r.error.DefaultFailed? ==> po.ociLayoutPath == "" || layoutError.None?
    ensures r.Success? && !IsLocal(po, repoName) ==> r.value.inner.Multi?
    ensures r.Success? && r.value.inner.Multi? ==> MultiFor(r.value.inner.publishers, po, repoName)
  {
    if IsLocal(po, repoName) {
      return Success(Caching(Daemon(po.tags)));
    }
    if repoName == "" {
      return Failure(RepoUnset);
    }
    if !isRegistry(repoName) {
      if !isRepository(repoName) {
        return Failure(BadRepository(repoName));
      }
    }
    var publishers: seq<Publisher> := [];
    if po.ociLayoutPath != "" {
      if layoutError.Some? {
        return Failure(LayoutFailed(po.ociLayoutPath, layoutError.value));
      }
      publishers := publishers + [Layout(po.ociLayoutPath)];
    }
    if po.tarballFile != "" {
      publishers := publishers + [Tarball(po.tarballFile, repoName, po.tags)];
    }
    if po.push {
      if defaultError.Some? {
        return Failure(DefaultFailed(defaultError.value));
      }
      publishers := publishers + [Registry(repoName, po.tags, po.insecureRegistry)];
    }
    assert publishers == Requested(po, repoName);
    RequestedIsMulti(po, repoName);
    return Success(Caching(Multi(publishers)));
  }

  /**
   * The publishers of the multi-publisher are exactly those requested: the
   * layout publisher iff a layout path is set, the tarball publisher iff a
   * tarball file is set, the registry publisher iff pushing, in that order.
   */
  ghost predicate MultiFor(ps: seq<Publisher>, po: PublishOptions, repoName: string)
  {
    && Ordered(ps)
    && (Layout(po.ociLayoutPath) in ps <==> po.ociLayoutPath != "")
    && (Tarball(po.tarballFile, repoName, po.tags) in ps <==> po.tarballFile != "")
    && (Registry(repoName, po.tags, po.insecureRegistry) in ps <==> po.push)
    && (forall p :: p in ps ==>
          p == Layout(po.ociLayoutPath) || p == Tarball(po.tarballFile, repoName, po.tags) ||
          p == Registry(repoName, po.tags, po.insecureRegistry))
  }

  /** The list the appends of `makePublisher` build when every constructor succeeds. */
  function Requested(po: PublishOptions, repoName: string): seq<Publisher>
  {
    (if po.ociLayoutPath != "" then [Layout(po.ociLayoutPath)] else [])
    + (if po.tarballFile != "" then [Tarball(po.tarballFile, repoName, po.tags)] else [])
    + (if po.push then [Registry(repoName, po.tags, po.insecureRegistry)] else [])
  }

  lemma RequestedIsMulti(po: PublishOptions, repoName: string)
    ensures MultiFor(Requested(po, repoName), po, repoName)
  {
    RequestedOrdered(po, repoName);
    var ps := Requested(po, repoName);
    forall p | p in ps
      ensures p == Layout(po.ociLayoutPath) || p == Tarball(po.tarballFile, repoName, po.tags) ||
              p == Registry(repoName, po.tags, po.insecureRegistry)
    {
    }
  }

  /** The requested publishers are in layout, tarball, registry order. */
  lemma RequestedOrdered(po: PublishOptions, repoName: string)
    ensures Ordered(Requested(po, repoName))
  {
    var layout := if po.ociLayoutPath != "" then [Layout(po.ociLayoutPath)] else [];
    var tarball := if po.tarballFile != "" then [Tarball(po.tarballFile, repoName, po.tags)] else [];
    var registry := if po.push then [Registry(repoName, po.tags, po.insecureRegistry)] else [];
    assert Requested(po, repoName) == layout + tarball + registry;
    assert forall x :: x in layout ==> Rank(x) == 0;
    assert forall x :: x in tarball ==> Rank(x) == 1;
    assert forall x :: x in registry ==> Rank(x) == 2;
    OrderedConcat(layout, tarball);
    assert forall x :: x in layout + tarball ==> Rank(x) <= 1;
    OrderedConcat(layout + tarball, registry);
  }

  /** Two ordered lists whose ranks do not overlap concatenate to an ordered list. */
  lemma OrderedConcat(a: seq<Publisher>, b: seq<Publisher>)
    requires Ordered(a) && Ordered(b)
    requires forall x, y :: x in a && y in b ==> Rank(x) < Rank(y)
    ensures Ordered(a + b)
  {
    var ab := a + b;
    forall i, j | 0 <= i < j < |ab| ensures Rank(ab[i]) < Rank(ab[j]) {
      if j < |a| {
        assert ab[i] == a[i] && ab[j] == a[j];
      } else if i >= |a| {
        assert ab[i] == b[i - |a|] && ab[j] == b[j - |a|];
      } else {
        assert ab[i] == a[i] && ab[j] == b[j - |a|];
      }
    }
  }
}
