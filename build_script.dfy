/**
 * The top-level code of build.py, loop by loop: each `for` loop that appends
 * to `built` is a method that extends the sequence it is given and is proved
 * to produce the matrix of the `Matrix` module.
 */
module BuildScript {
  import opened Wrappers
  import opened Docker
  import opened OrderedDict
  import opened Matrix
  import opened MatrixProperties
  import opened Tagging

  /** Line 82-84: fill the `variants` dict. */
  method CollectVariants(release: string, cudaTags: seq<string>) returns (variants: Dict)
    ensures variants == Variants(release, cudaTags)
  {
    ghost var entries := Entries(release, cudaTags);
    variants := Dict(["vulkan"], map["vulkan" := VulkanBase(release)]);
    var i := 0;
    while i < |cudaTags|
      invariant 0 <= i <= |cudaTags|
      invariant variants == PutAll(InitialVariants(release), entries[..i])
    {
      var tag := cudaTags[i];
      assert entries[..i + 1][..i] == entries[..i];
      variants := variants.Put(VariantName(release, tag), CudaglBase(tag));
      i := i + 1;
    }
    assert entries[..i] == entries;
  }

  /** Line 87-89: build the base image of every variant. */
  method BuildBaseImages(release: string, variants: Dict, built: seq<BuildTask>) returns (result: seq<BuildTask>)
    requires variants.Valid()
    ensures result == built + BaseTasks(release, variants.Items())
  {
    var items := variants.Items();
    result := built;
    var i := 0;
    while i < |items|
      invariant 0 <= i <= |items|
      invariant result == built + BaseTasks(release, items[..i])
    {
      var (suffix, baseImage) := items[i];
      var tag := ImageTag(release, suffix);
      assert BaseTasks(release, items[..i + 1]) == BaseTasks(release, items[..i]) + [BuildImage(Base, Some(baseImage), tag)];
      result := result + [BuildImage(Base, Some(baseImage), tag)];
      i := i + 1;
    }
    assert items[..i] == items;
  }

  /** Line 93-95: build every TensorFlow version. */
  method BuildTensorFlowImages(release: string, tfVersions: seq<string>, built: seq<BuildTask>) returns (result: seq<BuildTask>)
    ensures result == built + TensorFlowTasks(release, tfVersions)
  {
    result := built;
    var i := 0;
    while i < |tfVersions|
      invariant 0 <= i <= |tfVersions|
      invariant result == built + TensorFlowTasks(release, tfVersions[..i])
    {
      var tfVersion := tfVersions[i];
      var tag := TensorFlowTag(release, tfVersion);
      assert TensorFlowTasks(release, tfVersions[..i + 1]) ==
        TensorFlowTasks(release, tfVersions[..i]) + [BuildImage(TensorFlow(tfVersion), Some(release), tag)];
      result := result + [BuildImage(TensorFlow(tfVersion), Some(release), tag)];
      i := i + 1;
    }
    assert tfVersions[..i] == tfVersions;
  }

  /** Line 98-101: build a VirtualGL image on each image of the snapshot that names the release. */
  method BuildVirtualGLImages(release: string, built: seq<BuildTask>) returns (result: seq<BuildTask>)
    ensures result == built + VirtualGLTasks(VirtualGLBases(release, TagsOf(built)))
  {
    var vglBases := VirtualGLBases(release, TagsOf(built));
    result := built;
    var i := 0;
    while i < |vglBases|
      invariant 0 <= i <= |vglBases|
      invariant result == built + VirtualGLTasks(vglBases[..i])
    {
      var baseImage := vglBases[i];
      var tag := VirtualGLTag(baseImage);
      assert VirtualGLTasks(vglBases[..i + 1]) == VirtualGLTasks(vglBases[..i]) + [BuildImage(VirtualGL, Some(baseImage), tag)];
      result := result + [BuildImage(VirtualGL, Some(baseImage), tag)];
      i := i + 1;
    }
    assert vglBases[..i] == vglBases;
  }

  /** Line 76-101: the whole loop body for one release. */
  method BuildRelease(release: string, registryTags: seq<string>, tfVersions: seq<string>, built: seq<BuildTask>)
    returns (result: seq<BuildTask>)
    ensures result == ReleaseBuilds(release, registryTags, tfVersions, built)
  {
    var cudaTags := CudaTags(registryTags, release);
    var variants := CollectVariants(release, cudaTags);
    result := BuildBaseImages(release, variants, built);
    result := BuildTensorFlowImages(release, tfVersions, result);
    result := BuildVirtualGLImages(release, result);
  }

  /** Line 75-101: the loop over the releases. */
  method BuildMatrix(releases: seq<string>, registryTags: seq<string>, tfVersions: seq<string>)
    returns (built: seq<BuildTask>)
    ensures built == Built(releases, registryTags, tfVersions)
  {
    built := [];
    var i := 0;
    while i < |releases|
      invariant 0 <= i <= |releases|
      invariant built == Built(releases[..i], registryTags, tfVersions)
    {
      assert releases[..i + 1][..i] == releases[..i];
      built := BuildRelease(releases[i], registryTags, tfVersions, built);
      i := i + 1;
    }
    assert releases[..i] == releases;
  }
  /** Line 104-121: tag the legacy and the unversioned aliases. */
  method TagAliases(releases: seq<string>, aliasRelease: string, newestTF: string) returns (aliases: seq<Alias>)
    ensures aliases == Aliases(releases, aliasRelease, newestTF)
  {
    aliases := [];
    var i := 0;
    while i < |releases|
      invariant 0 <= i <= |releases|
      invariant aliases == OpenGLAliases(releases[..i])
    {
      assert releases[..i + 1][..i] == releases[..i];
      var ubuntuRelease := releases[i];
      aliases := aliases + [TagImage(ImageTag(ubuntuRelease, "vulkan"), ImageTag(ubuntuRelease, "opengl"))];
      i := i + 1;
    }
    assert releases[..i] == releases;
    var latest := PREFIX + ":latest";
    aliases := aliases + [TagImage(ImageTag(aliasRelease, "vulkan"), latest)];
    var unversionedTF := PREFIX + ":tensorflow";
    aliases := aliases + [TagImage(TensorFlowTag(aliasRelease, newestTF), unversionedTF)];
    var nonSuffixedVgl := PREFIX + ":virtualgl";
    aliases := aliases + [TagImage(ImageTag(aliasRelease, "vulkan-virtualgl"), nonSuffixedVgl)];
    var unversionedVgl := PREFIX + ":tensorflow-virtualgl";
    aliases := aliases + [TagImage(VirtualGLTag(TensorFlowTag(aliasRelease, newestTF)), unversionedVgl)];
  }

  /** Line 136-138: the references pushed, one `docker push` each, when pushing is asked for. */
  method PushImages(built: seq<BuildTask>, aliases: seq<Alias>, push: bool) returns (pushed: seq<string>)
    ensures !push ==> pushed == []
    ensures push ==> pushed == PushList(built, aliases)
  {
    pushed := [];
    if push {
      var images := TagsOf(built) + AliasNames(aliases);
      var i := 0;
      while i < |images|
        invariant 0 <= i <= |images|
        invariant pushed == images[..i]
      {
        pushed := pushed + [images[i]];
        i := i + 1;
      }
    }
  }

  /** Why a run of the script stops before building anything. */
  datatype ScriptError =
    /** `sorted(...)[-1]` on an empty list: there is no TensorFlow Dockerfile. */
    NoTensorFlowVersions

  /** What one run of the script does: the images it builds, the aliases it tags, the references it pushes. */
  datatype Run = Run(built: seq<BuildTask>, aliases: seq<Alias>, pushed: seq<string>)

  /**
   * Line 67-138 with `listTags('nvidia/cudagl')` given as `registryTags`, the
   * TensorFlow Dockerfile directories as `tfVersions` and their newest
   * version, as printed, as `newestTF`.
   */
  method RunBuild(releases: seq<string>, registryTags: seq<string>, tfVersions: seq<string>, newestTF: string,
                  aliasRelease: string, push: bool)
    returns (outcome: Result<Run, ScriptError>)
    ensures outcome.Failure? <==> tfVersions == []
    ensures outcome.Success? ==>
      outcome.value.built == Built(releases, registryTags, tfVersions) &&
      outcome.value.aliases == Aliases(releases, aliasRelease, newestTF) &&
      outcome.value.pushed == (if push then PushList(outcome.value.built, outcome.value.aliases) else [])
    ensures outcome.Success? ==> Layered(outcome.value.built)
    ensures outcome.Success? && aliasRelease in releases && newestTF in tfVersions ==>
      forall a :: a in outcome.value.aliases ==> a.source in TagsOf(outcome.value.built)
  {
    if tfVersions == [] {
      return Failure(NoTensorFlowVersions);
    }
    var built := BuildMatrix(releases, registryTags, tfVersions);
    BuiltLayered(releases, registryTags, tfVersions);
    var aliases := TagAliases(releases, aliasRelease, newestTF);
    if aliasRelease in releases && newestTF in tfVersions {
      AliasSourcesBuilt(releases, registryTags, tfVersions, newestTF, aliasRelease);
    }
    var pushed := PushImages(built, aliases, push);
    outcome := Success(Run(built, aliases, pushed));
  }

  /**
   * The script as configured, for Ubuntu 16.04 and 18.04 with 18.04 as alias
   * release: whenever the newest TensorFlow version names one of the
   * Dockerfile directories, every alias it tags points at an image it built,
   * and each release's builds start with its `vulkan` image.
   */
  method RunConfigured(registryTags: seq<string>, tfVersions: seq<string>, newestTF: string, push: bool)
    returns (outcome: Result<Run, ScriptError>)
    ensures outcome.Failure? <==> tfVersions == []
    ensures outcome.Success? && newestTF in tfVersions ==>
      forall a :: a in outcome.value.aliases ==> a.source in TagsOf(outcome.value.built)
    ensures outcome.Success? ==>
      |outcome.value.built| > 0 &&
      outcome.value.built[0] == BuildTask(Base, Some(VulkanBase("16.04")), ImageTag("16.04", "vulkan")) &&
      ImageTag("18.04", "vulkan") in TagsOf(outcome.value.built)
  {
    outcome := RunBuild(RELEASES, registryTags, tfVersions, newestTF, ALIAS_RELEASE, push);
    if outcome.Success? {
      VulkanBuiltFirst(RELEASES, registryTags, tfVersions, 0);
      VulkanBuiltFirst(RELEASES, registryTags, tfVersions, 1);
      assert RELEASES[..0] == [];
      var start := |Built(RELEASES[..1], registryTags, tfVersions)|;
      assert TagsOf(outcome.value.built)[start] == ImageTag("18.04", "vulkan");
    }
  }
}
