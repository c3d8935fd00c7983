/**
 * The alias tags of build.py (line 104-121) and the push list (line 137):
 * which short or legacy tags are pointed at which built images.
 */
module Tagging {
  import opened Strings
  import opened Docker
  import opened Matrix
  import opened MatrixProperties

  /** Line 105: the legacy `-opengl` tag of a release names its `-vulkan` image. */
  function OpenGLAlias(release: string): Alias {
    TagImage(ImageTag(release, "vulkan"), ImageTag(release, "opengl"))
  }

  /** Line 104-105: one `-opengl` alias per release, in release order. */
  function OpenGLAliases(releases: seq<string>): (aliases: seq<Alias>)
    ensures |aliases| == |releases|
    ensures forall i :: 0 <= i < |releases| ==>
      aliases[i].name == ImageTag(releases[i], "opengl") && aliases[i].source == ImageTag(releases[i], "vulkan")
  {
    if releases == [] then []
    else OpenGLAliases(releases[..|releases| - 1]) + [OpenGLAlias(releases[|releases| - 1])]
  }

  /** Line 108-121: the unversioned tags, all taken from the alias release. */
  function UnversionedAliases(aliasRelease: string, newestTF: string): seq<Alias> {
    [ TagImage(ImageTag(aliasRelease, "vulkan"), PREFIX + ":latest"),
      TagImage(TensorFlowTag(aliasRelease, newestTF), PREFIX + ":tensorflow"),
      TagImage(ImageTag(aliasRelease, "vulkan-virtualgl"), PREFIX + ":virtualgl"),
      TagImage(VirtualGLTag(TensorFlowTag(aliasRelease, newestTF)), PREFIX + ":tensorflow-virtualgl") ]
  }

  /** The script's `aliases` list after line 121. */
  function Aliases(releases: seq<string>, aliasRelease: string, newestTF: string): seq<Alias> {
    OpenGLAliases(releases) + UnversionedAliases(aliasRelease, newestTF)
  }

  /** Line 137: every built tag in build order, then every alias name in alias order. */
  function PushList(built: seq<BuildTask>, aliases: seq<Alias>): (refs: seq<string>)
    ensures |refs| == |built| + |aliases|
    ensures forall i :: 0 <= i < |built| ==> refs[i] == built[i].tag
    ensures forall j :: 0 <= j < |aliases| ==> refs[|built| + j] == aliases[j].name
  {
    TagsOf(built) + AliasNames(aliases)
  }

  /**
   * The unversioned aliases refer only to the alias release: each source is
   * a tag of that release, and the four names are `latest`, `tensorflow`,
   * `virtualgl` and `tensorflow-virtualgl` in that order.
   */
  lemma UnversionedAliasesUseAliasRelease(releases: seq<string>, aliasRelease: string, newestTF: string)
    ensures var aliases := Aliases(releases, aliasRelease, newestTF);
      |aliases| == |releases| + 4 &&
      aliases[|releases|].name == PREFIX + ":latest" &&
      aliases[|releases| + 1].name == PREFIX + ":tensorflow" &&
      aliases[|releases| + 2].name == PREFIX + ":virtualgl" &&
      aliases[|releases| + 3].name == PREFIX + ":tensorflow-virtualgl" &&
      forall j :: |releases| <= j < |aliases| ==> StartsWith(aliases[j].source, PREFIX + ":" + aliasRelease + "-")
  {
    var aliases := Aliases(releases, aliasRelease, newestTF);
    var head := PREFIX + ":" + aliasRelease + "-";
    var u := UnversionedAliases(aliasRelease, newestTF);
    forall j | |releases| <= j < |aliases| ensures StartsWith(aliases[j].source, head) {
      assert aliases[j] == u[j - |releases|];
      var rest :=
        if j - |releases| == 0 then "vulkan"
        else if j - |releases| == 1 then "tensorflow-" + newestTF
        else if j - |releases| == 2 then "vulkan-virtualgl"
        else "tensorflow-" + newestTF + "-virtualgl";
      assert aliases[j].source == head + rest;
      assert (head + rest)[..|head|] == head;
    }
  }
  /** A tag built in the step of release `i` is among the tags of the whole run. */
  lemma StepTagInBuilt(releases: seq<string>, registryTags: seq<string>, tfVersions: seq<string>, i: nat, tag: string)
    requires i < |releases|
    requires tag in TagsOf(ReleaseBuilds(releases[i], registryTags, tfVersions, Built(releases[..i], registryTags, tfVersions)))
    ensures tag in TagsOf(Built(releases, registryTags, tfVersions))
  {
    BuiltUpTo(releases, registryTags, tfVersions, i);
    BuiltPrefix(releases, registryTags, tfVersions, i + 1);
    TagInPrefix(Built(releases[..i + 1], registryTags, tfVersions), Built(releases, registryTags, tfVersions), tag);
  }

  /** A tag of a prefix of the builds is a tag of the builds. */
  lemma TagInPrefix(step: seq<BuildTask>, built: seq<BuildTask>, tag: string)
    requires step <= built && tag in TagsOf(step)
    ensures tag in TagsOf(built)
  {
    var k :| 0 <= k < |step| && TagsOf(step)[k] == tag;
    assert built[k] == step[k];
    assert TagsOf(built)[k] == tag;
  }

  /** A release's step builds its `-vulkan` image and, on top of it, `-vulkan-virtualgl`. */
  lemma ReleaseVulkanTargets(release: string, registryTags: seq<string>, tfVersions: seq<string>, prior: seq<BuildTask>)
    ensures var tags := TagsOf(ReleaseBuilds(release, registryTags, tfVersions, prior));
      ImageTag(release, "vulkan") in tags && VirtualGLTag(ImageTag(release, "vulkan")) in tags
  {
    var builds := ReleaseBuilds(release, registryTags, tfVersions, prior);
    ReleaseLayout(release, registryTags, tfVersions, prior);
    assert TagsOf(builds)[|prior|] == ImageTag(release, "vulkan");
    ReleaseImagesGetVirtualGL(release, registryTags, tfVersions, prior, |prior|);
  }

  /** A release's step builds the image of each TensorFlow version and, on top of it, its `-virtualgl` image. */
  lemma ReleaseTensorFlowTargets(release: string, registryTags: seq<string>, tfVersions: seq<string>, prior: seq<BuildTask>, v: string)
    requires v in tfVersions
    ensures var tags := TagsOf(ReleaseBuilds(release, registryTags, tfVersions, prior));
      TensorFlowTag(release, v) in tags && VirtualGLTag(TensorFlowTag(release, v)) in tags
  {
    var n := |Variants(release, CudaTags(registryTags, release)).keys|;
    var builds := ReleaseBuilds(release, registryTags, tfVersions, prior);
    ReleaseLayout(release, registryTags, tfVersions, prior);
    var j :| 0 <= j < |tfVersions| && tfVersions[j] == v;
    var k := |prior| + n + j;
    assert TagsOf(builds)[k] == TensorFlowTag(release, v);
    ReleaseImagesGetVirtualGL(release, registryTags, tfVersions, prior, k);
  }

  /** The legacy `-opengl` aliases point at built `-vulkan` images. */
  lemma OpenGLSourcesBuilt(releases: seq<string>, registryTags: seq<string>, tfVersions: seq<string>)
    ensures forall a :: a in OpenGLAliases(releases) ==> a.source in TagsOf(Built(releases, registryTags, tfVersions))
  {
    var opengl := OpenGLAliases(releases);
    forall i | 0 <= i < |releases| ensures opengl[i].source in TagsOf(Built(releases, registryTags, tfVersions)) {
      ReleaseVulkanTargets(releases[i], registryTags, tfVersions, Built(releases[..i], registryTags, tfVersions));
      StepTagInBuilt(releases, registryTags, tfVersions, i, ImageTag(releases[i], "vulkan"));
    }
  }

  /** The unversioned aliases are the alias release's `-vulkan` and newest TensorFlow images, plain and `-virtualgl`. */
  lemma UnversionedSources(aliasRelease: string, newestTF: string)
    ensures var u := UnversionedAliases(aliasRelease, newestTF);
      var vulkan := ImageTag(aliasRelease, "vulkan");
      var tf := TensorFlowTag(aliasRelease, newestTF);
      u[0].source == vulkan && u[1].source == tf &&
      u[2].source == VirtualGLTag(vulkan) && u[3].source == VirtualGLTag(tf)
  {
    assert "vulkan" + "-virtualgl" == "vulkan-virtualgl";
  }

  /** The unversioned aliases point at built images of the alias release. */
  lemma UnversionedSourcesBuilt(releases: seq<string>, registryTags: seq<string>, tfVersions: seq<string>, newestTF: string, aliasRelease: string)
    requires aliasRelease in releases && newestTF in tfVersions
    ensures forall a :: a in UnversionedAliases(aliasRelease, newestTF) ==>
      a.source in TagsOf(Built(releases, registryTags, tfVersions))
  {
    var i :| 0 <= i < |releases| && releases[i] == aliasRelease;
    var prior := Built(releases[..i], registryTags, tfVersions);
    var tags := TagsOf(Built(releases, registryTags, tfVersions));
    var u := UnversionedAliases(aliasRelease, newestTF);
    ReleaseVulkanTargets(aliasRelease, registryTags, tfVersions, prior);
    ReleaseTensorFlowTargets(aliasRelease, registryTags, tfVersions, prior, newestTF);
    var vulkan := ImageTag(aliasRelease, "vulkan");
    var tf := TensorFlowTag(aliasRelease, newestTF);
    StepTagInBuilt(releases, registryTags, tfVersions, i, vulkan);
    StepTagInBuilt(releases, registryTags, tfVersions, i, tf);
    StepTagInBuilt(releases, registryTags, tfVersions, i, VirtualGLTag(vulkan));
    StepTagInBuilt(releases, registryTags, tfVersions, i, VirtualGLTag(tf));
    UnversionedSources(aliasRelease, newestTF);
    forall a | a in u ensures a.source in tags {
      assert a == u[0] || a == u[1] || a == u[2] || a == u[3];
    }
  }

  /**
   * No alias points at an image that was not built: when the alias release is
   * one of the releases and the newest TensorFlow version has a Dockerfile,
   * every alias source is a tag of the run's builds.
   */
  lemma AliasSourcesBuilt(releases: seq<string>, registryTags: seq<string>, tfVersions: seq<string>, newestTF: string, aliasRelease: string)
    requires aliasRelease in releases && newestTF in tfVersions
    ensures forall a :: a in Aliases(releases, aliasRelease, newestTF) ==>
      a.source in TagsOf(Built(releases, registryTags, tfVersions))
  {
    OpenGLSourcesBuilt(releases, registryTags, tfVersions);
    UnversionedSourcesBuilt(releases, registryTags, tfVersions, newestTF, aliasRelease);
  }
}
