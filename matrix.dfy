/**
 * The image matrix of build.py: for every Ubuntu release, one base image per
 * driver variant, one TensorFlow image per TensorFlow version, then a
 * VirtualGL image on top of every image so far whose tag names the release.
 */
module Matrix {
  import opened Wrappers
  import opened Strings
  import opened Docker
  import opened OrderedDict

  /** The base name of the generated images. */
  const PREFIX: string := "adamrehn/ue4-runtime"

  /** The Ubuntu LTS releases the script builds for. */
  const RELEASES: seq<string> := ["16.04", "18.04"]

  /** The release the unversioned alias tags point at. */
  const ALIAS_RELEASE: string := "18.04"

  /** The suffix of the `nvidia/cudagl` development tags for a release. */
  function CudaSuffix(release: string): string { "-devel-ubuntu" + release }

  /** The base image of the always-present `vulkan` variant. */
  function VulkanBase(release: string): string { "nvidia/opengl:1.0-glvnd-runtime-ubuntu" + release }

  function CudaglBase(cudaTag: string): string { "nvidia/cudagl:" + cudaTag }

  /** `'cudagl{}'.format(tag.replace(cudaSuffix, ''))` */
  function VariantName(release: string, cudaTag: string): string {
    "cudagl" + ReplaceAll(cudaTag, CudaSuffix(release), "")
  }

  /** `'{}:{}-{}'.format(PREFIX, release, suffix)` */
  function ImageTag(release: string, suffix: string): string { PREFIX + ":" + release + "-" + suffix }

  /** `'{}:{}-tensorflow-{}'.format(PREFIX, release, version)` */
  function TensorFlowTag(release: string, version: string): string {
    ImageTag(release, "tensorflow-" + version)
  }

  function VirtualGLTag(baseImage: string): string { baseImage + "-virtualgl" }

  /** The registry tags that end with the release's development suffix, in registry order. */
  function CudaTags(registryTags: seq<string>, release: string): (cudaTags: seq<string>)
    ensures |cudaTags| <= |registryTags|
    ensures forall t :: t in cudaTags <==> t in registryTags && EndsWith(t, CudaSuffix(release))
  {
    if registryTags == [] then []
    else
      var last := registryTags[|registryTags| - 1];
      assert registryTags == registryTags[..|registryTags| - 1] + [last];
      CudaTags(registryTags[..|registryTags| - 1], release) +
        (if EndsWith(last, CudaSuffix(release)) then [last] else [])
  }

  /**
   * The filter keeps the registry's order and its repeats: filtering a
   * concatenation is concatenating the filtered parts.
   */
  lemma {:induction false} CudaTagsAppend(a: seq<string>, b: seq<string>, release: string)
    ensures CudaTags(a + b, release) == CudaTags(a, release) + CudaTags(b, release)
    decreases |b|
  {
    if b == [] {
      assert a + b == a;
    } else {
      var n := |b| - 1;
      var ab := a + b;
      var kept := if EndsWith(b[n], CudaSuffix(release)) then [b[n]] else [];
      assert ab[..|ab| - 1] == a + b[..n];
      assert ab[|ab| - 1] == b[n];
      assert CudaTags(b, release) == CudaTags(b[..n], release) + kept;
      calc {
        CudaTags(ab, release);
        CudaTags(a + b[..n], release) + kept;
        { CudaTagsAppend(a, b[..n], release); }
        CudaTags(a, release) + CudaTags(b[..n], release) + kept;
      }
    }
  }

  /** Line 82: the dict holds the `vulkan` variant alone. */
  function InitialVariants(release: string): (variants: Dict)
    ensures variants.Valid()
  {
    Dict(["vulkan"], map["vulkan" := VulkanBase(release)])
  }

  /** Line 83-84: the assignments the loop makes to the dict, in order. */
  function Entries(release: string, cudaTags: seq<string>): (entries: seq<(string, string)>)
    ensures |entries| == |cudaTags|
  {
    seq(|cudaTags|, i requires 0 <= i < |cudaTags| => (VariantName(release, cudaTags[i]), CudaglBase(cudaTags[i])))
  }

  /** The `variants` dict after the kept registry tags have been added; its keys stay unique. */
  function Variants(release: string, cudaTags: seq<string>): (variants: Dict)
    ensures variants.Valid()
  {
    PutAllValid(InitialVariants(release), Entries(release, cudaTags));
    PutAll(InitialVariants(release), Entries(release, cudaTags))
  }

  /** A `cudagl` variant name never collides with `vulkan`. */
  lemma CudaglNotVulkan(release: string, cudaTags: seq<string>)
    ensures forall i :: 0 <= i < |cudaTags| ==> Entries(release, cudaTags)[i].0 != "vulkan"
  {
    forall i | 0 <= i < |cudaTags| ensures Entries(release, cudaTags)[i].0 != "vulkan" {
      assert Entries(release, cudaTags)[i].0[0] == 'c';
    }
  }

  /** `vulkan` is always the first variant, on its fixed OpenGL base, whatever the registry returned. */
  lemma VulkanVariantFirst(release: string, cudaTags: seq<string>)
    ensures var variants := Variants(release, cudaTags);
      |variants.keys| > 0 && variants.keys[0] == "vulkan" &&
      "vulkan" in variants.values && variants.values["vulkan"] == VulkanBase(release)
  {
    var init := InitialVariants(release);
    var entries := Entries(release, cudaTags);
    PutAllKeepsOrder(init, entries);
    CudaglNotVulkan(release, cudaTags);
    PutAllUntouched(init, entries, "vulkan");
  }

  /** There is a `cudagl` variant for every kept registry tag, and no other variant besides `vulkan`. */
  lemma VariantsFromTags(release: string, cudaTags: seq<string>)
    ensures forall t :: t in cudaTags ==> VariantName(release, t) in Variants(release, cudaTags).values
    ensures forall k :: k in Variants(release, cudaTags).values ==>
      k == "vulkan" || exists t :: t in cudaTags && k == VariantName(release, t)
  {
    var init := InitialVariants(release);
    var entries := Entries(release, cudaTags);
    var variants := Variants(release, cudaTags);
    forall t | t in cudaTags ensures VariantName(release, t) in variants.values {
      var i :| 0 <= i < |cudaTags| && cudaTags[i] == t;
      PutAllHas(init, entries, i);
    }
    forall k | k in variants.values && k != "vulkan"
      ensures exists t :: t in cudaTags && k == VariantName(release, t)
    {
      if forall i :: 0 <= i < |cudaTags| ==> entries[i].0 != k {
        PutAllOnly(init, entries, k);
        assert false;
      }
      var i :| 0 <= i < |cudaTags| && entries[i].0 == k;
      assert cudaTags[i] in cudaTags;
    }
  }

  /** `cudaTags[i]` is the last of the kept tags that give the variant name `k`. */
  predicate LastFor(release: string, cudaTags: seq<string>, i: int, k: string) {
    0 <= i < |cudaTags| && k == VariantName(release, cudaTags[i]) &&
    forall j :: i < j < |cudaTags| ==> VariantName(release, cudaTags[j]) != k
  }

  /**
   * Assigning to an existing key of the dict replaces its value: a `cudagl`
   * variant is built on the last kept tag that gives its name.
   */
  lemma VariantBaseIsLastTag(release: string, cudaTags: seq<string>, k: string)
    requires k in Variants(release, cudaTags).values && k != "vulkan"
    ensures exists i :: LastFor(release, cudaTags, i, k) && Variants(release, cudaTags).values[k] == CudaglBase(cudaTags[i])
  {
    var init := InitialVariants(release);
    var entries := Entries(release, cudaTags);
    PutAllNewKey(init, entries, k);
    var i :| LastEntry(entries, i, k) && PutAll(init, entries).values[k] == entries[i].1;
    forall j | i < j < |cudaTags| ensures VariantName(release, cudaTags[j]) != k {
      assert entries[j].0 == VariantName(release, cudaTags[j]);
    }
    assert LastFor(release, cudaTags, i, k);
  }

  /** Line 87-89: one base image per variant, in the dict's order. */
  function BaseTasks(release: string, items: seq<(string, string)>): seq<BuildTask> {
    seq(|items|, i requires 0 <= i < |items| =>
      BuildTask(Base, Some(items[i].1), ImageTag(release, items[i].0)))
  }

  /** Line 93-95: one TensorFlow image per version, whose base argument is the release itself. */
  function TensorFlowTasks(release: string, tfVersions: seq<string>): seq<BuildTask> {
    seq(|tfVersions|, i requires 0 <= i < |tfVersions| =>
      BuildTask(TensorFlow(tfVersions[i]), Some(release), TensorFlowTag(release, tfVersions[i])))
  }

  /** Line 98: the tags of the snapshot that contain the release string, in build order. */
  function VirtualGLBases(release: string, snapshot: seq<string>): (bases: seq<string>)
    ensures |bases| <= |snapshot|
    ensures forall b :: b in bases <==> b in snapshot && Contains(b, release)
  {
    if snapshot == [] then []
    else
      var last := snapshot[|snapshot| - 1];
      assert snapshot == snapshot[..|snapshot| - 1] + [last];
      VirtualGLBases(release, snapshot[..|snapshot| - 1]) + (if Contains(last, release) then [last] else [])
  }

  /**
   * The selection keeps the snapshot's order and its repeats: selecting from
   * a concatenation is concatenating the selections.
   */
  lemma {:induction false} VirtualGLBasesAppend(release: string, a: seq<string>, b: seq<string>)
    ensures VirtualGLBases(release, a + b) == VirtualGLBases(release, a) + VirtualGLBases(release, b)
    decreases |b|
  {
    if b == [] {
      assert a + b == a;
    } else {
      var n := |b| - 1;
      var ab := a + b;
      var kept := if Contains(b[n], release) then [b[n]] else [];
      assert ab[..|ab| - 1] == a + b[..n];
      assert ab[|ab| - 1] == b[n];
      assert VirtualGLBases(release, b) == VirtualGLBases(release, b[..n]) + kept;
      calc {
        VirtualGLBases(release, ab);
        VirtualGLBases(release, a + b[..n]) + kept;
        { VirtualGLBasesAppend(release, a, b[..n]); }
        VirtualGLBases(release, a) + VirtualGLBases(release, b[..n]) + kept;
      }
    }
  }

  /** Line 99-101: one VirtualGL image on top of each base. */
  function VirtualGLTasks(bases: seq<string>): seq<BuildTask> {
    seq(|bases|, i requires 0 <= i < |bases| => BuildTask(VirtualGL, Some(bases[i]), VirtualGLTag(bases[i])))
  }

  /** `built` just before the VirtualGL step of `release`. */
  function Snapshot(release: string, registryTags: seq<string>, tfVersions: seq<string>, prior: seq<BuildTask>): seq<BuildTask> {
    prior + BaseTasks(release, Variants(release, CudaTags(registryTags, release)).Items()) +
      TensorFlowTasks(release, tfVersions)
  }

  /** `built` after the loop body of line 75-101 has run for `release`. */
  function ReleaseBuilds(release: string, registryTags: seq<string>, tfVersions: seq<string>, prior: seq<BuildTask>): seq<BuildTask> {
    var snapshot := Snapshot(release, registryTags, tfVersions, prior);
    snapshot + VirtualGLTasks(VirtualGLBases(release, TagsOf(snapshot)))
  }

  /** `built` after the loop of line 75-101 has run over `releases`. */
  function Built(releases: seq<string>, registryTags: seq<string>, tfVersions: seq<string>): seq<BuildTask>
    decreases |releases|
  {
    if releases == [] then []
    else
      var n := |releases| - 1;
      ReleaseBuilds(releases[n], registryTags, tfVersions, Built(releases[..n], registryTags, tfVersions))
  }

  /** Every VirtualGL image is built on an image built before it. */
  predicate Layered(built: seq<BuildTask>) {
    forall i :: 0 <= i < |built| && built[i].context == VirtualGL ==>
      built[i].baseImage.Some? && built[i].baseImage.value in TagsOf(built[..i])
  }
}
