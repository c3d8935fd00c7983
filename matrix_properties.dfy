/** What the image matrix of build.py guarantees. */
module MatrixProperties {
  import opened Wrappers
  import opened Strings
  import opened Docker
  import opened OrderedDict
  import opened Matrix

  /** A tag built with `ImageTag` or `TensorFlowTag` names its release. */
  lemma TagsNameRelease(release: string, suffix: string)
    ensures Contains(ImageTag(release, suffix), release)
    ensures Contains(TensorFlowTag(release, suffix), release)
  {
    ContainsSpliced(PREFIX + ":", release, "-" + suffix);
    assert ImageTag(release, suffix) == (PREFIX + ":") + release + ("-" + suffix);
    ContainsSpliced(PREFIX + ":", release, "-tensorflow-" + suffix);
    assert TensorFlowTag(release, suffix) == (PREFIX + ":") + release + ("-tensorflow-" + suffix);
  }

  /** Being a prefix is transitive. */
  lemma PrefixTransitive(a: seq<BuildTask>, b: seq<BuildTask>, c: seq<BuildTask>)
    requires a <= b && b <= c
    ensures a <= c
  {
    assert a == b[..|a|];
    assert b[..|a|] == c[..|b|][..|a|];
  }

  /** The first of four concatenated parts is a prefix, and indexing into the second. */
  lemma SecondPartAt(a: seq<BuildTask>, b: seq<BuildTask>, c: seq<BuildTask>, d: seq<BuildTask>)
    ensures |a| + |b| <= |a + b + c + d| && (a + b + c + d)[..|a|] == a
    ensures forall k :: 0 <= k < |b| ==> (a + b + c + d)[|a| + k] == b[k]
  {
    assert (a + b + c + d)[..|a|] == a;
  }

  /** Indexing into the third of four concatenated parts. */
  lemma ThirdPartAt(a: seq<BuildTask>, b: seq<BuildTask>, c: seq<BuildTask>, d: seq<BuildTask>, j: nat)
    requires j < |c|
    ensures |a| + |b| + j < |a + b + c + d| && (a + b + c + d)[|a| + |b| + j] == c[j]
  {
  }

  /** Appending builds keeps `Layered` when every new VirtualGL build sits on an earlier tag. */
  lemma LayeredAppend(s: seq<BuildTask>, t: seq<BuildTask>)
    requires Layered(s)
    requires forall k :: 0 <= k < |t| && t[k].context == VirtualGL ==>
      t[k].baseImage.Some? && t[k].baseImage.value in TagsOf(s)
    ensures Layered(s + t)
  {
    var u := s + t;
    forall i | 0 <= i < |u| && u[i].context == VirtualGL
      ensures u[i].baseImage.Some? && u[i].baseImage.value in TagsOf(u[..i])
    {
      if i < |s| {
        assert u[..i] == s[..i];
      } else {
        assert t[i - |s|] == u[i];
        var b := u[i].baseImage.value;
        var j :| 0 <= j < |s| && TagsOf(s)[j] == b;
        assert TagsOf(u[..i])[j] == b;
      }
    }
  }

  /**
   * One release's builds keep `Layered`: its base and TensorFlow images have
   * external bases and each VirtualGL image sits on a tag of the snapshot.
   */
  lemma ReleaseBuildsLayered(release: string, registryTags: seq<string>, tfVersions: seq<string>, prior: seq<BuildTask>)
    requires Layered(prior)
    ensures Layered(ReleaseBuilds(release, registryTags, tfVersions, prior))
  {
    var base := BaseTasks(release, Variants(release, CudaTags(registryTags, release)).Items());
    var tf := TensorFlowTasks(release, tfVersions);
    var snapshot := Snapshot(release, registryTags, tfVersions, prior);
    assert snapshot == prior + (base + tf);
    LayeredAppend(prior, base + tf);
    var bases := VirtualGLBases(release, TagsOf(snapshot));
    var vgl := VirtualGLTasks(bases);
    forall k | 0 <= k < |vgl| && vgl[k].context == VirtualGL
      ensures vgl[k].baseImage.Some? && vgl[k].baseImage.value in TagsOf(snapshot)
    {
      assert bases[k] in bases;
    }
    LayeredAppend(snapshot, vgl);
  }

  /** Every VirtualGL image of the whole run is built on an image built before it. */
  lemma {:induction false} BuiltLayered(releases: seq<string>, registryTags: seq<string>, tfVersions: seq<string>)
    ensures Layered(Built(releases, registryTags, tfVersions))
    decreases |releases|
  {
    if releases != [] {
      var n := |releases| - 1;
      BuiltLayered(releases[..n], registryTags, tfVersions);
      ReleaseBuildsLayered(releases[n], registryTags, tfVersions, Built(releases[..n], registryTags, tfVersions));
    }
  }

  /** One release's builds only append to what was built before. */
  lemma ReleaseBuildsExtend(release: string, registryTags: seq<string>, tfVersions: seq<string>, prior: seq<BuildTask>)
    ensures prior <= ReleaseBuilds(release, registryTags, tfVersions, prior)
  {
    var base := BaseTasks(release, Variants(release, CudaTags(registryTags, release)).Items());
    var tf := TensorFlowTasks(release, tfVersions);
    var vgl := VirtualGLTasks(VirtualGLBases(release, TagsOf(Snapshot(release, registryTags, tfVersions, prior))));
    assert ReleaseBuilds(release, registryTags, tfVersions, prior) == prior + base + tf + vgl;
    SecondPartAt(prior, base, tf, vgl);
  }

  /** The last release's step only appends to the builds of the releases before it. */
  lemma BuiltExtendsPrior(releases: seq<string>, registryTags: seq<string>, tfVersions: seq<string>)
    requires releases != []
    ensures Built(releases[..|releases| - 1], registryTags, tfVersions) <= Built(releases, registryTags, tfVersions)
  {
    var n := |releases| - 1;
    ReleaseBuildsExtend(releases[n], registryTags, tfVersions, Built(releases[..n], registryTags, tfVersions));
  }

  /** Later releases only append: the builds of the first `i` releases are a prefix of the whole run. */
  lemma {:induction false} BuiltPrefix(releases: seq<string>, registryTags: seq<string>, tfVersions: seq<string>, i: nat)
    requires i <= |releases|
    ensures Built(releases[..i], registryTags, tfVersions) <= Built(releases, registryTags, tfVersions)
    decreases |releases| - i
  {
    if i == |releases| {
      assert releases[..i] == releases;
    } else {
      var next := releases[..i + 1];
      BuiltPrefix(releases, registryTags, tfVersions, i + 1);
      BuiltExtendsPrior(next, registryTags, tfVersions);
      assert next[..|next| - 1] == releases[..i];
      PrefixTransitive(Built(releases[..i], registryTags, tfVersions), Built(next, registryTags, tfVersions),
        Built(releases, registryTags, tfVersions));
    }
  }

  /** The builds for release `i` are those `ReleaseBuilds` appends to the builds of the releases before it. */
  lemma BuiltUpTo(releases: seq<string>, registryTags: seq<string>, tfVersions: seq<string>, i: nat)
    requires i < |releases|
    ensures Built(releases[..i + 1], registryTags, tfVersions) ==
      ReleaseBuilds(releases[i], registryTags, tfVersions, Built(releases[..i], registryTags, tfVersions))
  {
    assert releases[..i + 1][..i] == releases[..i];
  }

  /** The snapshot of a release is the first part of its builds; the VirtualGL images follow it. */
  lemma SnapshotInBuilds(release: string, registryTags: seq<string>, tfVersions: seq<string>, prior: seq<BuildTask>)
    ensures var snapshot := Snapshot(release, registryTags, tfVersions, prior);
      var builds := ReleaseBuilds(release, registryTags, tfVersions, prior);
      |snapshot| <= |builds| && builds[..|snapshot|] == snapshot &&
      builds[|snapshot|..] == VirtualGLTasks(VirtualGLBases(release, TagsOf(snapshot)))
  {
  }

  /**
   * Within one release, the base images come first, in the variants' insertion
   * order and with context `base`, starting with `vulkan` on its fixed OpenGL
   * base.
   */
  lemma ReleaseBaseImages(release: string, registryTags: seq<string>, tfVersions: seq<string>, prior: seq<BuildTask>)
    ensures var variants := Variants(release, CudaTags(registryTags, release));
      var builds := ReleaseBuilds(release, registryTags, tfVersions, prior);
      var n := |variants.keys|;
      0 < n && |prior| + n <= |builds| &&
      builds[..|prior|] == prior &&
      builds[|prior|] == BuildTask(Base, Some(VulkanBase(release)), ImageTag(release, "vulkan")) &&
      forall k :: 0 <= k < n ==>
        builds[|prior| + k] == BuildTask(Base, Some(variants.values[variants.keys[k]]), ImageTag(release, variants.keys[k]))
  {
    var variants := Variants(release, CudaTags(registryTags, release));
    var base := BaseTasks(release, variants.Items());
    var tf := TensorFlowTasks(release, tfVersions);
    var snapshot := Snapshot(release, registryTags, tfVersions, prior);
    var vgl := VirtualGLTasks(VirtualGLBases(release, TagsOf(snapshot)));
    VulkanVariantFirst(release, CudaTags(registryTags, release));
    assert ReleaseBuilds(release, registryTags, tfVersions, prior) == prior + base + tf + vgl;
    assert |base| == |variants.keys|;
    SecondPartAt(prior, base, tf, vgl);
  }

  /** After the base images of a release come its TensorFlow images, one per version, with the release string as base argument. */
  lemma ReleaseTensorFlowImages(release: string, registryTags: seq<string>, tfVersions: seq<string>, prior: seq<BuildTask>)
    ensures var n := |Variants(release, CudaTags(registryTags, release)).keys|;
      var builds := ReleaseBuilds(release, registryTags, tfVersions, prior);
      |prior| + n + |tfVersions| <= |builds| &&
      forall j :: 0 <= j < |tfVersions| ==>
        builds[|prior| + n + j] == BuildTask(TensorFlow(tfVersions[j]), Some(release), TensorFlowTag(release, tfVersions[j]))
  {
    var variants := Variants(release, CudaTags(registryTags, release));
    var base := BaseTasks(release, variants.Items());
    var tf := TensorFlowTasks(release, tfVersions);
    var snapshot := Snapshot(release, registryTags, tfVersions, prior);
    var vgl := VirtualGLTasks(VirtualGLBases(release, TagsOf(snapshot)));
    assert ReleaseBuilds(release, registryTags, tfVersions, prior) == prior + base + tf + vgl;
    assert |base| == |variants.keys|;
    forall j | 0 <= j < |tfVersions|
      ensures (prior + base + tf + vgl)[|prior| + |base| + j] ==
        BuildTask(TensorFlow(tfVersions[j]), Some(release), TensorFlowTag(release, tfVersions[j]))
    {
      ThirdPartAt(prior, base, tf, vgl, j);
    }
  }

  /** `ReleaseBaseImages` and `ReleaseTensorFlowImages` together: the layout of one release's step. */
  lemma ReleaseLayout(release: string, registryTags: seq<string>, tfVersions: seq<string>, prior: seq<BuildTask>)
    ensures var variants := Variants(release, CudaTags(registryTags, release));
      var builds := ReleaseBuilds(release, registryTags, tfVersions, prior);
      var n := |variants.keys|;
      0 < n && |prior| + n + |tfVersions| <= |builds| &&
      builds[..|prior|] == prior &&
      builds[|prior|] == BuildTask(Base, Some(VulkanBase(release)), ImageTag(release, "vulkan")) &&
      (forall k :: 0 <= k < n ==>
        builds[|prior| + k] == BuildTask(Base, Some(variants.values[variants.keys[k]]), ImageTag(release, variants.keys[k]))) &&
      (forall j :: 0 <= j < |tfVersions| ==>
        builds[|prior| + n + j] == BuildTask(TensorFlow(tfVersions[j]), Some(release), TensorFlowTag(release, tfVersions[j])))
  {
    ReleaseBaseImages(release, registryTags, tfVersions, prior);
    ReleaseTensorFlowImages(release, registryTags, tfVersions, prior);
  }

  /** Every release starts with its `vulkan` base image, whatever the registry returns. */
  lemma VulkanBuiltFirst(releases: seq<string>, registryTags: seq<string>, tfVersions: seq<string>, i: nat)
    requires i < |releases|
    ensures var built := Built(releases, registryTags, tfVersions);
      var start := |Built(releases[..i], registryTags, tfVersions)|;
      start < |built| &&
      built[start] == BuildTask(Base, Some(VulkanBase(releases[i])), ImageTag(releases[i], "vulkan"))
  {
    BuiltUpTo(releases, registryTags, tfVersions, i);
    ReleaseLayout(releases[i], registryTags, tfVersions, Built(releases[..i], registryTags, tfVersions));
    BuiltPrefix(releases, registryTags, tfVersions, i + 1);
  }

  /**
   * A base image other than `vulkan` exists only for a registry tag ending in
   * `-devel-ubuntu{release}`: it is named after that tag and built on it.
   */
  lemma CudaglImagesFromSuffixedTags(release: string, registryTags: seq<string>, tfVersions: seq<string>, prior: seq<BuildTask>, k: nat)
    requires var builds := ReleaseBuilds(release, registryTags, tfVersions, prior);
      |prior| <= k < |builds| && builds[k].context == Base && builds[k].tag != ImageTag(release, "vulkan")
    ensures var task := ReleaseBuilds(release, registryTags, tfVersions, prior)[k];
      exists t :: t in registryTags && EndsWith(t, CudaSuffix(release)) &&
        task == BuildTask(Base, Some(CudaglBase(t)), ImageTag(release, VariantName(release, t)))
  {
    var cudaTags := CudaTags(registryTags, release);
    var variants := Variants(release, cudaTags);
    var builds := ReleaseBuilds(release, registryTags, tfVersions, prior);
    ReleaseLayout(release, registryTags, tfVersions, prior);
    var n := |variants.keys|;
    var bases := VirtualGLBases(release, TagsOf(Snapshot(release, registryTags, tfVersions, prior)));
    if k >= |prior| + n + |tfVersions| {
      assert false;
    } else if k >= |prior| + n {
      assert false;
    }
    var name := variants.keys[k - |prior|];
    assert name in variants.values;
    assert name != "vulkan";
    VariantBaseIsLastTag(release, cudaTags, name);
    var i :| 0 <= i < |cudaTags| && LastFor(release, cudaTags, i, name) &&
      variants.values[name] == CudaglBase(cudaTags[i]);
    assert cudaTags[i] in cudaTags;
  }

  /** Every registry tag ending in `-devel-ubuntu{release}` gets a `cudagl` base image named after it. */
  lemma CudaglImageForEverySuffixedTag(release: string, registryTags: seq<string>, tfVersions: seq<string>, prior: seq<BuildTask>, t: string)
    requires t in registryTags && EndsWith(t, CudaSuffix(release))
    ensures var builds := ReleaseBuilds(release, registryTags, tfVersions, prior);
      exists k :: |prior| <= k < |builds| && builds[k].context == Base &&
        builds[k].tag == ImageTag(release, VariantName(release, t))
  {
    var cudaTags := CudaTags(registryTags, release);
    var variants := Variants(release, cudaTags);
    var builds := ReleaseBuilds(release, registryTags, tfVersions, prior);
    ReleaseLayout(release, registryTags, tfVersions, prior);
    var name := VariantName(release, t);
    VariantsFromTags(release, cudaTags);
    assert name in variants.values;
    var k :| 0 <= k < |variants.keys| && variants.keys[k] == name;
    assert builds[|prior| + k].tag == ImageTag(release, name);
  }

  /**
   * The VirtualGL step of a release builds one `<base>-virtualgl` image on
   * each tag of the snapshot that contains the release string, and on nothing
   * else: never on an image of the step itself. (`VirtualGLBasesAppend`
   * states that the bases keep the snapshot's order.)
   */
  lemma VirtualGLCoverage(release: string, registryTags: seq<string>, tfVersions: seq<string>, prior: seq<BuildTask>)
    ensures var snapshot := Snapshot(release, registryTags, tfVersions, prior);
      var builds := ReleaseBuilds(release, registryTags, tfVersions, prior);
      |snapshot| <= |builds| && builds[..|snapshot|] == snapshot &&
      (forall k :: |snapshot| <= k < |builds| ==>
        builds[k].context == VirtualGL && builds[k].baseImage.Some? &&
        builds[k].baseImage.value in TagsOf(snapshot) && Contains(builds[k].baseImage.value, release) &&
        builds[k].tag == VirtualGLTag(builds[k].baseImage.value)) &&
      (forall b :: b in TagsOf(snapshot) && Contains(b, release) ==>
        exists k :: |snapshot| <= k < |builds| && builds[k].baseImage == Some(b))
  {
    var snapshot := Snapshot(release, registryTags, tfVersions, prior);
    var builds := ReleaseBuilds(release, registryTags, tfVersions, prior);
    var bases := VirtualGLBases(release, TagsOf(snapshot));
    var vgl := VirtualGLTasks(bases);
    SnapshotInBuilds(release, registryTags, tfVersions, prior);
    forall k | |snapshot| <= k < |builds|
      ensures builds[k].context == VirtualGL && builds[k].baseImage.Some? &&
        builds[k].baseImage.value in TagsOf(snapshot) && Contains(builds[k].baseImage.value, release) &&
        builds[k].tag == VirtualGLTag(builds[k].baseImage.value)
    {
      assert builds[k] == builds[|snapshot|..][k - |snapshot|];
      assert bases[k - |snapshot|] in bases;
    }
    forall b | b in TagsOf(snapshot) && Contains(b, release)
      ensures exists k :: |snapshot| <= k < |builds| && builds[k].baseImage == Some(b)
    {
      assert b in bases;
      var m :| 0 <= m < |bases| && bases[m] == b;
      assert builds[|snapshot| + m] == builds[|snapshot|..][m];
    }
  }

  /** Every base and TensorFlow tag a release adds to the snapshot names that release. */
  lemma SnapshotTagsNameRelease(release: string, registryTags: seq<string>, tfVersions: seq<string>, prior: seq<BuildTask>, k: nat)
    requires |prior| <= k < |Snapshot(release, registryTags, tfVersions, prior)|
    ensures Contains(Snapshot(release, registryTags, tfVersions, prior)[k].tag, release)
  {
    var items := Variants(release, CudaTags(registryTags, release)).Items();
    var base := BaseTasks(release, items);
    var tf := TensorFlowTasks(release, tfVersions);
    var snapshot := Snapshot(release, registryTags, tfVersions, prior);
    assert snapshot == prior + base + tf;
    if k < |prior| + |base| {
      assert snapshot[k] == base[k - |prior|];
      TagsNameRelease(release, items[k - |prior|].0);
    } else {
      assert snapshot[k] == tf[k - |prior| - |base|];
      TagsNameRelease(release, tfVersions[k - |prior| - |base|]);
    }
  }

  /**
   * Since every base and TensorFlow tag of a release names the release, each
   * of them gets its VirtualGL image in the same step.
   */
  lemma ReleaseImagesGetVirtualGL(release: string, registryTags: seq<string>, tfVersions: seq<string>, prior: seq<BuildTask>, k: nat)
    requires |prior| <= k < |Snapshot(release, registryTags, tfVersions, prior)|
    ensures var builds := ReleaseBuilds(release, registryTags, tfVersions, prior);
      VirtualGLTag(builds[k].tag) in TagsOf(builds)
  {
    var snapshot := Snapshot(release, registryTags, tfVersions, prior);
    var builds := ReleaseBuilds(release, registryTags, tfVersions, prior);
    SnapshotTagsNameRelease(release, registryTags, tfVersions, prior, k);
    VirtualGLCoverage(release, registryTags, tfVersions, prior);
    var tag := snapshot[k].tag;
    assert TagsOf(snapshot)[k] == tag;
    assert builds[k] == snapshot[k];
    var m :| |snapshot| <= m < |builds| && builds[m].baseImage == Some(tag);
    assert TagsOf(builds)[m] == VirtualGLTag(tag);
  }
  /**
   * A development tag `x + "-devel-ubuntu{release}"` whose suffix does not
   * also begin inside `x` gives the variant `"cudagl" + x`.
   */
  lemma VariantNameStripsSuffix(release: string, x: string)
    requires var suffix := CudaSuffix(release); !Contains(x + suffix[..|suffix| - 1], suffix)
    ensures VariantName(release, x + CudaSuffix(release)) == "cudagl" + x
  {
    RemoveTrailing(x, CudaSuffix(release));
  }

  /** `str.replace` removes every occurrence of the suffix, not only the trailing one. */
  lemma VariantNameRemovesEveryOccurrence(release: string, x: string, y: string)
    requires var suffix := CudaSuffix(release); !Contains(x + suffix[..|suffix| - 1], suffix)
    ensures VariantName(release, x + CudaSuffix(release) + y + CudaSuffix(release)) ==
      "cudagl" + x + ReplaceAll(y + CudaSuffix(release), CudaSuffix(release), "")
  {
    var suffix := CudaSuffix(release);
    assert x + suffix + y + suffix == x + suffix + (y + suffix);
    RemoveAfter(x, suffix, y + suffix);
  }

  /**
   * When the registry tags give distinct variant names, the variants are
   * `vulkan` followed by one `cudagl` variant per tag, in registry order,
   * each built on its own tag.
   */
  lemma VariantsInTagOrder(release: string, cudaTags: seq<string>)
    requires forall i, j :: 0 <= i < j < |cudaTags| ==> VariantName(release, cudaTags[i]) != VariantName(release, cudaTags[j])
    ensures var variants := Variants(release, cudaTags);
      |variants.keys| == |cudaTags| + 1 &&
      forall i :: 0 <= i < |cudaTags| ==>
        variants.keys[i + 1] == VariantName(release, cudaTags[i]) &&
        variants.values[variants.keys[i + 1]] == CudaglBase(cudaTags[i])
  {
    var init := InitialVariants(release);
    var entries := Entries(release, cudaTags);
    CudaglNotVulkan(release, cudaTags);
    forall i | 0 <= i < |entries| ensures entries[i].0 !in init.values {
      assert entries[i].0 != "vulkan";
    }
    forall i, j | 0 <= i < j < |entries| ensures entries[i].0 != entries[j].0 {
      assert entries[i].0 == VariantName(release, cudaTags[i]);
      assert entries[j].0 == VariantName(release, cudaTags[j]);
    }
    PutAllFresh(init, entries);
    forall i | 0 <= i < |cudaTags|
      ensures entries[i].0 in PutAll(init, entries).values &&
        PutAll(init, entries).values[entries[i].0] == CudaglBase(cudaTags[i])
    {
      assert LastEntry(entries, i, entries[i].0);
      PutAllLastWins(init, entries, i, entries[i].0);
    }
  }

  /**
   * A tag `x + suffix + y + suffix` in which the suffix begins nowhere inside
   * `x` or `y` gives the variant `"cudagl" + x + y`: both occurrences go.
   */
  lemma VariantNameRemovesBothOccurrences(release: string, x: string, y: string)
    requires var suffix := CudaSuffix(release); !Contains(x + suffix[..|suffix| - 1], suffix)
    requires var suffix := CudaSuffix(release); !Contains(y + suffix[..|suffix| - 1], suffix)
    ensures VariantName(release, x + CudaSuffix(release) + y + CudaSuffix(release)) == "cudagl" + x + y
  {
    VariantNameRemovesEveryOccurrence(release, x, y);
    RemoveTrailing(y, CudaSuffix(release));
  }

  /** The filter of line 79 keeps nothing when no registry tag has the release's suffix. */
  lemma {:induction false} NoCudaTags(registryTags: seq<string>, release: string)
    requires forall t :: t in registryTags ==> !EndsWith(t, CudaSuffix(release))
    ensures CudaTags(registryTags, release) == []
    decreases |registryTags|
  {
    if registryTags != [] {
      var n := |registryTags| - 1;
      assert registryTags[n] in registryTags;
      NoCudaTags(registryTags[..n], release);
    }
  }

  /** A release whose registry tags give no development tag builds the `vulkan` variant alone. */
  lemma OnlyVulkanWithoutCudaTags(release: string, registryTags: seq<string>)
    requires forall t :: t in registryTags ==> !EndsWith(t, CudaSuffix(release))
    ensures Variants(release, CudaTags(registryTags, release)).keys == ["vulkan"]
  {
    NoCudaTags(registryTags, release);
    assert Variants(release, []) == InitialVariants(release);
  }

  /** Every build of a release passes a base image, so every build command has a `BASEIMAGE` argument. */
  lemma ReleaseBuildsHaveBase(release: string, registryTags: seq<string>, tfVersions: seq<string>, prior: seq<BuildTask>)
    requires forall k :: 0 <= k < |prior| ==> prior[k].baseImage.Some?
    ensures var builds := ReleaseBuilds(release, registryTags, tfVersions, prior);
      forall k :: 0 <= k < |builds| ==> builds[k].baseImage.Some?
  {
    var snapshot := Snapshot(release, registryTags, tfVersions, prior);
    var items := Variants(release, CudaTags(registryTags, release)).Items();
    assert snapshot == prior + BaseTasks(release, items) + TensorFlowTasks(release, tfVersions);
  }

  lemma {:induction false} BuiltHaveBase(releases: seq<string>, registryTags: seq<string>, tfVersions: seq<string>)
    ensures forall k :: 0 <= k < |Built(releases, registryTags, tfVersions)| ==>
      Built(releases, registryTags, tfVersions)[k].baseImage.Some?
    decreases |releases|
  {
    if releases != [] {
      var n := |releases| - 1;
      var prior := Built(releases[..n], registryTags, tfVersions);
      BuiltHaveBase(releases[..n], registryTags, tfVersions);
      ReleaseBuildsHaveBase(releases[n], registryTags, tfVersions, Built(releases[..n], registryTags, tfVersions));
    }
  }
}
