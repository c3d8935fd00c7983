# ue4-runtime image matrix, modelled in Dafny

`build.py` of the ue4-runtime repository builds a family of Docker images
for running Unreal Engine 4 applications. For every Ubuntu LTS release it
builds one `base` image per driver variant (`vulkan`, on NVIDIA's GLVND
OpenGL image, plus one `cudagl…` variant for every `nvidia/cudagl`
development tag of that release found on Docker Hub), one image per
TensorFlow version it has a Dockerfile for, and then a `-virtualgl` image on
top of every image built so far whose tag contains the release string.
Afterwards it points legacy and unversioned alias tags (`-opengl`, `latest`,
`tensorflow`, `virtualgl`, `tensorflow-virtualgl`) at some of those images,
and optionally pushes everything.

This project models that tag-matrix computation. Every `docker build` is
replaced by a `BuildTask` record (context, optional `BASEIMAGE`, tag) and
every `docker tag` by an `Alias` record (alias, source). The script's loops
are methods with `while` loops, proved equal to specification functions:

- `wrappers.dfy`: `Option` and `Result`.
- `strings.dfy`: Python's `startswith`, `endswith`, `in` on strings (`Contains`)
  `str.replace` (`ReplaceAll`, every non-overlapping occurrence, left to right)
  and `os.path.join` on POSIX (`Join`).
- `docker.dfy`: `buildImage`, `tagImage`, the `docker build` command line
  and the records that stand for the Docker calls.
- `ordered_dict.dfy`: the `variants` dict: insertion-ordered keys, and
  assigning to an existing key keeps its position.
- `matrix.dfy`: the constants (`PREFIX`, `RELEASES`, `ALIAS_RELEASE`) and the
  matrix as functions: `Variants`, `Snapshot`, `ReleaseBuilds`, `Built`.
- `matrix_properties.dfy`: what the matrix guarantees: layering, ordering,
  which registry tags give variants, VirtualGL coverage.
- `tagging.dfy`: the alias list, the push list and the proof that no alias
  points at an unbuilt image.
- `build_script.dfy`: the top-level loops of the script and the whole run.

## Model

| member | source | states |
|---|---|---|
| `Strings.EndsWith` | build.py:79 | `str.endswith`: the string's last characters are the suffix |
| `Strings.Contains` | build.py:98 | `in` on strings: the substring occurs at some position |
| `Strings.ReplaceAll` | build.py:84 | `str.replace` leaves a string without the pattern unchanged, and deleting never makes it longer |
| `Strings.RemoveAfter` | build.py:84 | deleting the suffix from `x + suffix + y` keeps `x` and goes on deleting every occurrence in `y`, when no occurrence begins inside `x` |
| `Strings.RemoveTrailing` | build.py:84 | deleting a suffix that occurs only at the end leaves exactly what precedes it |
| `Strings.ContainsSpliced` | build.py:98 | `sub in s` holds whenever `sub` is spliced into `s` at any position |
| `Strings.Join` | build.py:89-101 | `os.path.join`: an absolute second part replaces the first; otherwise the result starts with the first part, ends with the second, and a single `/` is inserted exactly when the first part is non-empty and does not already end in `/` |
| `Docker.ContextPath` | build.py:89-101 | defines the build context directory of each kind of image, joined as `os.path.join` does: `base`, `tensorflow/{version}` or `virtualgl` under the root directory (lines 89, 95, 101) |
| `Docker.ContextPathAtFilesystemRoot` | build.py:89-101 | a root directory of `/` gives `/base`, `/virtualgl` and `/tensorflow/{version}`, with no doubled slash |
| `Docker.BuildArgs` | build.py:26 | defines the `--build-arg BASEIMAGE=<base>` pair, present only when a base image is given |
| `Docker.BuildCommand` | build.py:26-27 | defines the `docker build -t <tag> [--build-arg BASEIMAGE=<base>] <context>` command line |
| `Docker.BuildImage` | build.py:25-28 | `buildImage` returns the tag unchanged, and its command carries `BASEIMAGE=<base>` exactly when a base image is given |
| `Docker.BuildCommandArgs` | build.py:26-27 | reading the `--build-arg BASEIMAGE=` argument back out of the build command gives the task's base image (none when absent); the command builds the tag from the task's context |
| `Docker.TagsOf` | build.py:28 | the tags of the builds in build order, one per build: the list of `buildImage` return values that `built` holds and that lines 98 and 137 read |
| `Docker.AliasNames` | build.py:137 | the alias names `[alias for alias, original in aliases]`, one per alias in order |
| `Docker.TagImage` | build.py:31-33 | `tagImage(source, target)` gives the pair with the alias first and the original second |
| `OrderedDict.Dict.Put` | build.py:84 | dict assignment maps the key to the new value and leaves the other values alone; an existing key keeps its position, a new key goes last |
| `OrderedDict.PutValid` | build.py:84 | one assignment keeps every key listed exactly once |
| `OrderedDict.PutAllValid` | build.py:83-84 | a run of assignments keeps every key listed exactly once |
| `OrderedDict.PutAllKeepsOrder` | build.py:83-84 | the keys present before the assignments keep their positions at the front |
| `OrderedDict.PutAllHas` | build.py:83-84 | every assigned key is in the dict afterwards |
| `OrderedDict.PutAllOnly` | build.py:83-84 | a key neither present before nor assigned is absent afterwards |
| `OrderedDict.PutAllUntouched` | build.py:83-84 | a key that is never assigned keeps its value |
| `OrderedDict.PutAllLastWins` | build.py:83-84 | the last assignment to a key decides its value |
| `OrderedDict.PutAllNewKey` | build.py:83-84 | a key that was not present before has the value of its last assignment |
| `OrderedDict.PutAllFresh` | build.py:83-84 | assigning distinct new keys appends them at the end, in assignment order |
| `OrderedDict.Dict.Items` | build.py:87 | `items()` lists every key in insertion order with its value |
| `Matrix.CudaTags` | build.py:78-79 | the registry tags kept are exactly those ending in `-devel-ubuntu{release}` |
| `Matrix.CudaTagsAppend` | build.py:79 | the filter keeps registry order and repeats: filtering `a + b` gives the filtered `a` followed by the filtered `b` |
| `Matrix.CudaSuffix` | build.py:78 | defines the development-tag suffix `-devel-ubuntu{release}` |
| `Matrix.VulkanBase` | build.py:82 | defines the `vulkan` variant's base `nvidia/opengl:1.0-glvnd-runtime-ubuntu{release}` |
| `Matrix.CudaglBase` | build.py:84 | defines a `cudagl` variant's base `nvidia/cudagl:{tag}` |
| `Matrix.VariantName` | build.py:84 | defines the variant name `cudagl` + the tag with every occurrence of the suffix removed |
| `Matrix.ImageTag` | build.py:88 | defines the tag format `PREFIX:{release}-{suffix}` |
| `Matrix.TensorFlowTag` | build.py:94 | defines the tag format `PREFIX:{release}-tensorflow-{version}` |
| `Matrix.VirtualGLTag` | build.py:100 | defines the VirtualGL tag `<base>-virtualgl` |
| `Matrix.InitialVariants` | build.py:82 | the dict starts well formed, with the single key `vulkan` |
| `Matrix.Entries` | build.py:83-84 | one assignment `(name, nvidia/cudagl:{tag})` per kept tag, in the order of the kept tags |
| `OrderedDict.PutAll` | build.py:83-84 | defines the dict after a run of assignments, made one after another in order |
| `Matrix.Variants` | build.py:82-84 | the filled dict lists every variant exactly once |
| `Matrix.CudaglNotVulkan` | build.py:84 | no `cudagl…` name is `vulkan`, so the loop never overwrites the `vulkan` variant |
| `Matrix.VulkanVariantFirst` | build.py:82-84 | `vulkan` is always the first variant, on `nvidia/opengl:1.0-glvnd-runtime-ubuntu{release}` |
| `Matrix.VariantsFromTags` | build.py:83-84 | there is a `cudagl` variant for every kept tag, and no variant besides `vulkan` and those |
| `Matrix.VariantBaseIsLastTag` | build.py:83-84 | a `cudagl` variant's base is `nvidia/cudagl:{tag}` for the last kept tag that gives its name |
| `Matrix.VirtualGLBases` | build.py:98 | the VirtualGL bases are exactly the snapshot tags that contain the release string |
| `Matrix.VirtualGLBasesAppend` | build.py:98 | the selection keeps snapshot order and repeats: selecting from `a + b` gives the selection from `a` followed by that from `b` |
| `Matrix.BaseTasks` | build.py:87-89 | defines one `base` build per dict item, tagged `PREFIX:{release}-{variant}` on the variant's base, in item order |
| `Matrix.TensorFlowTasks` | build.py:93-95 | defines one TensorFlow build per version, in order, with the release string as base argument |
| `Matrix.VirtualGLTasks` | build.py:99-101 | defines one `virtualgl` build per base, in order, tagged `<base>-virtualgl` |
| `Matrix.Snapshot` | build.py:75-98 | defines `built` as copied on line 98: the builds before the release, then its base and TensorFlow builds |
| `Matrix.ReleaseBuilds` | build.py:76-101 | defines `built` after one pass of the release loop: the snapshot, then the VirtualGL builds on its selected tags |
| `Matrix.Built` | build.py:75-101 | defines `built` after the release loop, one pass per release in order |
| `Matrix.Layered` | build.py:98-101 | defines layering: every VirtualGL build's base is a tag built before it |
| `MatrixProperties.TagsNameRelease` | build.py:88-94 | every base and TensorFlow tag of a release contains the release string |
| `MatrixProperties.LayeredAppend` | build.py:98-101 | appending builds keeps every VirtualGL image on an earlier tag, when each new one sits on a tag already built |
| `MatrixProperties.ReleaseBuildsLayered` | build.py:87-101 | one release's step keeps every VirtualGL image on a tag built before it |
| `MatrixProperties.BuiltLayered` | build.py:75-101 | in the whole run, every VirtualGL image is built on a tag that appears earlier in `built` |
| `MatrixProperties.ReleaseBuildsExtend` | build.py:87-101 | a release's step only appends to `built` |
| `MatrixProperties.BuiltPrefix` | build.py:75-101 | what the first releases build is a prefix of what the whole run builds |
| `MatrixProperties.BuiltUpTo` | build.py:75-101 | the builds up to release `i` are the builds before it extended by release `i`'s step |
| `MatrixProperties.BuiltExtendsPrior` | build.py:75-101 | the last release's step only appends to the builds of the releases before it |
| `MatrixProperties.ReleaseBaseImages` | build.py:87-89 | a release's step starts with the `vulkan` base image, then the base images in variant order, tagged `PREFIX:{release}-{variant}` with context `base` |
| `MatrixProperties.ReleaseTensorFlowImages` | build.py:93-95 | after the base images come one `PREFIX:{release}-tensorflow-{v}` image per version, with the release string as base |
| `MatrixProperties.ReleaseLayout` | build.py:87-95 | a release's step starts with the `vulkan` base image, then the base images in variant order tagged `PREFIX:{release}-{variant}` with context `base`, then one `PREFIX:{release}-tensorflow-{v}` image per version with the release string as base |
| `MatrixProperties.VulkanBuiltFirst` | build.py:82-89 | every release's first build is its `vulkan` image on the GLVND OpenGL base, whatever the registry returned |
| `MatrixProperties.CudaglImagesFromSuffixedTags` | build.py:78-89 | every other base image comes from a registry tag ending in `-devel-ubuntu{release}`: named `cudagl` + that tag with the suffix removed and built on `nvidia/cudagl:{tag}` |
| `MatrixProperties.CudaglImageForEverySuffixedTag` | build.py:78-89 | every registry tag ending in `-devel-ubuntu{release}` gets a base image named after it |
| `MatrixProperties.VirtualGLCoverage` | build.py:98-101 | the VirtualGL step builds `<base>-virtualgl` on a snapshot tag exactly when that tag contains the release string, and never on an image of the step itself |
| `MatrixProperties.SnapshotTagsNameRelease` | build.py:87-98 | every image a release adds before its VirtualGL step has a tag containing the release string |
| `MatrixProperties.ReleaseImagesGetVirtualGL` | build.py:87-101 | every base and TensorFlow image of a release gets its `-virtualgl` image in the same step |
| `MatrixProperties.VariantNameStripsSuffix` | build.py:78-84 | a tag `x-devel-ubuntu{release}` whose suffix occurs only at the end gives the variant `cudaglx` |
| `MatrixProperties.VariantNameRemovesEveryOccurrence` | build.py:84 | `str.replace` removes every occurrence of the suffix, not only the trailing one |
| `MatrixProperties.VariantNameRemovesBothOccurrences` | build.py:84 | a tag `x + suffix + y + suffix` with no other occurrence gives `cudagl` + `x` + `y`: the leading and the trailing occurrence both go |
| `MatrixProperties.VariantsInTagOrder` | build.py:82-84 | with distinct names, the variants are `vulkan` and then one `cudagl` variant per kept tag in registry order, each on its own tag |
| `MatrixProperties.NoCudaTags` | build.py:79 | no tag is kept when none ends in the release's suffix |
| `MatrixProperties.OnlyVulkanWithoutCudaTags` | build.py:79-84 | a release with no matching registry tag has the `vulkan` variant alone |
| `MatrixProperties.ReleaseBuildsHaveBase` | build.py:87-101 | every build of a release passes a base image |
| `MatrixProperties.BuiltHaveBase` | build.py:75-101 | every build of the run passes `BASEIMAGE` |
| `Tagging.OpenGLAlias` | build.py:105 | defines the legacy alias `PREFIX:{release}-opengl` of `PREFIX:{release}-vulkan` |
| `Tagging.UnversionedAliases` | build.py:107-121 | defines the four unversioned aliases `latest`, `tensorflow`, `virtualgl`, `tensorflow-virtualgl` of the alias release's images, in that order |
| `Tagging.Aliases` | build.py:103-121 | defines `aliases`: the `-opengl` aliases, then the unversioned ones |
| `Tagging.OpenGLAliases` | build.py:104-105 | one alias per release, in release order, from `PREFIX:{r}-opengl` to `PREFIX:{r}-vulkan` |
| `Tagging.PushList` | build.py:137 | the pushed references are every built tag in build order, then every alias name in alias order |
| `Tagging.UnversionedAliasesUseAliasRelease` | build.py:107-121 | after the release aliases come `latest`, `tensorflow`, `virtualgl`, `tensorflow-virtualgl`, all sourced from tags of the alias release |
| `Tagging.StepTagInBuilt` | build.py:75-101 | a tag built in a release's step stays among the run's built tags |
| `Tagging.ReleaseVulkanTargets` | build.py:87-101 | a release's step builds its `-vulkan` image and its `-vulkan-virtualgl` image |
| `Tagging.ReleaseTensorFlowTargets` | build.py:93-101 | a release's step builds the image of each TensorFlow version and its `-virtualgl` image |
| `Tagging.OpenGLSourcesBuilt` | build.py:104-105 | every `-opengl` alias points at a built `-vulkan` image |
| `Tagging.UnversionedSources` | build.py:107-121 | the four unversioned aliases point at the alias release's `-vulkan` image, its newest TensorFlow image, and their `-virtualgl` images (the `-vulkan-virtualgl` format of line 117 is the `-virtualgl` image of the `-vulkan` tag) |
| `Tagging.UnversionedSourcesBuilt` | build.py:107-121 | when the alias release is built and the newest TensorFlow version has a Dockerfile, the unversioned aliases point at built images |
| `Tagging.AliasSourcesBuilt` | build.py:104-121 | under the same two conditions, every alias source is a built tag |
| `BuildScript.CollectVariants` | build.py:82-84 | the loop fills the dict to `Variants` |
| `BuildScript.BuildBaseImages` | build.py:87-89 | the loop appends one base build per variant, in dict order |
| `BuildScript.BuildTensorFlowImages` | build.py:93-95 | the loop appends one TensorFlow build per version, in order |
| `BuildScript.BuildVirtualGLImages` | build.py:98-101 | the loop appends one VirtualGL build per base of the snapshot taken before it |
| `BuildScript.BuildRelease` | build.py:76-101 | one pass of the release loop appends that release's step |
| `BuildScript.BuildMatrix` | build.py:75-101 | the release loop builds exactly the matrix `Built` |
| `BuildScript.TagAliases` | build.py:104-121 | the alias code produces exactly the alias list, in order |
| `BuildScript.PushImages` | build.py:136-138 | with `--push` the script pushes the push list in order, and nothing without it |
| `BuildScript.RunBuild` | build.py:66-138 | a run aborts exactly when there is no TensorFlow Dockerfile; otherwise it builds the matrix with every VirtualGL image on an earlier image, tags the aliases, pushes when asked, and every alias source is built when the alias release is among the releases and the newest TensorFlow version is one of the directories |
| `BuildScript.RunConfigured` | build.py:10-14 | with releases 16.04 and 18.04 and alias release 18.04, the first build is the 16.04 `vulkan` image, the 18.04 `vulkan` image is built, and every alias points at a built image whenever the newest TensorFlow version names a Dockerfile directory |

## Left out

- `listTags` (build.py:40-54): Docker Hub HTTP queries and token negotiation. Its result is the `registryTags` parameter; the script queries it once per release, and the model assumes each query returns the same list. A failing query aborts the script; that is not modelled.
- `run`, `subprocess.run` and every `print` (build.py:18-22, 124-133): process I/O. Builds, tags and pushes are recorded as values; `BuildCommand` gives the `docker build` argument list. A failing Docker command (which aborts the script) is not modelled: every build is taken to succeed.
- `argparse` (build.py:58-61): `--dry-run` changes no computed list and is left out; `--push` is the `push` parameter.
- `glob` and `packaging.version.parse` (build.py:67-68): filesystem discovery and a foreign library. The Dockerfile directories are the `tfVersions` parameter and the printed form of the newest parsed version is `newestTF`. Only the empty-list failure of `sorted(...)[-1]` is modelled. Since `parse` may normalise a version (so `newestTF` need not be a directory name), the alias guarantee is stated under the condition that it is.
- The script's root directory (build.py:64) appears only as a parameter of `ContextPath`.
- `Matrix.Variants`: the order of `cudagl` variants is stated in full only when the registry tags give distinct variant names (`VariantsInTagOrder`); in general the model states which variants exist and which tag each is built on.
- Uniqueness of output tags is not claimed, because the code does not ensure it: a tag of an earlier release that happens to contain a later release's string is selected again by the later release's VirtualGL step (build.py:98-101) and gets a second `-virtualgl` build.
