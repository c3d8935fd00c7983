/**
 * The Docker side of the build script, with every Docker call replaced by
 * the record of what it would do: a build task or an alias pair.
 */
module Docker {
  import opened Wrappers
  import opened Strings

  /** The Dockerfile directory a build uses, under the script's root directory. */
  datatype Context = Base | TensorFlow(version: string) | VirtualGL

  /** One `docker build`: its context, the optional `BASEIMAGE` build argument and the output tag. */
  datatype BuildTask = BuildTask(context: Context, baseImage: Option<string>, tag: string)

  /** One `docker tag`: the alias that now names the image called `source`. */
  datatype Alias = Alias(name: string, source: string)

  /** `join(rootDir, 'base')`, `join(rootDir, 'tensorflow', version)` or `join(rootDir, 'virtualgl')`. */
  function ContextPath(rootDir: string, context: Context): string {
    match context
    case Base => Join(rootDir, "base")
    case TensorFlow(v) => Join(Join(rootDir, "tensorflow"), v)
    case VirtualGL => Join(rootDir, "virtualgl")
  }

  /** A script at the filesystem root gets single-slash context paths, as `os.path.join` gives. */
  lemma ContextPathAtFilesystemRoot(version: string)
    requires !StartsWith(version, "/")
    ensures ContextPath("/", Base) == "/base"
    ensures ContextPath("/", VirtualGL) == "/virtualgl"
    ensures ContextPath("/", TensorFlow(version)) == "/tensorflow/" + version
  {
    assert "base"[..1][0] == 'b' && "virtualgl"[..1][0] == 'v' && "tensorflow"[..1][0] == 't';
    assert EndsWith("/", "/");
    assert Join("/", "base") == "/" + "base" == "/base";
    assert Join("/", "virtualgl") == "/" + "virtualgl" == "/virtualgl";
    var t := Join("/", "tensorflow");
    assert t == "/" + "tensorflow" == "/tensorflow";
    assert t != [] && t[|t| - 1..][0] == 'w';
    assert Join(t, version) == t + "/" + version;
  }

  function BuildArgs(baseImage: Option<string>): seq<string> {
    if baseImage.Some? then ["--build-arg", "BASEIMAGE=" + baseImage.value] else []
  }

  /** The command line that `buildImage` runs for a task. */
  function BuildCommand(rootDir: string, task: BuildTask): seq<string> {
    ["docker", "build", "-t", task.tag] + BuildArgs(task.baseImage) + [ContextPath(rootDir, task.context)]
  }

  /** Reads the `BASEIMAGE` build argument back out of a `docker build` command line. */
  function BaseImageArg(command: seq<string>): Option<string> {
    if |command| == 7 && command[4] == "--build-arg" && StartsWith(command[5], "BASEIMAGE=")
    then Some(command[5][|"BASEIMAGE="|..])
    else None
  }

  /** `buildImage(context, baseImage, tag)`: records the build and gives back `tag` unchanged. */
  function BuildImage(context: Context, baseImage: Option<string>, tag: string): (task: BuildTask)
    ensures task.tag == tag
    ensures task.context == context && task.baseImage == baseImage
    ensures forall rootDir :: BaseImageArg(BuildCommand(rootDir, task)) == baseImage
  {
    var task := BuildTask(context, baseImage, tag);
    forall rootDir ensures BaseImageArg(BuildCommand(rootDir, task)) == baseImage {
      BuildCommandArgs(rootDir, task);
    }
    task
  }

  /**
   * The build command passes `--build-arg BASEIMAGE=<base>` exactly when the
   * task has a base image, builds into the task's tag and ends with its context.
   */
  lemma BuildCommandArgs(rootDir: string, task: BuildTask)
    ensures var command := BuildCommand(rootDir, task);
      BaseImageArg(command) == task.baseImage &&
      command[3] == task.tag &&
      command[|command| - 1] == ContextPath(rootDir, task.context)
  {
    var command := BuildCommand(rootDir, task);
    if task.baseImage.Some? {
      var arg := "BASEIMAGE=" + task.baseImage.value;
      assert command[5] == arg;
      assert arg[..|"BASEIMAGE="|] == "BASEIMAGE=";
      assert arg[|"BASEIMAGE="|..] == task.baseImage.value;
    }
  }

  /** `tagImage(source, target)`: records the tag and gives back the pair (alias, original). */
  function TagImage(source: string, target: string): (alias: Alias)
    ensures alias.name == target && alias.source == source
  {
    Alias(target, source)
  }

  /** The image tags of a sequence of builds, in build order (the script's `built` list). */
  function TagsOf(built: seq<BuildTask>): (tags: seq<string>)
    ensures |tags| == |built|
  {
    seq(|built|, i requires 0 <= i < |built| => built[i].tag)
  }

  /** The alias names of a sequence of alias pairs. */
  function AliasNames(aliases: seq<Alias>): (names: seq<string>)
    ensures |names| == |aliases|
  {
    seq(|aliases|, i requires 0 <= i < |aliases| => aliases[i].name)
  }
}
