/** The background steps of routers/webhook.py: `git_clone`, `docker_compose`
    and `docker_prune`. The host is the set of paths that exist and the trace
    of what the steps did to it; each external command is answered by a
    `Runner`, which may depend on the paths present when the command starts. */
module Deploy {
  import opened Wrappers

  /** The directory every working copy lives under. */
  const WebRoot: string := "/var/www"

  const CloneFailurePrefix: string := "Failed to clone repository: "
  const ComposeFailurePrefix: string := "Failed to docker compose: "
  const PruneFailurePrefix: string := "Failed to prune Docker resources: "

  /** `f"/var/www/{folder_name}"`: the folder name is used verbatim, with no
      sanitisation, so `..` or `/` in it reach the path unchanged. */
  function ClonePath(folderName: string): (p: string)
    ensures WebRoot + "/" <= p
    ensures p[|WebRoot| + 1..] == folderName
  {
    WebRoot + "/" + folderName
  }

  /** An external command: its argument vector and working directory
      (`None`: the server's own). */
  datatype Command = Command(argv: seq<string>, cwd: Option<string>)

  /** What `subprocess.run(..., capture_output=True, text=True)` returns. */
  datatype Completed = Completed(returncode: int, stdout: string, stderr: string)

  /** Runs a command on a host whose existing paths are given. */
  type Runner = (Command, set<string>) -> Completed

  /** The exception each background step raises on failure. */
  datatype RuntimeError = RuntimeError(message: string)

  /** What the steps did, in order; a command is recorded with the paths that
      existed when it started. */
  datatype Event = Removed(path: string) | Ran(command: Command, seen: set<string>)

  /** `git clone <url> <folder>` run in `/var/www`: git receives the folder
      name itself, not the joined path; joined to the working directory, that
      name spells the clone path that was removed. */
  function CloneCommand(repoUrl: string, folderName: string): (c: Command)
    ensures |c.argv| == 4 && c.argv[..2] == ["git", "clone"] && c.argv[2] == repoUrl
    ensures c.cwd == Some(WebRoot) && c.argv[3] == folderName
    ensures c.cwd.Some? && c.cwd.value + "/" + c.argv[3] == ClonePath(folderName)
  {
    Command(["git", "clone", repoUrl, folderName], Some(WebRoot))
  }

  /** `docker compose build --no-cache`, run inside the clone path. */
  function BuildCommand(folderName: string): (c: Command)
    ensures c.cwd == Some(ClonePath(folderName))
    ensures "build" in c.argv && "--no-cache" in c.argv
  {
    Command(["docker", "compose", "build", "--no-cache"], Some(ClonePath(folderName)))
  }

  /** `docker compose up -d`, run inside the clone path; a different command
      from the build. */
  function UpCommand(folderName: string): (c: Command)
    ensures c.cwd == Some(ClonePath(folderName))
    ensures "up" in c.argv && "-d" in c.argv
    ensures c != BuildCommand(folderName)
  {
    Command(["docker", "compose", "up", "-d"], Some(ClonePath(folderName)))
  }

  /** `docker system prune --volumes -f`: host-wide, in no project directory. */
  function PruneCommand(): (c: Command)
    ensures c.cwd.None?
    ensures "prune" in c.argv && "--volumes" in c.argv
  {
    Command(["docker", "system", "prune", "--volumes", "-f"], None)
  }

  /** `check=True` turned into the step's result: a non-zero exit status is a
      `RuntimeError` whose message is the step's prefix and the captured stderr. */
  function Checked(c: Completed, prefix: string): (r: Outcome<RuntimeError>)
    ensures r.Pass? <==> c.returncode == 0
    ensures r.Fail? ==> r.error.message == prefix + c.stderr
  {
    if c.returncode == 0 then Pass else Fail(RuntimeError(prefix + c.stderr))
  }

  /** `p` is `root` itself or lies below it. */
  predicate Within(p: string, root: string)
  {
    p == root || root + "/" <= p
  }

  /** The paths left after `shutil.rmtree(root)`. */
  function WithoutTree(paths: set<string>, root: string): (r: set<string>)
    ensures r <= paths
    ensures forall p :: p in r ==> !Within(p, root)
    ensures forall p :: p in paths && !Within(p, root) ==> p in r
  {
    set p | p in paths && !Within(p, root)
  }

  class Host {
    /** The paths that exist. */
    var paths: set<string>
    /** The removals and commands performed so far, oldest first. */
    var events: seq<Event>

    constructor(existing: set<string>)
      ensures paths == existing && events == []
    {
      paths := existing;
      events := [];
    }

    /** `shutil.rmtree(root)` on an existing path. */
    method RemoveTree(root: string)
      requires root in paths
      modifies this
      ensures paths == WithoutTree(old(paths), root)
      ensures events == old(events) + [Removed(root)]
    {
      paths := WithoutTree(paths, root);
      events := events + [Removed(root)];
    }

    /** `subprocess.run(command)`: the runner answers for the current paths. */
    method Run(command: Command, runner: Runner) returns (c: Completed)
      modifies this`events
      ensures c == runner(command, paths)
      ensures events == old(events) + [Ran(command, paths)]
    {
      c := runner(command, paths);
      events := events + [Ran(command, paths)];
    }

    /** `git_clone`: an existing target directory is removed first, then the
        clone runs on a host where the target does not exist. `paths` after
        the call is the state the clone started from: what git itself creates
        is not part of the model. */
    method GitClone(repoUrl: string, folderName: string, runner: Runner) returns (r: Outcome<RuntimeError>)
      modifies this
      ensures var target := ClonePath(folderName);
              paths == if target in old(paths) then WithoutTree(old(paths), target) else old(paths)
      ensures events == old(events)
                        + (if ClonePath(folderName) in old(paths) then [Removed(ClonePath(folderName))] else [])
                        + [Ran(CloneCommand(repoUrl, folderName), paths)]
      ensures events[|events| - 1].command == CloneCommand(repoUrl, folderName)
      ensures ClonePath(folderName) !in events[|events| - 1].seen
      ensures r == Checked(runner(CloneCommand(repoUrl, folderName), events[|events| - 1].seen), CloneFailurePrefix)
    {
      var target := ClonePath(folderName);
      if target in paths {
        RemoveTree(target);
      }
      var result := Run(CloneCommand(repoUrl, folderName), runner);
      r := Checked(result, CloneFailurePrefix);
    }

    /** `docker_compose`: build without cache, and bring the containers up
        only if the build exited with status 0. */
    method DockerCompose(folderName: string, runner: Runner) returns (r: Outcome<RuntimeError>)
      modifies this`events
      ensures var build := runner(BuildCommand(folderName), paths);
              events == old(events) + [Ran(BuildCommand(folderName), paths)]
                        + (if build.returncode == 0 then [Ran(UpCommand(folderName), paths)] else [])
      ensures var build := runner(BuildCommand(folderName), paths);
              var up := runner(UpCommand(folderName), paths);
              r == if build.returncode != 0 then Checked(build, ComposeFailurePrefix)
                   else Checked(up, ComposeFailurePrefix)
    {
      var build := Run(BuildCommand(folderName), runner);
      r := Checked(build, ComposeFailurePrefix);
      if r.Fail? {
        return;
      }
      var up := Run(UpCommand(folderName), runner);
      r := Checked(up, ComposeFailurePrefix);
    }

    /** `docker_prune`: one global prune command. */
    method DockerPrune(runner: Runner) returns (r: Outcome<RuntimeError>)
      modifies this`events
      ensures events == old(events) + [Ran(PruneCommand(), paths)]
      ensures r == Checked(runner(PruneCommand(), paths), PruneFailurePrefix)
    {
      var result := Run(PruneCommand(), runner);
      r := Checked(result, PruneFailurePrefix);
    }
  }
}
