/** The defaulting preamble of `docker run`, between flag parsing and the
    creation of the container. */
module RunDefaults {

  /** The flag values of `docker run` that reach the container's creation. */
  datatype RunFlags = RunFlags(user: string, attach: bool, stdin: bool, tty: bool, memory: int, ports: seq<int>)

  /** What `docker run` asks the runtime to create: the image, the command's
      path and arguments, and the flags after defaulting. */
  datatype RunPlan = RunPlan(image: string, path: string, args: seq<string>, flags: RunFlags)

  const DefaultImage := "base"
  const DefaultPath := "/bin/bash"
  const DefaultArgs := ["-i"]

  /** `cmd.Arg(i)`: the i-th positional argument, or "" past the end. */
  function Arg(positional: seq<string>, i: nat): string
  {
    if i < |positional| then positional[i] else ""
  }

  /** The first positional argument names the image, the rest is the
      command. An empty image name becomes `base`; an empty command becomes
      an interactive bash with stdin, tty and attach switched on. */
  function PlanRun(positional: seq<string>, flags: RunFlags): (p: RunPlan)
    ensures p.image != ""
    ensures Arg(positional, 0) == "" ==> p.image == DefaultImage
    ensures Arg(positional, 0) != "" ==> p.image == positional[0]
    ensures |positional| >= 2 ==> [p.path] + p.args == positional[1..] && p.flags == flags
    ensures |positional| < 2 ==>
      && p.path == DefaultPath && p.args == DefaultArgs
      && p.flags == flags.(stdin := true, tty := true, attach := true)
  {
    var name := if Arg(positional, 0) == "" then DefaultImage else positional[0];
    var cmdline := if |positional| >= 2 then positional[1..] else [];
    if |cmdline| == 0 then
      RunPlan(name, DefaultPath, DefaultArgs, flags.(stdin := true, tty := true, attach := true))
    else
      RunPlan(name, cmdline[0], cmdline[1..], flags)
  }

  /** The defaults are a fixed point: running again with the planned image,
      command and flags plans the same container. */
  lemma PlanRunIdempotent(positional: seq<string>, flags: RunFlags)
    ensures var p := PlanRun(positional, flags);
      PlanRun([p.image, p.path] + p.args, p.flags) == p
  {
    var p := PlanRun(positional, flags);
    var again := [p.image, p.path] + p.args;
    assert again[1..] == [p.path] + p.args;
  }
}
