/**
  Command dispatch of the job's entry point: which command word is accepted,
  and which kind of engine each accepted command is set up with. Reading the
  tunnel vertex file between the help check and `show`, and the engine setup
  itself, are I/O and are not modelled.
 */
module Commands {
  import opened Types

  datatype Command = Usage | Show | Run | Isect | Project | UvProj | UvRender | Atlas2Prim

  /** The command word of each command that runs a job step. */
  function CommandWord(c: Command): string
  {
    match c
    case Usage => "help"
    case Show => "show"
    case Run => "run"
    case Isect => "isect"
    case Project => "project"
    case UvProj => "uvproj"
    case UvRender => "uvrender"
    case Atlas2Prim => "atlas2prim"
  }

  /** Words the command assert accepts. */
  const JobWords: set<string> := {"run", "isect", "project", "uvproj", "uvrender", "atlas2prim"}

  /** Words that print the usage text. */
  const HelpWords: set<string> := {"-h", "--help", "help"}

  /**
    Dispatch on the arguments after the program name: no argument or a help
    word prints usage, `show` reports the vertex count, a job word selects
    its command, and any other word fails the command assert.
   */
  function Dispatch(args: seq<string>): (r: Result<Command>)
    ensures |args| == 0 ==> r == Ok(Usage)
    ensures r.Err? <==> |args| > 0 && args[0] !in HelpWords && args[0] != "show" && args[0] !in JobWords
    ensures r.Err? ==> r.error == UnknownCommand(args[0])
    ensures r.Ok? && r.value != Usage ==> |args| > 0 && CommandWord(r.value) == args[0]
  {
    if |args| == 0 then Ok(Usage)
    else
      var cmd := args[0];
      if cmd in HelpWords then Ok(Usage)
      else if cmd == "show" then Ok(Show)
      else if cmd == "run" then Ok(Run)
      else if cmd == "isect" then Ok(Isect)
      else if cmd == "project" then Ok(Project)
      else if cmd == "uvproj" then Ok(UvProj)
      else if cmd == "uvrender" then Ok(UvRender)
      else if cmd == "atlas2prim" then Ok(Atlas2Prim)
      else Err(UnknownCommand(cmd))
  }

  /** Every command but Usage is selected by its own word alone. */
  lemma DispatchWord(c: Command)
    requires c != Usage
    ensures Dispatch([CommandWord(c)]) == Ok(c)
  {
  }

  /** t occurs in s as a contiguous substring (Python's `t in s` on strings). */
  predicate HasInfix(s: string, t: string)
    decreases |s|
  {
    |t| <= |s| && (s[..|t|] == t || HasInfix(s[1..], t))
  }

  /** How the engine is set up for a command word. */
  datatype World = World(renderer: bool, uvModels: bool)

  /**
    _create_uw: a renderer for words containing "render" and for atlas2prim
    (a plain unit world otherwise), loaded with the UV-mapped models for the
    words that work on UV geometry (the textured models otherwise).
   */
  function CreateWorld(cmd: string): World
  {
    World(HasInfix(cmd, "render") || cmd == "atlas2prim",
          cmd in {"project", "uvproj", "uvrender", "atlas2prim", "sample"})
  }

  /**
    Of the job commands, only uvrender and atlas2prim get a renderer, and
    all but run and isect get the UV-mapped models.
   */
  lemma CommandWorld(c: Command)
    requires c !in {Usage, Show}
    ensures CreateWorld(CommandWord(c)).renderer <==> c == UvRender || c == Atlas2Prim
    ensures CreateWorld(CommandWord(c)).uvModels <==> c !in {Run, Isect}
  {
    match c
    case Run =>
      assert !HasInfix("run", "render");
    case Isect =>
      assert !HasInfix("sect", "render");
      assert !HasInfix("isect", "render");
    case Project =>
      assert !HasInfix("ject", "render");
      assert !HasInfix("oject", "render");
      assert "roject"[1] != "render"[1];
      assert !HasInfix("roject", "render");
      assert !HasInfix("project", "render");
    case UvProj =>
      assert !HasInfix("vproj", "render");
      assert "uvproj"[0] != "render"[0];
      assert !HasInfix("uvproj", "render");
    case UvRender =>
      assert "render" == "uvrender"[2..][..6];
      assert HasInfix("render", "render");
      assert HasInfix("vrender", "render");
    case Atlas2Prim =>
  }

  /**
    "sample" is set up with the UV models, but no argument list starting with
    it gets past dispatch.
   */
  lemma SampleRejected(rest: seq<string>)
    ensures CreateWorld("sample").uvModels
    ensures Dispatch(["sample"] + rest) == Err(UnknownCommand("sample"))
  {
    assert (["sample"] + rest)[0] == "sample";
  }
}
