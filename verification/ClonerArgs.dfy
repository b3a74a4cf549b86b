/** The arguments of the cloner container: printed for the job (src/resources/action.rs:418-451) and
    parsed by the cloner (src/bin/gitrepo-cloner.rs:12-49, 108-134). */
module ClonerArgs {
  import opened Wrappers

  datatype SourceKind = GitRepo | ClusterGitRepo {
    function Text(): string {
      if GitRepo? then "GitRepo" else "ClusterGitRepo"
    }
  }

  datatype Reference = Branch(name: string) | Tag(name: string) | Commit(name: string) {
    /** The type of the reference, after a prefix, and its name. */
    function ToRefName(prefix: string): (string, string) {
      match this
      case Branch(n) => (prefix + "branch", n)
      case Tag(n) => (prefix + "tag", n)
      case Commit(n) => (prefix + "commit", n)
    }
  }

  // ---------------------------------------------------------------------------
  // Printing
  // ---------------------------------------------------------------------------

  function Printed(kind: SourceKind, source: string, destination: string, reference: Reference,
                   preserve: bool, debug: bool): seq<string>
  {
    ["--kind", kind.Text(), "--source", source, "--destination", destination]
    + [reference.ToRefName("--").0, reference.ToRefName("--").1]
    + (if preserve then ["--preserve-git-folder"] else [])
    + (if debug then ["--debug"] else [])
  }

  method GetGitrepoClonerArgs(kind: SourceKind, source: string, reference: Reference, workdir: Option<string>,
                              defaultWorkdir: string, preserve: bool, debug: bool)
    returns (args: seq<string>)
    ensures args == Printed(kind, source, if workdir.Some? then workdir.value else defaultWorkdir, reference, preserve, debug)
  {
    args := ["--kind", kind.Text(), "--source", source, "--destination", workdir.GetOr(defaultWorkdir)];
    var (refType, refName) := reference.ToRefName("--");
    args := args + [refType];
    args := args + [refName];
    if preserve {
      args := args + ["--preserve-git-folder"];
    }
    if debug {
      args := args + ["--debug"];
    }
  }

  /** The printed arguments, spelled out. */
  lemma PrintedAs(kind: SourceKind, source: string, destination: string, reference: Reference, preserve: bool, debug: bool)
    ensures var args := Printed(kind, source, destination, reference, preserve, debug);
      && |args| >= 8
      && args[..6] == ["--kind", if kind == GitRepo then "GitRepo" else "ClusterGitRepo", "--source", source,
                       "--destination", destination]
      && args[6] == (match reference case Branch(_) => "--branch" case Tag(_) => "--tag" case Commit(_) => "--commit")
      && args[7] == reference.name
      && args[8..] == (if preserve then ["--preserve-git-folder"] else []) + (if debug then ["--debug"] else [])
  {
    assert "--" + "branch" == "--branch" && "--" + "tag" == "--tag" && "--" + "commit" == "--commit";
  }

  // ---------------------------------------------------------------------------
  // Parsing
  // ---------------------------------------------------------------------------

  datatype Opt = KindOpt | SourceOpt | DestinationOpt | BranchOpt | TagOpt | CommitOpt
  datatype Flag = PreserveFlag | DebugFlag

  datatype Error = UnknownArgument | MissingValue | Repeated | InvalidKind | MissingOption | NotOneReference
  datatype Result<+T> = Ok(value: T) | Err(error: Error)

  /** What has been given so far. */
  datatype Given = Given(options: map<Opt, string>, flags: set<Flag>)

  datatype ReferenceValue = ReferenceValue(branch: Option<string>, tag: Option<string>, commit: Option<string>)

  datatype Cli = Cli(kind: SourceKind, source: string, reference: ReferenceValue, destination: string,
                     preserve: bool, debug: bool)

  /** An argument that is taken for an option and not for a value. A single hyphen is a value. */
  predicate HyphenLike(arg: string) {
    |arg| >= 2 && arg[0] == '-'
  }

  function OptionOf(arg: string): Option<Opt> {
    if arg == "--kind" then Some(KindOpt)
    else if arg == "--source" then Some(SourceOpt)
    else if arg == "--destination" then Some(DestinationOpt)
    else if arg == "--branch" then Some(BranchOpt)
    else if arg == "--tag" then Some(TagOpt)
    else if arg == "--commit" then Some(CommitOpt)
    else None
  }

  function FlagOf(arg: string): Option<Flag> {
    if arg == "--preserve-git-folder" then Some(PreserveFlag)
    else if arg == "--debug" then Some(DebugFlag)
    else None
  }

  function Collect(args: seq<string>, given: Given): Result<Given> {
    if args == [] then Ok(given)
    else match (OptionOf(args[0]), FlagOf(args[0]))
      case (Some(opt), _) =>
        if |args| < 2 || HyphenLike(args[1]) then Err(MissingValue)
        else if opt in given.options then Err(Repeated)
        else Collect(args[2..], given.(options := given.options[opt := args[1]]))
      case (None, Some(flag)) =>
        if flag in given.flags then Err(Repeated)
        else Collect(args[1..], given.(flags := given.flags + {flag}))
      case (None, None) => Err(UnknownArgument)
  }

  function KindFrom(text: string): Result<SourceKind> {
    if text == "GitRepo" then Ok(GitRepo)
    else if text == "ClusterGitRepo" then Ok(ClusterGitRepo)
    else Err(InvalidKind)
  }

  /** The required options, and the group that must be given exactly once. */
  function Checked(given: Given): Result<Cli> {
    if !({KindOpt, SourceOpt, DestinationOpt} <= given.options.Keys) then Err(MissingOption)
    else
      var b, t, c := BranchOpt in given.options, TagOpt in given.options, CommitOpt in given.options;
      if !(b || t || c) || (b && t) || (b && c) || (t && c) then Err(NotOneReference)
      else
        match KindFrom(given.options[KindOpt])
        case Err(e) => Err(e)
        case Ok(kind) =>
          Ok(Cli(kind, given.options[SourceOpt],
                 ReferenceValue(Lookup(given.options, BranchOpt), Lookup(given.options, TagOpt),
                                Lookup(given.options, CommitOpt)),
                 given.options[DestinationOpt], PreserveFlag in given.flags, DebugFlag in given.flags))
  }

  function Parse(args: seq<string>): Result<Cli> {
    match Collect(args, Given(map[], {}))
    case Err(e) => Err(e)
    case Ok(given) => Checked(given)
  }

  /** The conversion to a reference; none stands for the panic. */
  function ReferenceFrom(v: ReferenceValue): Option<Reference> {
    if v.branch.Some? then Some(Branch(v.branch.value))
    else if v.tag.Some? then Some(Tag(v.tag.value))
    else if v.commit.Some? then Some(Commit(v.commit.value))
    else None
  }

  /** The conversion to a reference name; none stands for the panic. */
  function NameFrom(v: ReferenceValue): Option<string> {
    if v.branch.Some? then v.branch
    else if v.tag.Some? then v.tag
    else v.commit
  }

  // ---------------------------------------------------------------------------
  // Round trip
  // ---------------------------------------------------------------------------

  function OptFor(reference: Reference): Opt {
    match reference
    case Branch(_) => BranchOpt
    case Tag(_) => TagOpt
    case Commit(_) => CommitOpt
  }

  lemma CollectValue(name: string, value: string, rest: seq<string>, given: Given)
    requires OptionOf(name).Some? && OptionOf(name).value !in given.options
    ensures Collect([name, value] + rest, given)
         == if HyphenLike(value) then Err(MissingValue)
            else Collect(rest, given.(options := given.options[OptionOf(name).value := value]))
  {
  }

  lemma CollectFlag(name: string, rest: seq<string>, given: Given)
    requires OptionOf(name).None? && FlagOf(name).Some? && FlagOf(name).value !in given.flags
    ensures Collect([name] + rest, given) == Collect(rest, given.(flags := given.flags + {FlagOf(name).value}))
  {
  }

  function FlagsFor(preserve: bool, debug: bool): set<Flag> {
    (if preserve then {PreserveFlag} else {}) + (if debug then {DebugFlag} else {})
  }

  lemma CollectFlags(preserve: bool, debug: bool, given: Given)
    requires given.flags == {}
    ensures Collect((if preserve then ["--preserve-git-folder"] else []) + (if debug then ["--debug"] else []), given)
         == Ok(given.(flags := FlagsFor(preserve, debug)))
  {
    var first := if preserve then ["--preserve-git-folder"] else [];
    var second := if debug then ["--debug"] else [];
    var given' := if preserve then given.(flags := given.flags + {PreserveFlag}) else given;
    if preserve {
      CollectFlag("--preserve-git-folder", second, given);
    } else {
      assert first + second == second;
    }
    assert Collect(first + second, given) == Collect(second, given');
    if debug {
      CollectFlag("--debug", [], given');
      assert ["--debug"] + [] == second;
      assert given'.flags + {DebugFlag} == FlagsFor(preserve, debug);
    } else {
      assert given'.flags == FlagsFor(preserve, debug);
    }
  }

  lemma ReferenceOption(reference: Reference)
    ensures OptionOf(reference.ToRefName("--").0) == Some(OptFor(reference))
  {
    assert "--" + "branch" == "--branch" && "--" + "tag" == "--tag" && "--" + "commit" == "--commit";
  }

  function PrintedTail(destination: string, reference: Reference, preserve: bool, debug: bool): seq<string> {
    ["--destination", destination]
    + ([reference.ToRefName("--").0, reference.name]
       + ((if preserve then ["--preserve-git-folder"] else []) + (if debug then ["--debug"] else [])))
  }

  lemma PrintedInPieces(kind: SourceKind, source: string, destination: string, reference: Reference,
                        preserve: bool, debug: bool)
    ensures Printed(kind, source, destination, reference, preserve, debug)
         == ["--kind", kind.Text()] + (["--source", source] + PrintedTail(destination, reference, preserve, debug))
  {
  }

  function Values(kind: SourceKind, source: string, destination: string, reference: Reference): map<Opt, string> {
    map[KindOpt := kind.Text()][SourceOpt := source][DestinationOpt := destination][OptFor(reference) := reference.name]
  }

  /** The values collected from printed arguments. */
  lemma CollectPrinted(kind: SourceKind, source: string, destination: string, reference: Reference,
                       preserve: bool, debug: bool)
    ensures Collect(Printed(kind, source, destination, reference, preserve, debug), Given(map[], {}))
         == if HyphenLike(source) || HyphenLike(destination) || HyphenLike(reference.name) then Err(MissingValue)
            else Ok(Given(Values(kind, source, destination, reference), FlagsFor(preserve, debug)))
  {
    var tail := PrintedTail(destination, reference, preserve, debug);
    PrintedInPieces(kind, source, destination, reference, preserve, debug);
    var given0 := Given(map[], {});
    var given1 := Given(map[KindOpt := kind.Text()], {});
    CollectValue("--kind", kind.Text(), ["--source", source] + tail, given0);
    assert given0.options[KindOpt := kind.Text()] == given1.options;
    CollectValue("--source", source, tail, given1);
    CollectTail(destination, reference, preserve, debug, Given(given1.options[SourceOpt := source], {}));
  }

  lemma CollectTail(destination: string, reference: Reference, preserve: bool, debug: bool, given: Given)
    requires given.flags == {} && DestinationOpt !in given.options && OptFor(reference) !in given.options
    ensures Collect(PrintedTail(destination, reference, preserve, debug), given)
        == if HyphenLike(destination) || HyphenLike(reference.name) then Err(MissingValue)
           else Ok(Given(given.options[DestinationOpt := destination][OptFor(reference) := reference.name],
                         FlagsFor(preserve, debug)))
  {
    var flags := (if preserve then ["--preserve-git-folder"] else []) + (if debug then ["--debug"] else []);
    var (refType, refName) := reference.ToRefName("--");
    ReferenceOption(reference);
    var given1 := given.(options := given.options[DestinationOpt := destination]);
    CollectValue("--destination", destination, [refType, refName] + flags, given);
    CollectValue(refType, refName, flags, given1);
    CollectFlags(preserve, debug, given1.(options := given1.options[OptFor(reference) := refName]));
  }

  /** Parsing what was printed succeeds exactly when no value looks like an option, and then gives
      back the kind, the names, the reference and the flags. */
  lemma RoundTrip(kind: SourceKind, source: string, destination: string, reference: Reference,
                  preserve: bool, debug: bool)
    ensures var parsed := Parse(Printed(kind, source, destination, reference, preserve, debug));
      && (parsed.Ok? <==> (|source| < 2 || source[0] != '-') && (|destination| < 2 || destination[0] != '-')
                          && (|reference.name| < 2 || reference.name[0] != '-'))
      && (parsed.Ok? ==>
            var cli := parsed.value;
            && cli == Cli(kind, source, cli.reference, destination, preserve, debug)
            && ReferenceFrom(cli.reference) == Some(reference)
            && NameFrom(cli.reference) == Some(reference.name))
  {
    CollectPrinted(kind, source, destination, reference, preserve, debug);
  }

  // ---------------------------------------------------------------------------
  // Any arguments
  // ---------------------------------------------------------------------------

  /** The option `name` is given somewhere, with this value behind it. */
  ghost predicate GivenAs(args: seq<string>, name: string, value: string) {
    exists i :: 0 <= i < |args| - 1 && args[i] == name && args[i + 1] == value
  }

  function NameOf(opt: Opt): string {
    match opt
    case KindOpt => "--kind"
    case SourceOpt => "--source"
    case DestinationOpt => "--destination"
    case BranchOpt => "--branch"
    case TagOpt => "--tag"
    case CommitOpt => "--commit"
  }

  lemma GivenLater(args: seq<string>, more: seq<string>, name: string, value: string)
    requires GivenAs(args, name, value)
    ensures GivenAs(more + args, name, value)
  {
    var i :| 0 <= i < |args| - 1 && args[i] == name && args[i + 1] == value;
    var longer := more + args;
    assert longer[|more| + i] == name && longer[|more| + i + 1] == value;
  }

  /** Every argument is accounted for by an option with its value, or by a flag, and none by two. */
  lemma {:induction false} CollectCount(args: seq<string>, given: Given)
    requires Collect(args, given).Ok?
    ensures var all := Collect(args, given).value;
      |args| == 2 * (|all.options| - |given.options|) + (|all.flags| - |given.flags|)
    decreases |args|
  {
    if args != [] {
      if OptionOf(args[0]).Some? {
        var opt := OptionOf(args[0]).value;
        CollectCount(args[2..], given.(options := given.options[opt := args[1]]));
        assert given.options[opt := args[1]].Keys == given.options.Keys + {opt};
        assert |given.options.Keys| == |given.options| && |given.options[opt := args[1]].Keys| == |given.options[opt := args[1]]|;
      } else {
        CollectCount(args[1..], given.(flags := given.flags + {FlagOf(args[0]).value}));
      }
    }
  }

  /** A collected option was given before, or is given by the arguments. */
  lemma {:induction false} CollectSound(args: seq<string>, given: Given, opt: Opt)
    requires Collect(args, given).Ok? && opt in Collect(args, given).value.options
    ensures opt in given.options ==> Collect(args, given).value.options[opt] == given.options[opt]
    ensures opt !in given.options ==> GivenAs(args, NameOf(opt), Collect(args, given).value.options[opt])
    decreases |args|
  {
    if args != [] {
      if OptionOf(args[0]).Some? {
        var first := OptionOf(args[0]).value;
        CollectSound(args[2..], given.(options := given.options[first := args[1]]), opt);
        assert args == args[..2] + args[2..];
        if opt == first {
          assert args[0] == NameOf(opt);
        } else if opt !in given.options {
          GivenLater(args[2..], args[..2], NameOf(opt), Collect(args, given).value.options[opt]);
        }
      } else {
        CollectSound(args[1..], given.(flags := given.flags + {FlagOf(args[0]).value}), opt);
        assert args == args[..1] + args[1..];
        if opt !in given.options {
          GivenLater(args[1..], args[..1], NameOf(opt), Collect(args, given).value.options[opt]);
        }
      }
    }
  }

  lemma {:induction false} CollectFlagSound(args: seq<string>, given: Given, flag: Flag)
    requires Collect(args, given).Ok? && flag in Collect(args, given).value.flags
    ensures flag in given.flags || (if flag == PreserveFlag then "--preserve-git-folder" else "--debug") in args
    decreases |args|
  {
    if args != [] {
      if OptionOf(args[0]).Some? {
        CollectFlagSound(args[2..], given.(options := given.options[OptionOf(args[0]).value := args[1]]), flag);
      } else {
        CollectFlagSound(args[1..], given.(flags := given.flags + {FlagOf(args[0]).value}), flag);
      }
    }
  }

  /** Whatever the arguments are, a parsed command line has exactly one reference, so its conversions do not
      panic, and agree; and it says what was given, without anything left over. */
  lemma ConversionsNeverPanic(args: seq<string>)
    requires Parse(args).Ok?
    ensures var cli := Parse(args).value;
      && ReferenceFrom(cli.reference).Some?
      && NameFrom(cli.reference) == Some(ReferenceFrom(cli.reference).value.name)
      && cli.reference == (match ReferenceFrom(cli.reference).value
                           case Branch(name) => ReferenceValue(Some(name), None, None)
                           case Tag(name) => ReferenceValue(None, Some(name), None)
                           case Commit(name) => ReferenceValue(None, None, Some(name)))
  {
  }

  /** A parsed command line says what was given, */
  lemma ParsedIsGiven(args: seq<string>)
    requires Parse(args).Ok?
    ensures var cli := Parse(args).value;
      && GivenAs(args, "--kind", if cli.kind == GitRepo then "GitRepo" else "ClusterGitRepo")
      && GivenAs(args, "--source", cli.source) && GivenAs(args, "--destination", cli.destination)
    ensures var reference := Parse(args).value.reference;
      && (reference.branch.Some? ==> GivenAs(args, "--branch", reference.branch.value))
      && (reference.tag.Some? ==> GivenAs(args, "--tag", reference.tag.value))
      && (reference.commit.Some? ==> GivenAs(args, "--commit", reference.commit.value))
  {
    OptionIsGiven(args, KindOpt);
    OptionIsGiven(args, SourceOpt);
    OptionIsGiven(args, DestinationOpt);
    OptionIsGiven(args, BranchOpt);
    OptionIsGiven(args, TagOpt);
    OptionIsGiven(args, CommitOpt);
  }

  /** The value of an option in a parsed command line. */
  function ValueOf(cli: Cli, opt: Opt): Option<string> {
    match opt
    case KindOpt => Some(cli.kind.Text())
    case SourceOpt => Some(cli.source)
    case DestinationOpt => Some(cli.destination)
    case BranchOpt => cli.reference.branch
    case TagOpt => cli.reference.tag
    case CommitOpt => cli.reference.commit
  }

  lemma CheckedValues(given: Given, opt: Opt)
    requires Checked(given).Ok?
    ensures ValueOf(Checked(given).value, opt) == Lookup(given.options, opt)
  {
  }

  lemma OptionIsGiven(args: seq<string>, opt: Opt)
    requires Parse(args).Ok?
    ensures var value := ValueOf(Parse(args).value, opt); value.Some? ==> GivenAs(args, NameOf(opt), value.value)
  {
    var all := Collect(args, Given(map[], {})).value;
    CheckedValues(all, opt);
    if opt in all.options {
      CollectSound(args, Given(map[], {}), opt);
    }
  }

  /** and nothing is left over. */
  lemma ParsedIsAll(args: seq<string>)
    requires Parse(args).Ok?
    ensures var cli := Parse(args).value;
      && (cli.preserve ==> "--preserve-git-folder" in args) && (cli.debug ==> "--debug" in args)
      && |args| == 8 + (if cli.preserve then 1 else 0) + (if cli.debug then 1 else 0)
  {
    var none := Given(map[], {});
    var all := Collect(args, none).value;
    if PreserveFlag in all.flags {
      CollectFlagSound(args, none, PreserveFlag);
    }
    if DebugFlag in all.flags {
      CollectFlagSound(args, none, DebugFlag);
    }
    CollectCount(args, none);
    GivenCount(all);
  }

  /** Three required options, one reference, and the flags. */
  lemma GivenCount(given: Given)
    requires Checked(given).Ok?
    ensures |given.options| == 4
    ensures |given.flags| == (if PreserveFlag in given.flags then 1 else 0) + (if DebugFlag in given.flags then 1 else 0)
  {
    var reference := if BranchOpt in given.options then BranchOpt else if TagOpt in given.options then TagOpt else CommitOpt;
    var opts := {KindOpt, SourceOpt, DestinationOpt, reference};
    forall opt: Opt ensures opt in given.options <==> opt in opts {
      match opt
      case KindOpt => assert opt in {KindOpt, SourceOpt, DestinationOpt};
      case SourceOpt => assert opt in {KindOpt, SourceOpt, DestinationOpt};
      case DestinationOpt => assert opt in {KindOpt, SourceOpt, DestinationOpt};
      case _ =>
    }
    assert given.options.Keys == opts;
    assert |given.options| == |given.options.Keys|;
    FlagCount(given.flags);
  }

  lemma FlagCount(flags: set<Flag>)
    ensures |flags| == (if PreserveFlag in flags then 1 else 0) + (if DebugFlag in flags then 1 else 0)
  {
    var listed := (if PreserveFlag in flags then {PreserveFlag} else {}) + (if DebugFlag in flags then {DebugFlag} else {});
    forall flag: Flag ensures flag in flags <==> flag in listed {
      match flag
      case PreserveFlag =>
      case DebugFlag =>
    }
    assert flags == listed;
  }
}
