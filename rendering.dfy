/**
 * How one runner is turned into a process invocation and into the command
 * line echoed before it runs: the file that is spawned (`_getSpawnFileName`),
 * its argument array (`_getSpawnArgs`), the options of a synchronous spawn
 * (`_getSpawnSyncOptions`) and the text of one stage of `_getCommandString`.
 *
 * `process.platform` and `process.env['COMSPEC']` are read through `Host`.
 */
module Rendering {
  import opened Wrappers
  import opened Strings
  import opened Quoting
  import ArgTokenizer

  /** The ambient process state the rendering consults. */
  datatype Host = Host(isWin32: bool, comspec: Option<string>)

  /** The execution options (`IExecOptions`); streams are not modelled. */
  datatype ExecOptions = ExecOptions(
    cwd: Option<string>,
    env: Option<map<string, string>>,
    silent: bool,
    failOnStdErr: bool,
    ignoreReturnCode: bool,
    windowsVerbatimArguments: bool)

  /** The part of `child.SpawnSyncOptions` that `_getSpawnSyncOptions` fills in. */
  datatype SpawnSyncOptions = SpawnSyncOptions(
    cwd: Option<string>,
    env: Option<map<string, string>>,
    windowsVerbatimArguments: bool)

  /** A `.cmd` or `.bat` tool on Windows runs through the command interpreter. */
  predicate ViaCmd(host: Host, toolPath: string)
  {
    host.isWin32 && IsCmdFile(toolPath)
  }

  /** `process.env['COMSPEC'] || 'cmd.exe'`: an unset or empty `COMSPEC` falls back to `cmd.exe`. */
  function Interpreter(host: Host): string
  {
    if host.comspec.Some? && host.comspec.value != [] then host.comspec.value else "cmd.exe"
  }

  /** `_getSpawnFileName`: the interpreter for a script on Windows, the tool itself otherwise. */
  function SpawnFileName(host: Host, toolPath: string): (r: string)
    ensures ViaCmd(host, toolPath) ==> r == Interpreter(host)
    ensures !ViaCmd(host, toolPath) ==> r == toolPath
    ensures toolPath != [] ==> r != []
  {
    if host.isWin32 && IsCmdFile(toolPath) then Interpreter(host) else toolPath
  }

  /** An argument of a script's line: as given under verbatim arguments, quoted for cmd.exe otherwise. */
  function Piece(toolPath: string, a: string, verbatim: bool): string
  {
    if verbatim then a else WindowsQuote(toolPath, a)
  }

  /** The arguments rendered one by one, in order. */
  function Pieces(toolPath: string, xs: seq<string>, verbatim: bool): (r: seq<string>)
    ensures |r| == |xs|
    ensures forall k :: 0 <= k < |xs| ==> r[k] == Piece(toolPath, xs[k], verbatim)
    decreases |xs|
  {
    if xs == [] then [] else Pieces(toolPath, xs[..|xs| - 1], verbatim) + [Piece(toolPath, xs[|xs| - 1], verbatim)]
  }

  /** Each of `xs` preceded by one space, concatenated: what the `forEach` loops append to `cmd`. */
  function Spaced(xs: seq<string>): string
    decreases |xs|
  {
    if xs == [] then "" else Spaced(xs[..|xs| - 1]) + (" " + xs[|xs| - 1])
  }

  /** The single argument handed to cmd.exe for a script: `/D /S /C "<tool> <args>"`. */
  function CmdLine(toolPath: string, args: seq<string>, verbatim: bool): string
  {
    "/D /S /C \"" + WindowsQuote(toolPath, toolPath) + Spaced(Pieces(toolPath, args, verbatim)) + "\""
  }

  /**
   * The contents of the array `_getSpawnArgs` returns. In the verbatim case on
   * Windows for a tool that is not a script, the source returns a copy of the
   * arguments whose `slice` and `unshift` are replaced to steer Node; its
   * contents are the arguments.
   */
  function SpawnArgs(host: Host, toolPath: string, args: seq<string>, options: ExecOptions): seq<string>
  {
    if ViaCmd(host, toolPath) then [CmdLine(toolPath, args, options.windowsVerbatimArguments)] else args
  }

  /** One stage of `_getCommandString`, without the prefix and the pipe. */
  function StageString(host: Host, toolPath: string, args: seq<string>, options: ExecOptions): string
  {
    var spawnArgs := SpawnArgs(host, toolPath, args, options);
    if host.isWin32 then
      if IsCmdFile(toolPath) then SpawnFileName(host, toolPath) + Spaced(spawnArgs)
      else if options.windowsVerbatimArguments then "\"" + toolPath + "\"" + Spaced(spawnArgs)
      else WindowsQuote(toolPath, toolPath) + Spaced(Pieces(toolPath, spawnArgs, false))
    else SpawnFileName(host, toolPath) + Spaced(spawnArgs)
  }

  /** The prefix `_getCommandString` starts with. */
  function Prefix(noPrefix: bool): string
  {
    if noPrefix then "" else "[command]"
  }

  /** `_getSpawnSyncOptions`. */
  function SyncOptions(options: ExecOptions, toolPath: string): (r: SpawnSyncOptions)
    ensures r.cwd == options.cwd && r.env == options.env
    ensures r.windowsVerbatimArguments <==> options.windowsVerbatimArguments || IsCmdFile(toolPath)
  {
    SpawnSyncOptions(options.cwd, options.env, options.windowsVerbatimArguments || IsCmdFile(toolPath))
  }

  // ---------------------------------------------------------------------
  // The loops

  /** `cmd += ` ${a}`` (or `argline += ' '; argline += a`) for each argument, rendered. */
  method AppendEach(cmd: string, toolPath: string, xs: seq<string>, verbatim: bool) returns (r: string)
    ensures r == cmd + Spaced(Pieces(toolPath, xs, verbatim))
  {
    r := cmd;
    var i := 0;
    while i < |xs|
      invariant 0 <= i <= |xs|
      invariant r == cmd + Spaced(Pieces(toolPath, xs[..i], verbatim))
    {
      var piece := xs[i];
      if !verbatim {
        piece := WindowsQuoteCmdArg(toolPath, xs[i]);
      }
      AppendEachStep(cmd, toolPath, xs, i, verbatim, piece);
      r := r + (" " + piece);
      i := i + 1;
    }
    assert xs[..i] == xs;
  }

  /** `_getSpawnArgs`. */
  method GetSpawnArgs(host: Host, toolPath: string, args: seq<string>, options: ExecOptions) returns (r: seq<string>)
    ensures r == SpawnArgs(host, toolPath, args, options)
  {
    if host.isWin32 && IsCmdFile(toolPath) {
      var quotedTool := WindowsQuoteCmdArg(toolPath, toolPath);
      var argline := AppendEach("/D /S /C \"" + quotedTool, toolPath, args, options.windowsVerbatimArguments);
      argline := argline + "\"";
      return [argline];
    }
    return args;
  }

  /** One stage of `_getCommandString`: the prefix unless `noPrefix`, the tool, then the arguments. */
  method GetStageString(host: Host, toolPath: string, args: seq<string>, options: ExecOptions, noPrefix: bool)
    returns (cmd: string)
    ensures cmd == Prefix(noPrefix) + StageString(host, toolPath, args, options)
  {
    var spawnFile := SpawnFileName(host, toolPath);
    var spawnArgs := GetSpawnArgs(host, toolPath, args, options);
    cmd := if noPrefix then "" else "[command]";
    if host.isWin32 {
      if IsCmdFile(toolPath) {
        PiecesVerbatim(toolPath, spawnArgs);
        cmd := AppendEach(cmd + spawnFile, toolPath, spawnArgs, true);
        AppendAssoc(Prefix(noPrefix), spawnFile, Spaced(spawnArgs));
      } else if options.windowsVerbatimArguments {
        PiecesVerbatim(toolPath, spawnArgs);
        cmd := AppendEach(cmd + ("\"" + spawnFile + "\""), toolPath, spawnArgs, true);
        AppendAssoc(Prefix(noPrefix), "\"" + toolPath + "\"", Spaced(spawnArgs));
      } else {
        var quotedTool := WindowsQuoteCmdArg(toolPath, spawnFile);
        cmd := AppendEach(cmd + quotedTool, toolPath, spawnArgs, false);
        AppendAssoc(Prefix(noPrefix), quotedTool, Spaced(Pieces(toolPath, spawnArgs, false)));
      }
    } else {
      PiecesVerbatim(toolPath, spawnArgs);
      cmd := AppendEach(cmd + spawnFile, toolPath, spawnArgs, true);
      AppendAssoc(Prefix(noPrefix), spawnFile, Spaced(spawnArgs));
    }
  }

  // ---------------------------------------------------------------------
  // Helpers for the loops

  lemma PiecesSnoc(toolPath: string, xs: seq<string>, i: nat, verbatim: bool)
    requires i < |xs|
    ensures Pieces(toolPath, xs[..i + 1], verbatim)
         == Pieces(toolPath, xs[..i], verbatim) + [Piece(toolPath, xs[i], verbatim)]
  {
    assert xs[..i + 1][..i] == xs[..i];
  }

  lemma AppendEachStep(cmd: string, toolPath: string, xs: seq<string>, i: nat, verbatim: bool, piece: string)
    requires i < |xs| && piece == Piece(toolPath, xs[i], verbatim)
    ensures cmd + Spaced(Pieces(toolPath, xs[..i], verbatim)) + (" " + piece)
         == cmd + Spaced(Pieces(toolPath, xs[..i + 1], verbatim))
  {
    PiecesSnoc(toolPath, xs, i, verbatim);
    SpacedSnoc(Pieces(toolPath, xs[..i], verbatim), piece);
    AppendAssoc(cmd, Spaced(Pieces(toolPath, xs[..i], verbatim)), " " + piece);
  }

  lemma SpacedSnoc(xs: seq<string>, x: string)
    ensures Spaced(xs + [x]) == Spaced(xs) + (" " + x)
  {
    assert (xs + [x])[..|xs|] == xs;
  }

  /** Under verbatim arguments the pieces are the arguments themselves. */
  lemma PiecesVerbatim(toolPath: string, xs: seq<string>)
    ensures Pieces(toolPath, xs, true) == xs
  {
    var r := Pieces(toolPath, xs, true);
    assert |r| == |xs| && forall k :: 0 <= k < |xs| ==> r[k] == xs[k];
  }

  // ---------------------------------------------------------------------
  // What the rendered text is

  /** A head followed by space-prefixed pieces is the space-join of the head and the pieces. */
  lemma {:induction false} SpacedJoin(h: string, xs: seq<string>)
    ensures h + Spaced(xs) == Join([h] + xs, " ")
    decreases |xs|
  {
    if xs == [] {
      assert [h] + xs == [h];
    } else {
      var n := |xs| - 1;
      var init, x := xs[..n], xs[n];
      SpacedJoin(h, init);
      ButLastSnoc(xs);
      AppendAssoc([h], init, [x]);
      JoinSnoc([h] + init, x, " ");
      calc {
        h + Spaced(xs);
        h + (Spaced(init) + (" " + x));
        { AppendAssoc(h, Spaced(init), " " + x); }
        (h + Spaced(init)) + (" " + x);
        { AppendAssoc(h + Spaced(init), " ", x); }
        Join([h] + init, " ") + " " + x;
        Join([h] + xs, " ");
      }
    }
  }

  /**
   * The argument given to cmd.exe for a script is the tool and its arguments,
   * each rendered, joined by single spaces and wrapped in one pair of double
   * quotes after `/D /S /C`; unless verbatim, each rendered piece reads back
   * as the argument it renders under the C runtime's rules.
   */
  lemma CmdLineJoin(host: Host, toolPath: string, args: seq<string>, options: ExecOptions)
    requires ViaCmd(host, toolPath)
    ensures SpawnFileName(host, toolPath) == Interpreter(host)
    ensures SpawnArgs(host, toolPath, args, options)
         == ["/D /S /C \"" + Join([WindowsQuote(toolPath, toolPath)] + Pieces(toolPath, args, options.windowsVerbatimArguments), " ") + "\""]
    ensures ParseArg(WindowsQuote(toolPath, toolPath)) == Some(toolPath)
    ensures !options.windowsVerbatimArguments ==>
              forall k :: 0 <= k < |args| ==> ParseArg(Pieces(toolPath, args, false)[k]) == Some(args[k])
  {
    var pieces := Pieces(toolPath, args, options.windowsVerbatimArguments);
    SpacedJoin(WindowsQuote(toolPath, toolPath), pieces);
    AppendAssoc("/D /S /C \"", WindowsQuote(toolPath, toolPath), Spaced(pieces));
    WindowsQuoteRoundTrip(toolPath, toolPath);
    forall k | 0 <= k < |args|
      ensures ParseArg(WindowsQuote(toolPath, args[k])) == Some(args[k])
    {
      WindowsQuoteRoundTrip(toolPath, args[k]);
    }
  }

  /** Off Windows, or for a tool that is not a script, the arguments are passed as they are. */
  lemma SpawnArgsDirect(host: Host, toolPath: string, args: seq<string>, options: ExecOptions)
    requires !ViaCmd(host, toolPath)
    ensures SpawnFileName(host, toolPath) == toolPath
    ensures SpawnArgs(host, toolPath, args, options) == args
  {
  }

  /**
   * Every stage is the rendered tool followed by its rendered arguments, in
   * order, joined by single spaces.
   */
  lemma StageStringJoin(host: Host, toolPath: string, args: seq<string>, options: ExecOptions)
    ensures !host.isWin32 ==> StageString(host, toolPath, args, options) == Join([toolPath] + args, " ")
    ensures ViaCmd(host, toolPath) ==>
              StageString(host, toolPath, args, options)
              == Interpreter(host) + " " + CmdLine(toolPath, args, options.windowsVerbatimArguments)
    ensures host.isWin32 && !IsCmdFile(toolPath) && options.windowsVerbatimArguments ==>
              StageString(host, toolPath, args, options) == Join(["\"" + toolPath + "\""] + args, " ")
    ensures host.isWin32 && !IsCmdFile(toolPath) && !options.windowsVerbatimArguments ==>
              StageString(host, toolPath, args, options)
              == Join([UvQuote(toolPath)] + Pieces(toolPath, args, false), " ")
  {
    var spawnArgs := SpawnArgs(host, toolPath, args, options);
    if !host.isWin32 {
      SpacedJoin(toolPath, args);
    } else if IsCmdFile(toolPath) {
      var line := CmdLine(toolPath, args, options.windowsVerbatimArguments);
      assert spawnArgs == [line];
      assert spawnArgs[..0] == [];
      assert Spaced(spawnArgs) == " " + line;
      AppendAssoc(Interpreter(host), " ", line);
    } else if options.windowsVerbatimArguments {
      SpacedJoin("\"" + toolPath + "\"", args);
    } else {
      SpacedJoin(UvQuote(toolPath), Pieces(toolPath, args, false));
    }
  }

  /**
   * Off Windows, a command whose tool and arguments are simple tokens is
   * split back into exactly those words by the runner's own line tokenizer.
   */
  lemma UnixCommandTokenizes(host: Host, toolPath: string, args: seq<string>, options: ExecOptions)
    requires !host.isWin32
    requires ArgTokenizer.SimpleToken(toolPath)
    requires forall k :: 0 <= k < |args| ==> ArgTokenizer.SimpleToken(args[k])
    ensures ArgTokenizer.Tokenize(StageString(host, toolPath, args, options)) == [toolPath] + args
  {
    StageStringJoin(host, toolPath, args, options);
    var words := [toolPath] + args;
    forall k | 0 <= k < |words|
      ensures ArgTokenizer.SimpleToken(words[k])
    {
      if k > 0 {
        assert words[k] == args[k - 1];
      }
    }
    ArgTokenizer.JoinRoundTrip(words);
  }
}
