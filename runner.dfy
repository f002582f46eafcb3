/**
 * The `ToolRunner` builder: a tool path fixed at construction, an argument
 * list that `arg`, `line` and `argIf` extend in place, and an optional
 * successor that `pipeExecOutputToTool` records; `_getCommandString` renders
 * the whole pipeline.
 */
module Runner {
  import opened Wrappers
  import opened Strings
  import opened Rendering
  import ArgTokenizer

  /** The value given to `arg`: absent (`null`/`undefined`), a string, or an array of strings. */
  datatype ArgValue = Absent | Str(s: string) | Arr(xs: seq<string>)

  /**
   * What `arg(val)` appends: nothing for a falsy value (absent or the empty
   * string), the trimmed string for a string, the elements for an array.
   */
  function ArgAdded(val: ArgValue): seq<string>
  {
    match val
    case Absent => []
    case Str(s) => if s == [] then [] else [Trim(s)]
    case Arr(xs) => xs
  }

  /** What `line(val)` appends: nothing for the empty string, the tokens otherwise. */
  function LineAdded(val: string): seq<string>
  {
    if val == [] then [] else ArgTokenizer.Tokenize(val)
  }

  /** One runner of a pipeline, as `_getCommandString` reads it. */
  datatype Stage = Stage(toolPath: string, args: seq<string>)

  /** The rendered stages, in pipeline order. */
  function StageStrings(host: Host, stages: seq<Stage>, options: ExecOptions): (r: seq<string>)
    ensures |r| == |stages|
    ensures forall k :: 0 <= k < |stages| ==> r[k] == StageString(host, stages[k].toolPath, stages[k].args, options)
  {
    if stages == [] then []
    else [StageString(host, stages[0].toolPath, stages[0].args, options)] + StageStrings(host, stages[1..], options)
  }

  /**
   * `_getCommandString(options, noPrefix)` for a pipeline: the first stage
   * with the prefix unless `noPrefix`, then ` | ` and the rest rendered
   * without it.
   */
  function ChainString(host: Host, stages: seq<Stage>, options: ExecOptions, noPrefix: bool): string
    requires stages != []
  {
    Prefix(noPrefix) + StageString(host, stages[0].toolPath, stages[0].args, options)
    + (if |stages| == 1 then "" else " | " + ChainString(host, stages[1..], options, true))
  }

  class ToolRunner {
    const toolPath: string
    var args: seq<string>
    var pipeOutputToTool: ToolRunner?
    ghost var Repr: set<object>

    /** The tool path is non-empty and the successors form a finite chain that does not lead back here. */
    ghost predicate Valid()
      reads this, Repr
      decreases Repr
    {
      this in Repr && toolPath != [] &&
      (pipeOutputToTool != null ==>
        pipeOutputToTool in Repr && pipeOutputToTool.Repr <= Repr && this !in pipeOutputToTool.Repr &&
        pipeOutputToTool.Valid())
    }

    /** This runner followed by its successors. */
    ghost function Stages(): (r: seq<Stage>)
      requires Valid()
      reads Repr
      ensures r != [] && r[0] == Stage(toolPath, args)
      decreases Repr
    {
      [Stage(toolPath, args)] + (if pipeOutputToTool == null then [] else pipeOutputToTool.Stages())
    }

    /** The constructor, for a non-empty tool path. */
    constructor (toolPath: string)
      requires toolPath != []
      ensures this.toolPath == toolPath && args == [] && pipeOutputToTool == null
      ensures Valid() && fresh(Repr)
    {
      this.toolPath := toolPath;
      args := [];
      pipeOutputToTool := null;
      Repr := {this};
    }

    /** `new ToolRunner(toolPath)`, which throws on an empty tool path. */
    static method Create(toolPath: string) returns (r: Result<ToolRunner, string>)
      ensures r.Failure? <==> toolPath == []
      ensures r.Failure? ==> r.error == "Parameter 'toolPath' cannot be null or empty."
      ensures r.Success? ==>
                fresh(r.value) && r.value.Valid() && fresh(r.value.Repr) &&
                r.value.toolPath == toolPath && r.value.args == [] && r.value.pipeOutputToTool == null
    {
      if toolPath == [] {
        return Failure("Parameter 'toolPath' cannot be null or empty.");
      }
      var runner := new ToolRunner(toolPath);
      return Success(runner);
    }

    /** `arg(val)`. */
    method Arg(val: ArgValue)
      requires Valid()
      modifies this
      ensures args == old(args) + ArgAdded(val)
      ensures pipeOutputToTool == old(pipeOutputToTool) && Repr == old(Repr)
      ensures Valid() && Stages() == [Stage(toolPath, args)] + old(Stages())[1..]
    {
      match val {
        case Absent =>
        case Str(s) =>
          if s != [] {
            args := args + [Trim(s)];
          }
        case Arr(xs) =>
          args := args + xs;
      }
    }

    /** `line(val)`: the line is split by the runner's tokenizer. */
    method Line(val: string)
      requires Valid()
      modifies this
      ensures args == old(args) + LineAdded(val)
      ensures pipeOutputToTool == old(pipeOutputToTool) && Repr == old(Repr)
      ensures Valid() && Stages() == [Stage(toolPath, args)] + old(Stages())[1..]
    {
      if val == [] {
        return;
      }
      var tokens := ArgTokenizer.ArgStringToArray(val);
      args := args + tokens;
    }

    /** `argIf(condition, val)`: `arg(val)` when the condition holds. */
    method ArgIf(condition: bool, val: ArgValue)
      requires Valid()
      modifies this
      ensures args == old(args) + (if condition then ArgAdded(val) else [])
      ensures pipeOutputToTool == old(pipeOutputToTool) && Repr == old(Repr)
      ensures Valid() && Stages() == [Stage(toolPath, args)] + old(Stages())[1..]
    {
      if condition {
        Arg(val);
      }
    }

    /** `pipeExecOutputToTool(tool)`: records `tool` as the successor, replacing any earlier one. */
    method PipeExecOutputToTool(tool: ToolRunner)
      requires Valid() && tool.Valid() && this !in tool.Repr
      modifies this
      ensures pipeOutputToTool == tool && args == old(args)
      ensures Valid() && Repr == {this} + tool.Repr
      ensures Stages() == [Stage(toolPath, args)] + tool.Stages()
    {
      pipeOutputToTool := tool;
      Repr := {this} + tool.Repr;
    }

    /** `_getCommandString(options, noPrefix)`. */
    method GetCommandString(host: Host, options: ExecOptions, noPrefix: bool) returns (cmd: string)
      requires Valid()
      ensures cmd == ChainString(host, Stages(), options, noPrefix)
      decreases Repr
    {
      cmd := GetStageString(host, toolPath, args, options, noPrefix);
      if pipeOutputToTool != null {
        var rest := pipeOutputToTool.GetCommandString(host, options, true);
        cmd := cmd + (" | " + rest);
        AppendAssoc(Prefix(noPrefix), StageString(host, toolPath, args, options), " | " + rest);
      }
    }
  }

  // ---------------------------------------------------------------------
  // Properties

  /**
   * A pipeline's command string is the prefix (unless `noPrefix`) followed by
   * the stages, each rendered, in order, joined by ` | `; only the first
   * stage carries the prefix.
   */
  lemma {:induction false} ChainJoin(host: Host, stages: seq<Stage>, options: ExecOptions, noPrefix: bool)
    requires stages != []
    ensures ChainString(host, stages, options, noPrefix) == Prefix(noPrefix) + Join(StageStrings(host, stages, options), " | ")
    decreases |stages|
  {
    var first := StageString(host, stages[0].toolPath, stages[0].args, options);
    var all := StageStrings(host, stages, options);
    if |stages| > 1 {
      ChainJoin(host, stages[1..], options, true);
      var rest := Join(StageStrings(host, stages[1..], options), " | ");
      assert all[1..] == StageStrings(host, stages[1..], options);
      assert Join(all, " | ") == first + " | " + rest;
      calc {
        ChainString(host, stages, options, noPrefix);
        Prefix(noPrefix) + first + (" | " + ("" + rest));
        { assert "" + rest == rest; AppendAssoc(Prefix(noPrefix), first, " | " + rest); }
        Prefix(noPrefix) + (first + (" | " + rest));
        { AppendAssoc(first, " | ", rest); }
        Prefix(noPrefix) + Join(all, " | ");
      }
    }
  }

  /** Unless `noPrefix`, the command string starts with `[command]`; with it, with the first stage. */
  lemma ChainStartsWith(host: Host, stages: seq<Stage>, options: ExecOptions, noPrefix: bool)
    requires stages != []
    ensures var s := ChainString(host, stages, options, noPrefix);
            var first := StageString(host, stages[0].toolPath, stages[0].args, options);
            if noPrefix then |first| <= |s| && s[..|first|] == first
            else 9 <= |s| && s[..9] == "[command]" && s[9..9 + |first|] == first
  {
    var s := ChainString(host, stages, options, noPrefix);
    var first := StageString(host, stages[0].toolPath, stages[0].args, options);
    var tail := if |stages| == 1 then "" else " | " + ChainString(host, stages[1..], options, true);
    assert s == Prefix(noPrefix) + first + tail;
    if noPrefix {
      assert s[..|first|] == (first + tail)[..|first|];
    } else {
      AppendAssoc("[command]", first, tail);
      assert s[..9] == "[command]";
      assert s[9..9 + |first|] == (first + tail)[..|first|];
    }
  }

  /** A whitespace-only string is truthy: `arg` appends the empty argument. */
  lemma ArgWhitespaceOnly(s: string)
    requires s != [] && forall k :: 0 <= k < |s| ==> IsJsWhitespace(s[k])
    ensures ArgAdded(Str(s)) == [""]
  {
  }

  /** `arg` appends a string with its surrounding whitespace, however much, removed, and nothing else of it changes. */
  lemma ArgTrims(w1: string, s: string, w2: string)
    requires s != [] && !IsJsWhitespace(s[0]) && !IsJsWhitespace(s[|s| - 1])
    requires forall k :: 0 <= k < |w1| ==> IsJsWhitespace(w1[k])
    requires forall k :: 0 <= k < |w2| ==> IsJsWhitespace(w2[k])
    ensures ArgAdded(Str(w1 + s + w2)) == [s]
  {
    var t := w1 + s + w2;
    var a, b := |w1|, |w1| + |s|;
    assert t[a] == s[0] && t[b - 1] == s[|s| - 1];
    forall k | 0 <= k < a ensures IsJsWhitespace(t[k]) { assert t[k] == w1[k]; }
    forall k | b <= k < |t| ensures IsJsWhitespace(t[k]) { assert t[k] == w2[k - b]; }
    TrimSlice(t, a, b);
    assert t[a..b] == s;
  }

  /** `line('"arg one" two -z')` appends what `arg(['arg one', 'two', '-z'])` appends. */
  lemma LineLikeArgArray()
    ensures LineAdded("\"arg one\" two -z") == ArgAdded(Arr(["arg one", "two", "-z"]))
  {
    ArgTokenizer.LineExample();
  }
}
