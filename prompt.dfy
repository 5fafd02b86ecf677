/** The prompt action plugin: `run` checks the task's arguments, prints the
    `say` text of one message or of each message in a `multi` list, and
    returns either the host runtime's result unchanged or a failure record.

    The pure functions below (Validate, Fail, SayOutput, PromptEach, RunSpec)
    say what an invocation prints and returns; Console, PromptMessage and Run
    are the step-by-step procedure, proved to agree with them. */
module Prompt {
  import opened Values
  import opened PercentFormat
  import opened Messages

  /** A result dictionary handed back to the host runtime. */
  type Record = map<string, Value>

  /** How a call of `run` ends: it returns a result dictionary, or an
      exception escapes from it. */
  datatype Outcome = Returned(result: Record) | Raised(error: PyError)

  /** The argument names the plugin accepts. */
  const ValidArgs: set<string> := {"say", "ask", "multi"}

  // ---------------------------------------------------------------------------
  // _fail
  // ---------------------------------------------------------------------------

  /** The failure record `{failed: True, msg: msg}`. */
  function FailureRecord(msg: string): Record
  {
    map["failed" := Bool(true), "msg" := Str(msg)]
  }

  /** `_fail(template, *fmtArgs)`: a fresh two-field failure record, or the
      TypeError of a `%` whose arguments do not match its directives. */
  function Fail(template: string, fmtArgs: seq<string>): (r: Outcome)
    requires OnlyStringDirectives(template)
    ensures r.Returned? <==> |fmtArgs| == Directives(template)
    ensures r.Returned? ==>
      r.result.Keys == {"failed", "msg"} && r.result["failed"] == Bool(true) && r.result["msg"].Str?
    ensures r.Raised? ==> r.error == TypeError
  {
    match Interpolate(template, fmtArgs)
    case Some(m) => Returned(FailureRecord(m))
    case None => Raised(TypeError)
  }

  /** A template without placeholders, given no arguments, is the message verbatim. */
  lemma FailVerbatim(template: string)
    requires '%' !in template
    ensures OnlyStringDirectives(template)
    ensures Fail(template, []) == Returned(FailureRecord(template))
  {
    Verbatim(template);
  }

  /** A template with one `%s` names its argument where the placeholder stood. */
  lemma FailOneArg(pre: string, a: string, post: string)
    requires '%' !in pre && '%' !in post
    ensures OnlyStringDirectives(pre + "%s" + post)
    ensures Fail(pre + "%s" + post, [a]) == Returned(FailureRecord(pre + a + post))
  {
    SubstituteOne(pre, a, post);
  }

  // ---------------------------------------------------------------------------
  // Argument validation in run
  // ---------------------------------------------------------------------------

  /** Every key of `args` is an accepted argument name. */
  predicate AllValid(args: Entries)
  {
    forall i :: 0 <= i < |args| ==> args[i].0 in ValidArgs
  }

  /** Index `i` holds the first key, in iteration order, that is not accepted. */
  predicate FirstInvalidAt(args: Entries, i: int)
  {
    0 <= i < |args| && args[i].0 !in ValidArgs &&
    forall j :: 0 <= j < i ==> args[j].0 in ValidArgs
  }

  /** The first key of `args` that is not an accepted argument name. */
  function FirstInvalidArg(args: Entries): (r: Option<string>)
    ensures r.None? <==> AllValid(args)
    ensures r.Some? ==> r.value !in ValidArgs
  {
    if args == [] then None
    else if args[0].0 !in ValidArgs then Some(args[0].0)
    else
      var r := FirstInvalidArg(args[1..]);
      assert AllValid(args) <==> AllValid(args[1..]) by {
        if AllValid(args[1..]) {
          forall i | 0 <= i < |args| ensures args[i].0 in ValidArgs {
            if i > 0 { assert args[i] == args[1..][i - 1]; }
          }
        }
      }
      r
  }

  /** The invalid key `run` reports is the first offending key. */
  lemma {:induction false} FirstInvalidArgAt(args: Entries, i: int)
    requires FirstInvalidAt(args, i)
    ensures FirstInvalidArg(args) == Some(args[i].0)
  {
    if i > 0 {
      assert FirstInvalidAt(args[1..], i - 1) by {
        forall j | 0 <= j < i - 1 ensures args[1..][j].0 in ValidArgs {
          assert args[1..][j] == args[j + 1];
        }
      }
      FirstInvalidArgAt(args[1..], i - 1);
    }
  }

  /** The three ways `run` rejects its arguments. */
  datatype Violation = InvalidArg(key: string) | MultiCombined | MultiNotList

  /** The checks of `run`, in their order: every key accepted, then `multi`
      alone, then `multi` a list. */
  function Validate(args: Entries): (r: Option<Violation>)
    ensures r.Some? && r.value.InvalidArg? <==> !AllValid(args)
    ensures r == Some(MultiCombined) <==> AllValid(args) && HasKey(args, "multi") && |args| != 1
    ensures r == Some(MultiNotList) <==>
      AllValid(args) && |args| == 1 && args[0].0 == "multi" && !args[0].1.List?
    ensures r.None? <==>
      AllValid(args) && (HasKey(args, "multi") ==> |args| == 1 && args[0].1.List?)
  {
    match FirstInvalidArg(args)
    case Some(k) => Some(InvalidArg(k))
    case None =>
      match Lookup(args, "multi")
      case None => None
      case Some(multi) =>
        if |args| != 1 then Some(MultiCombined)
        else if !multi.List? then Some(MultiNotList)
        else None
  }

  /** The failure message of each violation, as the user sees it. */
  function Message(v: Violation): string
  {
    match v
    case InvalidArg(k) => InvalidArgPrefix + k + InvalidArgSuffix
    case MultiCombined => MultiCombinedTemplate
    case MultiNotList => MultiNotListTemplate
  }

  /** The `_fail` call `run` makes for each violation. */
  function Rejection(v: Violation): Outcome
  {
    TemplatesWellFormed();
    match v
    case InvalidArg(k) => Fail(InvalidArgTemplate, [k])
    case MultiCombined => Fail(MultiCombinedTemplate, [])
    case MultiNotList => Fail(MultiNotListTemplate, [])
  }

  /** The three templates of `run` are well formed for `%`. */
  lemma TemplatesWellFormed()
    ensures OnlyStringDirectives(InvalidArgTemplate)
    ensures OnlyStringDirectives(MultiCombinedTemplate)
    ensures OnlyStringDirectives(MultiNotListTemplate)
  {
    TemplateTextsPlain();
    FailOneArg(InvalidArgPrefix, "", InvalidArgSuffix);
    FailVerbatim(MultiCombinedTemplate);
    FailVerbatim(MultiNotListTemplate);
  }

  /** Every rejection is the failure record carrying that violation's message. */
  lemma RejectionMessage(v: Violation)
    ensures Rejection(v) == Returned(FailureRecord(Message(v)))
  {
    TemplateTextsPlain();
    match v
    case InvalidArg(k) =>
      FailOneArg(InvalidArgPrefix, k, InvalidArgSuffix);
    case MultiCombined =>
      FailVerbatim(MultiCombinedTemplate);
    case MultiNotList =>
      FailVerbatim(MultiNotListTemplate);
  }

  // ---------------------------------------------------------------------------
  // _prompt
  // ---------------------------------------------------------------------------

  /** One printed line per element, each the element's text and a newline. */
  function Lines(items: seq<Value>, show: Value -> string): (r: seq<string>)
    ensures |r| == |items|
    ensures forall i :: 0 <= i < |items| ==> r[i] == show(items[i]) + "\n"
  {
    if items == [] then []
    else Lines(items[..|items| - 1], show) + [show(items[|items| - 1]) + "\n"]
  }

  /** What `_prompt(args)` prints, or the exception `args['say']` raises.
      `show` is the text `print` writes for a value. */
  function SayOutput(args: Value, show: Value -> string): (r: Result<seq<string>, PyError>)
    ensures r.Ok? <==> args.Dict? && HasKey(args.entries, "say")
    ensures r.Err? ==> r.error == if args.Dict? then KeyError("say") else TypeError
    ensures r.Ok? ==>
      var say := Lookup(args.entries, "say").value;
      if say.List? then
        |r.value| == |say.items| &&
        forall i :: 0 <= i < |say.items| ==> r.value[i] == show(say.items[i]) + "\n"
      else r.value == [show(say) + "\n"]
  {
    match GetItem(args, "say")
    case Err(e) => Err(e)
    case Ok(say) => Ok(if say.List? then Lines(say.items, show) else [show(say) + "\n"])
  }

  /** What a sequence of prompts has printed so far, and the exception that
      stopped it, if one did. */
  datatype Transcript = Transcript(raised: Option<PyError>, lines: seq<string>)

  /** Prompting one more message after `t`: nothing happens once an
      exception has escaped. */
  function Step(t: Transcript, m: Value, show: Value -> string): Transcript
  {
    if t.raised.Some? then t
    else
      match SayOutput(m, show)
      case Err(e) => Transcript(Some(e), t.lines)
      case Ok(lines) => Transcript(None, t.lines + lines)
  }

  /** What prompting each of `ms` in order prints, and the exception that
      stops it, if one does. */
  function PromptEach(ms: seq<Value>, show: Value -> string): Transcript
    decreases |ms|
  {
    if ms == [] then Transcript(None, [])
    else Step(PromptEach(ms[..|ms| - 1], show), ms[|ms| - 1], show)
  }

  /** PromptEach of a sequence that ends in `m` is one Step after the rest. */
  lemma PromptEachSnoc(ms: seq<Value>, m: Value, show: Value -> string)
    ensures PromptEach(ms + [m], show) == Step(PromptEach(ms, show), m, show)
  {
    assert (ms + [m])[..|ms|] == ms;
  }

  /** Once a message raises, the messages after it are not prompted. */
  lemma {:induction false} PromptEachStops(xs: seq<Value>, ys: seq<Value>, show: Value -> string)
    requires PromptEach(xs, show).raised.Some?
    ensures PromptEach(xs + ys, show) == PromptEach(xs, show)
    decreases |ys|
  {
    if ys == [] {
      assert xs + ys == xs;
    } else {
      var init, last := ys[..|ys| - 1], ys[|ys| - 1];
      AppendLast(xs, ys);
      PromptEachStops(xs, init, show);
      PromptEachSnoc(xs + init, last, show);
    }
  }

  /** A Step does not depend on the lines printed before it. */
  lemma StepShift(earlier: seq<string>, t: Transcript, m: Value, show: Value -> string)
    requires t.raised.None?
    ensures Step(Transcript(None, earlier + t.lines), m, show) ==
      Transcript(Step(t, m, show).raised, earlier + Step(t, m, show).lines)
  {
    match SayOutput(m, show)
    case Err(e) =>
    case Ok(lines) =>
      assert earlier + t.lines + lines == earlier + (t.lines + lines);
  }

  /** Prompting `xs` and then `ys` prints the output of `xs` followed by
      that of `ys`. */
  lemma {:induction false} PromptEachAppend(xs: seq<Value>, ys: seq<Value>, show: Value -> string)
    requires PromptEach(xs, show).raised.None?
    ensures PromptEach(xs + ys, show) ==
      Transcript(PromptEach(ys, show).raised, PromptEach(xs, show).lines + PromptEach(ys, show).lines)
    decreases |ys|
  {
    var pre := PromptEach(xs, show);
    if ys == [] {
      assert xs + ys == xs;
      assert pre.lines + [] == pre.lines;
    } else {
      var init, last := ys[..|ys| - 1], ys[|ys| - 1];
      AppendLast(xs, ys);
      PromptEachAppend(xs, init, show);
      PromptEachSnoc(xs + init, last, show);
      PromptEachSnoc(init, last, show);
      var mid := PromptEach(init, show);
      if mid.raised.None? {
        StepShift(pre.lines, mid, last, show);
      }
    }
  }

  /** Every message prints successfully. */
  predicate AllPromptable(ms: seq<Value>, show: Value -> string)
  {
    forall i :: 0 <= i < |ms| ==> SayOutput(ms[i], show).Ok?
  }

  /** The concatenation, in list order, of the output of each message. */
  function Concat(ms: seq<Value>, show: Value -> string): seq<string>
    requires AllPromptable(ms, show)
  {
    if ms == [] then []
    else SayOutput(ms[0], show).value + Concat(ms[1..], show)
  }

  /** When every message prints, each is prompted once, in order, and the
      output is the concatenation of theirs. */
  lemma {:induction false} PromptEachAll(ms: seq<Value>, show: Value -> string)
    requires AllPromptable(ms, show)
    ensures PromptEach(ms, show) == Transcript(None, Concat(ms, show))
  {
    if ms != [] {
      var first, rest := ms[..1], ms[1..];
      assert ms == first + rest;
      assert first == [] + [ms[0]];
      PromptEachSnoc([], ms[0], show);
      assert SayOutput(ms[0], show).Ok?;
      assert [] + SayOutput(ms[0], show).value == SayOutput(ms[0], show).value;
      assert AllPromptable(rest, show) by {
        forall i | 0 <= i < |rest| ensures SayOutput(rest[i], show).Ok? {
          assert rest[i] == ms[i + 1];
        }
      }
      PromptEachAll(rest, show);
      PromptEachAppend(first, rest, show);
    }
  }

  /** When message `i` is the first that raises, the messages before it are
      printed and the exception of message `i` is what escapes. */
  lemma PromptEachFirstError(ms: seq<Value>, i: int, show: Value -> string)
    requires 0 <= i < |ms| && AllPromptable(ms[..i], show) && SayOutput(ms[i], show).Err?
    ensures PromptEach(ms, show) == Transcript(Some(SayOutput(ms[i], show).error), Concat(ms[..i], show))
  {
    var pre, upto, post := ms[..i], ms[..i + 1], ms[i + 1..];
    var e := SayOutput(ms[i], show).error;
    SplitAt(ms, i);
    PromptEachAll(pre, show);
    PromptEachSnoc(pre, ms[i], show);
    assert PromptEach(upto, show) == Transcript(Some(e), Concat(pre, show));
    PromptEachStops(upto, post, show);
  }

  // ---------------------------------------------------------------------------
  // run
  // ---------------------------------------------------------------------------

  /** What `run` returns and prints, given the result `base` of the host
      runtime's own `run` and the task's arguments `args`. */
  function RunSpec(base: Record, args: Entries, show: Value -> string): (Outcome, seq<string>)
  {
    match Validate(args)
    case Some(v) => (Rejection(v), [])
    case None =>
      var (err, out) :=
        match Lookup(args, "multi")
        case Some(multi) =>
          var t := PromptEach(multi.items, show);
          (t.raised, t.lines)
        case None =>
          (match SayOutput(Dict(args), show)
           case Err(e) => (Some(e), [])
           case Ok(lines) => (None, lines));
      (if err.Some? then Raised(err.value) else Returned(base), out)
  }

  /** Any rejected argument map yields exactly the failure record of its
      violation, prints nothing, and drops the host runtime's result. */
  lemma RunRejects(base: Record, args: Entries, show: Value -> string)
    requires Validate(args).Some?
    ensures RunSpec(base, args, show) == (Returned(FailureRecord(Message(Validate(args).value))), [])
  {
    RejectionMessage(Validate(args).value);
  }

  /** An unaccepted key makes `run` name the first such key, whatever else
      the arguments hold. */
  lemma RunInvalidArg(base: Record, args: Entries, i: int, show: Value -> string)
    requires FirstInvalidAt(args, i)
    ensures RunSpec(base, args, show) ==
      (Returned(FailureRecord(InvalidArgPrefix + args[i].0 + InvalidArgSuffix)), [])
  {
    FirstInvalidArgAt(args, i);
    RunRejects(base, args, show);
  }

  /** `multi` beside any other (accepted) key is refused. */
  lemma RunMultiCombined(base: Record, args: Entries, show: Value -> string)
    requires AllValid(args) && HasKey(args, "multi") && |args| != 1
    ensures RunSpec(base, args, show) ==
      (Returned(FailureRecord(MultiCombinedTemplate)), [])
  {
    RunRejects(base, args, show);
  }

  /** A `multi` that is not a list is refused. */
  lemma RunMultiNotList(base: Record, m: Value, show: Value -> string)
    requires !m.List?
    ensures RunSpec(base, [("multi", m)], show) ==
      (Returned(FailureRecord(MultiNotListTemplate)), [])
  {
    RunRejects(base, [("multi", m)], show);
  }

  /** A `multi` list prompts each message once, in list order; `run` then
      returns the host runtime's result unchanged. */
  lemma RunMulti(base: Record, ms: seq<Value>, show: Value -> string)
    requires AllPromptable(ms, show)
    ensures RunSpec(base, [("multi", List(ms))], show) == (Returned(base), Concat(ms, show))
  {
    PromptEachAll(ms, show);
  }

  /** A `multi` list is prompted message by message; an exception from one
      of them escapes from `run` after the output before it. */
  lemma RunMultiList(base: Record, ms: seq<Value>, show: Value -> string)
    ensures var t := PromptEach(ms, show);
      RunSpec(base, [("multi", List(ms))], show) ==
        (if t.raised.Some? then Raised(t.raised.value) else Returned(base), t.lines)
  {
  }

  /** Without `multi`, the whole argument map is prompted once and the host
      runtime's result is returned unchanged; a map without `say` (such as
      one holding only `ask`) makes `_prompt` raise KeyError. */
  lemma RunSingle(base: Record, args: Entries, show: Value -> string)
    requires AllValid(args) && !HasKey(args, "multi")
    ensures HasKey(args, "say") ==>
      RunSpec(base, args, show) == (Returned(base), SayOutput(Dict(args), show).value)
    ensures !HasKey(args, "say") ==>
      RunSpec(base, args, show) == (Raised(KeyError("say")), [])
  {
  }

  /** `ask` is accepted but has no effect: adding it anywhere to a map
      without `multi` changes neither the output nor the result. */
  lemma RunIgnoresAsk(base: Record, args: Entries, p: int, v: Value, show: Value -> string)
    requires 0 <= p <= |args| && !HasKey(args, "ask") && !HasKey(args, "multi")
    ensures RunSpec(base, args[..p] + [("ask", v)] + args[p..], show) == RunSpec(base, args, show)
  {
    var pre, post := args[..p], args[p..];
    assert pre + post == args;
    FirstInvalidArgSkips(pre, ("ask", v), post);
    LookupSkips(pre, ("ask", v), post, "multi");
    LookupSkips(pre, ("ask", v), post, "say");
  }

  /** Inserting an entry under an accepted key does not change which key is
      reported as invalid. */
  lemma {:induction false} FirstInvalidArgSkips(pre: Entries, e: (string, Value), post: Entries)
    requires e.0 in ValidArgs
    ensures FirstInvalidArg(pre + [e] + post) == FirstInvalidArg(pre + post)
  {
    if pre == [] {
      assert pre + [e] + post == [e] + post;
      assert ([e] + post)[1..] == post;
      assert pre + post == post;
    } else {
      assert (pre + [e] + post)[1..] == pre[1..] + [e] + post;
      assert (pre + post)[1..] == pre[1..] + post;
      FirstInvalidArgSkips(pre[1..], e, post);
    }
  }

  /** Inserting an entry under a different key does not change a lookup. */
  lemma {:induction false} LookupSkips(pre: Entries, e: (string, Value), post: Entries, k: string)
    requires e.0 != k
    ensures Lookup(pre + [e] + post, k) == Lookup(pre + post, k)
    ensures HasKey(pre + [e] + post, k) <==> HasKey(pre + post, k)
  {
    if pre == [] {
      assert pre + [e] + post == [e] + post;
      assert ([e] + post)[1..] == post;
      assert pre + post == post;
    } else {
      assert (pre + [e] + post)[1..] == pre[1..] + [e] + post;
      assert (pre + post)[1..] == pre[1..] + post;
      LookupSkips(pre[1..], e, post, k);
    }
  }

  // ---------------------------------------------------------------------------
  // The procedure: printing to the console step by step
  // ---------------------------------------------------------------------------

  /** Standard output, as the sequence of lines written to it so far. */
  class Console {
    var lines: seq<string>

    constructor ()
      ensures lines == []
    {
      lines := [];
    }

    /** Python 2's `print v`: the text of `v` followed by a newline. */
    method Print(v: Value, show: Value -> string)
      modifies this
      ensures lines == old(lines) + [show(v) + "\n"]
    {
      lines := lines + [show(v) + "\n"];
    }
  }

  /** `_prompt(args)`: print each line of a list `say`, or `say` itself; or
      raise, printing nothing, when `args['say']` fails. */
  method PromptMessage(args: Value, show: Value -> string, out: Console) returns (err: Option<PyError>)
    modifies out
    ensures SayOutput(args, show).Ok? ==>
      err == None && out.lines == old(out.lines) + SayOutput(args, show).value
    ensures SayOutput(args, show).Err? ==>
      err == Some(SayOutput(args, show).error) && out.lines == old(out.lines)
  {
    var say := GetItem(args, "say");
    if say.Err? {
      return Some(say.error);
    }
    if say.value.List? {
      var items := say.value.items;
      var i := 0;
      while i < |items|
        invariant 0 <= i <= |items|
        invariant out.lines == old(out.lines) + Lines(items[..i], show)
      {
        SplitAt(items, i);
        assert items[..i + 1][..i] == items[..i];
        out.Print(items[i], show);
        i := i + 1;
      }
      assert items[..i] == items;
    } else {
      out.Print(say.value, show);
    }
    return None;
  }

  /** The loop of `run` over a `multi` list: `_prompt` each message in turn
      until one raises. */
  method PromptAll(ms: seq<Value>, show: Value -> string, out: Console) returns (err: Option<PyError>)
    modifies out
    ensures err == PromptEach(ms, show).raised
    ensures out.lines == old(out.lines) + PromptEach(ms, show).lines
  {
    err := None;
    var k := 0;
    while k < |ms|
      invariant 0 <= k <= |ms|
      invariant err == None && PromptEach(ms[..k], show).raised == None
      invariant out.lines == old(out.lines) + PromptEach(ms[..k], show).lines
    {
      ghost var before := PromptEach(ms[..k], show);
      SplitAt(ms, k);
      PromptEachSnoc(ms[..k], ms[k], show);
      err := PromptMessage(ms[k], show, out);
      if err.Some? {
        assert PromptEach(ms[..k + 1], show) == Transcript(err, before.lines);
        PromptEachStops(ms[..k + 1], ms[k + 1..], show);
        return;
      }
      ghost var lines := SayOutput(ms[k], show).value;
      assert PromptEach(ms[..k + 1], show) == Transcript(None, before.lines + lines);
      AppendAssoc(old(out.lines), before.lines, lines);
      k := k + 1;
    }
    assert ms[..k] == ms;
  }

  /** `run`: validate the arguments, then prompt each `multi` message or the
      whole map; return the host runtime's result `base` or a failure record. */
  method Run(base: Record, args: Entries, show: Value -> string, out: Console) returns (r: Outcome)
    modifies out
    ensures r == RunSpec(base, args, show).0
    ensures out.lines == old(out.lines) + RunSpec(base, args, show).1
  {
    TemplatesWellFormed();
    var i := 0;
    while i < |args|
      invariant 0 <= i <= |args|
      invariant forall j :: 0 <= j < i ==> args[j].0 in ValidArgs
    {
      if args[i].0 !in ValidArgs {
        r := Fail(InvalidArgTemplate, [args[i].0]);
        assert RunSpec(base, args, show) == (r, []) by {
          FirstInvalidArgAt(args, i);
        }
        return;
      }
      i := i + 1;
    }
    assert AllValid(args);
    var multi := Lookup(args, "multi");
    if multi.Some? {
      if |args| != 1 {
        r := Fail(MultiCombinedTemplate, []);
        assert RunSpec(base, args, show) == (r, []) by {
          assert Validate(args) == Some(MultiCombined);
        }
        return;
      }
      if !multi.value.List? {
        r := Fail(MultiNotListTemplate, []);
        assert RunSpec(base, args, show) == (r, []) by {
          assert args == [("multi", multi.value)];
          assert Validate(args) == Some(MultiNotList);
        }
        return;
      }
      var ms := multi.value.items;
      assert args == [("multi", List(ms))];
      RunMultiList(base, ms, show);
      var err := PromptAll(ms, show, out);
      if err.Some? {
        return Raised(err.value);
      }
    } else {
      RunSingle(base, args, show);
      var err := PromptMessage(Dict(args), show, out);
      if err.Some? {
        return Raised(err.value);
      }
    }
    return Returned(base);
  }
}
