/** The command-line front end (slackcli/cli.py): validating the flags,
    dispatching on them in a fixed order and turning messages, standard input
    and shell output into posts. Every effect of a run is recorded, in order,
    as an `Action`. */
module Cli {
  import opened Base
  import opened Sources
  import opened Retrieval

  /** The parsed flags. `src` is `None` or the non-empty list that repeated
      `--src` flags build. */
  datatype Args = Args(
    dst: Option<string>,
    file: Option<string>,
    pre: bool,
    run: bool,
    messages: seq<string>,
    src: Option<seq<string>>,
    last: Option<int>,
    saveCache: bool)

  /** Everything outside the program that a run depends on: the token check
      of the client set-up, the cache file and the live directory, the
      search pages answered for each query, the name lookup of a user id, the
      rendering of a timestamp, standard input and the shell. Standard input
      is the lines `readline` returns, each with its newline; an empty string
      marks the end of input, and entries after it are never read. */
  datatype Env = Env(
    rejectedToken: Option<string>,
    cache: CacheFile,
    live: Lists,
    search: string -> seq<Page>,
    userName: string -> string,
    timeText: string -> string,
    tty: bool,
    stdin: seq<string>,
    shell: string -> Option<string>)

  /** The observable effects of a run. */
  datatype Action =
    | Stderr(text: string)
    | PrintHelp
    | WriteCache(lists: Lists)
    | Stream(sources: seq<string>)
    | Search(request: Request)
    | Print(line: string)
    | Upload(path: string, destination: string)
    | Post(destination: string, text: string, pre: bool)

  predicate SrcGiven(a: Args) {
    a.src.Some? && |a.src.value| > 0
  }

  /** `args.last` as a truth value: `--last 0` counts as absent. */
  predicate LastGiven(a: Args) {
    a.last.Some? && a.last.value != 0
  }

  const IncompatibleSrcDst := "Incompatible arguments: --src and --dst\n"
  const MissingSrcDst := "Invalid arguments: one of --src or --dst must be specified\n"
  const IncompatibleDstLast := "Incompatible arguments: --dst and --last\n"
  const IncompatibleSrcFile := "Incompatible arguments: --src and --file\n"
  const IncompatibleFileMessages := "Incompatible arguments: `messages` and --file\n"

  /** The flag combinations the program accepts: a bare cache rebuild, or
      exactly one of a destination and sources without a conflicting
      companion flag. */
  predicate Accepted(a: Args) {
    var dst, src, file := Given(a.dst), SrcGiven(a), Given(a.file);
    (a.saveCache && !dst && !src) ||
    (dst != src && !(dst && LastGiven(a)) && !(src && file) && !(file && |a.messages| > 0))
  }

  /** `args_error_message`: checks in a fixed order, the first that fails
      giving the message. */
  function ArgsErrorMessage(a: Args): (r: Option<string>)
    ensures r.None? <==> Accepted(a)
    ensures a.saveCache && !Given(a.dst) && !SrcGiven(a) ==> r == None
    ensures Given(a.dst) && SrcGiven(a) ==> r == Some(IncompatibleSrcDst)
    ensures !Given(a.dst) && !SrcGiven(a) && !a.saveCache ==> r == Some(MissingSrcDst)
    ensures Given(a.dst) && !SrcGiven(a) && LastGiven(a) ==> r == Some(IncompatibleDstLast)
    ensures SrcGiven(a) && !Given(a.dst) && Given(a.file) ==> r == Some(IncompatibleSrcFile)
    ensures r == Some(IncompatibleFileMessages) <==>
      Given(a.dst) && !SrcGiven(a) && !LastGiven(a) && Given(a.file) && |a.messages| > 0
  {
    if a.saveCache && (!Given(a.dst) && !SrcGiven(a)) then None
    else if Given(a.dst) && SrcGiven(a) then Some(IncompatibleSrcDst)
    else if !Given(a.dst) && !SrcGiven(a) then Some(MissingSrcDst)
    else if Given(a.dst) && LastGiven(a) then Some(IncompatibleDstLast)
    else if SrcGiven(a) && Given(a.file) then Some(IncompatibleSrcFile)
    else if Given(a.file) && |a.messages| > 0 then Some(IncompatibleFileMessages)
    else None
  }

  /** `--last 0` is false to the validation, so it passes beside `--dst`. */
  lemma LastZeroWithDstAccepted(dst: string, messages: seq<string>)
    requires dst != ""
    ensures ArgsErrorMessage(Args(Some(dst), None, false, false, messages, None, Some(0), false)) == None
  {
  }

  /** What `run` does once the flags are parsed. */
  datatype Command =
    | Reject(message: string)
    | RebuildCache
    | StreamFrom(sources: seq<string>)
    | PrintLast(sources: seq<string>, count: int)
    | UploadTo(destination: string, path: string)
    | PipeTo(destination: string, pre: bool)
    | SendEach(destination: string, messages: seq<string>, asCommands: bool, pre: bool)

  /** The dispatch order of `run`: validation, cache rebuild, stream, last
      messages, upload, pipe, send. */
  function Dispatch(a: Args): (c: Command)
    ensures c.Reject? <==> !Accepted(a)
    ensures c.Reject? ==> ArgsErrorMessage(a) == Some(c.message)
    ensures c.RebuildCache? <==> Accepted(a) && a.saveCache
    ensures c.StreamFrom? <==> Accepted(a) && !a.saveCache && SrcGiven(a) && a.last.None?
    ensures c.PrintLast? <==> Accepted(a) && !a.saveCache && SrcGiven(a) && a.last.Some?
    ensures c.UploadTo? <==> Accepted(a) && !a.saveCache && !SrcGiven(a) && Given(a.file)
    ensures c.PipeTo? <==> Accepted(a) && !a.saveCache && !SrcGiven(a) && !Given(a.file) && |a.messages| == 0
    ensures c.StreamFrom? || c.PrintLast? ==> a.src.Some? && c.sources == a.src.value
    ensures c.PrintLast? ==> a.last == Some(c.count)
    ensures c.UploadTo? || c.PipeTo? || c.SendEach? ==> a.dst == Some(c.destination) && c.destination != ""
    ensures c.UploadTo? ==> a.file == Some(c.path)
    ensures c.PipeTo? || c.SendEach? ==> c.pre == a.pre
    ensures c.SendEach? ==> c.messages == a.messages && |c.messages| > 0 && c.asCommands == a.run
  {
    var errorMessage := ArgsErrorMessage(a);
    if errorMessage.Some? then Reject(errorMessage.value)
    else if a.saveCache then RebuildCache
    else if SrcGiven(a) && a.last.None? then StreamFrom(a.src.value)
    else if SrcGiven(a) then PrintLast(a.src.value, a.last.value)
    else if Given(a.file) then UploadTo(a.dst.value, a.file.value)
    else if |a.messages| == 0 then PipeTo(a.dst.value, a.pre)
    else SendEach(a.dst.value, a.messages, a.run, a.pre)
  }

  // Sending.

  /** The text `run_command` posts. */
  function CommandText(command: string, output: string): string {
    "$ " + command + "\n" + output
  }

  /** `subprocess.check_output` raising for a non-zero exit status. */
  function CommandFailed(command: string): Error {
    Crash("CalledProcessError: " + command)
  }

  /** One message of `run`'s send loop, given the result of the destination
      lookup: `run_command` with `--run`, `send_message` without. */
  function SendOne(target: Result<string>, message: string, asCommand: bool, pre: bool,
                   shell: string -> Option<string>): (seq<Action>, Option<Error>)
  {
    match target
    case Err(e) => ([], Some(e))
    case Ok(id) =>
      if !asCommand then ([Post(id, message, pre)], None)
      else match shell(message)
        case None => ([], Some(CommandFailed(message)))
        case Some(output) => ([Post(id, CommandText(message, output), true)], None)
  }

  /** `send_message` */
  method SendMessage(destination: string, message: string, pre: bool, env: Env)
    returns (err: Option<Error>, out: seq<Action>)
    ensures (out, err) == SendOne(SourceId(env.cache, env.live, destination), message, false, pre, env.shell)
    ensures err.None? ==> |out| == 1 && out[0].Post? && out[0].text == message && out[0].pre == pre
  {
    var id := GetSourceId(env.cache, env.live, destination);
    if id.Err? {
      return Some(id.error), [];
    }
    return None, [Post(id.value, message, pre)];
  }

  /** `run_command` */
  method RunCommand(destination: string, command: string, env: Env)
    returns (err: Option<Error>, out: seq<Action>)
    ensures (out, err) == SendOne(SourceId(env.cache, env.live, destination), command, true, false, env.shell)
    ensures err.None? ==>
              env.shell(command).Some? && |out| == 1 && out[0].Post? && out[0].pre
              && out[0].text == "$ " + command + "\n" + env.shell(command).value
  {
    var id := GetSourceId(env.cache, env.live, destination);
    if id.Err? {
      return Some(id.error), [];
    }
    var output := env.shell(command);
    if output.None? {
      return Some(CommandFailed(command)), [];
    }
    var message := "$ " + command + "\n" + output.value;
    return None, [Post(id.value, message, true)];
  }

  /** The send loop of `run`: one message after the other, stopping at the
      first exception. */
  function SendAll(target: Result<string>, messages: seq<string>, asCommands: bool, pre: bool,
                   shell: string -> Option<string>): (seq<Action>, Option<Error>)
  {
    if messages == [] then ([], None)
    else
      var first := SendOne(target, messages[0], asCommands, pre, shell);
      if first.1.Some? then first
      else
        var rest := SendAll(target, messages[1..], asCommands, pre, shell);
        (first.0 + rest.0, rest.1)
  }

  /** What the send loop of `run` does for a destination name. */
  function SendEachTo(destination: string, messages: seq<string>, asCommands: bool, pre: bool, env: Env)
    : (seq<Action>, Option<Error>)
  {
    SendAll(SourceId(env.cache, env.live, destination), messages, asCommands, pre, env.shell)
  }

  /** The loop at the end of `run`. */
  method SendMessages(destination: string, messages: seq<string>, asCommands: bool, pre: bool, env: Env)
    returns (err: Option<Error>, out: seq<Action>)
    ensures (out, err) == SendEachTo(destination, messages, asCommands, pre, env)
  {
    ghost var target := SourceId(env.cache, env.live, destination);
    out, err := [], None;
    assert messages[0..] == messages;
    for i := 0 to |messages|
      invariant SendAll(target, messages, asCommands, pre, env.shell).0 ==
        out + SendAll(target, messages[i..], asCommands, pre, env.shell).0
      invariant SendAll(target, messages, asCommands, pre, env.shell).1 ==
        SendAll(target, messages[i..], asCommands, pre, env.shell).1
      invariant err == None
    {
      SendAllStep(target, messages, i, asCommands, pre, env.shell);
      var e, o := SendNext(destination, messages[i], asCommands, pre, env);
      out := out + o;
      if e.Some? {
        return e, out;
      }
    }
    assert messages[|messages|..] == [];
    assert out + [] == out;
  }

  /** The body of the send loop: `run_command` with `--run`, `send_message`
      without. */
  method SendNext(destination: string, message: string, asCommand: bool, pre: bool, env: Env)
    returns (err: Option<Error>, out: seq<Action>)
    ensures (out, err) == SendOne(SourceId(env.cache, env.live, destination), message, asCommand, pre, env.shell)
  {
    if asCommand {
      err, out := RunCommand(destination, message, env);
    } else {
      err, out := SendMessage(destination, message, pre, env);
    }
  }

  /** One turn of the send loop, from message `i` on. */
  lemma SendAllStep(target: Result<string>, messages: seq<string>, i: nat, asCommands: bool, pre: bool,
                    shell: string -> Option<string>)
    requires i < |messages|
    ensures var first := SendOne(target, messages[i], asCommands, pre, shell);
      var rest := SendAll(target, messages[i + 1..], asCommands, pre, shell);
      SendAll(target, messages[i..], asCommands, pre, shell) ==
        if first.1.Some? then first else (first.0 + rest.0, rest.1)
  {
    assert messages[i..][0] == messages[i] && messages[i..][1..] == messages[i + 1..];
  }

  /** Plain sending posts every message once, in argument order, with the
      `--pre` flag. */
  lemma {:induction false} SendPlainPostsEach(id: string, messages: seq<string>, pre: bool,
                                              shell: string -> Option<string>)
    ensures var r := SendAll(Ok(id), messages, false, pre, shell);
      r.1 == None && |r.0| == |messages| &&
      forall i :: 0 <= i < |messages| ==> r.0[i] == Post(id, messages[i], pre)
  {
    if messages != [] {
      SendPlainPostsEach(id, messages[1..], pre, shell);
    }
  }

  /** A destination that does not resolve fails on the first message, before
      anything is posted. */
  lemma SendUnknownDestination(e: Error, messages: seq<string>, asCommands: bool, pre: bool,
                               shell: string -> Option<string>)
    requires messages != []
    ensures SendAll(Err(e), messages, asCommands, pre, shell) == ([], Some(e))
  {
  }

  /** With `--run`, post `i` is command `i` followed by its output, always
      verbatim, whatever `--pre` says; the first failing command ends the run
      after the posts before it. */
  lemma {:induction false} SendCommandsPostsOutputs(id: string, messages: seq<string>, pre: bool,
                                                    shell: string -> Option<string>)
    ensures var r := SendAll(Ok(id), messages, true, pre, shell);
      |r.0| <= |messages| &&
      (forall i :: 0 <= i < |r.0| ==>
        shell(messages[i]).Some? && r.0[i] == Post(id, CommandText(messages[i], shell(messages[i]).value), true)) &&
      (r.1.Some? <==> |r.0| < |messages|) &&
      (r.1.Some? ==> shell(messages[|r.0|]).None? && r.1.value == CommandFailed(messages[|r.0|]))
  {
    if messages != [] {
      SendCommandsPostsOutputs(id, messages[1..], pre, shell);
    }
  }

  /** `upload_file` of cli.py */
  method UploadFile(destination: string, path: string, env: Env) returns (err: Option<Error>, out: seq<Action>)
    ensures SourceId(env.cache, env.live, destination).Err? ==>
              err == Some(SourceId(env.cache, env.live, destination).error) && out == []
    ensures SourceId(env.cache, env.live, destination).Ok? ==>
              err == None && out == [Upload(path, SourceId(env.cache, env.live, destination).value)]
  {
    var id := GetSourceId(env.cache, env.live, destination);
    if id.Err? {
      return Some(id.error), [];
    }
    return None, [Upload(path, id.value)];
  }

  // Piping standard input.

  /** What one interactive line becomes: its stripped text, posted unless
      it is empty. */
  function LinePost(id: string, raw: string, pre: bool): seq<Action> {
    var line := Strip(raw);
    if line != "" then [Post(id, line, pre)] else []
  }

  /** Interactive input: every line stripped, the empty ones skipped, each
      other one posted on its own. */
  function InteractivePosts(id: string, lines: seq<string>, pre: bool): seq<Action> {
    if lines == [] then [] else LinePost(id, lines[0], pre) + InteractivePosts(id, lines[1..], pre)
  }

  lemma InteractiveSnoc(id: string, lines: seq<string>, i: nat, pre: bool)
    requires i < |lines|
    ensures InteractivePosts(id, lines[..i + 1], pre) == InteractivePosts(id, lines[..i], pre) + LinePost(id, lines[i], pre)
  {
    assert lines[..i + 1] == lines[..i] + [lines[i]];
    InteractiveLineByLine(id, lines[..i], [lines[i]], pre);
    assert InteractivePosts(id, [lines[i]], pre) == LinePost(id, lines[i], pre) + [];
  }

  /** The lines the non-interactive loop reads: up to the end of input, which
      `readline` reports as an empty string. */
  function LinesRead(lines: seq<string>): seq<string> {
    if lines == [] || lines[0] == "" then [] else [lines[0]] + LinesRead(lines[1..])
  }

  /** What is read is a prefix of the input without an empty line, and
      reading stops only at the end of the input or at an empty line. */
  lemma {:induction false} LinesReadStops(lines: seq<string>)
    ensures var r := LinesRead(lines);
      r <= lines && (forall i :: 0 <= i < |r| ==> r[i] != "") &&
      (|r| < |lines| ==> lines[|r|] == "")
  {
    if lines != [] && lines[0] != "" {
      LinesReadStops(lines[1..]);
    }
  }

  /** Non-interactive input: what was read, joined unchanged into a single
      post, or no post when nothing was read. */
  function BatchPost(id: string, lines: seq<string>, pre: bool): seq<Action> {
    var read := LinesRead(lines);
    if |read| > 0 then [Post(id, Concat(read), pre)] else []
  }

  /** What `pipe` posts, or the exception of its lookup. */
  function PipeAll(destination: string, pre: bool, env: Env): (seq<Action>, Option<Error>) {
    match SourceId(env.cache, env.live, destination)
    case Err(e) => ([], Some(e))
    case Ok(id) => (if env.tty then InteractivePosts(id, LinesRead(env.stdin), pre) else BatchPost(id, env.stdin, pre), None)
  }

  /** `pipe` */
  method Pipe(destination: string, pre: bool, env: Env) returns (err: Option<Error>, out: seq<Action>)
    ensures (out, err) == PipeAll(destination, pre, env)
  {
    var id := GetSourceId(env.cache, env.live, destination);
    if id.Err? {
      return Some(id.error), [];
    }
    if env.tty {
      out := PostLines(id.value, env.stdin, pre);
    } else {
      out := PostBatch(id.value, env.stdin, pre);
    }
    return None, out;
  }

  /** The body of the interactive loop: strip the line, post it unless it
      is empty. */
  method PostLine(id: string, raw: string, pre: bool) returns (post: seq<Action>)
    ensures post == LinePost(id, raw, pre)
  {
    var line := Strip(raw);
    post := [];
    if line != "" {
      post := [Post(id, line, pre)];
    }
  }

  /** The interactive branch of `pipe`: a `for` loop over the input lines,
      which ends at the end of input. */
  method PostLines(id: string, stdin: seq<string>, pre: bool) returns (out: seq<Action>)
    ensures out == InteractivePosts(id, LinesRead(stdin), pre)
  {
    out := [];
    var k := 0;
    while k < |stdin| && stdin[k] != ""
      invariant 0 <= k <= |stdin|
      invariant forall j :: 0 <= j < k ==> stdin[j] != ""
      invariant out == InteractivePosts(id, stdin[..k], pre)
    {
      InteractiveSnoc(id, stdin, k, pre);
      var post := PostLine(id, stdin[k], pre);
      out := out + post;
      k := k + 1;
    }
    LinesReadUpTo(stdin, k);
  }

  /** The lines read before the end of input are the input up to its first
      empty string. */
  lemma {:induction false} LinesReadUpTo(lines: seq<string>, k: nat)
    requires k <= |lines|
    requires forall j :: 0 <= j < k ==> lines[j] != ""
    requires k == |lines| || lines[k] == ""
    ensures LinesRead(lines) == lines[..k]
  {
    if k == 0 {
      assert lines == [] || lines[0] == "";
    } else {
      LinesReadUpTo(lines[1..], k - 1);
      assert lines[..k] == [lines[0]] + lines[1..][..k - 1];
    }
  }

  /** The reading loop of `pipe`'s non-interactive branch: `readline` until
      it returns the empty string. */
  method ReadLines(stdin: seq<string>) returns (lines: seq<string>)
    ensures lines == LinesRead(stdin)
  {
    lines := [];
    var k := 0;
    assert stdin[0..] == stdin;
    while k < |stdin| && stdin[k] != ""
      invariant 0 <= k <= |stdin|
      invariant LinesRead(stdin) == lines + LinesRead(stdin[k..])
    {
      ReadOneMore(stdin, k);
      lines := lines + [stdin[k]];
      k := k + 1;
    }
    assert LinesRead(stdin[k..]) == [];
    assert lines + [] == lines;
  }

  lemma ReadOneMore(stdin: seq<string>, k: nat)
    requires k < |stdin| && stdin[k] != ""
    ensures LinesRead(stdin[k..]) == [stdin[k]] + LinesRead(stdin[k + 1..])
  {
    assert stdin[k..][1..] == stdin[k + 1..];
  }

  /** The non-interactive branch of `pipe`: read until the end of the input,
      then post what was read at once. */
  method PostBatch(id: string, stdin: seq<string>, pre: bool) returns (out: seq<Action>)
    ensures out == BatchPost(id, stdin, pre)
  {
    var lines := ReadLines(stdin);
    out := [];
    if |lines| > 0 {
      out := [Post(id, Concat(lines), pre)];
    }
  }

  /** Interactive input is posted line by line as it arrives: what the lines
      read so far produced is never changed by the lines that follow. */
  lemma {:induction false} InteractiveLineByLine(id: string, a: seq<string>, b: seq<string>, pre: bool)
    ensures InteractivePosts(id, a + b, pre) == InteractivePosts(id, a, pre) + InteractivePosts(id, b, pre)
  {
    if a == [] {
      assert a + b == b;
    } else {
      assert (a + b)[0] == a[0] && (a + b)[1..] == a[1..] + b;
      InteractiveLineByLine(id, a[1..], b, pre);
    }
  }

  /** Every interactive post is a non-blank line without surrounding
      whitespace, one per line with a non-space character. */
  lemma {:induction false} InteractivePostsAreStripped(id: string, lines: seq<string>, pre: bool)
    ensures var posts := InteractivePosts(id, lines, pre);
      |posts| <= |lines| &&
      forall p :: p in posts ==>
                    p.Post? && p.destination == id && p.pre == pre && p.text != ""
                    && !IsSpace(p.text[0]) && !IsSpace(p.text[|p.text| - 1])
  {
    if lines != [] {
      StripSlice(lines[0]);
      InteractivePostsAreStripped(id, lines[1..], pre);
    }
  }

  /** Non-interactive input gives at most one post: all the lines before the
      end of input, joined unchanged; none when the input is already at its
      end. */
  lemma BatchPostIsOne(id: string, lines: seq<string>, pre: bool)
    ensures |BatchPost(id, lines, pre)| <= 1
    ensures BatchPost(id, lines, pre) == [] <==> lines == [] || lines[0] == ""
    ensures (forall i :: 0 <= i < |lines| ==> lines[i] != "") ==> BatchPost(id, lines, pre) == if lines == [] then [] else [Post(id, Concat(lines), pre)]
  {
    if forall i :: 0 <= i < |lines| ==> lines[i] != "" {
      LinesReadAll(lines);
    }
  }

  lemma {:induction false} LinesReadAll(lines: seq<string>)
    requires forall i :: 0 <= i < |lines| ==> lines[i] != ""
    ensures LinesRead(lines) == lines
  {
    if lines != [] {
      LinesReadAll(lines[1..]);
    }
  }

  /** Piping "a\nb\n" without a terminal posts it once, whole. */
  lemma BatchExample(id: string, pre: bool)
    ensures BatchPost(id, ["a\n", "b\n"], pre) == [Post(id, "a\nb\n", pre)]
  {
    LinesReadAll(["a\n", "b\n"]);
    assert ["a\n", "b\n"][1..] == ["b\n"];
    assert Concat(["b\n"]) == "b\n" + Concat([]) == "b\n";
    assert Concat(["a\n", "b\n"]) == "a\n" + "b\n" == "a\nb\n";
  }

  /** Typing "hello" at a terminal posts "hello". */
  lemma InteractiveExample(id: string, pre: bool)
    ensures InteractivePosts(id, ["hello\n"], pre) == [Post(id, "hello", pre)]
  {
    assert !IsSpace('h') && !IsSpace('o') && IsSpace('\n');
    assert TrimStart("hello\n") == "hello\n";
    assert "hello\n"[..5] == "hello";
    assert TrimEnd("hello") == "hello";
    assert TrimEnd("hello\n") == "hello";
  }

  /** At a terminal, input after the end of input is never posted: with
      "a\n", end of input, "b\n", only "a" is posted. */
  lemma InteractiveEndOfInputExample(id: string, pre: bool)
    ensures InteractivePosts(id, LinesRead(["a\n", "", "b\n"]), pre) == [Post(id, "a", pre)]
  {
    LinesReadUpTo(["a\n", "", "b\n"], 1);
    assert ["a\n", "", "b\n"][..1] == ["a\n"];
    assert !IsSpace('a') && IsSpace('\n');
    assert TrimStart("a\n") == "a\n";
    assert "a\n"[..1] == "a";
    assert TrimEnd("a") == "a";
    assert TrimEnd("a\n") == "a";
  }

  // Receiving.

  predicate SearchesTerminate(env: Env, sources: seq<string>) {
    forall s :: s in sources ==> Terminates(env.search(Query(s)))
  }

  function Searches(requests: seq<Request>): (r: seq<Action>)
    ensures |r| == |requests| && forall i :: 0 <= i < |r| ==> r[i] == Search(requests[i])
  {
    seq(|requests|, i requires 0 <= i < |requests| => Search(requests[i]))
  }

  function Prints(lines: seq<string>): (r: seq<Action>)
    ensures |r| == |lines| && forall i :: 0 <= i < |r| ==> r[i] == Print(lines[i])
  {
    seq(|lines|, i requires 0 <= i < |lines| => Print(lines[i]))
  }

  /** The effects of one `search_messages` call. */
  function SearchActions(source: string, count: int, env: Env): (seq<Action>, Option<Error>)
    requires Terminates(env.search(Query(source)))
  {
    var pages := env.search(Query(source));
    var printed := FormatAll(source, Retrieved(pages, count), env.userName, env.timeText);
    (Searches(Requests(source, PagesFetched(pages, count))) + Prints(printed.0), printed.1)
  }

  /** `last_messages`: one search after the other, stopping at the first
      exception. */
  function LastAll(sources: seq<string>, count: int, env: Env): (seq<Action>, Option<Error>)
    requires SearchesTerminate(env, sources)
  {
    if sources == [] then ([], None)
    else
      var first := SearchActions(sources[0], count, env);
      if first.1.Some? then first
      else
        assert forall s :: s in sources[1..] ==> s in sources;
        var rest := LastAll(sources[1..], count, env);
        (first.0 + rest.0, rest.1)
  }

  /** `last_messages` */
  method LastMessages(sources: seq<string>, count: int, env: Env) returns (err: Option<Error>, out: seq<Action>)
    requires SearchesTerminate(env, sources)
    ensures (out, err) == LastAll(sources, count, env)
  {
    out, err := [], None;
    assert sources[0..] == sources;
    for i := 0 to |sources|
      invariant SearchesTerminate(env, sources[i..])
      invariant LastAll(sources, count, env).0 == out + LastAll(sources[i..], count, env).0
      invariant LastAll(sources, count, env).1 == LastAll(sources[i..], count, env).1
      invariant err == None
    {
      assert sources[i..][1..] == sources[i + 1..];
      assert sources[i] in sources[i..];
      var requests, printed, e := SearchMessages(sources[i], count, env.search(Query(sources[i])), env.userName, env.timeText);
      out := out + (Searches(requests) + Prints(printed));
      if e.Some? {
        return e, out;
      }
    }
    assert sources[|sources|..] == [];
    assert out + [] == out;
  }

  /** With `--last` zero or negative no source is searched and nothing is
      printed. */
  lemma {:induction false} LastNothingForNonPositiveCount(sources: seq<string>, count: int, env: Env)
    requires SearchesTerminate(env, sources)
    requires count <= 0
    ensures LastAll(sources, count, env) == ([], None)
  {
    if sources != [] {
      var pages := env.search(Query(sources[0]));
      RetrievedIsNewest(pages, count);
      var printed := FormatAll(sources[0], Retrieved(pages, count), env.userName, env.timeText);
      assert printed == ([], None);
      assert Searches(Requests(sources[0], PagesFetched(pages, count))) == [];
      assert Prints(printed.0) == [];
      assert Searches(Requests(sources[0], PagesFetched(pages, count))) + Prints(printed.0) == [];
      assert printed.1 == None;
      assert SearchActions(sources[0], count, env) == ([], None);
      assert forall s :: s in sources[1..] ==> s in sources;
      LastNothingForNonPositiveCount(sources[1..], count, env);
    }
  }

  // The entry points.

  /** How a finished step ends `run`: 0, or the exception it raised. */
  function Finish(err: Option<Error>): Result<int> {
    if err.Some? then Err(err.value) else Ok(0)
  }

  /** `run`, after the client set-up of `parse_args`. */
  method Run(a: Args, env: Env) returns (outcome: Result<int>, out: seq<Action>)
    requires env.rejectedToken.None? && Dispatch(a).PrintLast? ==> SearchesTerminate(env, Dispatch(a).sources)
    requires env.rejectedToken.None? && Dispatch(a).RebuildCache? ==> MembersHaveProfiles(env.live)
    ensures env.rejectedToken.Some? ==> outcome == Err(InvalidSlackToken(env.rejectedToken.value)) && out == []
    ensures env.rejectedToken.None? ==> var c := Dispatch(a);
      (c.Reject? ==> outcome == Ok(1) && out == [Stderr(c.message), PrintHelp]) &&
      (c.RebuildCache? ==> outcome == Ok(0) && out == [WriteCache(Snapshot(env.live))]) &&
      (c.StreamFrom? ==> outcome == Ok(0) && out == [Stream(c.sources)]) &&
      (c.PrintLast? ==> var r := LastAll(c.sources, c.count, env); out == r.0 && outcome == Finish(r.1)) &&
      (c.UploadTo? ==> var id := SourceId(env.cache, env.live, c.destination);
        out == (if id.Ok? then [Upload(c.path, id.value)] else []) && outcome == (if id.Ok? then Ok(0) else Err(id.error))) &&
      (c.PipeTo? ==> var r := PipeAll(c.destination, c.pre, env); out == r.0 && outcome == Finish(r.1)) &&
      (c.SendEach? ==> var r := SendEachTo(c.destination, c.messages, c.asCommands, c.pre, env);
        out == r.0 && outcome == Finish(r.1))
  {
    if env.rejectedToken.Some? {
      return Err(InvalidSlackToken(env.rejectedToken.value)), [];
    }
    var errorMessage := ArgsErrorMessage(a);
    if errorMessage.Some? {
      return Ok(1), [Stderr(errorMessage.value), PrintHelp];
    }
    if a.saveCache {
      var lists := CacheSourceIds(env.live);
      CacheSourceIdsWritesSnapshot(env.live, lists);
      return Ok(0), [WriteCache(lists)];
    }
    if SrcGiven(a) && a.last.None? {
      return Ok(0), [Stream(a.src.value)];
    }
    var err: Option<Error>;
    if SrcGiven(a) && a.last.Some? {
      err, out := LastMessages(a.src.value, a.last.value, env);
      return Finish(err), out;
    }
    if Given(a.file) {
      err, out := UploadFile(a.dst.value, a.file.value, env);
      return Finish(err), out;
    }
    if |a.messages| == 0 {
      err, out := Pipe(a.dst.value, a.pre, env);
      return Finish(err), out;
    }
    err, out := SendMessages(a.dst.value, a.messages, a.run, a.pre, env);
    return Finish(err), out;
  }

  /** The validation alone decides rejection: `run` stops with the message
      exactly when `args_error_message` gives one. */
  lemma ValidationDecidesRejection(a: Args)
    ensures Dispatch(a).Reject? <==> ArgsErrorMessage(a).Some?
    ensures Dispatch(a).Reject? ==> Dispatch(a).message == ArgsErrorMessage(a).value
  {
  }

  /** How the process ends. */
  datatype Exit = Exit(code: int, stderr: string) | Uncaught(error: Error)

  function NoSuchSourceText(name: string): string {
    "Channel, group or user '" + name + "' does not exist"
  }

  function BadTokenText(token: string): string {
    "Invalid Slack token: '" + token + "'"
  }

  /** `main`: the code `run` returns, the two domain errors as exit code 1
      with a one-line message naming the value, any other exception uncaught. */
  function Main(outcome: Result<int>): (x: Exit)
    ensures x.Uncaught? <==> outcome.Err? && outcome.error.Crash?
    ensures outcome.Err? && !outcome.error.Crash? ==> x.Exit? && x.code == 1
    ensures outcome.Ok? ==> x == Exit(outcome.value, "")
  {
    match outcome
    case Ok(code) => Exit(code, "")
    case Err(SourceDoesNotExist(name)) => Exit(1, NoSuchSourceText(name))
    case Err(InvalidSlackToken(token)) => Exit(1, BadTokenText(token))
    case Err(e) => Uncaught(e)
  }

  /** The message of a domain error names the offending value between
      quotes, and that value can be read back from it. */
  lemma MainNamesOffendingValue(e: Error)
    requires !e.Crash?
    ensures var x := Main(Err(e));
      var value := if e.SourceDoesNotExist? then e.name else e.token;
      var lead := if e.SourceDoesNotExist? then |"Channel, group or user '"| else |"Invalid Slack token: '"|;
      var tail := if e.SourceDoesNotExist? then |"' does not exist"| else |"'"|;
      |x.stderr| == lead + |value| + tail && x.stderr[lead..lead + |value|] == value
  {
    var x := Main(Err(e));
    if e.SourceDoesNotExist? {
      assert x.stderr == "Channel, group or user '" + e.name + "' does not exist";
    } else {
      assert x.stderr == "Invalid Slack token: '" + e.token + "'";
    }
  }
}
