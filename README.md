# slack-cli: source resolution, message retrieval and the command line, in Dafny

This project models the two parts of the slack-cli command-line client whose
behaviour can be stated precisely, and proves properties of the model.

- **Source resolution and the identifier cache** (`slackcli/utils.py`, module
  `Sources` in `sources.dfy`). `get_sources` filters the channels, groups and
  members of the cache file `id-cache.json` by a list of names and lists the live
  directory only when that gives nothing. `get_source_id` turns "no match" into
  `SourceDoesNotExistError`, and `get_source_ids` builds an id-to-name map.
  `cache_source_ids` projects the live listing to what the cache file holds.
- **Message retrieval** (`slackcli/utils.py`, module `Retrieval` in
  `retrieval.dfy`). `search_messages` pages through the search endpoint, whose
  pages arrive newest first. It keeps the accumulated messages oldest first,
  stops on a count or on the last page, and prints the newest `count`.
  `format_message` renders one display line.
- **The front end** (`slackcli/cli.py`, module `Cli` in `cli.dfy`).
  `args_error_message` validates the flags. `run` dispatches in a fixed order.
  `pipe`, `send_message`, `run_command`, `upload_file` and `last_messages` turn
  their inputs into posts, uploads, searches and printed lines. `main` maps the
  two domain errors to exit code 1.
- `base.dfy` (module `Base`) holds the shared values: `Option`, the `Result` that
  carries an exception, and the Python operations the source relies on (`[::-1]`,
  `s[-n:]`, `''.join`, `str.strip`).

Effects are values. A run returns its exit outcome and the sequence of
`Action`s it performed, in order: posts, uploads, search requests, printed
lines, stderr output, the written cache, the start of a stream. Everything
outside the program is an input record, `Cli.Env`:
- the state of the cache file and the live directory listing;
- the search pages answered for each query;
- the user-name lookup `names.username` and the rendering of a timestamp, as
  uninterpreted functions;
- whether standard input is a terminal, and the lines `readline` returns, an empty string marking the end of input (both branches of `pipe` stop there);
- the output of each shell command, or its failure;
- the token rejected at client set-up, if any.

Exceptions are `Err` values. `SourceDoesNotExist` and `InvalidSlackToken` are the
domain errors. `Crash` stands for everything else the code lets escape.

The model follows the code, including where it is stricter than a reader might
expect:
- **No cache file.** `load_lists` then returns `[]`, and `lists['channels']`
  raises a TypeError (`slackcli/utils.py:54-63`). So a missing cache file makes
  every lookup fail; it does not fall back to the live directory.
- **Unreadable cache file.** A file that does not load as the three lists
  raises as well (`Malformed`).
- **Fall-through to the live directory.** It happens only when the cache loads
  and the filtered result is empty.
- **Flags are tested for truthiness.** `--dst ""` counts as absent, and
  `--last 0` beside `--dst` is accepted.
- **A message with neither `user` nor `username`** makes `format_message` raise
  a KeyError, which ends the printing.
- **Batch and single lookups differ.** `get_sources` silently drops names that
  match nothing, while `get_source_id` raises.

## Model

| member | source | states |
|---|---|---|
| `Sources.FilterObjects` | slackcli/utils.py:49-52 | with an empty name list every object is kept, unchanged |
| `Sources.FilterKeepsExactly` | slackcli/utils.py:49-52 | the filter keeps exactly the objects whose name is requested, each as often as the listing holds it |
| `Sources.FilterAppend` | slackcli/utils.py:49-52 | filtering distributes over concatenation, so kept objects stay in listing order |
| `Sources.Sources` | slackcli/utils.py:54-63 | resolution raises exactly when the cache file is missing or unreadable |
| `Sources.SourcesSelect` | slackcli/utils.py:48-73 | with a loaded cache every result is selected by name; a name found in the cache gives only cached objects; otherwise the result is exactly the selected live objects |
| `Sources.GetSources` | slackcli/utils.py:61-73 | returns channels ++ groups ++ members filtered, and lists the live directory exactly when the cache loaded and its filtered result is empty |
| `Sources.GetSourceId` | slackcli/utils.py:37-41 | raises `SourceDoesNotExist` carrying exactly the requested name; a returned id belongs to an object of that name in the cache or the live directory |
| `Sources.SourceIdIsFirstMatch` | slackcli/utils.py:37-41 | the id is that of the first object of that name, channels before groups before members, cache before live directory; no match anywhere raises `SourceDoesNotExist(name)` |
| `Sources.IdNamesLastWins` | slackcli/utils.py:44-46 | the keys are exactly the ids of the objects, and an id maps to the name of its last object |
| `Sources.GetSourceIds` | slackcli/utils.py:43-46 | its keys are exactly the ids `get_sources` returns, each mapped to the name of an object with that id |
| `Sources.CacheSourceIds` | slackcli/utils.py:105-116 | each list keeps its length and order; channels and groups keep only `id` and `name`, members also `display_name` |
| `Sources.FreshCacheResolvesLikeLive` | slackcli/utils.py:105-116 | resolving through a freshly written cache gives the projection of what the live directory gives, in the same order |
| `Sources.FreshCacheSameIds` | slackcli/utils.py:37-41 | a lookup through a freshly written cache finds the same id as a lookup that goes to the live directory |
| `Retrieval.FetchMessages` | slackcli/utils.py:80-90 | requests consecutive pages from 1 with query `in:<source>` and size 1000; stops at the first page count where the accumulator holds `count` messages or the page is the last; the accumulator is each fetched page reversed, newest page first |
| `Retrieval.PagesFetched` | slackcli/utils.py:82-89 | the number of pages fetched is the first at which the loop is done, and never more than the pages that exist |
| `Retrieval.PrintMessages` | slackcli/utils.py:93-94 | prints the formatted lines in order, stopping at the first message that cannot be formatted |
| `Retrieval.FormatAllLines` | slackcli/utils.py:93-94 | printed line `i` is the format of message `i`, and printing stops exactly at the first failing message |
| `Retrieval.SearchMessages` | slackcli/utils.py:79-94 | its requests are those of the fetched pages, and its printed lines are the formatted newest `count` messages of the accumulator |
| `Retrieval.MergedIsReversedDelivery` | slackcli/utils.py:84-86 | the accumulator is the reverse of all matches in delivery order |
| `Retrieval.MergedIsChronological` | slackcli/utils.py:84-86 | matches delivered newest first end up in ascending time order |
| `Retrieval.RetrievedIsNewest` | slackcli/utils.py:82-93 | with `count <= 0` no page is fetched and nothing printed; otherwise the printed messages are the last `min(count, n)` of the `n` accumulated ones |
| `Retrieval.FewMessagesAllPrinted` | slackcli/utils.py:82-93 | when all pages hold fewer than `count` messages, every page is fetched and everything is printed |
| `Retrieval.TwoPageExample` | slackcli/utils.py:79-93 | pages [m3, m2] and [m1] give [m1, m2, m3] for three messages, after fetching both pages |
| `Retrieval.OnePageSufficesExample` | slackcli/utils.py:79-93 | the same pages give [m2, m3] for two messages, from page 1 alone |
| `Retrieval.FormatMessage` | slackcli/utils.py:96-103 | formatting fails exactly when the message has neither a user id nor a username; a line starts with `[@<source> <time>] ` and ends with `: <text>` |
| `Retrieval.FormatNamesAuthor` | slackcli/utils.py:98-103 | the author read back from a line is the directory name of a non-empty `user`, and `username` verbatim otherwise |
| `Retrieval.FormatWithoutUserIgnoresDirectory` | slackcli/utils.py:99 | without a user id, the line does not depend on the directory lookup |
| `Base.SliceFromEnd` | slackcli/utils.py:93 | `s[-n:]` is the last `min(n, len)` entries for positive `n`, and the slice from index `-n` otherwise |
| `Base.StripSlice` | slackcli/cli.py:112 | `strip()` gives the slice of the line whose dropped characters before and after are all whitespace, with non-space ends, and is empty exactly for whitespace-only lines |
| `Base.ConcatAppend` | slackcli/cli.py:122 | `''.join` distributes over concatenation: the parts appear in order, unchanged, with nothing between them |
| `Cli.ArgsErrorMessage` | slackcli/cli.py:84-98 | accepts exactly a bare cache rebuild or one of `--dst`/`--src` without a conflicting flag; both given, neither given, `--dst`+`--last`, `--src`+`--file`, `--file`+messages give their messages in that order |
| `Cli.LastZeroWithDstAccepted` | slackcli/cli.py:91-92 | `--last 0` beside `--dst` is not rejected |
| `Cli.Dispatch` | slackcli/cli.py:44-81 | validation first, then cache rebuild, stream (sources, no `--last`), last messages, upload, pipe (no messages), send; each command carries the flags it uses |
| `Cli.ValidationDecidesRejection` | slackcli/cli.py:44-48 | `run` rejects exactly when `args_error_message` gives a message, and rejects with that message |
| `Cli.Run` | slackcli/cli.py:21-81 | a rejected token raises before anything else; a rejection exits 1 after the message and the help text and does nothing else; every other command performs exactly its step's actions and exits 0 or with the step's exception |
| `Cli.SendMessage` | slackcli/cli.py:130-132 | posts the message once to the resolved id with the `--pre` flag, or raises the lookup's error |
| `Cli.RunCommand` | slackcli/cli.py:124-128 | posts `"$ " + command + "\n" + output` verbatim (`pre` true) to the resolved id; a failing command posts nothing |
| `Cli.SendMessages` | slackcli/cli.py:75-80 | sends the messages one after the other and stops at the first exception |
| `Cli.SendPlainPostsEach` | slackcli/cli.py:76-80 | without `--run`, one post per positional message, in argument order, with the `--pre` flag |
| `Cli.SendCommandsPostsOutputs` | slackcli/cli.py:76-78 | with `--run`, post `i` is command `i` and its output with `pre` true whatever `--pre` says; the first failing command ends the run |
| `Cli.SendUnknownDestination` | slackcli/cli.py:130-132 | an unknown destination fails on the first message with nothing posted |
| `Cli.UploadFile` | slackcli/cli.py:134-136 | uploads the path to the resolved id, or raises the lookup's error |
| `Cli.Pipe` | slackcli/cli.py:108-122 | resolves first; at a terminal posts the lines read before the end of input one by one, otherwise at most one combined post |
| `Cli.PostLines` | slackcli/cli.py:110-114 | the loop posts the stripped non-empty lines in order, and reads nothing after the end of input |
| `Cli.LinesReadUpTo` | slackcli/cli.py:111 | the lines read are exactly the input before its first end-of-input marker |
| `Cli.InteractiveEndOfInputExample` | slackcli/cli.py:110-114 | at a terminal, `a`, end of input, `b` posts `a` alone |
| `Cli.ReadLines` | slackcli/cli.py:117-120 | the reading loop collects the input lines in order up to the first empty one |
| `Cli.LinesReadStops` | slackcli/cli.py:117-120 | what is read is a prefix of the input with no empty line, ending at the end of input or at an empty line |
| `Cli.PostBatch` | slackcli/cli.py:115-122 | the loop reads up to the end of input and posts what it read joined, or nothing |
| `Cli.InteractiveLineByLine` | slackcli/cli.py:110-114 | interactive posting distributes over the input: each line's post is fixed when it arrives |
| `Cli.InteractivePostsAreStripped` | slackcli/cli.py:111-114 | every interactive post is non-empty with no surrounding whitespace, at most one per line |
| `Cli.BatchPostIsOne` | slackcli/cli.py:115-122 | non-interactive input gives at most one post, none exactly when input is already at its end, otherwise all lines joined unchanged |
| `Cli.BatchExample` | slackcli/cli.py:115-122 | piping `a\nb\n` gives exactly one post `a\nb\n` |
| `Cli.InteractiveExample` | slackcli/cli.py:110-114 | typing `hello` gives one post `hello` |
| `Cli.LastMessages` | slackcli/cli.py:102-104 | searches each source in order, stopping at the first exception |
| `Cli.LastNothingForNonPositiveCount` | slackcli/cli.py:102-104 | with `--last` zero or negative, no search request is made and nothing is printed |
| `Cli.Main` | slackcli/cli.py:11-19 | the two domain errors exit with code 1 and a message; any other exception is not caught; otherwise the exit code is what `run` returned |
| `Cli.MainNamesOffendingValue` | slackcli/cli.py:14-19 | the message of a domain error names the offending value between quotes, and the value can be read back from it |

## Left out

- Argument parsing and client set-up (`get_parser`, `parse_args`, `slack.init`, `slackcli/utils.py:18-35`). The parsed flags are the `Args` record. A token rejected at set-up is an input that raises `InvalidSlackToken` before validation.
- Network calls. Listings, search pages, posts and uploads are given values or recorded actions. Network failures and the platform's own errors are not modelled.
- File I/O. The JSON load and dump, `os.path.exists` and `os.chmod` are not modelled. The cache file is the value `CacheFile`, and the rebuild is the `WriteCache` action. So the owner-only permission bits and the JSON round trip of the written file are not modelled.
- Timestamp conversion (`datetime.fromtimestamp` in local time). The rendered time is an uninterpreted function of `ts`.
- Standard input mechanics (`select`, `isatty`, `readline`). The terminal flag and the available lines are inputs, and lines that arrive after the non-blocking poll are not modelled.
- `subprocess.check_output`. A command's output is an input, `None` standing for a non-zero exit status, and UTF-8 decoding is not modelled.
- `stream.receive` and `names.username`. Their modules are not part of this model. A stream is the `Stream` action, and the name lookup is an uninterpreted function.
- Sources.CacheSourceIds: requires every live member to carry `profile.display_name`. The KeyError the code would raise otherwise is not modelled.
- Retrieval.SearchMessages: requires the pages of a query to be finite and to end with a page reporting `page == pages`. A search that never reports its last page would loop, and is not modelled.
- Retrieval.FormatMessage: a match without `ts` or `text` would raise a KeyError; this is not modelled.
- `Base.IsSpace`: stripping uses Python 3's `str.isspace` set. Python 2 byte strings would strip ASCII whitespace only.
- Sources.Sources: all ways a cache file can fail to load are one `Malformed` case. Each raises in the code.
