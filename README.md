# Journey mapper

A Dafny model of the build step that indexes a static site's journey documents. The step globs
`content/journey/*.md` and parses each document's front matter for its title and slug, stopping at the
first document that fails. It then inserts one `{title}` entry per journey into a map keyed by slug, so
that a later duplicate slug overwrites an earlier one, and encodes that map to `data/journeys.json`. A
small runner executes such jobs in order, logs `Executing <name>` before each, and stops at the first
failure, wrapping it in the job's name.

Files:

- `outcomes.dfy`: module `Outcomes`, with `Option` (a nil-able error) and `Result` (a value or an error text).
- `journeymapping.dfy`: module `JourneyMapping`. It holds the journey, page and mapping-entry values, the
  reference definitions `Discover` (fail-fast discovery) and `Aggregate` (sequential map insertion), the
  lemmas about them, and the class `JourneyMapper`. That class's field `infoLog` holds the lines its logger
  has written. Its ghost field `parsed` records every path handed to the parser.
- `main.dfy`: module `Main`. It holds the runner loop `Run`, its event trace and the lemmas about that trace.

Inputs that the model takes as parameters, because they are I/O or foreign code:

- The glob's outcome is a `Result<seq<string>>`.
- Opening one document and parsing it with the page library is a `Parser`, that is
  `string -> Result<Page>`.
- Opening the output file and encoding into it each fail or not. Each is an `Option<string>` error.
- A runner's `Run` is represented by the error it returns (`Runner.outcome`).

## Model

| member | source | states |
|---|---|---|
| `JourneyMapping.NewJourney` | journeymapping.go:22-36 | succeeds exactly when opening and parsing succeed; `Slug` is the page's slug and `Name` the page's title; a failure passes the cause on unchanged |
| `JourneyMapping.FirstFailure` | journeymapping.go:41-45 | the index of the first candidate that fails to parse: every earlier one parses, and it fails (or is `len(candidates)` when none fails) |
| `JourneyMapping.DiscoverSucceeds` | journeymapping.go:38-50 | discovery succeeds iff every candidate parses; then it yields exactly one journey per candidate, the i-th being the i-th candidate's journey |
| `JourneyMapping.DiscoverFails` | journeymapping.go:41-45 | on failure the error is `Failed to parse <path>: <cause>` for the first failing candidate |
| `JourneyMapping.StopsAt` | journeymapping.go:41-45 | a failure at index i, after i successes, is the reported one, and the parser has seen exactly the candidates up to and including i |
| `JourneyMapping.NoCandidates` | journeymapping.go:39-40 | a failed glob or an empty candidate list yields no journeys and no error |
| `JourneyMapping.AggregateKeys` | journeymapping.go:58-61 | the mapping's key set equals the set of the journeys' slugs |
| `JourneyMapping.AggregateLastWins` | journeymapping.go:58-61 | a slug maps to the title of the last journey carrying that slug |
| `JourneyMapping.AggregateEntriesFromJourneys` | journeymapping.go:58-61 | every entry is the title of some journey with that key |
| `JourneyMapping.ParseFailureStopsBeforeOutput` | journeymapping.go:52-57 | if any candidate fails to parse, the job returns discovery's error for the first failing path and hands nothing to the output file |
| `JourneyMapping.WrittenKeysAreParsedSlugs` | journeymapping.go:52-67 | when every candidate parses and the file opens, the mapping written has exactly the parsed slugs as keys |
| `JourneyMapping.JourneyMapper.constructor` | journeymapping.go:94-98 | a new mapper has written no log lines |
| `JourneyMapping.JourneyMapper.Name` | journeymapping.go:83-85 | the job's name is always `journey mapper` |
| `JourneyMapping.JourneyMapper.FindJourneys` | journeymapping.go:38-50 | the result is `Discover` of the glob's candidates (none when the glob fails); one `Found <path>` line is logged per parsed candidate before the first failure; the parser is given the candidates in order, and none after the first failing one |
| `JourneyMapping.JourneyMapper.BuildJourneyMapping` | journeymapping.go:52-73 | returns discovery's error, else the open error, else the encode error; the encoder receives the mapping `Aggregate` of the journeys only when discovery and opening succeed; `data/journeys.json updated` is logged only on success |
| `JourneyMapping.JourneyMapper.Run` | journeymapping.go:87-90 | running the job is building the mapping, with the same outcome, output and log |
| `Main.FirstFailedRunner` | main.go:23-28 | the index of the first runner whose `Run` fails: every earlier runner succeeded |
| `Main.TraceShape` | main.go:23-25 | in the trace, runner i's `Executing <name>` line comes immediately before its call, and runners are called in argument order |
| `Main.InvokedBelow` | main.go:23-28 | a trace of the first n runners calls no runner outside them |
| `Main.NoCallAfterFailure` | main.go:23-28 | a runner is called only if every runner before it succeeded |
| `Main.Run` | main.go:22-31 | returns nil iff every runner's `Run` returns nil (so nil for no runners); otherwise `Failed to execute runner <name>: <err>` for the first failing runner; the events are the log line and call of each runner up to and including the first failing one |
| `Main.ReportsParseFailure` | main.go:9-10 | when a journey document fails to parse, the program's error is `Failed to execute runner journey mapper: Failed to parse <path>: <cause>` |

## Left out

- File-system access (`os.Open`, `Close`, `os.OpenFile`, the `filepath.Glob` enumeration) is not modelled. The
  glob's outcome and the open and encode failures are inputs. Handle release by `defer` leaves no trace in a
  model without handles.
- `hugolib.NewPageFrom` is foreign code. It is the `Parser` input, together with the `os.Open` of the same path.
- JSON encoding (`encoding/json`) is not modelled. `written` is the map handed to the encoder. When encoding
  fails, the error is returned and whatever partial bytes reached the file are not modelled.
- The output file is opened without truncation (`os.O_CREATE|os.O_WRONLY`). Stale trailing bytes from a longer
  earlier file are a disk-level effect this model does not represent.
- The process-wide `log` package is represented only by `Logged` events in `Main.Run`'s trace. `log.Fatal`
  and the process exit in `main` are not modelled.
- `main` itself is covered only for the journey mapper as the single runner (`Main.ReportsParseFailure`).
- The info logger's construction (stderr, flags 0) is not modelled. Its lines are kept as strings carrying the
  `[journeymapper] ` prefix, without the trailing newline that `Printf` adds.
- Slugs are not checked for being non-empty or unique, because the code checks neither. Duplicate slugs
  overwrite silently (`AggregateLastWins`).
