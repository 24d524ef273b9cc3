# camper — a Dafny model of the collection client

camper is a command-line client for a music marketplace. It lists the albums
of a fan's collection or wishlist. The website pages these lists: each POST
returns up to 20 items, a continuation token (`last_token`) and a flag
(`more_available`). The client keeps asking with the last token until the
flag is false. The first request carries a token made from the clock,
`"<unix seconds>:0:a::"`.

This project models that core in Dafny:

- `prelude.dfy` (module `Prelude`): `Option`, `Result`, the error kinds, the
  Rust `u32` and `i64` ranges, and small text helpers.
- `decimal.dfy` (module `Decimal`): how Rust's `{}` writes an integer, with a
  reader proving that the rendering loses nothing.
- `request.dfy` (module `Request`, for `src/client/request.rs`): the request
  body with its fixed page size, the page and item shapes, decoding of the
  RFC 2822 `added` date, the clock token, and the `QueryBuilder` class
  with its setters.
- `client.dfy` (module `Client`, for `src/client/mod.rs`): the two endpoints
  and the `list` loop. The loop is an imperative method, proved equal to a
  reference function `Drain`. `Drain` is also characterised by a declarative
  predicate (`IsRunOf`: right requests, right answers, continue while the
  flag is true, stop at the first false flag or failure). The lemmas prove
  that `Drain` satisfies it and that it is the only transcript that does.
- `configuration.dfy` (module `Configuration`, for `src/config.rs` and
  `src/format.rs`): the settings record, its validity rule, and `Display`.
  `Display` is an imperative method building the text line by line. A reader
  proves that the display reads back as the same configuration.
- `app.dfy` (module `App`, for `src/main.rs`): the gate that refuses
  unconfigured use, the `configure` dispatch, the field-by-field update with
  its messages (logged only after a successful save), and the fan id and
  endpoint choices of `list`. `Run` ties them together.

The outside world is passed in as parameters:

- The server, including HTTP and JSON, is a total function
  `Post -> Result<RawResponse>`.
- chrono's RFC 2822 parser is a function `string -> Option<OffsetDateTime>`.
- The clock is an `i64` argument `now`.
- Whether a path exists is a function `Path -> bool`.
- `Config::save` is a function `Config -> Result<()>`.
- The display names of the formats are a function `Format -> string`.

The source loop has no iteration limit. The model adds a ghost `fuel` and
requires `StopsWithin`: the server's flag turns false, or a fetch fails,
within `fuel` pages. This is an assumption about the server, not a demand
on the caller. `DrainFuelIrrelevant` shows the amount of fuel does not
change the result, and `RunStops` shows every run of the loop meets the
assumption. `EndlessServerNeverStops` shows what it excludes: a server that
always answers with a page whose flag is true, on which the source loops
forever.

Where the code and its documentation differ, the model follows the code:

- An `added` string that is not a valid RFC 2822 date is an `unwrap` panic
  in the source, not a recoverable error. The model returns
  `Err(BadDate(text))` for the whole call. No item and no partial list come
  back, and no default date is substituted.
- `src/main.rs:255,257` calls `list(fan_id, &identity)` with two arguments.
  The `List` trait in `src/client/mod.rs:15` takes only `fan_id`. The model
  follows `mod.rs`: the identity is unwrapped as in `main.rs:249` and
  otherwise unused.

## Model

| member | source | states |
|---|---|---|
| Client.QueryUrl | src/client/mod.rs:41-56 | each kind's endpoint is the shared prefix `https://bandcamp.com/api/fancollection/1/` followed by `collection_items` or `wishlist_items` |
| Client.QueryUrlsDiffer | src/client/mod.rs:41-56 | the two endpoints are equal exactly when the kinds are |
| Client.Drain | src/client/mod.rs:15-35 | reference drain: at most `fuel` POSTs, at least one, and one page per POST except a final failed one |
| Client.Outcome | src/client/mod.rs:24-34 | the call fails exactly when the transcript ends in a failure and then returns that error; otherwise it returns the concatenated items of all pages |
| Client.DrainIsRun | src/client/mod.rs:15-35 | the reference drain satisfies the declarative description of a run (requests, answers, continue while `more_available`, stop at the first false flag or error) |
| Client.RunIsDrain | src/client/mod.rs:15-35 | any transcript satisfying that description is the reference drain, so the server's answers fix the run |
| Client.RunStops | src/client/mod.rs:19-32 | every run ends within as many pages as it made requests |
| Client.DrainFuelIrrelevant | src/client/mod.rs:19-32 | the fuel bound does not change the drain |
| Client.RequestsOfDrain | src/client/mod.rs:18-27 | every POST goes to the same URL, for the same fan id, with count 20; the first carries the start token and POST i+1 carries page i's `last_token` |
| Client.DrainStopsAtFlag | src/client/mod.rs:29-31 | in a successful drain, page i has `more_available` exactly when it is not the last page: stop right after the first false flag and never before |
| Client.EmptyPageContinues | src/client/mod.rs:26-31 | a page with no items but the flag true is followed by another request; the item count is never consulted |
| Client.DrainFailsIff | src/client/mod.rs:20-24 | the call fails exactly when a fetch fails; then it is the last POST and every earlier fetch succeeded |
| Client.EndlessServerNeverStops | src/client/mod.rs:19-32 | a server that always answers with a page flagged `more_available` never lets the loop stop, for any bound: these are the servers the termination assumption excludes |
| Client.FlattenAppend | src/client/mod.rs:26 | the items of two runs of pages are the items of the first followed by those of the second |
| Client.FlattenAt | src/client/mod.rs:26-34 | item k of page j sits in the result right after all items of the earlier pages: order is kept and nothing is re-sorted |
| Client.TwoPageScenario | src/client/mod.rs:15-35 | pages [A, B] (flag true) then [C] (flag false): exactly two POSTs, the second with the first page's token, result [A, B, C] |
| Client.EmptyCollectionScenario | src/client/mod.rs:15-35 | one empty page with the flag false: one POST, result empty |
| Client.QueryPage | src/client/mod.rs:20-24 | building a query with the fan id and token and sending it fetches exactly the POST for that token |
| Client.List | src/client/mod.rs:15-35 | the loop returns the reference outcome: the error of the first failed fetch, or all items of all pages in order; the POSTs it sent are the reference drain's |
| Request.NewRequestData | src/client/request.rs:21-29 | the page size is always 20; fan id and token are stored unchanged |
| Request.ToUtc | src/client/request.rs:59-61 | converting to UTC subtracts the zone offset from the wall-clock reading |
| Request.ToUtcZoneIndependent | src/client/request.rs:59-61 | the same instant written in two zones converts to the same UTC timestamp |
| Request.ToUtcAtZeroOffset | src/client/request.rs:59-61 | a date written at offset +0000 keeps its wall-clock reading as its UTC timestamp |
| Request.DecodeAdded | src/client/request.rs:54-64 | a parsable date gives its UTC instant; an unparsable one is an error carrying the text, never a default |
| Request.DecodeItem | src/client/request.rs:45-64 | an item decodes exactly when its date parses, keeping band, album id and title |
| Request.DecodeItems | src/client/request.rs:33-64 | a page's items decode exactly when every date parses, in order and one for one; otherwise the error names the first date that does not parse, every earlier date having parsed |
| Request.MalformedDateFailsPage | src/client/request.rs:54-64 | one malformed `added` anywhere in a page fails the whole page with a date error |
| Request.DecodeResponse | src/client/request.rs:33-38 | a page decodes exactly when its items do, keeping `last_token` and `more_available` |
| Request.UtcNowToken | src/client/request.rs:114-116 | the token is the decimal timestamp followed by `:0:a::` |
| Request.UtcNowTokenTimestamp | src/client/request.rs:114-116 | the token's first field reads back as the timestamp |
| Request.ChooseToken | src/client/request.rs:97-100 | a set token is sent as is; otherwise the clock token is sent |
| Request.QueryBuilder.constructor | src/client/request.rs:69-82 | a new builder has the url, fan id 0 and no token |
| Request.QueryBuilder.FanId | src/client/request.rs:84-88 | sets only the fan id and returns the same builder |
| Request.QueryBuilder.Token | src/client/request.rs:90-94 | sets only the token, to `Some`, and returns the same builder |
| Request.QueryBuilder.Query | src/client/request.rs:96-111 | sends one POST to the builder's url with its fan id, the chosen token and count 20, and returns the decoded page or the error |
| Decimal.RenderRoundTrip | src/client/request.rs:115 | the decimal rendering of an integer reads back as that integer |
| Decimal.RenderInjective | src/client/request.rs:115 | different integers render differently, so different clock readings give different tokens |
| Configuration.New | src/config.rs:26-33 | all four settings are `Some` of exactly the given values |
| Configuration.IsValid | src/config.rs:62-79 | valid exactly when fan id is `Some` and positive, identity `Some` and non-empty, library `Some` and existing, and format `Some` |
| Configuration.DefaultNeverValid | src/config.rs:62-79 | the default configuration, with nothing set, is never valid |
| Configuration.NewValidIff | src/config.rs:62-79 | a configuration from `new` is valid exactly when the fan id is positive, the identity non-empty and the library exists |
| Configuration.Label | src/config.rs:109-120 | every display label is ten characters wide, so the values line up |
| Configuration.LabelsDistinct | src/config.rs:109-120 | no two settings share a label |
| Configuration.Display | src/config.rs:105-123 | the successive appends build one newline-terminated, labelled line per present setting, in the order fan id, identity, library, format |
| Configuration.RenderedEmptyIff | src/config.rs:107-122 | the display is empty exactly when no setting is present |
| Configuration.DisplayRoundTrip | src/config.rs:105-123 | when values hold no newline and format names are distinct, reading the display back gives the same configuration: each present setting is shown with its value, each absent one not at all |
| App.Admitted | src/main.rs:115-120 | `configure` always runs; any other subcommand runs exactly when the configuration is valid |
| App.OnlyConfigureWhenUnconfigured | src/main.rs:109-120 | with nothing configured, only `configure` runs |
| App.Dispatch | src/main.rs:165-175 | `print` wins over `update`, which wins over creating a configuration |
| App.Merged | src/main.rs:211-235 | every provided option replaces its setting and every other setting is kept |
| App.MergeIdempotent | src/main.rs:219-235 | applying the same update twice gives the same configuration as once |
| App.MergeAllProvided | src/main.rs:219-235 | an update providing every option forgets the old configuration |
| App.UpdateMessage | src/main.rs:219-235 | every message ends with a newline |
| App.MessagesReportUpdates | src/main.rs:217-235 | one message per provided option and none for the others, in the order fan id, identity, library, format, each showing the value the update stored |
| App.ConfigureUpdate | src/main.rs:211-243 | saves the merged configuration; logs the messages, in order, only when the save succeeded, and nothing when it failed, returning the save's error |
| App.LogEach | src/main.rs:238-240 | every message reaches the log, in order |
| App.SelectFanId | src/main.rs:248 | the fan id given on the command line, else the configured one |
| App.ListKind | src/main.rs:254-258 | the wishlist exactly when the flag is set, else the collection |
| App.ListEndpoint | src/main.rs:254-258 | `list` posts to the wishlist endpoint exactly when the flag is set, and to the collection endpoint otherwise |
| App.AdmittedListHasCredentials | src/main.rs:248-249 | once past the gate, `list` always has a fan id (positive unless given on the command line) and a non-empty identity |
| App.ListItems | src/main.rs:245-258 | a missing fan id or identity is an error; otherwise the result is the drain of the chosen endpoint for the chosen fan id, starting from the clock token |
| App.Run | src/main.rs:100-128 | refuses with the fixed message exactly when the gate does; otherwise prints the display, runs the update, hands over to creation, lists, or does nothing, as the subcommand and options say |

## Left out

- HTTP and JSON (reqwest, serde): the server is a function parameter that answers a POST with a raw page or an error. Status codes and body shapes are not distinguished.
- Async and the tokio runtime: the loop is strictly sequential and is modelled as an ordinary method.
- The wall clock (`Utc::now()`): the timestamp is the `now` parameter.
- chrono's RFC 2822 parser: a function parameter. Only its failure being fatal is modelled; the calendar arithmetic behind it is not.
- `Config::load`, `Config::save`, `config_file_path` and TOML: file-system I/O. `save` is a parameter; load and the path lookup are not part of this model.
- `Path::exists` and `canonicalize`: existence is a parameter; paths are plain strings as `display()` shows them.
- clap argument parsing and `--help` text: subcommands and options arrive as already-parsed datatypes.
- `configure_create` and `unwrap_or_prompt` (src/main.rs:177-209, 301-312): interactive dialoguer prompts. `Run` returns `Create(opts)` at that point.
- The comfy_table listing and the item count line (src/main.rs:259-283): console rendering. `ListItems` stops at the item list.
- The logger set-up and colours (src/main.rs:133-160): messages are modelled as the sequence that reaches the log.
- `download` and `sync` (src/main.rs:288-294): stubs that do nothing; `Run` returns `Done`.
- src/format.rs names: strum's derived strings are not part of this model. The `Format -> string` parameter stands for them.
- Client.List: does not model a server that never ends the drain. It assumes the flag turns false, or a fetch fails, within `fuel` pages.
- Request.DecodeAdded: models the `unwrap` panic as an error result returned to the caller. The process abort itself is not modelled.
- App.ListItems: models the `unwrap` panics on a missing fan id or identity (src/main.rs:248-249) as `Err(Missing(..))`. `AdmittedListHasCredentials` shows neither can happen once the configuration gate is passed.
- Configuration.DisplayRoundTrip: assumes values contain no newline and distinct format names. The display itself does not escape newlines.
