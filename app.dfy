/** The command-line application (src/main.rs): the gate that refuses
    unconfigured use, the `configure` dispatch and its field-by-field update,
    and the choices `list` makes before it drains a collection. */
module App {
  import opened Prelude
  import opened Request
  import opened Configuration
  import Decimal
  import Client

  // ---------------------------------------------------------------------
  // Command-line options

  datatype ConfigureOpts = ConfigureOpts(
    fanId: Option<u32>,
    identity: Option<string>,
    library: Option<string>,
    defaultFormat: Option<Format>,
    update: bool,
    printOnly: bool)

  datatype ListOpts = ListOpts(fanId: Option<u32>, wishlist: bool)

  datatype DownloadOpts = DownloadOpts(format: Option<Format>, albumIds: seq<u32>)

  datatype SyncOpts = SyncOpts(format: Option<Format>, directory: Option<Path>)

  datatype Subcommand =
    | Configure(configureOpts: ConfigureOpts)
    | List(listOpts: ListOpts)
    | Download(downloadOpts: DownloadOpts)
    | Sync(syncOpts: SyncOpts)

  // ---------------------------------------------------------------------
  // The gate

  const REFUSAL := "Missing or invalid configuration; please run `camper configure` and try again."

  /** Whether `main` lets the subcommand run: `configure` always, anything
      else only with a valid configuration. */
  function Admitted(sub: Subcommand, config: Config, pathExists: Path -> bool): (ok: bool)
    ensures ok <==> sub.Configure? || IsValid(config, pathExists)
    ensures !sub.Configure? ==> (ok <==> IsValid(config, pathExists))
  {
    !(!sub.Configure? && !IsValid(config, pathExists))
  }

  /** Before anything is configured, only `configure` can run. */
  lemma OnlyConfigureWhenUnconfigured(sub: Subcommand, pathExists: Path -> bool)
    ensures Admitted(sub, DEFAULT, pathExists) <==> sub.Configure?
  {
    DefaultNeverValid(pathExists);
  }

  // ---------------------------------------------------------------------
  // configure

  datatype ConfigureAction = PrintConfig | UpdateConfig | CreateConfig

  /** `configure`: `print` wins over `update`, which wins over creating a
      new configuration. */
  function Dispatch(opts: ConfigureOpts): (a: ConfigureAction)
    ensures a == PrintConfig <==> opts.printOnly
    ensures a == UpdateConfig <==> !opts.printOnly && opts.update
    ensures a == CreateConfig <==> !opts.printOnly && !opts.update
  {
    if opts.printOnly then PrintConfig else if opts.update then UpdateConfig else CreateConfig
  }

  /** The configuration after an update: every provided option replaces its
      setting, every other setting is kept. */
  function Merged(config: Config, opts: ConfigureOpts): (c: Config)
    ensures opts.fanId.Some? ==> c.fanId == opts.fanId
    ensures opts.fanId.None? ==> c.fanId == config.fanId
    ensures opts.identity.Some? ==> c.identity == opts.identity
    ensures opts.identity.None? ==> c.identity == config.identity
    ensures opts.library.Some? ==> c.library == opts.library
    ensures opts.library.None? ==> c.library == config.library
    ensures opts.defaultFormat.Some? ==> c.format == opts.defaultFormat
    ensures opts.defaultFormat.None? ==> c.format == config.format
  {
    Config(
      opts.fanId.Or(config.fanId),
      opts.identity.Or(config.identity),
      opts.library.Or(config.library),
      opts.defaultFormat.Or(config.format))
  }

  /** Applying the same update twice changes nothing more. */
  lemma MergeIdempotent(config: Config, opts: ConfigureOpts)
    ensures Merged(Merged(config, opts), opts) == Merged(config, opts)
  {
  }

  /** An update with every setting provided forgets the old configuration. */
  lemma MergeAllProvided(config: Config, other: Config, opts: ConfigureOpts)
    requires opts.fanId.Some? && opts.identity.Some? && opts.library.Some? && opts.defaultFormat.Some?
    ensures Merged(config, opts) == Merged(other, opts)
  {
  }

  /** Whether an option for the setting `f` was given. */
  predicate Provided(opts: ConfigureOpts, f: Field) {
    match f
    case FanIdField => opts.fanId.Some?
    case IdentityField => opts.identity.Some?
    case LibraryField => opts.library.Some?
    case FormatField => opts.defaultFormat.Some?
  }

  /** How many options the update provides. */
  function ProvidedCount(opts: ConfigureOpts): nat {
    (if opts.fanId.Some? then 1 else 0) + (if opts.identity.Some? then 1 else 0)
    + (if opts.library.Some? then 1 else 0) + (if opts.defaultFormat.Some? then 1 else 0)
  }

  /** The message reporting that setting `f` now shows `v`. */
  function UpdateMessage(f: Field, v: string): (m: string)
    ensures |m| > 0 && m[|m| - 1] == '\n'
  {
    match f
    case FanIdField => "Updated fan ID to " + v + "\n"
    case IdentityField => "Updated identity to " + v + "\n"
    case LibraryField => "Updated library to " + v + "\n"
    case FormatField => "Updated default format to " + v + "\n"
  }

  /** The option's value as its message shows it. */
  function Shown(opts: ConfigureOpts, f: Field, names: FormatNames): (v: Option<string>)
    ensures v.Some? <==> Provided(opts, f)
  {
    match f
    case FanIdField => if opts.fanId.Some? then Some(Decimal.Render(opts.fanId.value)) else None
    case IdentityField => opts.identity
    case LibraryField => opts.library
    case FormatField => if opts.defaultFormat.Some? then Some(names(opts.defaultFormat.value)) else None
  }

  /** The message for setting `f`, if its option was given. */
  function MessageFor(opts: ConfigureOpts, f: Field, names: FormatNames): seq<string> {
    if Provided(opts, f) then [UpdateMessage(f, Shown(opts, f, names).value)] else []
  }

  /** The messages `configure_update` collects, in setting order. */
  function UpdateMessages(opts: ConfigureOpts, names: FormatNames): seq<string> {
    MessageFor(opts, FanIdField, names)
    + (MessageFor(opts, IdentityField, names) + (MessageFor(opts, LibraryField, names) + MessageFor(opts, FormatField, names)))
  }

  /** The report for setting `f` after `config` was updated with `opts`:
      the stored value as the display shows it, if the option was given. */
  function Report(config: Config, opts: ConfigureOpts, f: Field, names: FormatNames): (r: seq<string>)
    ensures |r| == if Provided(opts, f) then 1 else 0
  {
    if Provided(opts, f) then [UpdateMessage(f, Value(Merged(config, opts), f, names).value)] else []
  }

  /** A provided option's message shows the value the update stored, as the
      display would show it. */
  lemma ShownIsStored(config: Config, opts: ConfigureOpts, f: Field, names: FormatNames)
    requires Provided(opts, f)
    ensures Shown(opts, f, names) == Value(Merged(config, opts), f, names)
  {
  }

  /** One message per provided option and none for the others, in setting
      order, each reporting the value the update stored. */
  lemma MessagesReportUpdates(config: Config, opts: ConfigureOpts, names: FormatNames)
    ensures UpdateMessages(opts, names) ==
      Report(config, opts, FanIdField, names)
      + (Report(config, opts, IdentityField, names)
      + (Report(config, opts, LibraryField, names) + Report(config, opts, FormatField, names)))
    ensures |UpdateMessages(opts, names)| == ProvidedCount(opts)
  {
    forall f | Provided(opts, f)
      ensures MessageFor(opts, f, names) == Report(config, opts, f, names)
    {
      ShownIsStored(config, opts, f, names);
    }
  }

  /** `configure_update`: merge the provided options into `config`, save
      it, and only once the save succeeded log one message per change. */
  method ConfigureUpdate(config: Config, opts: ConfigureOpts, save: Config -> Result<()>, names: FormatNames)
    returns (result: Result<()>, saved: Config, logged: seq<string>)
    ensures saved == Merged(config, opts)
    ensures result == save(saved)
    ensures result.Ok? ==> logged == UpdateMessages(opts, names)
    ensures result.Err? ==> logged == []
  {
    var cfg := config;
    var messages: seq<string> := [];
    if opts.fanId.Some? {
      messages := messages + [UpdateMessage(FanIdField, Decimal.Render(opts.fanId.value))];
      cfg := cfg.(fanId := opts.fanId);
    }
    assert messages == MessageFor(opts, FanIdField, names);
    ghost var m0 := messages;
    if opts.identity.Some? {
      messages := messages + [UpdateMessage(IdentityField, opts.identity.value)];
      cfg := cfg.(identity := opts.identity);
    }
    assert messages == m0 + MessageFor(opts, IdentityField, names);
    ghost var m1 := messages;
    if opts.library.Some? {
      messages := messages + [UpdateMessage(LibraryField, opts.library.value)];
      cfg := cfg.(library := opts.library);
    }
    assert messages == m1 + MessageFor(opts, LibraryField, names);
    ghost var m2 := messages;
    if opts.defaultFormat.Some? {
      messages := messages + [UpdateMessage(FormatField, names(opts.defaultFormat.value))];
      cfg := cfg.(format := opts.defaultFormat);
    }
    assert messages == m2 + MessageFor(opts, FormatField, names);
    Regroup(MessageFor(opts, FanIdField, names), MessageFor(opts, IdentityField, names),
            MessageFor(opts, LibraryField, names), MessageFor(opts, FormatField, names));
    assert messages == UpdateMessages(opts, names);
    assert cfg == Merged(config, opts);
    saved := cfg;
    result := save(cfg);
    logged := [];
    if result.Err? {
      return;
    }
    logged := LogEach(messages);
  }

  /** `for message in messages { log::info!(...) }`: what reaches the log,
      in order. */
  method LogEach(messages: seq<string>) returns (logged: seq<string>)
    ensures logged == messages
  {
    logged := [];
    for i := 0 to |messages|
      invariant logged == messages[..i]
    {
      logged := logged + [messages[i]];
    }
    assert messages[..|messages|] == messages;
  }

  // ---------------------------------------------------------------------
  // list

  /** `opts.fan_id.or(config.fan_id)`: the fan id given on the command line,
      else the configured one. */
  function SelectFanId(opts: ListOpts, config: Config): (r: Option<u32>)
    ensures opts.fanId.Some? ==> r == opts.fanId
    ensures opts.fanId.None? ==> r == config.fanId
  {
    opts.fanId.Or(config.fanId)
  }

  /** The list `list` drains: the wishlist when asked for, else the
      collection. */
  function ListKind(opts: ListOpts): (k: Client.ResourceKind)
    ensures k == Client.Wishlist <==> opts.wishlist
    ensures k == Client.Collection <==> !opts.wishlist
  {
    if opts.wishlist then Client.Wishlist else Client.Collection
  }

  /** `list` posts to the wishlist endpoint exactly when asked to, and to
      the collection endpoint otherwise. */
  lemma ListEndpoint(opts: ListOpts)
    ensures Client.QueryUrl(ListKind(opts)) == Client.QueryUrl(Client.Wishlist) <==> opts.wishlist
    ensures Client.QueryUrl(ListKind(opts)) == Client.QueryUrl(Client.Collection) <==> !opts.wishlist
  {
    Client.QueryUrlsDiffer(Client.Wishlist, Client.Collection);
  }

  /** Past the gate, `list`'s two unwraps always find a value. */
  lemma AdmittedListHasCredentials(opts: ListOpts, config: Config, pathExists: Path -> bool)
    requires Admitted(List(opts), config, pathExists)
    ensures SelectFanId(opts, config).Some?
    ensures opts.fanId.None? ==> SelectFanId(opts, config).value > 0
    ensures config.identity.Some? && config.identity.value != ""
  {
  }

  /** `list` up to its table: choose the fan id and the list, then drain it.
      An absent fan id or identity is an `unwrap` panic, here an error. */
  method ListItems(config: Config, opts: ListOpts, now: i64, server: Server, parse: Rfc2822Parser, ghost fuel: nat)
    returns (result: Result<seq<QueryItem>>)
    requires SelectFanId(opts, config).Some? ==>
      Client.StopsWithin(Client.Fetcher(server, parse), Client.QueryUrl(ListKind(opts)),
                         SelectFanId(opts, config).value, UtcNowToken(now), fuel)
    ensures SelectFanId(opts, config).None? ==> result == Err(Missing("fan_id"))
    ensures SelectFanId(opts, config).Some? && config.identity.None? ==> result == Err(Missing("identity"))
    ensures SelectFanId(opts, config).Some? && config.identity.Some? ==>
      result == Client.Outcome(Client.Drain(Client.Fetcher(server, parse), Client.QueryUrl(ListKind(opts)),
                                            SelectFanId(opts, config).value, UtcNowToken(now), fuel))
  {
    var fanId := opts.fanId.Or(config.fanId);
    if fanId.None? {
      return Err(Missing("fan_id"));
    }
    if config.identity.None? {
      return Err(Missing("identity"));
    }
    var kind := if opts.wishlist then Client.Wishlist else Client.Collection;
    ghost var sent;
    result, sent := Client.List(kind, fanId.value, now, server, parse, fuel);
  }

  // ---------------------------------------------------------------------
  // main

  /** What one run of the program does after loading the configuration. */
  datatype Effect =
    | Refused(message: string)                                      // logged, then exit status 1
    | Printed(text: string)                                         // written to standard error
    | Updated(result: Result<()>, saved: Config, logged: seq<string>)
    | Create(opts: ConfigureOpts)                                   // handed to the interactive setup
    | Listed(items: Result<seq<QueryItem>>)
    | Done                                                          // `download` and `sync` do nothing yet

  /** `main` after `Config::load` and argument parsing: the gate, then the
      subcommand. */
  method Run(sub: Subcommand, config: Config, pathExists: Path -> bool, save: Config -> Result<()>,
             names: FormatNames, now: i64, server: Server, parse: Rfc2822Parser, ghost fuel: nat)
    returns (effect: Effect)
    requires sub.List? && SelectFanId(sub.listOpts, config).Some? ==>
      Client.StopsWithin(Client.Fetcher(server, parse), Client.QueryUrl(ListKind(sub.listOpts)),
                         SelectFanId(sub.listOpts, config).value, UtcNowToken(now), fuel)
    ensures effect.Refused? <==> !Admitted(sub, config, pathExists)
    ensures effect.Refused? ==> effect.message == REFUSAL
    ensures !effect.Refused? && sub.Configure? ==> match Dispatch(sub.configureOpts)
      case PrintConfig => effect == Printed(Rendered(config, names) + "\n")
      case UpdateConfig =>
        && effect.Updated?
        && effect.saved == Merged(config, sub.configureOpts)
        && effect.result == save(effect.saved)
        && effect.logged == (if effect.result.Ok? then UpdateMessages(sub.configureOpts, names) else [])
      case CreateConfig => effect == Create(sub.configureOpts)
    ensures !effect.Refused? && sub.List? ==>
      effect == Listed(Client.Outcome(Client.Drain(Client.Fetcher(server, parse), Client.QueryUrl(ListKind(sub.listOpts)),
                                                   SelectFanId(sub.listOpts, config).value, UtcNowToken(now), fuel)))
    ensures !effect.Refused? && (sub.Download? || sub.Sync?) ==> effect == Done
  {
    if !sub.Configure? && !IsValid(config, pathExists) {
      return Refused(REFUSAL);
    }
    match sub
    case Configure(opts) =>
      if opts.printOnly {
        var text := Display(config, names);
        effect := Printed(text + "\n");
      } else if opts.update {
        var result, saved, logged := ConfigureUpdate(config, opts, save, names);
        effect := Updated(result, saved, logged);
      } else {
        effect := Create(opts);
      }
    case List(opts) =>
      var items := ListItems(config, opts, now, server, parse, fuel);
      effect := Listed(items);
    case Download(_) =>
      effect := Done;
    case Sync(_) =>
      effect := Done;
  }
}
