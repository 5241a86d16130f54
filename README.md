# dclist core, modelled in Dafny

dclist lists the services of a docker-compose project and lets the user pick
one published port in fzf, which then opens the port's local URL. This project
models three pure parts of that tool and proves properties about them:

- **Command-template lookup** (`config.rs`, module `Configuration`). The
  optional TOML configuration is modelled as datatypes over `map` and
  `Option`. `CommandTemplate` picks the most specific command for a service
  label and an internal port: the service+port command first, then the
  service command, then the global command, and otherwise nothing. The port
  is looked up under its decimal string. The model also gives the same lookup
  as an explicit ordered list of levels (`Levels`, `FirstSome`) and proves
  that the two agree.
- **Discovery records** (`dockercompose.rs`, module `DockerCompose`). The
  records printed by `<docker-compose path> ps --format json` (`ServiceJson`, `PublisherJson`)
  are mapped to `Service` and `ServicePort`. An absent `Publishers` list
  gives no ports. `ServicePort::url` is modelled as `Url`. The Rust
  constructors `ServicePort::new` and `Service::new` only store their
  arguments, so they are the datatype constructors `ServicePort(...)` and
  `Service(...)`.
- **Selection lines** (`main.rs`, module `Listing`). `main` folds the
  service list into one line per (service, port), of the form
  `{service}:{port} [{state}] {url}`. `FormatLines` models this as a method
  with two nested loops and is proved equal to the specification function
  `Lines`. The lemmas state how many lines there are, where each line sits,
  and that the third field of each line, the field fzf opens (`{3}`), is the
  URL.

Supporting modules: `Optional` holds `Option` and Rust's `Option::or`.
`Decimal` holds the `u16` port type and its decimal rendering `Show`, with
the proof that rendering can be read back (`ValueShow`) and so is injective.

Behaviour of the code that the model keeps as it is:
- `command_template` has no built-in URL fallback: it returns `None` when no
  level supplies a command (src/config.rs:45-46).
- A command template is returned as stored; no `{port}` placeholder is
  substituted anywhere in the code.
- The line list keeps discovery order and keeps duplicates: `main` neither
  sorts nor deduplicates (src/main.rs:5-21). Column alignment is left to the
  external `column -t` (src/fzf.rs:19-20).
- `main` does not consult the configuration (src/main.rs:1-24).

## Model

| member | source | states |
|---|---|---|
| Decimal.Show | src/config.rs:32 | the rendering of a port is non-empty, all decimal digits, and starts with `0` only for zero, in which case it is the single digit `0` (canonical `to_string`) |
| Decimal.ValueShow | src/config.rs:32 | reading the digits of `Show(n)` back gives `n` |
| Decimal.ShowInjective | src/config.rs:32 | two numbers render to the same string exactly when they are equal |
| Decimal.ShowU16Length | src/dockercompose.rs:24-25 | a `u16` renders to 1 to 5 digits |
| Configuration.CommandTemplate | src/config.rs:31-47 | a present result is a string stored in the configuration; the result is absent exactly when the global command is absent and, if the service is configured, its command and its entry for this port's key are absent |
| Configuration.FirstSome | src/config.rs:34-46 | the result of an ordered list of lookups is absent iff every lookup is absent; otherwise it is some lookup's value and every earlier lookup is absent |
| Configuration.TemplateIsFirstLevel | src/config.rs:31-47 | the nested `and_then`/`or` chain equals the first hit of the list [service+port, service, global] |
| Configuration.PortCommandWins | src/config.rs:37-41 | a command under the service's entry for `decimal(port)` is returned, whatever the service and global commands are |
| Configuration.ServiceCommandWins | src/config.rs:37-42 | with no port command (key missing, no ports table, or command absent) the service's command is returned |
| Configuration.UnknownServiceUsesGlobal | src/config.rs:34-45 | with no services table, or no entry for the label, the result is the global command |
| Configuration.EmptyServiceFallsBack | src/config.rs:37-45 | a configured service with neither a port nor a service command still yields the global command |
| Configuration.PortKeysDistinct | src/config.rs:32 | distinct internal ports are looked up under distinct keys |
| Configuration.OtherPortUnaffected | src/config.rs:41 | replacing the entry for one port key leaves the lookup for every other port unchanged |
| Configuration.ExampleLookups | src/config.rs:53-103 | on a configuration consistent with the tests' assertions about `config.toml`: every lookup the `config_from_toml` test asserts; on the same document without the global command (assumed to be what `config-no-default.toml` holds): every lookup the `config_from_toml_no_default` test asserts |
| DockerCompose.Url | src/dockercompose.rs:33-35 | a URL is `http://localhost:` followed by 1 to 5 more characters |
| DockerCompose.UrlReadsBack | src/dockercompose.rs:33-35 | the characters after `http://localhost:` are digits that read back as the exposed port, beginning with `0` only when the port is 0, and then exactly `0`: the canonical decimal of `exposed_port` |
| DockerCompose.UrlDeterminesExposedPort | src/dockercompose.rs:33-35 | two ports have the same URL exactly when they have the same exposed port |
| DockerCompose.PortsOf | src/dockercompose.rs:63-68 | one port per publisher, in order, with `port` = `TargetPort` and `exposed_port` = `PublishedPort` |
| DockerCompose.PublishersRoundTrip | src/dockercompose.rs:67 | the publishers can be recovered from the ports: the mapping loses nothing |
| DockerCompose.FromJson | src/dockercompose.rs:56-74 | name, label and state are copied; absent `Publishers` gives no ports; otherwise the ports match the publishers one by one, in order |
| DockerCompose.FromJsonLosesOnlyAbsence | src/dockercompose.rs:63-65 | the record is recoverable from the service, except that an absent `Publishers` and an empty one look the same |
| DockerCompose.DecodeServices | src/dockercompose.rs:18-19 | a list of records gives a list of the same length, each service decoded from the record at its index |
| DockerCompose.ExampleUrl | src/dockercompose.rs:113 | host port 8080 gives `http://localhost:8080` |
| DockerCompose.ExampleUrls | src/dockercompose.rs:120-123 | host ports 8081 and 8082 give their URLs |
| DockerCompose.ExampleDecoding | src/dockercompose.rs:95-124 | three records consistent with the test's assertions about `containers.json` decode to exactly the services and ports the test asserts |
| Listing.Line | src/main.rs:10-16 | the `format!` of one line; it has no contract of its own: `ThirdFieldIsUrl`, `AlignedThirdFieldIsUrl` and `LineAt` state its fields and its position |
| Listing.FormatLines | src/main.rs:5-21 | the nested fold produces exactly `Lines(services)`, one line per published port |
| Listing.PortLinesAt | src/main.rs:9-17 | a service gives one line per port, line `j` for port `j` |
| Listing.LinesLength | src/main.rs:5-21 | the number of lines is the sum of the services' port counts |
| Listing.LinesSnoc | src/main.rs:18 | appending a service appends its lines after the earlier ones |
| Listing.LinesAppend | src/main.rs:8-20 | the lines of two service lists are the lines of the first, then those of the second |
| Listing.LineAt | src/main.rs:8-18 | line number `TotalPorts(services[..i]) + j` is the line of port `j` of service `i`: service order and port order are kept |
| Listing.PortlessServiceAddsNothing | src/main.rs:9 | a service with no ports contributes no line wherever it stands |
| Listing.DuplicatesKept | src/main.rs:8-21 | a service listed twice gives its lines twice: nothing is deduplicated |
| Listing.LinesIgnoreNames | src/main.rs:10-16 | services that differ only in their instance name give the same lines: the label is used, never the name |
| Listing.ThirdFieldIsUrl | src/main.rs:10-16 | when label and state hold no space, a line's fields are `{service}:{port}`, `[{state}]` and the URL |
| Listing.AlignedThirdFieldIsUrl | src/fzf.rs:19-45 | the same three fields survive widening the separators, so fzf's `{3}` is the URL after `column -t` |
| Listing.ExampleFields | src/fzf.rs:73 | the `web` service on port 80 exposed on 8080 gives the fields `web:80`, `[running]`, `http://localhost:8080` |
| Listing.ExampleLineText | src/fzf.rs:73 | that line is exactly `web:80 [running] http://localhost:8080` |
| Listing.ExampleLine | src/fzf.rs:73 | that service alone gives exactly the one line `web:80 [running] http://localhost:8080`, with those fields |

## Left out

- `dockercompose::Command::list_services` (src/dockercompose.rs:10-20): it spawns a subprocess and decodes JSON with serde. The decoded records are taken as input, and `DecodeServices` models only the per-record mapping.
- Range checks on the JSON numbers: serde rejects ports outside 0..65535. The model types them as `u16` from the start.
- `Config::from_toml` (src/config.rs:21-29): file reading and TOML parsing. The parsed `Config` is taken as given, and its error path is not modelled.
- src/fzf.rs: it spawns `column -t` and `fzf` and pipes text between them. The newline join at src/fzf.rs:17 and the padding that `column -t` applies are not modelled. `AlignedThirdFieldIsUrl` covers any padding made of spaces.
- Fields: `Fields` splits at runs of spaces, the way fzf's default field splitting treats a line. fzf's handling of tabs and of trailing whitespace inside a field is not modelled.
- src/cli.rs: clap argument wiring. It calls `Config::default`, `fzf::Command::new` and `fzf::format_commands`, none of which is defined in the files modelled here.
- src/error.rs: the `Display` wrapper for the two error kinds. No modelled operation returns an error.
- `dockercompose::Command::default`, called at src/main.rs:2, is not part of this model.
- Sorting, deduplication, width alignment, a built-in URL fallback for the command, and `{port}` template rendering: none of these exists in the code, so none is modelled.
- DockerCompose.Url: its own contract states only the prefix and the length; that the rest is the canonical decimal of the exposed port (digits that read back as it, with no leading zero, and `0` alone for port 0) is stated by the lemma `UrlReadsBack`, which keeps the proofs about whole lines within the verifier's resource limit.
