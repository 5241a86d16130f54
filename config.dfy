/**
 * The optional configuration document and the layered lookup of the command
 * template to run for a (service label, internal port) pair.
 */
module Configuration {
  import opened Optional
  import opened Decimal

  /** A `[services.<label>.ports.<port>]` table. */
  datatype Port = Port(command: Option<string>)

  /** A `[services.<label>]` table; its ports are keyed by the port's decimal string. */
  datatype Service = Service(command: Option<string>, ports: Option<map<string, Port>>)

  /** The whole document: a global command and the per-label tables. */
  datatype Config = Config(command: Option<string>, services: Option<map<string, Service>>)

  /** The table configured for a service label, if any. */
  function ServiceEntry(c: Config, serviceName: string): Option<Service>
  {
    match c.services
    case None => None
    case Some(services) => if serviceName in services then Some(services[serviceName]) else None
  }

  /** The command a service table gives for one port key, if any. */
  function PortCommand(service: Service, portName: string): Option<string>
  {
    match service.ports
    case None => None
    case Some(ports) => if portName in ports then ports[portName].command else None
  }

  /** Some string stored anywhere in the configuration equals `s`. */
  ghost predicate Stored(c: Config, s: string)
  {
    || c.command == Some(s)
    || (c.services.Some? &&
        exists name :: name in c.services.value && StoredIn(c.services.value[name], s))
  }

  ghost predicate StoredIn(service: Service, s: string)
  {
    || service.command == Some(s)
    || (service.ports.Some? &&
        exists key :: key in service.ports.value && service.ports.value[key].command == Some(s))
  }

  /**
   * The three levels consulted for a lookup, most specific first: the
   * service+port command, the service command, the global command. A level
   * under a service that is not configured is absent.
   */
  function Levels(c: Config, serviceName: string, internalPort: u16): (levels: seq<Option<string>>)
    ensures |levels| == 3
  {
    var entry := ServiceEntry(c, serviceName);
    [ if entry.Some? then PortCommand(entry.value, Show(internalPort)) else None,
      if entry.Some? then entry.value.command else None,
      c.command ]
  }

  /** The first present value of an ordered list of lookups. */
  function FirstSome(candidates: seq<Option<string>>): (r: Option<string>)
    ensures r.None? <==> forall k :: 0 <= k < |candidates| ==> candidates[k].None?
    ensures r.Some? ==> exists k :: 0 <= k < |candidates| && candidates[k] == r &&
                                    forall m :: 0 <= m < k ==> candidates[m].None?
  {
    if candidates == [] then None
    else if candidates[0].Some? then candidates[0]
    else
      var rest := FirstSome(candidates[1..]);
      assert forall k :: 0 <= k < |candidates[1..]| ==> candidates[1..][k] == candidates[k + 1];
      rest
  }

  /**
   * `Config::command_template`: the service+port command, else the service
   * command, else the global command, else nothing. The port is looked up by
   * its decimal string.
   */
  function CommandTemplate(c: Config, serviceName: string, internalPort: u16): (r: Option<string>)
    ensures r.Some? ==> Stored(c, r.value)
    ensures r.None? <==>
      && c.command.None?
      && (ServiceEntry(c, serviceName).Some? ==>
            && ServiceEntry(c, serviceName).value.command.None?
            && PortCommand(ServiceEntry(c, serviceName).value, Show(internalPort)).None?)
  {
    var portName := Show(internalPort);
    var fromService :=
      match ServiceEntry(c, serviceName)
      case None => None
      case Some(service) => Or(PortCommand(service, portName), service.command);
    Or(fromService, c.command)
  }

  /** The nested lookup is the first hit of the ordered list of levels. */
  lemma TemplateIsFirstLevel(c: Config, serviceName: string, internalPort: u16)
    ensures CommandTemplate(c, serviceName, internalPort) == FirstSome(Levels(c, serviceName, internalPort))
  {
    var levels := Levels(c, serviceName, internalPort);
    assert levels[1..][1..][1..] == [];
    if levels[0].None? && levels[1].None? {
      assert FirstSome(levels) == FirstSome(levels[1..][1..]);
    } else if levels[0].None? {
      assert FirstSome(levels) == FirstSome(levels[1..]);
    }
  }

  /** A command for the exact service and port wins over every other level. */
  lemma PortCommandWins(c: Config, serviceName: string, internalPort: u16, cmd: string)
    requires c.services.Some? && serviceName in c.services.value
    requires c.services.value[serviceName].ports.Some?
    requires Show(internalPort) in c.services.value[serviceName].ports.value
    requires c.services.value[serviceName].ports.value[Show(internalPort)].command == Some(cmd)
    ensures CommandTemplate(c, serviceName, internalPort) == Some(cmd)
  {
  }

  /** Without a command for the port, the service's own command wins over the global one. */
  lemma ServiceCommandWins(c: Config, serviceName: string, internalPort: u16, cmd: string)
    requires c.services.Some? && serviceName in c.services.value
    requires PortCommand(c.services.value[serviceName], Show(internalPort)).None?
    requires c.services.value[serviceName].command == Some(cmd)
    ensures CommandTemplate(c, serviceName, internalPort) == Some(cmd)
  {
  }

  /** A serviceName that is not configured gets the global command, whatever it is. */
  lemma UnknownServiceUsesGlobal(c: Config, serviceName: string, internalPort: u16)
    requires c.services.None? || serviceName !in c.services.value
    ensures CommandTemplate(c, serviceName, internalPort) == c.command
  {
  }

  /** A configured serviceName with neither a port nor a service command still falls back to the global one. */
  lemma EmptyServiceFallsBack(c: Config, serviceName: string, internalPort: u16)
    requires c.services.Some? && serviceName in c.services.value
    requires PortCommand(c.services.value[serviceName], Show(internalPort)).None?
    requires c.services.value[serviceName].command.None?
    ensures CommandTemplate(c, serviceName, internalPort) == c.command
  {
  }

  /** Distinct internal ports consult distinct port keys. */
  lemma PortKeysDistinct(p: u16, q: u16)
    requires p != q
    ensures Show(p) != Show(q)
  {
    ShowInjective(p, q);
  }

  /**
   * Changing the entry of one port key leaves the lookup for every other
   * port of that service unchanged.
   */
  lemma OtherPortUnaffected(c: Config, serviceName: string, p: u16, q: u16, entry: Port)
    requires p != q
    requires c.services.Some? && serviceName in c.services.value
    requires c.services.value[serviceName].ports.Some?
    ensures
      var service := c.services.value[serviceName];
      var service' := service.(ports := Some(service.ports.value[Show(q) := entry]));
      var c' := c.(services := Some(c.services.value[serviceName := service']));
      CommandTemplate(c', serviceName, p) == CommandTemplate(c, serviceName, p)
  {
    PortKeysDistinct(p, q);
  }

  /**
   * A configuration consistent with what the tests assert of `config.toml`
   * (`global` set) and, assuming it differs only in lacking the global
   * command, of `config-no-default.toml` (`global` absent).
   */
  function ExampleConfig(global: Option<string>): Config
  {
    var ports := map["81" := Port(Some("command for foobar:81")), "82" := Port(Some("command for foobar:82"))];
    Config(global, Some(map["foobar" := Service(Some("default foobar command"), Some(ports))]))
  }

  /** The lookups the repository's tests assert, with and without a global command. */
  lemma ExampleLookups()
    ensures CommandTemplate(ExampleConfig(Some("default command")), "unknown-service", 8080) == Some("default command")
    ensures CommandTemplate(ExampleConfig(Some("default command")), "foobar", 81) == Some("command for foobar:81")
    ensures CommandTemplate(ExampleConfig(Some("default command")), "foobar", 82) == Some("command for foobar:82")
    ensures CommandTemplate(ExampleConfig(None), "unknown-service", 8080) == None
    ensures CommandTemplate(ExampleConfig(None), "foobar", 81) == Some("command for foobar:81")
    ensures CommandTemplate(ExampleConfig(None), "foobar", 82) == Some("command for foobar:82")
    ensures CommandTemplate(ExampleConfig(Some("default command")), "foobar", 1000) == Some("default foobar command")
  {
    assert Show(81) == "81";
    assert Show(82) == "82";
    assert Show(1000) == "1000";
  }
}
