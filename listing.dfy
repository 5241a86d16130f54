/**
 * The selection list: one line per (service, published port), in discovery
 * order, handed to the selector that opens the line's third field.
 */
module Listing {
  import opened Decimal
  import opened DockerCompose

  /** The line for one port of one service: `{service}:{port} [{state}] {url}`. */
  function Line(s: Service, p: ServicePort): string
  {
    Key(s, p) + " " + Marker(s) + " " + Url(p)
  }

  /** The first field: the service label (never the instance name) and the internal port. */
  function Key(s: Service, p: ServicePort): string
  {
    s.service + ":" + Show(p.port)
  }

  /** The second field: the state in brackets. */
  function Marker(s: Service): string
  {
    "[" + s.state + "]"
  }

  /** The lines of one service for the given ports, one per port, in port order. */
  function PortLines(s: Service, ports: seq<ServicePort>): seq<string>
  {
    if ports == [] then [] else PortLines(s, ports[..|ports| - 1]) + [Line(s, ports[|ports| - 1])]
  }

  /** A service yields one line per port, line `j` for port `j`. */
  lemma {:induction false} PortLinesAt(s: Service, ports: seq<ServicePort>)
    ensures |PortLines(s, ports)| == |ports|
    ensures forall j :: 0 <= j < |ports| ==> PortLines(s, ports)[j] == Line(s, ports[j])
    decreases |ports|
  {
    if ports != [] {
      PortLinesAt(s, ports[..|ports| - 1]);
    }
  }

  /** The flattened list: each service's lines, services in order. */
  function Lines(services: seq<Service>): seq<string>
  {
    if services == [] then []
    else Lines(services[..|services| - 1]) + PortLines(services[|services| - 1], services[|services| - 1].ports)
  }

  /** The number of published ports over all services. */
  function TotalPorts(services: seq<Service>): nat
  {
    if services == [] then 0 else TotalPorts(services[..|services| - 1]) + |services[|services| - 1].ports|
  }

  /**
   * The nested fold of `main`: an inner vector is filled with one line per
   * port, then appended to the outer one.
   */
  method FormatLines(services: seq<Service>) returns (data: seq<string>)
    ensures data == Lines(services)
    ensures |data| == TotalPorts(services)
  {
    data := [];
    var i := 0;
    while i < |services|
      invariant 0 <= i <= |services|
      invariant data == Lines(services[..i])
    {
      var s := services[i];
      var d := [];
      var j := 0;
      while j < |s.ports|
        invariant 0 <= j <= |s.ports|
        invariant d == PortLines(s, s.ports[..j])
      {
        assert s.ports[..j + 1][..j] == s.ports[..j];
        d := d + [Line(s, s.ports[j])];
        j := j + 1;
      }
      assert s.ports[..j] == s.ports;
      assert services[..i + 1][..i] == services[..i];
      data := data + d;
      i := i + 1;
    }
    assert services[..i] == services;
    LinesLength(services);
  }

  /** One line per published port. */
  lemma {:induction false} LinesLength(services: seq<Service>)
    ensures |Lines(services)| == TotalPorts(services)
    decreases |services|
  {
    if services != [] {
      var last := services[|services| - 1];
      LinesLength(services[..|services| - 1]);
      PortLinesAt(last, last.ports);
    }
  }

  /** The lines of two lists of services are the lines of each, in order. */
  lemma {:induction false} LinesAppend(a: seq<Service>, b: seq<Service>)
    ensures Lines(a + b) == Lines(a) + Lines(b)
    decreases |b|
  {
    if b == [] {
      assert a + b == a;
    } else {
      var n := |b| - 1;
      assert a + b == (a + b[..n]) + [b[n]];
      assert b == b[..n] + [b[n]];
      LinesAppend(a, b[..n]);
      LinesSnoc(a + b[..n], b[n]);
      LinesSnoc(b[..n], b[n]);
    }
  }

  /** Appending a service appends its lines. */
  lemma LinesSnoc(services: seq<Service>, s: Service)
    ensures Lines(services + [s]) == Lines(services) + PortLines(s, s.ports)
  {

  }

  /**
   * Line `TotalPorts(services[..i]) + j` is the line of port `j` of service
   * `i`: services stay in order, and each service's ports stay in order.
   */
  lemma LineAt(services: seq<Service>, i: nat, j: nat)
    requires i < |services| && j < |services[i].ports|
    ensures TotalPorts(services[..i]) + j < |Lines(services)|
    ensures Lines(services)[TotalPorts(services[..i]) + j] == Line(services[i], services[i].ports[j])
  {
    var s, prefix, after := services[i], services[..i], services[i + 1..];
    var k := TotalPorts(prefix) + j;
    var mine := Lines(prefix) + PortLines(s, s.ports);
    assert |mine| > k && mine[k] == Line(s, s.ports[j]) by {
      LinesLength(prefix);
      PortLinesAt(s, s.ports);
    }
    assert Lines(services) == mine + Lines(after) by {
      assert services == (prefix + [s]) + after;
      LinesAppend(prefix + [s], after);
      LinesSnoc(prefix, s);
    }
  }

  /** A service without published ports contributes no line. */
  lemma PortlessServiceAddsNothing(a: seq<Service>, s: Service, b: seq<Service>)
    requires s.ports == []
    ensures Lines(a + [s] + b) == Lines(a + b)
  {
    LinesAppend(a + [s], b);
    LinesAppend(a, [s]);
    assert (a + [s])[..|a|] == a;
    LinesAppend(a, b);
  }

  /** Nothing is deduplicated: a service listed twice gives its lines twice. */
  lemma DuplicatesKept(s: Service)
    ensures Lines([s, s]) == PortLines(s, s.ports) + PortLines(s, s.ports)
  {
    LinesAppend([s], [s]);
    assert [s] + [s] == [s, s];
    assert [s][..0] == [];
  }

  /** The instance name never appears in a line: services differing only in it give the same lines. */
  lemma {:induction false} LinesIgnoreNames(a: seq<Service>, b: seq<Service>)
    requires |a| == |b|
    requires forall i :: 0 <= i < |a| ==> a[i].(name := b[i].name) == b[i]
    ensures Lines(a) == Lines(b)
    decreases |a|
  {
    if a != [] {
      var n := |a| - 1;
      LinesIgnoreNames(a[..n], b[..n]);
      assert a[n].(name := b[n].name) == b[n];
      assert a[n].service == b[n].service && a[n].state == b[n].state && a[n].ports == b[n].ports;
      PortLinesAt(a[n], a[n].ports);
      PortLinesAt(b[n], b[n].ports);
      assert PortLines(a[n], a[n].ports) == PortLines(b[n], b[n].ports);
    }
  }

  predicate NoSpace(s: string)
  {
    forall i :: 0 <= i < |s| ==> s[i] != ' '
  }

  predicate AllSpaces(s: string)
  {
    forall i :: 0 <= i < |s| ==> s[i] == ' '
  }

  /** The longest prefix without a space. */
  function Word(s: string): (w: string)
    ensures w <= s && NoSpace(w)
    ensures |w| < |s| ==> s[|w|] == ' '
    ensures s != [] && s[0] != ' ' ==> |w| >= 1
  {
    if s == [] || s[0] == ' ' then [] else [s[0]] + Word(s[1..])
  }

  /**
   * The space-separated fields of a line; runs of spaces separate like one,
   * so re-padding a line (as `column -t` does) keeps its fields.
   */
  function Fields(s: string): seq<string>
    decreases |s|
  {
    if s == [] then []
    else if s[0] == ' ' then Fields(s[1..])
    else var w := Word(s); [w] + Fields(s[|w|..])
  }

  lemma {:induction false} WordOf(a: string, rest: string)
    requires NoSpace(a)
    requires rest == [] || rest[0] == ' '
    ensures Word(a + rest) == a
    decreases |a|
  {
    if a != [] {
      assert (a + rest)[1..] == a[1..] + rest;
      WordOf(a[1..], rest);
    }
  }

  lemma {:induction false} FieldsSkipSpaces(pad: string, rest: string)
    requires AllSpaces(pad)
    ensures Fields(pad + rest) == Fields(rest)
    decreases |pad|
  {
    if pad != [] {
      var s := pad + rest;
      assert s != [] && s[0] == ' ';
      assert s[1..] == pad[1..] + rest;
      assert Fields(s) == Fields(s[1..]);
      FieldsSkipSpaces(pad[1..], rest);
    } else {
      assert pad + rest == rest;
    }
  }

  /** A space-free word followed by spaces is the first field. */
  lemma FieldsCons(w: string, pad: string, rest: string)
    requires w != [] && NoSpace(w)
    requires pad != [] && AllSpaces(pad)
    ensures Fields(w + pad + rest) == [w] + Fields(rest)
  {
    var s := w + pad + rest;
    assert s == w + (pad + rest);
    WordOf(w, pad + rest);
    assert s[|w|..] == pad + rest;
    FieldsSkipSpaces(pad, rest);
  }

  lemma FieldsWord(w: string)
    requires w != [] && NoSpace(w)
    ensures Fields(w) == [w]
  {
    WordOf(w, []);
    assert w + [] == w;
    assert w[|w|..] == [];
  }

  lemma UrlHasNoSpace(p: ServicePort)
    ensures NoSpace(Url(p))
  {

  }

  lemma KeyHasNoSpace(s: Service, p: ServicePort)
    requires NoSpace(s.service)
    ensures Key(s, p) != [] && NoSpace(Key(s, p))
  {

  }

  /**
   * When the service label and the state hold no space, a line has exactly
   * three fields, and the third, the one the selector opens, is the port's URL.
   */
  lemma ThirdFieldIsUrl(s: Service, p: ServicePort)
    requires NoSpace(s.service) && NoSpace(s.state)
    ensures Fields(Line(s, p)) == [Key(s, p), Marker(s), Url(p)]
  {
    AlignedThirdFieldIsUrl(s, p, " ", " ");
  }

  /**
   * The same holds however the two separators are widened, as the
   * column alignment in front of the selector does.
   */
  lemma AlignedThirdFieldIsUrl(s: Service, p: ServicePort, pad1: string, pad2: string)
    requires NoSpace(s.service) && NoSpace(s.state)
    requires pad1 != [] && AllSpaces(pad1) && pad2 != [] && AllSpaces(pad2)
    ensures Fields(Key(s, p) + pad1 + Marker(s) + pad2 + Url(p)) == [Key(s, p), Marker(s), Url(p)]
  {
    var key, marker, url := Key(s, p), Marker(s), Url(p);
    KeyHasNoSpace(s, p);
    assert NoSpace(marker);
    UrlHasNoSpace(p);
    FieldsWord(url);
    FieldsCons(marker, pad2, url);
    assert key + pad1 + marker + pad2 + url == key + pad1 + (marker + pad2 + url);
    FieldsCons(key, pad1, marker + pad2 + url);
  }

  /** The first field for port 80 of the `web` service. */
  lemma ExampleKey(s: Service)
    requires s.service == "web"
    ensures Key(s, ServicePort(80, 8080)) == "web:80"
  {

  }

  /** The fields of the line for port 80 of a running `web` service exposed on 8080. */
  lemma ExampleFields(s: Service)
    requires s.service == "web" && s.state == "running"
    ensures Fields(Line(s, ServicePort(80, 8080))) == ["web:80", "[running]", "http://localhost:8080"]
  {
    ThirdFieldIsUrl(s, ServicePort(80, 8080));
    ExampleUrl();
    ExampleKey(s);
    assert Marker(s) == "[running]";
  }

  /** The line itself is the first line of the repository's selector test. */
  lemma ExampleLineText(s: Service)
    requires s.service == "web" && s.state == "running"
    ensures Line(s, ServicePort(80, 8080)) == "web:80 [running] http://localhost:8080"
  {
    var p := ServicePort(80, 8080);
    ExampleUrl();
    ExampleKey(s);
    assert Marker(s) == "[running]";
    assert Line(s, p) == "web:80" + " " + "[running]" + " " + "http://localhost:8080";
    ExampleLiteral();
  }

  /**
   * The literal step of `ExampleLineText`, kept apart from it: proved in the
   * same context as `Line`'s definition, it exceeds the resource limit.
   */
  lemma ExampleLiteral()
    ensures "web:80" + " " + "[running]" + " " + "http://localhost:8080" == "web:80 [running] http://localhost:8080"
  {
  }

  /**
   * Such a service alone gives a single line: the first line of the
   * repository's selector test, with its three fields.
   */
  lemma ExampleLine()
    ensures var s := Service("example-web-1", "web", "running", [ServicePort(80, 8080)]);
            && Lines([s]) == ["web:80 [running] http://localhost:8080"]
            && Fields(Lines([s])[0]) == ["web:80", "[running]", "http://localhost:8080"]
  {
    var s := Service("example-web-1", "web", "running", [ServicePort(80, 8080)]);
    LinesSnoc([], s);
    assert [] + [s] == [s];
    PortLinesAt(s, s.ports);
    ExampleFields(s);
    ExampleLineText(s);
  }
}
