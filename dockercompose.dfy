/**
 * The services that `<docker-compose path> ps --format json` reports, and the
 * mapping from its JSON records to the service model.
 */
module DockerCompose {
  import opened Optional
  import opened Decimal

  /** One published port: the port inside the container and the host port it is exposed on. */
  datatype ServicePort = ServicePort(port: u16, exposedPort: u16)

  /** One container: instance name, service label, state and published ports in reported order. */
  datatype Service = Service(name: string, service: string, state: string, ports: seq<ServicePort>)

  /** A `Publishers` entry of a JSON record. */
  datatype PublisherJson = PublisherJson(targetPort: u16, publishedPort: u16)

  /** A JSON record as decoded; `Publishers` may be absent. */
  datatype ServiceJson = ServiceJson(name: string, service: string, state: string,
                                     publishers: Option<seq<PublisherJson>>)

  const UrlPrefix: string := "http://localhost:"

  /** `ServicePort::url`: `http://localhost:` followed by the one to five digits of the exposed port. */
  function Url(p: ServicePort): (u: string)
    ensures |UrlPrefix| + 1 <= |u| <= |UrlPrefix| + 5
    ensures u[..|UrlPrefix|] == UrlPrefix
  {
    ShowU16Length(p.exposedPort);
    UrlPrefix + Show(p.exposedPort)
  }

  /**
   * The characters after the prefix are digits that read back as the exposed
   * port, with no leading zero unless the port is zero: the canonical decimal.
   */
  lemma UrlReadsBack(p: ServicePort)
    ensures var u := Url(p);
      AllDigits(u[|UrlPrefix|..]) && Value(u[|UrlPrefix|..]) == p.exposedPort
    ensures Url(p)[|UrlPrefix|] == '0' <==> p.exposedPort == 0
    ensures Url(p)[|UrlPrefix|] == '0' ==> |Url(p)| == |UrlPrefix| + 1
  {
    ValueShow(p.exposedPort);
    var u := Url(p);
    assert u[|UrlPrefix|..] == Show(p.exposedPort);
  }

  /** Two ports have the same URL exactly when they are exposed on the same host port. */
  lemma UrlDeterminesExposedPort(p: ServicePort, q: ServicePort)
    ensures Url(p) == Url(q) <==> p.exposedPort == q.exposedPort
  {
    UrlReadsBack(p);
    UrlReadsBack(q);
  }

  /** The publishers, each turned into a port, in order. */
  function PortsOf(publishers: seq<PublisherJson>): (ports: seq<ServicePort>)
    ensures |ports| == |publishers|
    ensures forall i :: 0 <= i < |publishers| ==>
              ports[i].port == publishers[i].targetPort && ports[i].exposedPort == publishers[i].publishedPort
  {
    if publishers == [] then []
    else [ServicePort(publishers[0].targetPort, publishers[0].publishedPort)] + PortsOf(publishers[1..])
  }

  /** The inverse direction: the publisher records that describe the given ports. */
  function PublishersOf(ports: seq<ServicePort>): (publishers: seq<PublisherJson>)
    ensures |publishers| == |ports|
  {
    if ports == [] then []
    else [PublisherJson(ports[0].port, ports[0].exposedPort)] + PublishersOf(ports[1..])
  }

  /** Mapping publishers to ports loses nothing: the publishers can be read back. */
  lemma {:induction false} PublishersRoundTrip(publishers: seq<PublisherJson>)
    ensures PublishersOf(PortsOf(publishers)) == publishers
  {
    if publishers != [] {
      PublishersRoundTrip(publishers[1..]);
    }
  }

  /** `Deserialize for Service`: a decoded record as a service. */
  function FromJson(record: ServiceJson): (s: Service)
    ensures s.name == record.name && s.service == record.service && s.state == record.state
    ensures record.publishers.None? ==> s.ports == []
    ensures record.publishers.Some? ==>
              && |s.ports| == |record.publishers.value|
              && forall i :: 0 <= i < |s.ports| ==>
                   && s.ports[i].port == record.publishers.value[i].targetPort
                   && s.ports[i].exposedPort == record.publishers.value[i].publishedPort
  {
    var publishers := match record.publishers case Some(ps) => ps case None => [];
    Service(record.name, record.service, record.state, PortsOf(publishers))
  }

  /**
   * A service's record is recovered from it, except that an absent
   * `Publishers` list and an empty one give the same service.
   */
  lemma FromJsonLosesOnlyAbsence(record: ServiceJson)
    ensures var s := FromJson(record);
            ServiceJson(s.name, s.service, s.state, Some(PublishersOf(s.ports)))
            == record.(publishers := Some(if record.publishers.Some? then record.publishers.value else []))
  {
    PublishersRoundTrip(if record.publishers.Some? then record.publishers.value else []);
  }

  /** A JSON array of records decoded into the list of services, record by record. */
  function DecodeServices(records: seq<ServiceJson>): (services: seq<Service>)
    ensures |services| == |records|
    ensures forall i :: 0 <= i < |records| ==> services[i] == FromJson(records[i])
  {
    if records == [] then [] else [FromJson(records[0])] + DecodeServices(records[1..])
  }

  /** The URL of host port 8080, as the repository's tests expect it. */
  lemma ExampleUrl()
    ensures Url(ServicePort(80, 8080)) == "http://localhost:8080"
  {
    assert Show(8) == "8";
    assert Show(80) == "80";
    assert Show(808) == "808";
    assert Show(8080) == "8080";
  }

  /** The URLs of host ports 8081 and 8082, as the repository's tests expect them. */
  lemma ExampleUrls()
    ensures Url(ServicePort(81, 8081)) == "http://localhost:8081"
    ensures Url(ServicePort(82, 8082)) == "http://localhost:8082"
  {
    assert Show(808) == "808" by {
      assert Show(8) == "8";
      assert Show(80) == "80";
    }
    assert Show(8081) == "8081";
    assert Show(8082) == "8082";
  }

  /** Three records consistent with what the decoding test asserts of `containers.json`. */
  function ExampleRecords(): seq<ServiceJson>
  {
    [ ServiceJson("example-bar-1", "bar", "exited", None),
      ServiceJson("example-foo-1", "foo", "running", Some([PublisherJson(80, 8080)])),
      ServiceJson("example-foobar-1", "foobar", "exited",
                  Some([PublisherJson(81, 8081), PublisherJson(82, 8082)])) ]
  }

  /** What the repository's decoding test expects of those records. */
  lemma ExampleDecoding()
    ensures var s := DecodeServices(ExampleRecords());
      && |s| == 3
      && s[0] == Service("example-bar-1", "bar", "exited", [])
      && s[1] == Service("example-foo-1", "foo", "running", [ServicePort(80, 8080)])
      && s[2] == Service("example-foobar-1", "foobar", "exited", [ServicePort(81, 8081), ServicePort(82, 8082)])
  {

  }
}
