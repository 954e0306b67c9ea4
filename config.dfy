/** The fixture's configuration: a Properties table that must hold the web port and host. */
module Config {
  import opened Wrappers
  import opened Decimal

  const PORT_PROPERTY := "sonar.web.port"
  const HOST_PROPERTY := "sonar.web.host"
  const DEFAULT_HOST := "127.0.0.1"

  /** java.util.Properties as a map from key to value; a missing key reads as null. */
  type Properties = map<string, string>

  /** The table the constructor builds: the port in decimal and the loopback host. */
  function Defaults(port: int32): (c: Properties)
    ensures c.Keys == {PORT_PROPERTY, HOST_PROPERTY}
  {
    map[][PORT_PROPERTY := Show(port)][HOST_PROPERTY := DEFAULT_HOST]
  }

  /** getPort: Integer.parseInt of the port property; parseInt(null) throws as well. */
  function PortOf(c: Properties): (r: Result<int32, NumberFormatError>)
    ensures PORT_PROPERTY !in c ==> r == Failure(NullInput)
    ensures forall n: int32 :: PORT_PROPERTY in c && c[PORT_PROPERTY] == Show(n) ==> r == Success(n)
    ensures PORT_PROPERTY in c && c[PORT_PROPERTY] == [] ==> r.Failure?
    ensures (PORT_PROPERTY in c && exists i :: 1 <= i < |c[PORT_PROPERTY]| && !IsDigit(c[PORT_PROPERTY][i])) ==>
      r.Failure?
  {
    ParseShowAll();
    if PORT_PROPERTY in c then ParseInt(c[PORT_PROPERTY]) else Failure(NullInput)
  }

  /** getHost: the host property, or null. */
  function HostOf(c: Properties): (r: Option<string>)
    ensures r.Some? <==> HOST_PROPERTY in c
    ensures r.Some? ==> r.value == c[HOST_PROPERTY]
  {
    if HOST_PROPERTY in c then Some(c[HOST_PROPERTY]) else None
  }

  /** Right after construction the port reads back as given and the host is 127.0.0.1. */
  lemma DefaultsRoundTrip(port: int32)
    ensures PortOf(Defaults(port)) == Success(port)
    ensures HostOf(Defaults(port)) == Some(DEFAULT_HOST)
  {
    ParseShow(port);
  }

  /** Setting any other property leaves the port and the host as they were. */
  lemma OtherPropertyKeepsPortAndHost(c: Properties, key: string, value: string)
    requires key != PORT_PROPERTY && key != HOST_PROPERTY
    ensures PortOf(c[key := value]) == PortOf(c)
    ensures HostOf(c[key := value]) == HostOf(c)
  {
  }
}
