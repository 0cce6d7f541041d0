/** `ValidatePort` of `validate.go`: the range check on the listening port. */
module Validate {
  import opened Outcomes
  import opened GoStrconv

  /** The largest TCP port number. */
  const MaxPort: int := 65535

  /** The message of the error ValidatePort returns for `port`. */
  function PortRangeMessage(port: int): string
  {
    Itoa(port) + ": must be in range 0..65535"
  }

  /** `ValidatePort`: no error iff the port lies in 0..65535. */
  function ValidatePort(port: int): (err: Option<string>)
    ensures err.None? <==> 0 <= port <= MaxPort
    ensures err.Some? ==> err.value == PortRangeMessage(port)
  {
    if port < 0 || port > 65535 then Some(PortRangeMessage(port)) else None
  }

  /** Every negative port and every port above 65535 is rejected; both ends of the range are accepted. */
  lemma ValidatePortBounds(port: int)
    ensures port < 0 ==> ValidatePort(port).Some?
    ensures port > MaxPort ==> ValidatePort(port).Some?
    ensures ValidatePort(0).None? && ValidatePort(MaxPort).None?
  {
  }

  /** The error message starts with the rejected port in decimal, which reads back as that port. */
  lemma PortRangeMessageNamesPort(port: int)
    requires MinInt <= port <= MaxInt
    requires ValidatePort(port).Some?
    ensures var e := ValidatePort(port).value;
            var k := |Itoa(port)|;
            k <= |e| && Atoi(e[..k]) == Some(port) && e[k..] == ": must be in range 0..65535"
  {
    var e := ValidatePort(port).value;
    var k := |Itoa(port)|;
    assert e[..k] == Itoa(port);
    AtoiItoa(port);
  }
}
