/** pkg/config/host.go: host addresses and the endpoints parsed from them. */
module Host {
  import opened Text
  import opened Wrappers

  /** Go's int on a 64-bit machine. */
  const INT_LIMIT: int := 0x8000_0000_0000_0000
  const PORT_LIMIT: int := 0x1_0000

  type Port = p: nat | p < PORT_LIMIT

  /** strconv.Atoi: an optional sign and at least one digit, within the range of int. */
  function Atoi(s: string): Option<int> {
    if s == [] then None
    else
      var digits := if s[0] == '-' || s[0] == '+' then s[1..] else s;
      if digits == [] || !AllDigits(digits) then None
      else
        var v: int := Value(digits);
        if s[0] == '-' then (if v <= INT_LIMIT then Some(-v) else None)
        else if v < INT_LIMIT then Some(v) else None
  }

  /** The conversion uint16(n): reduction modulo 65536, also of negative numbers. */
  function Uint16(n: int): Port {
    n % PORT_LIMIT
  }

  datatype Endpoint = Endpoint(name: string, host: string, port: Port)

  datatype HostError = InvalidPort(text: string) | EmptyHost | EmptyName

  datatype Result<+T> = Ok(value: T) | Err(error: HostError)

  /** The part before the first colon is the host, the part up to the second one the port. */
  function ParseHost(address: string): Result<Endpoint> {
    var parts := Split(address, ':');
    if |parts| == 1 then Ok(Endpoint("", parts[0], 0))
    else
      match Atoi(parts[1])
      case None => Err(InvalidPort(parts[1]))
      case Some(n) => Ok(Endpoint("", parts[0], Uint16(n)))
  }

  function GetEndpointURL(ep: Endpoint): string {
    if ep.port == 0 then ep.host else ep.host + [':'] + Decimal(ep.port)
  }

  // ----- round trips -----

  lemma AtoiOfDecimal(n: nat)
    requires n < INT_LIMIT
    ensures Atoi(Decimal(n)) == Some(n)
  {
    ValueOfDecimal(n);
    assert IsDigit(Decimal(n)[0]);
  }

  lemma DigitsHaveNoColon(s: string)
    requires AllDigits(s)
    ensures ':' !in s
  {
  }

  /** Parsing a printed endpoint gives back host and port, for every host without a colon and every port. */
  lemma ParsePrinted(ep: Endpoint)
    requires ':' !in ep.host
    ensures ParseHost(GetEndpointURL(ep)) == Ok(ep.(name := ""))
  {
    if ep.port == 0 {
      SplitOne(ep.host, ':');
    } else {
      var digits := Decimal(ep.port);
      DigitsHaveNoColon(digits);
      TwoParts(ep.host, digits);
      AtoiOfDecimal(ep.port);
    }
  }

  /** Printing what was parsed and parsing again changes nothing, for every accepted address. */
  lemma ParseIsStable(address: string)
    requires ParseHost(address).Ok?
    ensures ParseHost(GetEndpointURL(ParseHost(address).value)) == ParseHost(address)
  {
    ParsePrinted(ParseHost(address).value);
  }

  /** Digits, with or without a sign. */
  predicate Number(s: string, digits: string) {
    digits != [] && AllDigits(digits) && (s == digits || s == "+" + digits || s == "-" + digits)
  }

  /** Nothing else is a number. */
  lemma AtoiOnlyNumbers(s: string)
    ensures Atoi(s).Some? ==> exists digits :: Number(s, digits)
  {
    if Atoi(s).Some? {
      if s[0] == '-' || s[0] == '+' {
        assert s == [s[0]] + s[1..];
        assert Number(s, s[1..]);
      } else {
        assert Number(s, s);
      }
    }
  }

  /** Digits are a number with either sign and without one, if it fits an int. */
  lemma AtoiExactly(digits: string)
    requires digits != [] && AllDigits(digits)
    ensures Atoi(digits) == Atoi("+" + digits) == if Value(digits) < INT_LIMIT then Some(Value(digits)) else None
    ensures Atoi("-" + digits) == if Value(digits) <= INT_LIMIT then Some(-(Value(digits) as int)) else None
  {
    assert IsDigit(digits[0]);
    assert ("+" + digits)[1..] == digits && ("-" + digits)[1..] == digits;
  }

  lemma TwoParts(host: string, port: string)
    requires ':' !in host && ':' !in port
    ensures Split(host + [':'] + port, ':') == [host, port]
  {
    SplitOne(port, ':');
    SplitAt(host, port, ':');
  }

  /**
   * An address is accepted exactly when its port text is a number, and the port is then that number exactly when it
   * is one between 0 and 65535; any other, a negative one too, is reduced, not refused.
   */
  lemma PortKeptExactly(host: string, port: string)
    requires ':' !in host && ':' !in port
    ensures var r, n := ParseHost(host + [':'] + port), Atoi(port);
            && (r.Ok? <==> n.Some?)
            && (r.Err? ==> r.error == InvalidPort(port))
            && (r.Ok? ==> r.value.name == "" && r.value.host == host)
            && (r.Ok? ==> (n.value - r.value.port) % PORT_LIMIT == 0)
            && (r.Ok? ==> (r.value.port == n.value <==> 0 <= n.value < PORT_LIMIT))
  {
    TwoParts(host, port);
  }

  /** A port text that is no number is refused. */
  lemma OnlyNumbersAccepted(host: string, port: string)
    requires ':' !in host && ':' !in port && forall digits :: !Number(port, digits)
    ensures ParseHost(host + [':'] + port) == Err(InvalidPort(port))
  {
    TwoParts(host, port);
    AtoiOnlyNumbers(port);
  }

  /** The printed form: the host alone for port 0, else the host, a colon and the port without superfluous zeros. */
  lemma PrintedForm(ep: Endpoint)
    ensures ep.port == 0 ==> GetEndpointURL(ep) == ep.host
    ensures ep.port != 0 ==> exists digits ::
              Canonical(digits) && Value(digits) == ep.port && GetEndpointURL(ep) == ep.host + [':'] + digits
  {
    ValueOfDecimal(ep.port);
    DecimalCanonical(ep.port);
  }

  /** In particular for digits with and without a minus sign. */
  lemma SignedPort(host: string, digits: string)
    requires ':' !in host && digits != [] && AllDigits(digits)
    requires 0 < Value(digits) < PORT_LIMIT
    ensures ParseHost(host + [':'] + digits) == Ok(Endpoint("", host, Value(digits)))
    ensures ParseHost(host + [':'] + ("-" + digits)) == Ok(Endpoint("", host, PORT_LIMIT - Value(digits)))
  {
    PositivePort(host, digits);
    NegativePort(host, digits);
  }

  lemma PositivePort(host: string, digits: string)
    requires ':' !in host && digits != [] && AllDigits(digits) && Value(digits) < PORT_LIMIT
    ensures ParseHost(host + [':'] + digits) == Ok(Endpoint("", host, Value(digits)))
  {
    DigitsHaveNoColon(digits);
    AtoiExactly(digits);
    TwoParts(host, digits);
  }

  lemma NegativePort(host: string, digits: string)
    requires ':' !in host && digits != [] && AllDigits(digits)
    requires 0 < Value(digits) < PORT_LIMIT
    ensures ParseHost(host + [':'] + ("-" + digits)) == Ok(Endpoint("", host, PORT_LIMIT - Value(digits)))
  {
    DigitsHaveNoColon(digits);
    AtoiExactly(digits);
    TwoParts(host, "-" + digits);
    assert Uint16(-(Value(digits) as int)) == PORT_LIMIT - Value(digits);
  }

  /** Everything after a second colon is ignored. */
  lemma ThirdPartIgnored(host: string, port: string, rest: string)
    requires ':' !in host && ':' !in port
    ensures ParseHost(host + [':'] + (port + [':'] + rest)) == ParseHost(host + [':'] + port)
  {
    SplitAt(port, rest, ':');
    SplitAt(host, port + [':'] + rest, ':');
    TwoParts(host, port);
  }

  // ----- the host list -----

  datatype HostEntry = HostEntry(name: string, address: string)

  /** The error for one host, if any: of its port, its host part or its name, in this order. */
  function HostProblem(h: HostEntry): (p: Option<HostError>)
    ensures p.None? <==> ParseHost(h.address).Ok? && ParseHost(h.address).value.host != "" && h.name != ""
    ensures ParseHost(h.address).Err? ==> p == Some(ParseHost(h.address).error)
    ensures p == Some(EmptyHost) ==> ParseHost(h.address).Ok? && ParseHost(h.address).value.host == ""
    ensures p == Some(EmptyName) ==> ParseHost(h.address).Ok? && ParseHost(h.address).value.host != "" && h.name == ""
  {
    match ParseHost(h.address)
    case Err(e) => Some(e)
    case Ok(ep) =>
      if ep.host == "" then Some(EmptyHost) else if h.name == "" then Some(EmptyName) else None
  }

  method ValidateEndpoint(ep: Endpoint) returns (problem: Option<HostError>)
    ensures problem.None? <==> ep.host != "" && ep.name != ""
    ensures problem.Some? ==> problem.value == if ep.host == "" then EmptyHost else EmptyName
  {
    if ep.host == "" { return Some(EmptyHost); }
    if ep.name == "" { return Some(EmptyName); }
    return None;
  }

  /** All or nothing: one endpoint per host, in order and with its name, or none and the first host's error. */
  method ValidateParseHosts(hosts: seq<HostEntry>) returns (endpoints: seq<Endpoint>, problem: Option<HostError>)
    ensures problem.None? <==> forall i :: 0 <= i < |hosts| ==> HostProblem(hosts[i]).None?
    ensures problem.None? ==>
              && |endpoints| == |hosts|
              && forall i :: 0 <= i < |hosts| ==>
                   && ParseHost(hosts[i].address) == Ok(endpoints[i].(name := ""))
                   && endpoints[i].name == hosts[i].name
    ensures problem.Some? ==>
              && endpoints == []
              && exists k :: && 0 <= k < |hosts| && HostProblem(hosts[k]) == problem
                             && forall i :: 0 <= i < k ==> HostProblem(hosts[i]).None?
  {
    endpoints := [];
    for i := 0 to |hosts|
      invariant |endpoints| == i
      invariant forall j :: 0 <= j < i ==> HostProblem(hosts[j]).None?
      invariant forall j :: 0 <= j < i ==>
                  ParseHost(hosts[j].address) == Ok(endpoints[j].(name := "")) && endpoints[j].name == hosts[j].name
    {
      match ParseHost(hosts[i].address) {
        case Err(e) =>
          assert HostProblem(hosts[i]) == Some(e);
          return [], Some(e);
        case Ok(parsed) =>
          var ep := parsed.(name := hosts[i].name);
          var invalid := ValidateEndpoint(ep);
          if invalid.Some? {
            assert HostProblem(hosts[i]) == invalid;
            return [], invalid;
          }
          endpoints := endpoints + [ep];
      }
    }
    problem := None;
  }
}
