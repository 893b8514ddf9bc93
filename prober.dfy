/**
 * The decision logic of the required-service prober: the IPv4 recogniser,
 * the address family and URL form chosen for a host, the dispatch on the
 * service type, and the two polling loops. What the network answers (ping
 * exit code, DNS resolution, TCP connect, HTTP status) and the two regular
 * expressions not modelled here (IPv6 address, fully qualified domain name)
 * are inputs.
 */
module Prober {
  import opened Outcomes
  import opened Text
  import opened AppGlobals
  import opened Submission

  // ---------------------------------------------------------------------------
  // isValidIPv4

  /**
   * One alternative of `25[0-5]|(2[0-4]|1{0,1}[0-9]){0,1}[0-9]`: one or two
   * digits, or three digits from 100 to 255.
   */
  predicate Octet(s: string) {
    1 <= |s| <= 3 && AllDigits(s) && (|s| == 3 ==> (s[0] == '1' || s[0] == '2') && DigitsValue(s) <= 255)
  }

  /** The first `k` characters are an octet. */
  predicate OctetAt(s: string, k: nat) {
    k <= |s| && Octet(s[..k])
  }

  /**
   * Can `s` start with `n` octets separated by dots? This is the regular
   * expression matched at the start of the string with backtracking: every
   * octet length that fits is tried.
   */
  predicate Octets(s: string, n: nat)
    requires n >= 1
    decreases n
  {
    if n == 1 then OctetAt(s, 1) || OctetAt(s, 2) || OctetAt(s, 3)
    else
      (OctetAt(s, 1) && 1 < |s| && s[1] == '.' && Octets(s[2..], n - 1)) ||
      (OctetAt(s, 2) && 2 < |s| && s[2] == '.' && Octets(s[3..], n - 1)) ||
      (OctetAt(s, 3) && 3 < |s| && s[3] == '.' && Octets(s[4..], n - 1))
  }

  /** `bool(ipv4_re.match(host))`: `re.match` anchors the start only, so any text may follow. */
  predicate IsValidIPv4(host: string) {
    Octets(host, 4)
  }

  lemma {:induction false} OctetsPrefix(a: string, rest: string, n: nat)
    requires n >= 1 && Octet(a)
    requires n > 1 ==> |rest| > 0 && rest[0] == '.' && Octets(rest[1..], n - 1)
    ensures Octets(a + rest, n)
  {
    var s := a + rest;
    assert s[..|a|] == a;
    if n > 1 {
      assert s[|a|] == '.';
      assert s[|a| + 1..] == rest[1..];
    }
  }

  lemma JoinDots(a: string, b: string, c: string, d: string, rest: string)
    ensures a + "." + b + "." + c + "." + d + rest == a + ("." + (b + ("." + (c + ("." + (d + rest))))))
  {
    calc {
      a + "." + b + "." + c + "." + d + rest;
      (a + "." + b + "." + c + "." + d) + rest;
      (a + "." + b + "." + c + ".") + (d + rest);
      (a + "." + b + "." + c) + ("." + (d + rest));
      (a + "." + b + ".") + (c + ("." + (d + rest)));
      (a + "." + b) + ("." + (c + ("." + (d + rest))));
      (a + ".") + (b + ("." + (c + ("." + (d + rest)))));
    }
  }

  /**
   * Four octets joined by dots are accepted whatever follows them, so
   * "1.2.3.4x" passes as an IPv4 address.
   */
  lemma DottedQuadAccepted(a: string, b: string, c: string, d: string, rest: string)
    requires Octet(a) && Octet(b) && Octet(c) && Octet(d)
    ensures IsValidIPv4(a + "." + b + "." + c + "." + d + rest)
  {
    OctetsPrefix(d, rest, 1);
    var s3 := "." + (d + rest);
    assert s3[1..] == d + rest;
    OctetsPrefix(c, s3, 2);
    var s2 := "." + (c + s3);
    assert s2[1..] == c + s3;
    OctetsPrefix(b, s2, 3);
    var s1 := "." + (b + s2);
    assert s1[1..] == b + s2;
    OctetsPrefix(a, s1, 4);
    JoinDots(a, b, c, d, rest);
  }

  /** Every accepted host starts with a digit. */
  lemma AcceptedStartsWithDigit(host: string)
    requires IsValidIPv4(host)
    ensures |host| > 0 && IsDigit(host[0])
  {
    assert OctetAt(host, 1) || OctetAt(host, 2) || OctetAt(host, 3);
    var k :| 1 <= k <= 3 && OctetAt(host, k);
    assert host[..k][0] == host[0];
  }

  lemma Examples()
    ensures IsValidIPv4("1.2.3.4x")
    ensures !IsValidIPv4("256.1.1.1")
  {
    assert Octet("1") && Octet("2") && Octet("3") && Octet("4");
    DottedQuadAccepted("1", "2", "3", "4", "x");
    assert "1" + "." + "2" + "." + "3" + "." + "4" + "x" == "1.2.3.4x";
    var s := "256.1.1.1";
    assert s[1] != '.' && s[2] != '.';
    assert DigitsValue(s[..3]) == 256 by {
      assert s[..3] == "256" && "256"[..2] == "25" && "25"[..1] == "2" && "2"[..0] == [];
    }
    assert !OctetAt(s, 3);
  }

  // ---------------------------------------------------------------------------
  // isIPv4, checkSocket, checkWeb

  /** What `socket.gethostbyname` did: resolved, a `gaierror` with its errno, or another exception. */
  datatype Resolution = Resolved | GaiError(errno: int) | OtherError

  /**
   * `isIPv4(host)`: an IPv4 literal is IPv4 and an IPv6 literal is not;
   * otherwise the name is resolved, and only the `gaierror` with errno -5
   * counts as IPv6: a failed lookup is otherwise taken as IPv4.
   */
  function IsIPv4(host: string, v6Literal: bool, res: Resolution): (r: bool)
    ensures !r <==> !IsValidIPv4(host) && (v6Literal || res == GaiError(-5))
  {
    if IsValidIPv4(host) then true
    else if v6Literal then false
    else
      match res
      case Resolved => true
      case GaiError(errno) => errno != -5
      case OtherError => true
  }

  datatype Family = AF_INET | AF_INET6

  /** The address family `checkSocket` opens its socket with. */
  function SocketFamily(host: string, v6Literal: bool, res: Resolution): (f: Family)
    ensures f == AF_INET <==> IsIPv4(host, v6Literal, res)
  {
    if IsIPv4(host, v6Literal, res) then AF_INET else AF_INET6
  }

  /**
   * `checkSocket`: true only when `int(port)` succeeds and the connection
   * is made; every failure is caught and reported as false.
   */
  function CheckSocket(port: Setting, connected: bool): (r: bool)
    ensures r <==> connected && IntOf(port).Some?
  {
    IntOf(port).Some? && connected
  }

  /**
   * The URL `checkWeb` requests: a domain name or an IPv4 host is written
   * as it is, anything else in brackets as an IPv6 literal.
   */
  function WebUrl(host: string, port: string, path: string, fqdn: bool, v6Literal: bool, res: Resolution): string {
    if fqdn || IsIPv4(host, v6Literal, res) then "http://" + host + ":" + port + path
    else "http://[" + host + "]:" + port + path
  }

  /** The bracketed form is used exactly when the host is neither a domain name nor taken as IPv4. */
  lemma WebUrlBrackets(host: string, port: string, path: string, fqdn: bool, v6Literal: bool, res: Resolution)
    requires |host| > 0 && host[0] != '['
    ensures var url := WebUrl(host, port, path, fqdn, v6Literal, res);
      url[7] == '[' <==> !fqdn && !IsIPv4(host, v6Literal, res)
    ensures var url := WebUrl(host, port, path, fqdn, v6Literal, res);
      url[..7] == "http://" && (url[7] == '[' ==> url[8..8 + |host|] == host) && (url[7] != '[' ==> url[7..7 + |host|] == host)
  {
  }

  /** `checkWeb`: true iff the request returned status 200 exactly; an exception is false. */
  function CheckWeb(reply: Reply): (r: bool)
    ensures r <==> reply == Status(200)
  {
    reply.Status? && reply.code == 200
  }

  // ---------------------------------------------------------------------------
  // checkService

  /** What the outside world answers to one check of a service. */
  datatype Probe = Probe(pingExit: int, v6Literal: bool, resolution: Resolution, connected: bool, fqdn: bool, web: Reply)

  /** `checkService`: the check its type selects; a service of any other type is reported unavailable. */
  function CheckService(s: Service, p: Probe): (r: bool)
    ensures s.kind == Some(Str("ping")) ==> (r <==> p.pingExit == 0)
    ensures s.kind == Some(Str("socket")) ==> (r <==> p.connected && s.port.Some? && IntOf(s.port.value).Some?)
    ensures s.kind == Some(Str("web")) ==> (r <==> p.web == Status(200))
    ensures s.kind !in {Some(Str("ping")), Some(Str("socket")), Some(Str("web"))} ==> !r
  {
    if s.kind == Some(Str("ping")) then p.pingExit == 0
    else if s.kind == Some(Str("socket")) then s.port.Some? && CheckSocket(s.port.value, p.connected)
    else if s.kind == Some(Str("web")) then CheckWeb(p.web)
    else false
  }

  // ---------------------------------------------------------------------------
  // waitForService, checkServiceLoop

  /**
   * `waitForService`: check until the service answers, giving up after
   * `maxAttempts` checks when that is positive (0 or a negative value waits
   * for ever), sleeping between attempts. `checks[k]` is the result of
   * attempt k + 1; the model stops (`None`) when they run out.
   */
  method WaitForService(maxAttempts: int, checks: seq<bool>) returns (r: Option<bool>, attempts: nat, sleeps: nat)
    ensures attempts <= |checks|
    ensures r == Some(true) ==> 1 <= attempts && checks[attempts - 1] && sleeps == attempts - 1
    ensures r == Some(false) ==> maxAttempts > 0 && attempts == maxAttempts && sleeps == attempts - 1
    ensures r.None? ==> attempts == |checks| == sleeps && (maxAttempts <= 0 || |checks| < maxAttempts)
    ensures r != Some(true) ==> forall j :: 0 <= j < attempts ==> !checks[j]
    ensures r == Some(true) ==> forall j :: 0 <= j < attempts - 1 ==> !checks[j]
  {
    attempts, sleeps := 0, 0;
    while attempts < |checks|
      invariant attempts <= |checks| && sleeps == attempts
      invariant forall j :: 0 <= j < attempts ==> !checks[j]
      invariant maxAttempts <= 0 || attempts < maxAttempts
    {
      attempts := attempts + 1;
      if checks[attempts - 1] {
        return Some(true), attempts, sleeps;
      }
      if maxAttempts != 0 && attempts == maxAttempts {
        return Some(false), attempts, sleeps;
      }
      sleeps := sleeps + 1;
    }
    r := None;
  }

  /**
   * `checkServiceLoop`: check, and return true once `maxChecks` checks are
   * done; 0 or a negative value checks for ever. The model runs at most
   * `budget` checks and then stops (`None`).
   */
  method CheckServiceLoop(maxChecks: int, budget: nat) returns (r: Option<bool>, checks: nat, sleeps: nat)
    ensures 0 < maxChecks <= budget ==> r == Some(true) && checks == maxChecks && sleeps == checks - 1
    ensures !(0 < maxChecks <= budget) ==> r.None? && checks == budget == sleeps
  {
    checks, sleeps := 0, 0;
    while checks < budget
      invariant checks <= budget && sleeps == checks
      invariant maxChecks <= 0 || checks < maxChecks
    {
      checks := checks + 1;
      if maxChecks != 0 && checks == maxChecks {
        return Some(true), checks, sleeps;
      }
      sleeps := sleeps + 1;
    }
    r := None;
  }
}
