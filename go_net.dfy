/**
 * Go's `net.SplitHostPort`, which the proxy uses to take the client IP out
 * of the request's remote address, and its inverse `net.JoinHostPort`.
 */
module GoNet {
  import opened Outcomes
  import opened GoStrings

  datatype HostPort = HostPort(host: string, port: string)

  /**
   * `net.SplitHostPort`: the port follows the last colon; a host containing
   * colons must be bracketed; stray brackets are errors. Every error of the
   * Go function (missing port, too many colons, missing or unexpected
   * bracket) is `None`.
   */
  function SplitHostPort(hostport: string): (r: Option<HostPort>)
    ensures r.Some? ==> ':' !in r.value.port && '[' !in r.value.port && ']' !in r.value.port
    ensures r.Some? ==> '[' !in r.value.host && ']' !in r.value.host
  {
    var i := LastIndexOf(hostport, ':');
    if i < 0 then None
    else if hostport[0] == '[' then
      var end := IndexOf(hostport, ']');
      if end < 0 || end + 1 != i then None
      else if '[' in hostport[1..] || ']' in hostport[end + 1..] then None
      else
        assert hostport[1..end] <= hostport[1..] && hostport[1..end] == hostport[..end][1..];
        assert hostport[i + 1..] == hostport[1..][i..] == hostport[end + 1..][1..];
        Some(HostPort(hostport[1..end], hostport[i + 1..]))
    else
      var host := hostport[..i];
      if ':' in host || '[' in hostport || ']' in hostport then None
      else
        assert host <= hostport && hostport[i + 1..] == hostport[i + 1..];
        Some(HostPort(host, hostport[i + 1..]))
  }

  /** `net.JoinHostPort`: brackets the host when it contains a colon. */
  function JoinHostPort(host: string, port: string): string
  {
    if ':' in host then "[" + host + "]:" + port else host + ":" + port
  }

  /** Splitting a joined address gives back its host and port. */
  lemma SplitJoinHostPort(host: string, port: string)
    requires '[' !in host && ']' !in host
    requires ':' !in port && '[' !in port && ']' !in port
    ensures SplitHostPort(JoinHostPort(host, port)) == Some(HostPort(host, port))
  {
    if ':' in host {
      SplitBracketed(host, port);
    } else {
      SplitPlain(host, port);
    }
  }

  lemma SplitBracketed(host: string, port: string)
    requires '[' !in host && ']' !in host
    requires ':' !in port && '[' !in port && ']' !in port
    ensures SplitHostPort("[" + host + "]:" + port) == Some(HostPort(host, port))
  {
    BracketedIndices(host, port);
    BracketedPieces(host, port);
  }

  /** Where SplitHostPort finds the last colon and the first closing bracket of a bracketed address. */
  lemma BracketedIndices(host: string, port: string)
    requires '[' !in host && ']' !in host
    requires ':' !in port && '[' !in port && ']' !in port
    ensures var s := "[" + host + "]:" + port;
            LastIndexOf(s, ':') == |host| + 2 && IndexOf(s, ']') == |host| + 1
  {
    var s := "[" + host + "]:" + port;
    var i := |host| + 2;
    assert s[i] == ':' && s[i + 1..] == port;
    LastIndexOfIs(s, ':', i);
    assert s[i - 1] == ']' && s[..i - 1] == "[" + host;
    IndexOfIs(s, ']', i - 1);
  }

  /** The pieces SplitHostPort checks and returns for a bracketed address. */
  lemma BracketedPieces(host: string, port: string)
    requires '[' !in host && ']' !in host
    requires ':' !in port && '[' !in port && ']' !in port
    ensures var s := "[" + host + "]:" + port;
            && s[0] == '[' && '[' !in s[1..] && ']' !in s[|host| + 2..]
            && s[1..|host| + 1] == host && s[|host| + 3..] == port
  {
    var s := "[" + host + "]:" + port;
    var tail := ":" + port;
    assert s == "[" + host + "]" + tail;
    assert s[|host| + 2..] == tail && s[|host| + 3..] == port;
    assert s[1..] == host + "]" + tail;
    assert '[' !in tail && ']' !in tail;
    assert s[1..|host| + 1] == host;
  }

  lemma SplitPlain(host: string, port: string)
    requires ':' !in host && '[' !in host && ']' !in host
    requires ':' !in port && '[' !in port && ']' !in port
    ensures SplitHostPort(host + ":" + port) == Some(HostPort(host, port))
  {
    var s := host + ":" + port;
    var i := |host|;
    assert s[i] == ':' && s[i + 1..] == port;
    LastIndexOfIs(s, ':', i);
    assert s[..i] == host;
    assert s[0] != '[' by {
      if i == 0 { assert s[0] == ':'; } else { assert s[0] == host[0]; }
    }
    assert '[' !in s && ']' !in s;
  }
}
