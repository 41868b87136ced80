/** Deriving the host part of a connection's remote socket address. */
module Addresses {
  import opened Common

  /** Index of the first occurrence of `c` in `s`, as Rust's `str::find`. */
  function Find(s: string, c: char): (r: Option<nat>)
    ensures r.None? <==> c !in s
    ensures r.Some? ==> r.value < |s| && s[r.value] == c && c !in s[..r.value]
  {
    if s == [] then None
    else if s[0] == c then Some(0)
    else match Find(s[1..], c)
      case None => None
      case Some(i) =>
        assert s[1..][..i] == s[1..i + 1];
        assert s[..i + 1] == [s[0]] + s[1..i + 1];
        Some(i + 1)
  }

  /** The remote address truncated at its first ':' (host without port). */
  function RemoteIp(remoteAddr: string): (ip: string)
    ensures ip <= remoteAddr
    ensures ':' !in ip
    ensures |ip| < |remoteAddr| ==> remoteAddr[|ip|] == ':'
  {
    match Find(remoteAddr, ':')
    case None => remoteAddr
    case Some(i) => remoteAddr[..i]
  }

  /** The host part is the longest prefix without a colon: it is determined by
      the host alone, whatever port follows the colon. */
  lemma RemoteIpOfHostAndPort(host: string, port: string)
    requires ':' !in host
    ensures RemoteIp(host + ":" + port) == host
  {
    var addr := host + ":" + port;
    assert addr[|host|] == ':';
    assert addr[..|host|] == host;
  }

  /** For an IPv6 socket address the truncation stops inside the brackets. */
  lemma RemoteIpOfIpv6Loopback()
    ensures RemoteIp("[::1]:5901") == "["
  {
    assert "[::1]:5901"[1] == ':';
  }
}
