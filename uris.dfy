/**
 * A simplified absolute-URI splitter standing in for `System.Uri`:
 * `scheme://authority[path][?query][#fragment]`. It gives the parts the
 * core reads (`Authority`, `PathAndQuery`, `Port`) and decides which
 * strings count as absolute URIs (`Uri.TryCreate(s, UriKind.Absolute, ...)`).
 */
module Uris {
  import opened Options
  import opened Strings

  datatype Uri = Uri(scheme: string, authority: string, pathAndQuery: string)

  predicate IsSchemeChar(ch: char) {
    ('a' <= ch <= 'z') || ('A' <= ch <= 'Z') || IsDigit(ch) || ch == '+' || ch == '-' || ch == '.'
  }

  /** A scheme is a letter followed by letters, digits, '+', '-' or '.'. */
  predicate IsScheme(s: string) {
    |s| > 0 && (('a' <= s[0] <= 'z') || ('A' <= s[0] <= 'Z'))
    && forall i :: 0 <= i < |s| ==> IsSchemeChar(s[i])
  }

  /** The characters that end an authority. */
  const AuthorityEnd: set<char> := {'/', '?', '#'}

  /**
   * An authority is non-empty, holds none of '/', '?', '#', and any port
   * after its last ':' is decimal digits (possibly none) no larger than 65535.
   */
  predicate IsAuthority(a: string) {
    |a| > 0 && (forall i :: 0 <= i < |a| ==> a[i] !in AuthorityEnd) && HasValidPort(a)
  }

  predicate AllDigits(s: string) {
    forall i :: 0 <= i < |s| ==> IsDigit(s[i])
  }

  predicate HasValidPort(a: string) {
    var p := LastPiece(a, ':');
    |p| == |a| || (AllDigits(p) && (|p| == 0 || ParseNat(p) <= 65535))
  }

  /** `host:port` is an authority when the host is and the port is digits within 0..65535. */
  lemma HostPortAuthority(host: string, port: string)
    requires |host| > 0 && ':' !in host
    requires forall i :: 0 <= i < |host| ==> host[i] !in AuthorityEnd
    requires AllDigits(port) && ParseNat(port) <= 65535
    ensures IsAuthority(host + [':'] + port)
  {
    var a := host + [':'] + port;
    assert ':' !in port by {
      assert forall i :: 0 <= i < |port| ==> IsDigit(port[i]);
    }
    LastPieceAfter(host, port, ':');
    assert forall i :: 0 <= i < |a| ==> a[i] !in AuthorityEnd by {
      assert forall i :: 0 <= i < |a| ==> a[i] == if i < |host| then host[i] else if i == |host| then ':' else port[i - |host| - 1];
      assert forall i :: 0 <= i < |port| ==> IsDigit(port[i]);
    }
  }

  /** `PathAndQuery` always starts with '/' and holds no fragment. */
  predicate IsPathAndQuery(p: string) {
    |p| > 0 && p[0] == '/' && '#' !in p
  }

  predicate WellFormed(u: Uri) {
    IsScheme(u.scheme) && IsAuthority(u.authority) && IsPathAndQuery(u.pathAndQuery)
  }

  /** Splits `scheme://rest` at the first ':'; None when there is no valid scheme or no "//". */
  function SplitScheme(s: string): Option<(string, string)> {
    var i := PrefixLen(s, {':'});
    if IsScheme(s[..i]) && StartsWith(s[i..], "://") then Some((s[..i], s[i + 3..])) else None
  }

  /** Splits what follows "//" into the authority and the path and query, dropping any fragment. */
  function SplitAuthority(rest: string): (string, string) {
    var j := PrefixLen(rest, AuthorityEnd);
    var tail := rest[j..];
    (rest[..j], tail[..PrefixLen(tail, {'#'})])
  }

  /** `PathAndQuery` of an empty path is "/"; a bare query gets a leading '/'. */
  function NormalPath(tail: string): string {
    if |tail| > 0 && tail[0] == '/' then tail else "/" + tail
  }

  /** Parses an absolute URI; None where `new Uri(s)` would throw. */
  function ParseUri(s: string): (r: Option<Uri>)
    ensures r.Some? ==> WellFormed(r.value)
  {
    match SplitScheme(s)
    case None => None
    case Some((scheme, rest)) =>
      var (authority, tail) := SplitAuthority(rest);
      if |authority| == 0 || !HasValidPort(authority) then None
      else
        assert IsAuthority(authority);
        assert '#' !in tail;
        Some(Uri(scheme, authority, NormalPath(tail)))
  }

  predicate IsAbsoluteUri(s: string) {
    ParseUri(s).Some?
  }

  /** The text of a URI; for a well-formed URI, parsing it gives back the parts. */
  function Format(u: Uri): string {
    u.scheme + "://" + u.authority + u.pathAndQuery
  }

  lemma SplitSchemeOf(scheme: string, rest: string)
    requires IsScheme(scheme)
    ensures SplitScheme(scheme + "://" + rest) == Some((scheme, rest))
  {
    var s := scheme + "://" + rest;
    assert s == scheme + ("://" + rest);
    forall k | 0 <= k < |scheme| ensures scheme[k] !in {':'} {
      assert IsSchemeChar(scheme[k]);
    }
    PrefixLenOfConcat(scheme, "://" + rest, {':'});
    assert s[|scheme|..] == "://" + rest;
  }

  lemma SplitAuthorityOf(authority: string, path: string)
    requires forall i :: 0 <= i < |authority| ==> authority[i] !in AuthorityEnd
    requires path == "" || path[0] == '/'
    requires '#' !in path
    ensures SplitAuthority(authority + path) == (authority, path)
  {
    var rest := authority + path;
    PrefixLenOfConcat(authority, path, AuthorityEnd);
    assert rest[|authority|..] == path;
    forall k | 0 <= k < |path| ensures path[k] !in {'#'} {
    }
    PrefixLenOfConcat(path, "", {'#'});
    assert path + "" == path;
  }

  /**
   * Parsing `scheme://authority` followed by an empty path or a path that
   * starts with '/' recovers the scheme and the authority; an empty path
   * reads as "/".
   */
  lemma ParseSchemeAuthority(scheme: string, authority: string, path: string)
    requires IsScheme(scheme) && IsAuthority(authority)
    requires path == "" || (path[0] == '/' && '#' !in path)
    ensures ParseUri(scheme + "://" + authority + path)
      == Some(Uri(scheme, authority, if path == "" then "/" else path))
  {
    assert scheme + "://" + authority + path == scheme + "://" + (authority + path);
    SplitSchemeOf(scheme, authority + path);
    SplitAuthorityOf(authority, path);
    assert "/" + "" == "/";
  }

  /** An authority whose port is not decimal digits makes the whole text unparsable. */
  lemma RejectsBadPort(scheme: string, authority: string, path: string)
    requires IsScheme(scheme)
    requires forall i :: 0 <= i < |authority| ==> authority[i] !in AuthorityEnd
    requires !HasValidPort(authority)
    requires path == "" || (path[0] == '/' && '#' !in path)
    ensures ParseUri(scheme + "://" + authority + path) == None
  {
    assert scheme + "://" + authority + path == scheme + "://" + (authority + path);
    SplitSchemeOf(scheme, authority + path);
    SplitAuthorityOf(authority, path);
  }

  /** Parsing the text of a well-formed URI gives back that URI. */
  lemma ParseFormat(u: Uri)
    requires WellFormed(u)
    ensures ParseUri(Format(u)) == Some(u)
  {
    ParseSchemeAuthority(u.scheme, u.authority, u.pathAndQuery);
  }

  /** The port a scheme uses when the authority names none. */
  function DefaultPort(scheme: string): int {
    if scheme == "http" then 80 else if scheme == "https" then 443 else -1
  }

  /** `Uri.Port`: the digits after the authority's last ':', or the scheme's default port. */
  function Port(u: Uri): (p: int)
    ensures p >= -1
  {
    var digits := LastPiece(u.authority, ':');
    if |digits| < |u.authority| && |digits| > 0 && AllDigits(digits)
    then ParseNat(digits)
    else DefaultPort(u.scheme)
  }
}
