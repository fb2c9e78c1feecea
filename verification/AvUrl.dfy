/** Splitting, joining and userinfo embedding of URLs (pkg/avurl).  A Go string is a byte string; each
    character here stands for one byte. */
module AvUrl {
  datatype Metadata = Metadata(hasSchema: bool, slashNum: nat, hasAtSign: bool, hasBrks: bool, hasPort: bool,
                               junk: string)

  datatype Parts = Parts(schema: string, userinfo: string, host: string, port: string, path: string, md: Metadata)

  const NO_METADATA := Metadata(false, 0, false, false, false, "")

  // ---- Searching ----

  /** First position of `c`, or -1 (strings.IndexByte). */
  function IndexByte(s: string, c: char): (r: int)
    ensures -1 <= r < |s|
    ensures r >= 0 ==> s[r] == c && c !in s[..r]
    ensures r == -1 <==> c !in s
  {
    if s == "" then -1
    else if s[0] == c then 0
    else
      var k := IndexByte(s[1..], c);
      assert s == [s[0]] + s[1..];
      if k == -1 then -1
      else
        assert s[..k + 1] == [s[0]] + s[1..][..k];
        k + 1
  }

  predicate EndsAuthority(c: char) {
    c == '/' || c == '?' || c == '#'
  }

  /** Free of '/', '?' and '#'. */
  ghost predicate AuthorityText(s: string) {
    forall c :: c in s ==> !EndsAuthority(c)
  }

  /** Length of the prefix free of '/', '?' and '#' (strcspn). */
  function Strcspn(s: string): (r: nat)
    ensures r <= |s| && AuthorityText(s[..r])
    ensures r < |s| ==> EndsAuthority(s[r])
  {
    if s == "" || EndsAuthority(s[0]) then 0
    else
      assert s[..1 + Strcspn(s[1..])] == [s[0]] + s[1..][..Strcspn(s[1..])];
      1 + Strcspn(s[1..])
  }

  // ---- avurlJoin ----

  function Colon(b: bool): (r: string) {
    if b then ":" else ""
  }

  function AtSign(b: bool): (r: string) {
    if b then "@" else ""
  }

  function HostWithBrks(host: string, hasBrks: bool): (r: string) {
    if hasBrks then "[" + host + "]" else host
  }

  function Slashes(n: nat): (r: string)
    ensures |r| == n && forall i :: 0 <= i < n ==> r[i] == '/'
  {
    if n == 0 then "" else "/" + Slashes(n - 1)
  }

  function HostText(p: Parts): (r: string) {
    HostWithBrks(p.host, p.md.hasBrks) + Colon(p.md.hasPort) + p.port + p.md.junk
  }

  function AuthorityPart(p: Parts): (r: string) {
    p.userinfo + AtSign(p.md.hasAtSign) + HostText(p)
  }

  /** avurlJoin; the concatenations are grouped as the proofs need them. */
  function Join(p: Parts): (r: string) {
    p.schema + Colon(p.md.hasSchema) + (Slashes(p.md.slashNum) + (AuthorityPart(p) + p.path))
  }

  // ---- avurlSplit ----

  /** Host, port and junk of what follows the userinfo. */
  function SplitHost(s: string): (r: Parts) {
    var close := IndexByte(s, ']');
    var colon := IndexByte(s, ':');
    var none := Parts("", "", "", "", "", NO_METADATA);
    if close != -1 && s[0] == '[' then
      var after := s[close + 1..];
      if after != "" && after[0] == ':'
      then none.(host := s[1..close], port := after[1..], md := NO_METADATA.(hasBrks := true, hasPort := true))
      else none.(host := s[1..close], md := NO_METADATA.(hasBrks := true, junk := after))
    else if colon != -1 then none.(host := s[..colon], port := s[colon + 1..], md := NO_METADATA.(hasPort := true))
    else none.(host := s)
  }

  /** One past the last '@'; 0 when there is none. */
  function AfterLastAt(s: string): (r: nat)
    ensures r <= |s| && '@' !in s[r..]
    ensures r > 0 ==> s[r - 1] == '@' && '@' in s
    decreases |s|
  {
    if s == "" || s[|s| - 1] == '@' then |s|
    else
      var r := AfterLastAt(s[..|s| - 1]);
      assert s[r..] == s[..|s| - 1][r..] + [s[|s| - 1]];
      r
  }

  function SplitAuthority(s: string): (r: Parts) {
    var k := AfterLastAt(s);
    var h := SplitHost(s[k..]);
    if k == 0 then h else h.(userinfo := s[..k - 1], md := h.md.(hasAtSign := true))
  }

  function LeadingSlashes(s: string): (n: nat)
    ensures n <= 2 && n <= |s|
  {
    if |s| >= 2 && s[0] == '/' && s[1] == '/' then 2
    else if |s| >= 1 && s[0] == '/' then 1
    else 0
  }

  /** What follows the schema, its colon and up to two slashes. */
  function Tail(url: string): (r: string)
    requires IndexByte(url, ':') != -1
  {
    var rest := url[IndexByte(url, ':') + 1..];
    rest[LeadingSlashes(rest)..]
  }

  function Split(url: string): (r: Parts) {
    var colon := IndexByte(url, ':');
    if colon == -1 then Parts("", "", "", "", url, NO_METADATA)
    else
      var tail := Tail(url);
      var end := Strcspn(tail);
      var a := SplitAuthority(tail[..end]);
      a.(schema := url[..colon], path := tail[end..],
         md := a.md.(hasSchema := true, slashNum := LeadingSlashes(url[colon + 1..])))
  }

  lemma Bracketed(s: string, close: int)
    requires 0 < close < |s| && s[0] == '[' && s[close] == ']'
    ensures s == "[" + s[1..close] + "]" + s[close + 1..]
  {
  }

  lemma Parted(s: string, k: int)
    requires 0 <= k < |s|
    ensures s == s[..k] + [s[k]] + s[k + 1..]
  {
  }

  lemma Assoc(a: string, b: string, c: string)
    ensures (a + b) + c == a + (b + c)
  {
  }

  /** The text after the host: a port, or junk, or nothing. */
  lemma PortOrJunk(h: string, port: string, junk: string)
    ensures h + ":" + port + "" == h + (":" + port)
    ensures h + "" + "" + junk == h + junk
  {
    Assoc(h, ":", port);
    assert h + ":" + port + "" == h + ":" + port;
    assert h + "" == h;
  }

  lemma JoinBracketed(s: string, close: int)
    requires close == IndexByte(s, ']') && close != -1 && s[0] == '['
    ensures HostText(SplitHost(s)) == s
  {
    Bracketed(s, close);
    var h := "[" + s[1..close] + "]";
    var after := s[close + 1..];
    PortOrJunk(h, if after == "" then "" else after[1..], after);
    if after != "" && after[0] == ':' {
      assert after == ":" + after[1..];
    }
  }

  lemma JoinWithPort(s: string, colon: nat)
    requires colon < |s| && s[colon] == ':'
    ensures HostText(Parts("", "", s[..colon], s[colon + 1..], "", NO_METADATA.(hasPort := true))) == s
  {
    var port := s[colon + 1..];
    Parted(s, colon);
    assert [s[colon]] == ":";
    assert s[..colon] + ":" + port + "" == s[..colon] + ":" + port;
  }

  lemma JoinHostOnly(s: string)
    ensures HostText(Parts("", "", s, "", "", NO_METADATA)) == s
  {
    assert s + "" == s;
  }

  lemma JoinSplitHost(s: string)
    ensures HostText(SplitHost(s)) == s
  {
    var close := IndexByte(s, ']');
    var colon := IndexByte(s, ':');
    if close != -1 && s[0] == '[' {
      JoinBracketed(s, close);
    } else if colon != -1 {
      JoinWithPort(s, colon);
      assert SplitHost(s) == Parts("", "", s[..colon], s[colon + 1..], "", NO_METADATA.(hasPort := true));
    } else {
      JoinHostOnly(s);
      assert SplitHost(s) == Parts("", "", s, "", "", NO_METADATA);
    }
  }

  /** Without an '@' the whole text is host text; with one it is cut behind the last. */
  lemma CutAtSign(s: string, k: nat)
    requires 0 < k <= |s| && s[k - 1] == '@'
    ensures s[..k - 1] + "@" + s[k..] == s
  {
    Parted(s, k - 1);
    assert [s[k - 1]] == "@";
  }

  lemma HostTextOf(h: Parts, userinfo: string)
    ensures HostText(h.(userinfo := userinfo, md := h.md.(hasAtSign := true))) == HostText(h)
    ensures AuthorityPart(h.(userinfo := userinfo, md := h.md.(hasAtSign := true))) == userinfo + "@" + HostText(h)
  {
  }

  lemma BareHost(s: string)
    ensures var h := SplitHost(s);
            h.schema == "" && h.userinfo == "" && h.path == "" && !h.md.hasAtSign && !h.md.hasSchema
    ensures AuthorityPart(SplitHost(s)) == HostText(SplitHost(s))
  {
    var h := SplitHost(s);
    assert "" + "" + HostText(h) == HostText(h);
  }

  lemma JoinWithoutAt(s: string)
    requires AfterLastAt(s) == 0
    ensures AuthorityPart(SplitAuthority(s)) == s
  {
    assert s[0..] == s;
    BareHost(s);
    JoinSplitHost(s);
  }

  lemma JoinWithAt(s: string, k: nat)
    requires k == AfterLastAt(s) > 0
    ensures AuthorityPart(SplitAuthority(s)) == s
  {
    HostTextOf(SplitHost(s[k..]), s[..k - 1]);
    JoinSplitHost(s[k..]);
    CutAtSign(s, k);
  }

  lemma JoinSplitAuthority(s: string)
    ensures AuthorityPart(SplitAuthority(s)) == s
  {
    if AfterLastAt(s) == 0 {
      JoinWithoutAt(s);
    } else {
      JoinWithAt(s, AfterLastAt(s));
    }
  }

  lemma AtSignOrNoUserinfo(s: string)
    ensures SplitAuthority(s).md.hasAtSign || SplitAuthority(s).userinfo == ""
  {
    BareHost(s[AfterLastAt(s)..]);
  }

  lemma SlashesAre(s: string, n: nat)
    requires n <= |s| && forall i :: 0 <= i < n ==> s[i] == '/'
    ensures Slashes(n) + s[n..] == s
  {
    assert Slashes(n) == s[..n];
  }

  lemma Regroup(url: string, colon: nat, rest: string, n: nat)
    requires colon < |url| && url[colon] == ':' && rest == url[colon + 1..] && n <= |rest|
    requires forall i :: 0 <= i < n ==> rest[i] == '/'
    ensures url == url[..colon] + ":" + (Slashes(n) + rest[n..])
  {
    SlashesAre(rest, n);
    Parted(url, colon);
    assert [url[colon]] == ":";
  }

  lemma TailGroups(url: string)
    requires IndexByte(url, ':') != -1
    ensures var colon := IndexByte(url, ':');
            url == url[..colon] + ":" + (Slashes(LeadingSlashes(url[colon + 1..])) + Tail(url))
  {
    var colon := IndexByte(url, ':');
    var rest := url[colon + 1..];
    var n := LeadingSlashes(rest);
    assert forall i :: 0 <= i < n ==> rest[i] == '/';
    Regroup(url, colon, rest, n);
  }

  lemma SplitFields(url: string)
    requires IndexByte(url, ':') != -1
    ensures var p := Split(url);
            var tail := Tail(url);
            && p.schema == url[..IndexByte(url, ':')] && p.md.hasSchema
            && p.md.slashNum == LeadingSlashes(url[IndexByte(url, ':') + 1..])
            && AuthorityPart(p) == tail[..Strcspn(tail)] && p.path == tail[Strcspn(tail)..]
  {
    var tail := Tail(url);
    var a := SplitAuthority(tail[..Strcspn(tail)]);
    JoinSplitAuthority(tail[..Strcspn(tail)]);
    assert AuthorityPart(Split(url)) == AuthorityPart(a);
  }

  lemma Halves(s: string, k: nat)
    requires k <= |s|
    ensures s[..k] + s[k..] == s
  {
  }

  /** Joining what was split gives back every string. */
  lemma JoinSplit(url: string)
    ensures Join(Split(url)) == url
  {
    if IndexByte(url, ':') != -1 {
      SplitFields(url);
      TailGroups(url);
      Halves(Tail(url), Strcspn(Tail(url)));
    }
  }
}
