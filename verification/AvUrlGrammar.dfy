/** What splitting a URL means, without the splitter: the parts that a URL can have, and that a URL with a
    colon is split into the one well-formed set of parts it is the text of. */
module AvUrlGrammar {
  import opened AvUrl
  import opened UserinfoEmbedding
  import opened AvUrlParser

  /** Free of the characters that end the authority. */
  ghost predicate Plain(s: string) {
    forall c :: c in s ==> c != '/' && c != '?' && c != '#'
  }

  /** Empty, or beginning with one of them. */
  predicate PathText(s: string) {
    s == "" || s[0] == '/' || s[0] == '?' || s[0] == '#'
  }

  /** A host in brackets is followed by a port, or by junk, or by nothing. */
  ghost predicate BracketedHost(p: Parts) {
    && ']' !in p.host
    && (if p.md.hasPort then p.md.junk == "" else p.port == "" && (p.md.junk == "" || p.md.junk[0] != ':'))
  }

  /** Any other host is followed by a port or by nothing, and is not to be taken for one in brackets. */
  ghost predicate BareHostText(p: Parts) {
    && ':' !in p.host && p.md.junk == "" && (!p.md.hasPort ==> p.port == "")
    && (p.host != "" && p.host[0] == '[' ==> ']' !in p.host && ']' !in p.port)
  }

  ghost predicate HostParts(p: Parts) {
    && Plain(p.host) && Plain(p.port) && Plain(p.md.junk)
    && '@' !in p.host && '@' !in p.port && '@' !in p.md.junk
    && (if p.md.hasBrks then BracketedHost(p) else BareHostText(p))
  }

  /** Nothing between the slashes and the path. */
  predicate NoAuthority(p: Parts) {
    !p.md.hasAtSign && !p.md.hasBrks && !p.md.hasPort && p.host == ""
  }

  /** The parts of a URL that has a colon. */
  ghost predicate WellFormed(p: Parts) {
    && p.md.hasSchema && ':' !in p.schema && p.md.slashNum <= 2
    && Plain(p.userinfo) && (!p.md.hasAtSign ==> p.userinfo == "")
    && HostParts(p) && PathText(p.path)
    && (p.md.slashNum < 2 && NoAuthority(p) ==> p.path == "" || p.path[0] != '/')
  }

  lemma PlainIs(s: string)
    ensures Plain(s) <==> AuthorityText(s)
    ensures PathText(s) <==> s == "" || EndsAuthority(s[0])
  {
  }

  // ---- What is split off is well-formed ----

  /** Host, port, junk and marks, and nothing else. */
  function HostOf(p: Parts): (r: Parts) {
    Parts("", "", p.host, p.port, "", Metadata(false, 0, false, p.md.hasBrks, p.md.hasPort, p.md.junk))
  }

  /** Text that can stand in a host, a port or junk. */
  ghost predicate Clean(s: string) {
    Plain(s) && '@' !in s
  }

  lemma SliceClean(s: string, i: nat, j: nat)
    requires i <= j <= |s| && Clean(s)
    ensures Clean(s[i..j])
  {
    assert forall c :: c in s[i..j] ==> c in s;
  }

  lemma HeadNot(s: string, k: nat, c: char, i: nat)
    requires i <= k <= |s| && c !in s[..k]
    ensures c !in s[i..k]
  {
    var t := s[..k];
    assert t[i..] == s[i..k];
    assert forall x :: x in t[i..] ==> x in t;
  }

  lemma BracketParts(host: string, after: string, port: string, hasPort: bool, junk: string)
    requires Clean(host) && Clean(after) && ']' !in host && (hasPort <==> after != "" && after[0] == ':')
    requires port == (if hasPort then after[1..] else "") && junk == (if hasPort then "" else after)
    ensures HostParts(Parts("", "", host, port, "", Metadata(false, 0, false, true, hasPort, junk)))
  {
    if hasPort {
      SliceClean(after, 1, |after|);
      assert after[1..|after|] == port;
    }
  }

  lemma BracketsSplit(s: string, close: int)
    requires close == IndexByte(s, ']') && close != -1 && s[0] == '[' && Clean(s)
    ensures HostParts(SplitHost(s)) && SplitHost(s) == HostOf(SplitHost(s)) && !NoAuthority(SplitHost(s))
  {
    var host, after := s[1..close], s[close + 1..];
    var hasPort := after != "" && after[0] == ':';
    var port, junk := if hasPort then after[1..] else "", if hasPort then "" else after;
    SliceClean(s, 1, close);
    SliceClean(s, close + 1, |s|);
    assert s[close + 1..|s|] == after;
    HeadNot(s, close, ']', 1);
    BracketParts(host, after, port, hasPort, junk);
    BracketedIs(s, close, host, after, port, hasPort, junk);
  }

  lemma BareParts(host: string, port: string)
    requires Clean(host) && Clean(port) && ':' !in host
    requires host != "" && host[0] == '[' ==> ']' !in host && ']' !in port
    ensures HostParts(Parts("", "", host, port, "", NO_METADATA.(hasPort := true)))
  {
  }

  lemma NotInSlices(s: string, k: nat, c: char)
    requires k < |s| && c !in s
    ensures c !in s[..k] && c !in s[k + 1..]
  {
    assert forall x :: x in s[..k] || x in s[k + 1..] ==> x in s;
  }

  lemma ColonSplits(s: string, colon: int)
    requires IndexByte(s, ']') == -1 || s[0] != '['
    requires colon == IndexByte(s, ':') && colon != -1 && Clean(s)
    ensures HostParts(SplitHost(s)) && SplitHost(s) == HostOf(SplitHost(s)) && !NoAuthority(SplitHost(s))
  {
    var host, port := s[..colon], s[colon + 1..];
    WithPortIs(s, colon, host, port);
    SliceClean(s, 0, colon);
    SliceClean(s, colon + 1, |s|);
    assert s[0..colon] == host && s[colon + 1..|s|] == port;
    if ']' !in s {
      NotInSlices(s, colon, ']');
    }
    BareParts(host, port);
  }

  lemma HostSplits(s: string)
    requires Clean(s)
    ensures HostParts(SplitHost(s)) && SplitHost(s) == HostOf(SplitHost(s))
    ensures s != "" ==> !NoAuthority(SplitHost(s))
  {
    var close, colon := IndexByte(s, ']'), IndexByte(s, ':');
    if close != -1 && s[0] == '[' {
      BracketsSplit(s, close);
    } else if colon != -1 {
      ColonSplits(s, colon);
    } else {
      HostOnlyIs(s);
    }
  }

  /** The parts of an authority: a userinfo before an at-sign, if there is one, and a host. */
  ghost predicate AuthorityParts(p: Parts) {
    && p == HostOf(p).(userinfo := p.userinfo, md := HostOf(p).md.(hasAtSign := p.md.hasAtSign))
    && HostParts(p) && Plain(p.userinfo) && (!p.md.hasAtSign ==> p.userinfo == "")
  }

  lemma WithUserinfo(h: Parts, userinfo: string, hasAtSign: bool)
    requires h == HostOf(h) && HostParts(h) && Plain(userinfo) && (!hasAtSign ==> userinfo == "")
    ensures AuthorityParts(if hasAtSign then h.(userinfo := userinfo, md := h.md.(hasAtSign := true)) else h)
  {
  }

  lemma AuthorityCut(a: string, k: nat)
    requires k == AfterLastAt(a) && Plain(a)
    ensures Clean(a[k..]) && (k > 0 ==> Plain(a[..k - 1]))
  {
    var rest := a[k..];
    assert forall c :: c in rest ==> c in a;
    if k > 0 {
      var userinfo := a[..k - 1];
      assert forall c :: c in userinfo ==> c in a;
    }
  }

  lemma NoAtSplits(a: string)
    requires Plain(a) && AfterLastAt(a) == 0
    ensures AuthorityParts(SplitAuthority(a)) && (a != "" ==> !NoAuthority(SplitAuthority(a)))
  {
    AuthorityCut(a, 0);
    assert a[0..] == a;
    HostSplits(a);
    WithUserinfo(SplitHost(a), "", false);
  }

  lemma AtSplits(a: string, k: nat)
    requires Plain(a) && k == AfterLastAt(a) > 0
    ensures AuthorityParts(SplitAuthority(a)) && !NoAuthority(SplitAuthority(a))
  {
    AuthorityCut(a, k);
    HostSplits(a[k..]);
    WithUserinfo(SplitHost(a[k..]), a[..k - 1], true);
  }

  lemma AuthoritySplits(a: string)
    requires Plain(a)
    ensures AuthorityParts(SplitAuthority(a)) && (a != "" ==> !NoAuthority(SplitAuthority(a)))
  {
    if AfterLastAt(a) == 0 {
      NoAtSplits(a);
    } else {
      AtSplits(a, AfterLastAt(a));
    }
  }

  lemma RestOfSlashes(rest: string)
    ensures var n := LeadingSlashes(rest); n < 2 && |rest| > n ==> rest[n..][0] != '/'
  {
  }

  /** What a URL with a colon is split into is well-formed. */
  lemma SplitWellFormed(url: string)
    requires ':' in url
    ensures WellFormed(Split(url))
  {
    var tail := Tail(url);
    var k := Strcspn(tail);
    var a := tail[..k];
    PlainIs(a);
    PlainIs(tail[k..]);
    AuthoritySplits(a);
    RestOfSlashes(url[IndexByte(url, ':') + 1..]);
    assert a == "" ==> tail[k..] == tail;
  }

  // ---- Well-formed parts are split off again ----

  lemma BracketText(host: string, after: string)
    requires ']' !in host
    ensures var s := "[" + host + "]" + after;
            && IndexByte(s, ']') == |host| + 1 && s[0] == '['
            && s[1..|host| + 1] == host && s[|host| + 2..] == after
  {
    var s := "[" + host + "]" + after;
    assert s[..|host| + 1] == "[" + host && s[|host| + 1] == ']';
    IndexByteIs(s, ']', |host| + 1);
  }

  lemma BracketsReadBack(p: Parts)
    requires p.md.hasBrks && HostParts(p)
    ensures SplitHost(HostText(p)) == HostOf(p)
  {
    var after := if p.md.hasPort then ":" + p.port else p.md.junk;
    BracketText(p.host, after);
    AfterText("[" + p.host + "]", p.port, p.md.junk, p.md.hasPort);
    assert p.md.hasPort ==> after[1..] == p.port;
    BracketedIs("[" + p.host + "]" + after, |p.host| + 1, p.host, after, p.port, p.md.hasPort, p.md.junk);
  }

  lemma AfterText(host: string, port: string, junk: string, hasPort: bool)
    requires if hasPort then junk == "" else port == ""
    ensures host + Colon(hasPort) + port + junk == host + if hasPort then ":" + port else junk
  {
    PortOrJunk(host, port, junk);
  }

  lemma PortReadsBack(p: Parts)
    requires !p.md.hasBrks && p.md.hasPort && HostParts(p)
    ensures SplitHost(HostText(p)) == HostOf(p)
  {
    var s := p.host + ":" + p.port;
    assert HostText(p) == s;
    assert s[..|p.host|] == p.host && s[|p.host|] == ':' && s[|p.host| + 1..] == p.port;
    IndexByteIs(s, ':', |p.host|);
    assert s[0] == if p.host == "" then ':' else p.host[0];
    WithPortIs(s, |p.host|, p.host, p.port);
  }

  lemma HostReadsBack(p: Parts)
    requires HostParts(p)
    ensures SplitHost(HostText(p)) == HostOf(p)
  {
    if p.md.hasBrks {
      BracketsReadBack(p);
    } else if p.md.hasPort {
      PortReadsBack(p);
    } else {
      assert HostText(p) == p.host;
      HostOnlyIs(p.host);
    }
  }

  lemma HostTextPlain(p: Parts)
    requires HostParts(p)
    ensures Plain(HostText(p)) && '@' !in HostText(p)
    ensures HostText(p) == "" <==> !p.md.hasBrks && !p.md.hasPort && p.host == ""
  {
  }

  lemma AtSignText(userinfo: string, hasAtSign: bool, h: string)
    requires !hasAtSign ==> userinfo == ""
    ensures userinfo + AtSign(hasAtSign) + h == if hasAtSign then userinfo + "@" + h else h
  {
    assert "" + "" + h == h;
  }

  lemma AuthorityReadsBack(p: Parts)
    requires HostParts(p) && Plain(p.userinfo) && (!p.md.hasAtSign ==> p.userinfo == "")
    ensures SplitAuthority(AuthorityPart(p))
            == HostOf(p).(userinfo := p.userinfo, md := HostOf(p).md.(hasAtSign := p.md.hasAtSign))
    ensures Plain(AuthorityPart(p)) && (AuthorityPart(p) == "" <==> NoAuthority(p))
  {
    var h := HostText(p);
    HostReadsBack(p);
    HostTextPlain(p);
    AtSignText(p.userinfo, p.md.hasAtSign, h);
    AuthorityOf(AuthorityPart(p), p.userinfo, h, p.md.hasAtSign);
    AuthorityPlain(p.userinfo, p.md.hasAtSign, h);
  }

  lemma AuthorityPlain(userinfo: string, hasAtSign: bool, h: string)
    requires Plain(userinfo) && Plain(h)
    ensures Plain(if hasAtSign then userinfo + "@" + h else h)
  {
  }

  lemma SlashesReadBack(n: nat, t: string)
    requires n <= 2 && (n < 2 && t != "" ==> t[0] != '/')
    ensures LeadingSlashes(Slashes(n) + t) == n && (Slashes(n) + t)[n..] == t
  {
    var s := Slashes(n) + t;
    assert t != "" ==> s[n] == t[0];
  }

  lemma TailReadsBack(schema: string, n: nat, t: string)
    requires ':' !in schema && n <= 2 && (n < 2 && t != "" ==> t[0] != '/')
    ensures var url := schema + ":" + (Slashes(n) + t);
            && IndexByte(url, ':') == |schema| && url[..|schema|] == schema
            && LeadingSlashes(url[|schema| + 1..]) == n && Tail(url) == t
  {
    var rest := Slashes(n) + t;
    var url := schema + ":" + rest;
    assert url[|schema|] == ':' && url[..|schema|] == schema;
    IndexByteIs(url, ':', |schema|);
    assert url[|schema| + 1..] == rest;
    SlashesReadBack(n, t);
  }

  lemma FirstOf(a: string, path: string)
    requires Plain(a)
    ensures a != "" ==> a + path != "" && (a + path)[0] != '/'
    ensures a == "" ==> a + path == path
  {
    if a != "" {
      assert (a + path)[0] == a[0] && a[0] in a;
    }
  }

  lemma AllOf(p: Parts)
    requires p.md.hasSchema
    ensures var h := HostOf(p).(userinfo := p.userinfo, md := HostOf(p).md.(hasAtSign := p.md.hasAtSign));
            p == h.(schema := p.schema, path := p.path, md := h.md.(hasSchema := true, slashNum := p.md.slashNum))
  {
  }

  lemma JoinedUrl(p: Parts)
    requires p.md.hasSchema
    ensures Join(p) == p.schema + ":" + (Slashes(p.md.slashNum) + (AuthorityPart(p) + p.path))
    ensures ':' in Join(p)
  {
    assert Join(p)[|p.schema|] == ':';
  }

  lemma TailFits(p: Parts, a: string)
    requires WellFormed(p) && Plain(a) && (a == "" <==> NoAuthority(p))
    ensures var t := a + p.path; p.md.slashNum < 2 && t != "" ==> t[0] != '/'
  {
    FirstOf(a, p.path);
  }

  lemma PathCut(a: string, path: string)
    requires Plain(a) && PathText(path)
    ensures Strcspn(a + path) == |a| && (a + path)[..|a|] == a && (a + path)[|a|..] == path
  {
    PlainIs(a);
    PlainIs(path);
    StrcspnOf(a, path);
  }

  /** Authority and path are found where they were put. */
  lemma AuthorityFound(p: Parts, a: string)
    requires WellFormed(p) && a == AuthorityPart(p) && Plain(a) && (a == "" <==> NoAuthority(p))
    ensures Split(Join(p)) == SplitAuthority(a).(schema := p.schema, path := p.path,
              md := SplitAuthority(a).md.(hasSchema := true, slashNum := p.md.slashNum))
  {
    var t := a + p.path;
    TailFits(p, a);
    PathCut(a, p.path);
    TailReadsBack(p.schema, p.md.slashNum, t);
    JoinedUrl(p);
    SplitOf(Join(p), p.schema, p.md.slashNum, a, p.path);
  }

  /** Well-formed parts are what their text is split into. */
  lemma SplitJoin(p: Parts)
    requires WellFormed(p)
    ensures ':' in Join(p) && Split(Join(p)) == p
  {
    AuthorityReadsBack(p);
    AuthorityFound(p, AuthorityPart(p));
    AllOf(p);
    JoinedUrl(p);
  }

  /** A URL with a colon is split into the one well-formed set of parts that it is the text of. */
  lemma SplitIsUnique(url: string, p: Parts)
    requires ':' in url
    ensures Split(url) == p <==> WellFormed(p) && Join(p) == url
  {
    SplitWellFormed(url);
    JoinSplit(url);
    if WellFormed(p) {
      SplitJoin(p);
    }
  }

  /** The usual form: schema, host and port, then a path, a query or a fragment, or nothing. */
  lemma UsualUrl(schema: string, host: string, port: string, path: string)
    requires ':' !in schema && PathText(path) && Usual(host) && Usual(port)
    ensures Split(schema + "://" + (host + ":" + port + path))
            == Parts(schema, "", host, port, path, Metadata(true, 2, false, false, true, ""))
  {
    var p := Parts(schema, "", host, port, path, Metadata(true, 2, false, false, true, ""));
    SplitJoin(p);
    UsualText(schema, host, port, path);
  }

  /** Text without any of the characters that mean something in a URL. */
  ghost predicate Usual(s: string) {
    && s != "" && '/' !in s && '?' !in s && '#' !in s && '@' !in s && ':' !in s && '[' !in s && ']' !in s
  }

  lemma UsualText(schema: string, host: string, port: string, path: string)
    ensures Join(Parts(schema, "", host, port, path, Metadata(true, 2, false, false, true, "")))
            == schema + "://" + (host + ":" + port + path)
  {
    var h := host + ":" + port;
    assert host + ":" + port + "" == h;
    assert "" + "" + h == h;
    TwoSlashes();
    assert schema + ":" + ("//" + (h + path)) == schema + "://" + (h + path);
  }

  lemma TwoSlashes()
    ensures Slashes(2) == "//"
  {
    assert Slashes(1) == "/" + Slashes(0);
    assert Slashes(2) == "/" + Slashes(1);
  }
}
