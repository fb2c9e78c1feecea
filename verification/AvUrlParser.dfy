/** The procedures of pkg/avurl as the source writes them, with a cursor moving over the text; they
    compute the functions of AvUrl and UserinfoEmbedding. */
module AvUrlParser {
  import opened Wrappers
  import opened AvUrl
  import opened UserinfoEmbedding

  lemma SliceOfSlice(s: string, lo: nat, hi: nat, a: nat, b: nat)
    requires lo <= hi <= |s| && a <= b <= hi - lo
    ensures s[lo..hi][a..b] == s[lo + a..lo + b]
  {
    var t := s[lo..hi];
    assert forall i :: 0 <= i < b - a ==> t[a..b][i] == t[a + i] && t[a + i] == s[lo + a..lo + b][i];
  }

  lemma NoUserinfo(a: string)
    requires '@' !in a
    ensures SplitAuthority(a) == SplitHost(a)
  {
    assert AfterLastAt(a) == 0;
    assert a[0..] == a;
  }

  lemma AroundAt(url: string, base: nat, at: nat, pathAt: nat)
    requires base <= at < pathAt <= |url| && url[at] == '@'
    ensures url[base..pathAt] == url[base..at] + "@" + url[at + 1..pathAt]
  {
  }

  lemma AuthorityOf(a: string, userinfo: string, host: string, hasAtSign: bool)
    requires '@' !in host && a == if hasAtSign then userinfo + "@" + host else host
    ensures var h := SplitHost(host);
            SplitAuthority(a) == if hasAtSign then h.(userinfo := userinfo, md := h.md.(hasAtSign := true)) else h
  {
    if hasAtSign {
      SplitNewAuthority(userinfo, host);
    } else {
      NoUserinfo(host);
    }
  }

  lemma AuthorityBetween(url: string, base: nat, cursor: nat, pathAt: nat, userinfo: string, hasAtSign: bool)
    requires base <= cursor <= pathAt <= |url|
    requires hasAtSign <==> cursor > base
    requires hasAtSign ==> url[cursor - 1] == '@' && userinfo == url[base..cursor - 1]
    ensures url[base..pathAt] == if hasAtSign then userinfo + "@" + url[cursor..pathAt] else url[cursor..pathAt]
  {
    if hasAtSign {
      AroundAt(url, base, cursor - 1, pathAt);
    }
  }

  /** The loop over '@': everything up to the last one is userinfo. */
  method ScanUserinfo(url: string, base: nat, pathAt: nat) returns (userinfo: string, hasAtSign: bool, cursor: nat)
    requires base <= pathAt <= |url|
    ensures base <= cursor <= pathAt && '@' !in url[cursor..pathAt]
    ensures hasAtSign <==> cursor > base
    ensures hasAtSign ==> url[cursor - 1] == '@' && userinfo == url[base..cursor - 1]
    ensures !hasAtSign ==> userinfo == ""
  {
    userinfo, hasAtSign := "", false;
    cursor := base;
    while true
      invariant base <= cursor <= pathAt
      invariant hasAtSign <==> cursor > base
      invariant !hasAtSign ==> userinfo == ""
      invariant hasAtSign ==> url[cursor - 1] == '@' && userinfo == url[base..cursor - 1]
      decreases pathAt - cursor
    {
      var atSignRel := IndexByte(url[cursor..pathAt], '@');
      if atSignRel == -1 {
        return;
      }
      hasAtSign := true;
      var atSignAbs := cursor + atSignRel;
      userinfo := url[base..atSignAbs];
      cursor := atSignAbs + 1;
      if cursor == |url| {
        return;
      }
    }
  }

  /** What comes after the closing bracket: a port, or junk, or nothing. */
  method SplitAfterBracket(url: string, cursor: nat, pathAt: nat) returns (port: string, hasPort: bool, junk: string)
    requires cursor <= pathAt <= |url|
    requires pathAt < |url| ==> EndsAuthority(url[pathAt])
    ensures var after := url[cursor..pathAt];
            && (hasPort <==> after != "" && after[0] == ':')
            && port == (if hasPort then after[1..] else "") && junk == (if hasPort then "" else after)
  {
    port, hasPort, junk := "", false, "";
    if cursor == |url| {
      return;
    }
    if url[cursor] == ':' {
      hasPort := true;
      port := url[cursor + 1..pathAt];
      SliceOfSlice(url, cursor, pathAt, 1, pathAt - cursor);
    } else if cursor != pathAt {
      junk := url[cursor..pathAt];
    }
  }

  lemma SliceToEnd(s: string, lo: nat, hi: nat, a: nat)
    requires lo <= hi <= |s| && a <= hi - lo
    ensures s[lo..hi][a..] == s[lo + a..hi]
  {
    SliceOfSlice(s, lo, hi, a, hi - lo);
    assert s[lo..hi][a..] == s[lo..hi][a..hi - lo];
  }

  lemma BracketedIs(s: string, close: int, host: string, after: string, port: string, hasPort: bool, junk: string)
    requires close == IndexByte(s, ']') && close != -1 && s[0] == '['
    requires host == s[1..close] && after == s[close + 1..] && (hasPort <==> after != "" && after[0] == ':')
    requires port == (if hasPort then after[1..] else "") && junk == (if hasPort then "" else after)
    ensures SplitHost(s) == Parts("", "", host, port, "", Metadata(false, 0, false, true, hasPort, junk))
  {
  }

  lemma WithPortIs(s: string, colon: int, host: string, port: string)
    requires IndexByte(s, ']') == -1 || s[0] != '['
    requires colon == IndexByte(s, ':') && colon != -1 && host == s[..colon] && port == s[colon + 1..]
    ensures SplitHost(s) == Parts("", "", host, port, "", NO_METADATA.(hasPort := true))
  {
  }

  lemma HostOnlyIs(s: string)
    requires (IndexByte(s, ']') == -1 || s[0] != '[') && IndexByte(s, ':') == -1
    ensures SplitHost(s) == Parts("", "", s, "", "", NO_METADATA)
  {
  }

  lemma InsideBracket(url: string, from: nat, pathAt: nat, close: nat, s: string, host: string, after: string)
    requires from < pathAt <= |url| && 0 < close < pathAt - from && s == url[from..pathAt]
    requires host == url[from + 1..from + close] && after == url[from + close + 1..pathAt]
    ensures host == s[1..close] && after == s[close + 1..]
  {
    SliceOfSlice(url, from, pathAt, 1, close);
    SliceToEnd(url, from, pathAt, close + 1);
  }

  /** Port, junk and marks of a bracketed host, from what comes after it. */
  ghost predicate AfterBracket(after: string, port: string, md: Metadata) {
    && (md.hasPort <==> after != "" && after[0] == ':')
    && port == (if md.hasPort then after[1..] else "")
    && md == Metadata(false, 0, false, true, md.hasPort, if md.hasPort then "" else after)
  }

  /** A bracketed host and what comes after it, `close` being the offset of the bracket. */
  method SplitBracketed(url: string, from: nat, pathAt: nat, close: nat)
    returns (host: string, port: string, md: Metadata)
    requires 0 < close < pathAt - from && pathAt <= |url|
    requires pathAt < |url| ==> EndsAuthority(url[pathAt])
    ensures host == url[from + 1..from + close] && AfterBracket(url[from + close + 1..pathAt], port, md)
  {
    var brkAbs := from + close;
    host := url[from + 1..brkAbs];
    var hasPort, junk;
    port, hasPort, junk := SplitAfterBracket(url, brkAbs + 1, pathAt);
    md := NO_METADATA.(hasBrks := true, hasPort := hasPort, junk := junk);
  }

  lemma BracketedAt(url: string, from: nat, pathAt: nat, close: nat, host: string, port: string, md: Metadata)
    requires from < pathAt <= |url| && 0 < close < pathAt - from
    requires close == IndexByte(url[from..pathAt], ']') && url[from] == '['
    requires host == url[from + 1..from + close] && AfterBracket(url[from + close + 1..pathAt], port, md)
    ensures Parts("", "", host, port, "", md) == SplitHost(url[from..pathAt])
  {
    var s, after := url[from..pathAt], url[from + close + 1..pathAt];
    InsideBracket(url, from, pathAt, close, s, host, after);
    BracketedIs(s, close, host, after, port, md.hasPort, md.junk);
  }

  /** Host, port and junk. */
  method SplitHostAt(url: string, cursor: nat, pathAt: nat) returns (host: string, port: string, md: Metadata)
    requires cursor <= pathAt <= |url|
    requires pathAt < |url| ==> EndsAuthority(url[pathAt])
    ensures Parts("", "", host, port, "", md) == SplitHost(url[cursor..pathAt])
  {
    var closingBracketRel := IndexByte(url[cursor..pathAt], ']');
    if closingBracketRel != -1 && url[cursor] == '[' {
      host, port, md := SplitBracketed(url, cursor, pathAt, closingBracketRel);
      BracketedAt(url, cursor, pathAt, closingBracketRel, host, port, md);
      return;
    }
    host, port, md := SplitUnbracketed(url, cursor, pathAt);
  }

  method SplitUnbracketed(url: string, cursor: nat, pathAt: nat) returns (host: string, port: string, md: Metadata)
    requires cursor <= pathAt <= |url|
    requires var s := url[cursor..pathAt]; IndexByte(s, ']') == -1 || s[0] != '['
    ensures Parts("", "", host, port, "", md) == SplitHost(url[cursor..pathAt])
  {
    var colonRel := IndexByte(url[cursor..pathAt], ':');
    if colonRel != -1 {
      var colonAbs := cursor + colonRel;
      host := url[cursor..colonAbs];
      port := url[colonAbs + 1..pathAt];
      md := NO_METADATA.(hasPort := true);
      SliceFromStart(url, cursor, pathAt, colonRel);
      SliceToEnd(url, cursor, pathAt, colonRel + 1);
      WithPortIs(url[cursor..pathAt], colonRel, host, port);
    } else {
      host, port, md := url[cursor..pathAt], "", NO_METADATA;
      HostOnlyIs(host);
    }
  }

  lemma SliceFromStart(s: string, lo: nat, hi: nat, b: nat)
    requires lo <= hi <= |s| && b <= hi - lo
    ensures s[lo..hi][..b] == s[lo..lo + b]
  {
    SliceOfSlice(s, lo, hi, 0, b);
    assert s[lo..hi][..b] == s[lo..hi][0..b];
  }

  /** The authority part of avurlSplit: everything between `base` and `pathAt`. */
  method SplitAuthorityAt(url: string, base: nat, pathAt: nat)
    returns (userinfo: string, host: string, port: string, md: Metadata)
    requires base <= pathAt <= |url|
    requires pathAt < |url| ==> EndsAuthority(url[pathAt])
    ensures Parts("", userinfo, host, port, "", md) == SplitAuthority(url[base..pathAt])
  {
    var hasAtSign, cursor;
    userinfo, hasAtSign, cursor := ScanUserinfo(url, base, pathAt);
    host, port, md := SplitHostAt(url, cursor, pathAt);
    AuthorityBetween(url, base, cursor, pathAt, userinfo, hasAtSign);
    AuthorityOf(url[base..pathAt], userinfo, url[cursor..pathAt], hasAtSign);
    if hasAtSign {
      md := md.(hasAtSign := true);
    }
  }

  /** The schema, and the position after it, its colon and up to two slashes. */
  method SplitSchema(url: string) returns (schema: string, slashNum: nat, cursor: nat)
    requires IndexByte(url, ':') != -1
    ensures schema == url[..IndexByte(url, ':')]
    ensures slashNum == LeadingSlashes(url[IndexByte(url, ':') + 1..])
    ensures cursor == |schema| + 1 + slashNum <= |url| && url[cursor..] == Tail(url)
  {
    var colon := IndexByte(url, ':');
    schema := url[..colon];
    cursor := colon + 1;
    slashNum := 0;
    ghost var rest := url[cursor..];
    if cursor == |url| {
      return;
    }
    assert rest[0] == url[cursor];
    if url[cursor] == '/' {
      cursor := cursor + 1;
      slashNum := slashNum + 1;
      if cursor == |url| {
        return;
      }
      assert rest[1] == url[cursor];
    }
    if url[cursor] == '/' {
      cursor := cursor + 1;
      slashNum := slashNum + 1;
    }
  }

  lemma CutAt(url: string, cursor: nat, k: nat)
    requires cursor <= |url| && k <= |url| - cursor
    ensures url[cursor..][..k] == url[cursor..cursor + k] && url[cursor..][k..] == url[cursor + k..]
    ensures k < |url| - cursor ==> url[cursor..][k] == url[cursor + k]
  {
  }

  /** The authority, which is empty when the path begins at once. */
  method SplitBetween(url: string, cursor: nat, pathAt: nat)
    returns (userinfo: string, host: string, port: string, md: Metadata)
    requires cursor <= pathAt <= |url|
    requires pathAt < |url| ==> EndsAuthority(url[pathAt])
    ensures Parts("", userinfo, host, port, "", md) == SplitAuthority(url[cursor..pathAt])
  {
    if pathAt != cursor {
      userinfo, host, port, md := SplitAuthorityAt(url, cursor, pathAt);
    } else {
      userinfo, host, port, md := "", "", "", NO_METADATA;
      NothingAt(url, cursor, pathAt);
    }
  }

  lemma NothingAt(url: string, at: nat, to: nat)
    requires at == to <= |url|
    ensures SplitAuthority(url[at..to]) == Parts("", "", "", "", "", NO_METADATA)
  {
    NothingThere();
    assert url[at..to] == "";
  }

  lemma NothingThere()
    ensures SplitAuthority("") == Parts("", "", "", "", "", NO_METADATA)
  {
    NoUserinfo("");
  }

  lemma SplitFrom(url: string, tail: string, authority: string, path: string, a: Parts)
    requires IndexByte(url, ':') != -1 && tail == Tail(url)
    requires authority == tail[..Strcspn(tail)] && path == tail[Strcspn(tail)..] && a == SplitAuthority(authority)
    ensures Split(url) == Parts(url[..IndexByte(url, ':')], a.userinfo, a.host, a.port, path,
              a.md.(hasSchema := true, slashNum := LeadingSlashes(url[IndexByte(url, ':') + 1..])))
  {
  }

  /** The URL ends with its schema or its slashes. */
  lemma SplitEnds(url: string)
    requires IndexByte(url, ':') != -1 && Tail(url) == ""
    ensures Split(url) == Parts(url[..IndexByte(url, ':')], "", "", "", "",
              NO_METADATA.(hasSchema := true, slashNum := LeadingSlashes(url[IndexByte(url, ':') + 1..])))
  {
    NothingThere();
    SplitFrom(url, "", "", "", SplitAuthority(""));
  }

  /** The part of avurlSplit after the schema and the slashes. */
  method SplitRest(url: string, schema: string, slashNum: nat, cursor: nat) returns (p: Parts)
    requires IndexByte(url, ':') != -1 && schema == url[..IndexByte(url, ':')]
    requires slashNum == LeadingSlashes(url[IndexByte(url, ':') + 1..])
    requires cursor <= |url| && url[cursor..] == Tail(url)
    ensures p == Split(url)
  {
    var pathAt := FindPath(url, cursor);
    var path := url[pathAt..];
    var userinfo, host, port, md := SplitBetween(url, cursor, pathAt);
    p := Parts(schema, userinfo, host, port, path, md.(hasSchema := true, slashNum := slashNum));
    SplitAt(url, cursor, pathAt, p, md);
  }

  /** Where the path, query or fragment begins. */
  method FindPath(url: string, cursor: nat) returns (pathAt: nat)
    requires cursor <= |url|
    ensures cursor <= pathAt <= |url| && (pathAt < |url| ==> EndsAuthority(url[pathAt]))
    ensures pathAt - cursor == Strcspn(url[cursor..])
  {
    pathAt := cursor + Strcspn(url[cursor..]);
    CutAt(url, cursor, Strcspn(url[cursor..]));
  }

  lemma SplitAt(url: string, cursor: nat, pathAt: nat, p: Parts, md: Metadata)
    requires IndexByte(url, ':') != -1 && cursor <= pathAt <= |url| && url[cursor..] == Tail(url)
    requires pathAt - cursor == Strcspn(url[cursor..])
    requires Parts("", p.userinfo, p.host, p.port, "", md) == SplitAuthority(url[cursor..pathAt])
    requires p.schema == url[..IndexByte(url, ':')] && p.path == url[pathAt..]
    requires p.md == md.(hasSchema := true, slashNum := LeadingSlashes(url[IndexByte(url, ':') + 1..]))
    ensures p == Split(url)
  {
    CutAt(url, cursor, pathAt - cursor);
    SplitFrom(url, url[cursor..], url[cursor..pathAt], p.path, Parts("", p.userinfo, p.host, p.port, "", md));
  }

  method AvurlSplit(url: string) returns (p: Parts)
    ensures p == Split(url)
  {
    if IndexByte(url, ':') == -1 {
      return Parts("", "", "", "", url, NO_METADATA);
    }
    var schema, slashNum, cursor := SplitSchema(url);
    if cursor == |url| {
      SplitEnds(url);
      return Parts(schema, "", "", "", "", NO_METADATA.(hasSchema := true, slashNum := slashNum));
    }
    p := SplitRest(url, schema, slashNum, cursor);
  }

  method EmbeddUserinfo(url: Option<string>, username: Option<string>, password: Option<string>)
    returns (r: Option<string>)
    ensures r == if url.None? then None else Some(Embed(url.value, username, password))
  {
    if url.None? {
      return None;
    }
    var p := AvurlSplit(url.value);
    var md := p.md;
    var userinfo := "";
    if username.Some? {
      md := md.(hasAtSign := true);
      userinfo := Escape(username.value, true);
      if password.Some? {
        userinfo := userinfo + (":" + Escape(password.value, false));
      }
      assert userinfo == Credentials(username.value, password);
    }
    return Some(Join(p.(userinfo := userinfo, md := md)));
  }

  datatype Url = Url(schema: string, userinfo: string, host: string, port: string, path: string)

  datatype ParseResult = Parsed(url: Url) | Unparsable | Junk | HasUserinfo | BadHost | BadPort

  /** RawParse accepts every string: its "unable to parse" branch is never taken. */
  method RawParse(url: string) returns (r: ParseResult)
    ensures var p := Split(url); r == Parsed(Url(p.schema, p.userinfo, p.host, p.port, p.path))
  {
    var p := AvurlSplit(url);
    JoinSplit(url);
    if url != Join(p) {
      return Unparsable;
    }
    return Parsed(Url(p.schema, p.userinfo, p.host, p.port, p.path));
  }

  /** Parse, given the verdicts of the host and port validators. */
  method Parse(url: string, validHost: string -> bool, isPort: string -> bool) returns (r: ParseResult)
    ensures !r.Unparsable?
    ensures var p := Split(url);
            r.Parsed? <==> p.md.junk == "" && !p.md.hasAtSign
                           && (p.host == "" || validHost(p.host)) && (p.port == "" || isPort(p.port))
    ensures r.Junk? <==> Split(url).md.junk != ""
    ensures r.HasUserinfo? <==> Split(url).md.junk == "" && Split(url).md.hasAtSign
    ensures var p := Split(url);
            r.BadHost? <==> p.md.junk == "" && !p.md.hasAtSign && p.host != "" && !validHost(p.host)
    ensures var p := Split(url);
            r.BadPort? <==> p.md.junk == "" && !p.md.hasAtSign && (p.host == "" || validHost(p.host))
                            && p.port != "" && !isPort(p.port)
    ensures r.Parsed? ==> var p := Split(url); r.url == Url(p.schema, p.userinfo, p.host, p.port, p.path)
  {
    var p := AvurlSplit(url);
    JoinSplit(url);
    if url != Join(p) {
      return Unparsable;
    }
    if p.md.junk != "" {
      return Junk;
    }
    if p.md.hasAtSign {
      return HasUserinfo;
    }
    if p.host != "" && !validHost(p.host) {
      return BadHost;
    }
    if p.port != "" && !isPort(p.port) {
      return BadPort;
    }
    return Parsed(Url(p.schema, p.userinfo, p.host, p.port, p.path));
  }
}
