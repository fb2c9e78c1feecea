/** Credentials inside URLs (pkg/avurl/av_url.go): escaping, and what embedding them changes. */
module UserinfoEmbedding {
  import opened Wrappers
  import opened AvUrl

  predicate Escaped(c: char, colonToo: bool) {
    EndsAuthority(c) || (colonToo && c == ':')
  }

  function EscapeChar(c: char, colonToo: bool): (r: string) {
    if c == '/' then "%2F"
    else if c == '?' then "%3F"
    else if c == '#' then "%23"
    else if c == ':' && colonToo then "%3A"
    else [c]
  }

  /** The replacers of escapUsername (`colonToo`) and escapPassword. */
  function Escape(s: string, colonToo: bool): (r: string)
    ensures AuthorityText(r)
    ensures colonToo ==> ':' !in r
  {
    if s == "" then "" else EscapeChar(s[0], colonToo) + Escape(s[1..], colonToo)
  }

  lemma {:induction false} EscapeJoins(s: string, t: string, b: bool)
    ensures Escape(s + t, b) == Escape(s, b) + Escape(t, b)
    decreases |s|
  {
    if s == "" {
      assert s + t == t;
    } else {
      assert (s + t)[1..] == s[1..] + t && (s + t)[0] == s[0];
      EscapeJoins(s[1..], t, b);
      Assoc(EscapeChar(s[0], b), Escape(s[1..], b), Escape(t, b));
    }
  }

  /** What becomes of each character: '/', '?' and '#' are percent-encoded, ':' in usernames only, and all
      others stay as they are. */
  lemma EscapesCharacters(c: char, s: string, b: bool)
    ensures Escape("/" + s, b) == "%2F" + Escape(s, b)
    ensures Escape("?" + s, b) == "%3F" + Escape(s, b)
    ensures Escape("#" + s, b) == "%23" + Escape(s, b)
    ensures Escape(":" + s, b) == (if b then "%3A" else ":") + Escape(s, b)
    ensures c != '/' && c != '?' && c != '#' && c != ':' ==> Escape([c] + s, b) == [c] + Escape(s, b)
  {
    assert forall x: char :: ([x] + s)[1..] == s && ([x] + s)[0] == x;
    assert ("/" + s)[1..] == s && ("?" + s)[1..] == s && ("#" + s)[1..] == s && (":" + s)[1..] == s;
  }

  function HexValue(c: char): (r: int) {
    if '0' <= c <= '9' then c as int - '0' as int
    else if 'A' <= c <= 'F' then c as int - 'A' as int + 10
    else if 'a' <= c <= 'f' then c as int - 'a' as int + 10
    else -1
  }

  /** `s` starts with a percent-encoded byte. */
  predicate StartsTriplet(s: string) {
    |s| >= 3 && s[0] == '%' && HexValue(s[1]) >= 0 && HexValue(s[2]) >= 0
  }

  predicate HasTriplet(s: string) {
    s != "" && (StartsTriplet(s) || HasTriplet(s[1..]))
  }

  /** Percent-decoding (section 2.1 of RFC 3986); what is not a triplet stands for itself. */
  function Decode(s: string): (r: string)
    decreases |s|
  {
    if s == "" then ""
    else if StartsTriplet(s) then [(HexValue(s[1]) * 16 + HexValue(s[2])) as char] + Decode(s[3..])
    else [s[0]] + Decode(s[1..])
  }

  /** Escaping keeps a leading hexadecimal digit, and never makes one. */
  lemma EscapeHead(s: string, b: bool)
    ensures Escape(s, b) == "" <==> s == ""
    ensures s != "" && HexValue(s[0]) >= 0 ==> Escape(s, b) == [s[0]] + Escape(s[1..], b)
    ensures s != "" && HexValue(s[0]) < 0 ==> HexValue(Escape(s, b)[0]) < 0
  {
  }

  /** Two hexadecimal digits come first. */
  predicate HexPair(s: string) {
    |s| >= 2 && HexValue(s[0]) >= 0 && HexValue(s[1]) >= 0
  }

  lemma PercentPair(t: string)
    ensures StartsTriplet(['%'] + t) <==> HexPair(t)
  {
    var s := ['%'] + t;
    assert |s| == 1 + |t|;
    assert forall i :: 0 <= i < |t| ==> s[i + 1] == t[i];
  }

  lemma PairHead(c: char, t: string)
    ensures HexPair([c] + t) <==> HexValue(c) >= 0 && t != "" && HexValue(t[0]) >= 0
  {
    if t != "" {
      assert ([c] + t)[1] == t[0];
    }
  }

  lemma HeadTail(s: string)
    requires s != ""
    ensures s == [s[0]] + s[1..]
  {
  }

  /** A pair of digits comes first after escaping exactly when it did before, and is kept. */
  lemma PairKept(t: string, b: bool)
    ensures HexPair(Escape(t, b)) <==> HexPair(t)
    ensures HexPair(t) ==> Escape(t, b) == [t[0]] + ([t[1]] + Escape(t[1..][1..], b))
  {
    EscapeHead(t, b);
    if t != "" {
      var u := t[1..];
      HeadTail(t);
      PairHead(t[0], u);
      if HexValue(t[0]) >= 0 {
        EscapeHead(u, b);
        PairHead(t[0], Escape(u, b));
        assert u != "" ==> u[0] == t[1];
      }
    }
  }

  lemma TripletDrop(s: string)
    requires |s| >= 3
    ensures s[1..][1..][1..] == s[3..] && s[1..][0] == s[1] && s[1..][1] == s[2]
  {
  }

  lemma ThreeMore(x: char, y: char, z: char, t: string)
    ensures [x] + ([y] + ([z] + t)) == [x, y, z] + t
  {
  }

  /** A percent sign starts a triplet after escaping exactly when it did before. */
  lemma TripletKept(s: string, b: bool)
    requires s != "" && s[0] == '%'
    ensures StartsTriplet(Escape(s, b)) <==> StartsTriplet(s)
    ensures StartsTriplet(s) ==> Escape(s, b) == [s[0], s[1], s[2]] + Escape(s[3..], b)
  {
    var t := s[1..];
    HeadTail(s);
    PercentPair(t);
    PercentPair(Escape(t, b));
    PairKept(t, b);
    assert Escape(s, b) == ['%'] + Escape(t, b);
    if HexPair(t) {
      TripletDrop(s);
      ThreeMore(s[0], s[1], s[2], Escape(s[3..], b));
    }
  }

  lemma DecodePlain(c: char, t: string)
    requires !StartsTriplet([c] + t)
    ensures Decode([c] + t) == [c] + Decode(t)
  {
    assert ([c] + t)[1..] == t;
  }

  lemma DecodeTriplet(x: char, y: char, z: char, t: string)
    requires x == '%' && HexValue(y) >= 0 && HexValue(z) >= 0
    ensures Decode([x, y, z] + t) == [(HexValue(y) * 16 + HexValue(z)) as char] + Decode(t)
  {
    assert ([x, y, z] + t)[3..] == t;
  }

  lemma DecodeEscapedChar(c: char, b: bool, t: string)
    requires Escaped(c, b)
    ensures Decode(EscapeChar(c, b) + t) == [c] + Decode(t)
  {
    var e := EscapeChar(c, b);
    assert e == ['%', e[1], e[2]];
    DecodeTriplet('%', e[1], e[2], t);
  }

  /** Decoding undoes one escaped character, unless that is a percent sign that starts a triplet. */
  lemma DecodeFirst(s: string, b: bool)
    requires s != "" && !StartsTriplet(s)
    ensures Decode(Escape(s, b)) == [s[0]] + Decode(Escape(s[1..], b))
  {
    var t := Escape(s[1..], b);
    if Escaped(s[0], b) {
      DecodeEscapedChar(s[0], b, t);
    } else {
      if s[0] == '%' {
        TripletKept(s, b);
      }
      assert Escape(s, b) == [s[0]] + t;
      DecodePlain(s[0], t);
    }
  }

  lemma {:induction false} DecodeEscape(s: string, b: bool)
    requires !HasTriplet(s)
    ensures Decode(Escape(s, b)) == s
    decreases |s|
  {
    if s != "" {
      DecodeFirst(s, b);
      DecodeEscape(s[1..], b);
    }
  }

  lemma {:induction false} DecodeShrinks(s: string, b: bool)
    ensures |Decode(Escape(s, b))| <= |s|
    ensures HasTriplet(s) ==> |Decode(Escape(s, b))| < |s|
    decreases |s|
  {
    if StartsTriplet(s) {
      TripletKept(s, b);
      DecodeTriplet(s[0], s[1], s[2], Escape(s[3..], b));
      DecodeShrinks(s[3..], b);
    } else if s != "" {
      DecodeFirst(s, b);
      DecodeShrinks(s[1..], b);
    }
  }

  /** Percent-decoding an escaped name gives the name back exactly when the name did not itself
      contain a percent-encoded byte. */
  lemma DecodeEscapeIff(s: string, b: bool)
    ensures Decode(Escape(s, b)) == s <==> !HasTriplet(s)
  {
    if HasTriplet(s) {
      DecodeShrinks(s, b);
    } else {
      DecodeEscape(s, b);
    }
  }

  // ---- EmbeddUserinfo ----

  function Credentials(username: string, password: Option<string>): (r: string) {
    Escape(username, true) + if password.Some? then ":" + Escape(password.value, false) else ""
  }

  function Embed(url: string, username: Option<string>, password: Option<string>): (r: string) {
    var p := Split(url);
    if username.Some?
    then Join(p.(userinfo := Credentials(username.value, password), md := p.md.(hasAtSign := true)))
    else Join(p.(userinfo := ""))
  }

  /** The first ':' of the userinfo is the one between username and password. */
  lemma {:induction false} FirstColonSeparates(username: string, password: Option<string>)
    ensures var c := Credentials(username, password);
            var k := IndexByte(c, ':');
            && AuthorityText(c)
            && (password.None? ==> k == -1 && c == Escape(username, true))
            && (password.Some? ==> k != -1 && c[..k] == Escape(username, true))
            && (password.Some? ==> c[k + 1..] == Escape(password.value, false))
  {
    var u := Escape(username, true);
    if password.Some? {
      ColonBetween(u, Escape(password.value, false));
    } else {
      assert u + "" == u;
    }
  }

  lemma ColonBetween(u: string, w: string)
    requires ':' !in u
    ensures var c := u + (":" + w);
            IndexByte(c, ':') == |u| && c[..|u|] == u && c[|u| + 1..] == w
  {
    var c := u + (":" + w);
    assert c[..|u|] == u && c[|u|] == ':' && c[|u| + 1..] == w;
    IndexByteIs(c, ':', |u|);
  }

  lemma {:induction false} IndexByteIs(s: string, c: char, k: nat)
    requires k < |s| && s[k] == c && c !in s[..k]
    ensures IndexByte(s, c) == k
    decreases k
  {
    if k > 0 {
      assert s[..k] == [s[0]] + s[1..][..k - 1];
      IndexByteIs(s[1..], c, k - 1);
    }
  }

  lemma {:induction false} StrcspnIs(s: string, k: nat)
    requires k <= |s| && AuthorityText(s[..k]) && (k < |s| ==> EndsAuthority(s[k]))
    ensures Strcspn(s) == k
    decreases k
  {
    if k > 0 {
      assert s[..k] == [s[0]] + s[1..][..k - 1];
      StrcspnIs(s[1..], k - 1);
    }
  }

  lemma {:induction false} AfterLastAtIs(s: string, k: nat)
    requires 0 < k <= |s| && s[k - 1] == '@' && '@' !in s[k..]
    ensures AfterLastAt(s) == k
    decreases |s|
  {
    if k < |s| {
      assert s[k..] == s[..|s| - 1][k..] + [s[|s| - 1]];
      AfterLastAtIs(s[..|s| - 1], k);
    }
  }

  /** The text between userinfo and path. */
  function HostPart(url: string): (r: string)
    requires IndexByte(url, ':') != -1
  {
    var a := Tail(url)[..Strcspn(Tail(url))];
    a[AfterLastAt(a)..]
  }

  lemma HostPartIs(url: string)
    requires IndexByte(url, ':') != -1
    ensures var h := HostPart(url); '@' !in h && AuthorityText(h)
    ensures HostText(Split(url)) == HostPart(url)
  {
    JoinSplitHost(HostPart(url));
  }

  /** An authority made of credentials, '@' and host text splits back into them. */
  lemma SplitNewAuthority(cred: string, host: string)
    requires '@' !in host
    ensures var h := SplitHost(host);
            SplitAuthority(cred + "@" + host) == h.(userinfo := cred, md := h.md.(hasAtSign := true))
  {
    AtParts(cred, host);
    AfterLastAtIs(cred + "@" + host, |cred| + 1);
  }

  lemma AtParts(cred: string, host: string)
    ensures var a := cred + "@" + host; a[|cred| + 1..] == host && a[..|cred|] == cred && a[|cred|] == '@'
  {
  }

  lemma LeadingSlashesAre(n: nat, t: string)
    requires n <= 2 && t != "" && t[0] != '/'
    ensures LeadingSlashes(Slashes(n) + t) == n && (Slashes(n) + t)[n..] == t
  {
    var s := Slashes(n) + t;
    assert s[n] == t[0];
  }

  lemma TailOf(schema: string, slashes: nat, tail: string)
    requires ':' !in schema && slashes <= 2 && tail != "" && tail[0] != '/'
    ensures var url := schema + ":" + (Slashes(slashes) + tail);
            && IndexByte(url, ':') == |schema| && url[..|schema|] == schema
            && LeadingSlashes(url[|schema| + 1..]) == slashes && Tail(url) == tail
  {
    var rest := Slashes(slashes) + tail;
    var url := schema + ":" + rest;
    assert url[|schema|] == ':' && url[..|schema|] == schema;
    IndexByteIs(url, ':', |schema|);
    assert url[|schema| + 1..] == rest;
    LeadingSlashesAre(slashes, tail);
  }

  lemma StrcspnOf(a: string, path: string)
    requires AuthorityText(a) && (path == "" || EndsAuthority(path[0]))
    ensures Strcspn(a + path) == |a| && (a + path)[..|a|] == a && (a + path)[|a|..] == path
  {
    assert (a + path)[..|a|] == a;
    StrcspnIs(a + path, |a|);
  }

  /** A text with a schema, slashes and an authority that does not start with '/' is split there. */
  lemma SplitNewUrl(schema: string, slashes: nat, a: string, path: string)
    requires ':' !in schema && slashes <= 2
    requires a != "" && AuthorityText(a) && (path == "" || EndsAuthority(path[0]))
    ensures var p := SplitAuthority(a);
            Split(schema + ":" + (Slashes(slashes) + (a + path)))
            == p.(schema := schema, path := path, md := p.md.(hasSchema := true, slashNum := slashes))
  {
    assert (a + path)[0] == a[0] && a[0] in a;
    TailOf(schema, slashes, a + path);
    StrcspnOf(a, path);
    SplitOf(schema + ":" + (Slashes(slashes) + (a + path)), schema, slashes, a, path);
  }

  lemma SplitOf(url: string, schema: string, slashes: nat, a: string, path: string)
    requires IndexByte(url, ':') == |schema| && url[..|schema|] == schema
    requires LeadingSlashes(url[|schema| + 1..]) == slashes
    requires var t := Tail(url); Strcspn(t) == |a| && t[..|a|] == a && t[|a|..] == path
    ensures var p := SplitAuthority(a);
            Split(url) == p.(schema := schema, path := path, md := p.md.(hasSchema := true, slashNum := slashes))
  {
  }

  /** The text of a split URL with other credentials, its authority in one piece. */
  function WithCredentials(url: string, cred: string): (r: string)
    requires IndexByte(url, ':') != -1
  {
    var p := Split(url);
    p.schema + ":" + (Slashes(p.md.slashNum) + ((cred + "@" + HostPart(url)) + p.path))
  }

  lemma JoinedText(url: string, cred: string)
    requires IndexByte(url, ':') != -1
    ensures var p := Split(url);
            Join(p.(userinfo := cred, md := p.md.(hasAtSign := true))) == WithCredentials(url, cred)
  {
    HostPartIs(url);
    var p := Split(url);
    var q := p.(userinfo := cred, md := p.md.(hasAtSign := true));
    assert HostText(q) == HostText(p);
  }

  /** The pieces of a split URL meet what splitting them again needs. */
  lemma PiecesFit(url: string, cred: string)
    requires IndexByte(url, ':') != -1 && AuthorityText(cred)
    ensures var p := Split(url);
            && ':' !in p.schema && p.md.slashNum <= 2
            && (p.path == "" || EndsAuthority(p.path[0]))
            && AuthorityText(cred + "@" + HostPart(url))
  {
    HostPartIs(url);
    assert Split(url).path == Tail(url)[Strcspn(Tail(url))..];
  }

  /** New credentials change the userinfo and nothing else. */
  lemma SplitWithCredentials(url: string, cred: string)
    requires IndexByte(url, ':') != -1 && AuthorityText(cred)
    ensures var p := Split(url);
            Split(WithCredentials(url, cred)) == p.(userinfo := cred, md := p.md.(hasAtSign := true))
  {
    var p := Split(url);
    var a := cred + "@" + HostPart(url);
    PiecesFit(url, cred);
    SplitNewAuthority(cred, HostPart(url));
    SplitNewUrl(p.schema, p.md.slashNum, a, p.path);
    assert SplitAuthority(a) ==
           SplitHost(HostPart(url)).(userinfo := cred, md := SplitHost(HostPart(url)).md.(hasAtSign := true));
  }

  /** Embedding credentials changes the userinfo and nothing else, for every URL with a schema. */
  lemma EmbedChangesUserinfoOnly(url: string, username: string, password: Option<string>)
    requires IndexByte(url, ':') != -1
    ensures var p := Split(url);
            Split(Embed(url, Some(username), password))
            == p.(userinfo := Credentials(username, password), md := p.md.(hasAtSign := true))
  {
    var cred := Credentials(username, password);
    FirstColonSeparates(username, password);
    JoinedText(url, cred);
    SplitWithCredentials(url, cred);
  }

  lemma NoAtSignNoUserinfo(url: string)
    ensures Split(url).md.hasAtSign ==> IndexByte(url, ':') != -1
    ensures !Split(url).md.hasAtSign ==> Split(url).userinfo == ""
  {
    if IndexByte(url, ':') != -1 {
      AtSignOrNoUserinfo(Tail(url)[..Strcspn(Tail(url))]);
    }
  }

  /** Without a username the userinfo is dropped, an at-sign stays, and nothing else changes: on every string. */
  lemma EmbedNobodyDropsUserinfo(url: string, password: Option<string>)
    ensures Split(Embed(url, None, password)) == Split(url).(userinfo := "")
  {
    var p := Split(url);
    NoAtSignNoUserinfo(url);
    if p.md.hasAtSign {
      assert p.(userinfo := "", md := p.md.(hasAtSign := true)) == p.(userinfo := "");
      JoinedText(url, "");
      SplitWithCredentials(url, "");
    } else {
      JoinSplit(url);
      assert p.(userinfo := "") == p;
    }
  }

  /** Without a schema the result is never what was asked for, so the condition above is exact. */
  lemma EmbedNeedsSchema(url: string, username: string, password: Option<string>)
    ensures var p := Split(url);
            Split(Embed(url, Some(username), password))
            == p.(userinfo := Credentials(username, password), md := p.md.(hasAtSign := true))
            <==> IndexByte(url, ':') != -1
  {
    if IndexByte(url, ':') != -1 {
      EmbedChangesUserinfoOnly(url, username, password);
    } else {
      var e := Embed(url, Some(username), password);
      assert |e| > |url|;
      if IndexByte(e, ':') == -1 {
        assert Split(e).path == e;
      } else {
        assert Split(e).md.hasSchema;
      }
    }
  }
}
