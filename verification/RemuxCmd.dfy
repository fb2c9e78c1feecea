/** Shell quoting of command lines (pkg/remuxcmd/builder.go), checked against the token rules of the
    Shell Command Language, sections 2.2.1 (backslash) and 2.2.2 (single quotes) of POSIX.1-2017. */
module RemuxCmd {
  import opened Channels
  import opened Wrappers

  // ---- What a shell makes of a line ----

  /** Characters that mean something to a shell when they are not quoted (section 2.2), apart from
      the quoting characters and the blanks that the lexer deals with. */
  predicate Special(c: char) {
    c in "|&;<>()$`\"*?[#~=%\n"
  }

  function Push(cur: Option<string>, c: char): (r: Option<string>) {
    Some((if cur.Some? then cur.value else "") + [c])
  }

  function Emit(cur: Option<string>, more: Option<seq<string>>): (r: Option<seq<string>>) {
    if more.None? then None
    else if cur.Some? then Some([cur.value] + more.value)
    else more
  }

  /** The fields of `s`; `cur` is the field being read, `quoted` whether single quotes are open.  `None`
      for an unquoted special character, an open quote at the end, or a backslash with nothing after. */
  function Lex(s: string, cur: Option<string>, quoted: bool): (r: Option<seq<string>>)
    decreases |s|
  {
    if s == "" then (if quoted then None else Emit(cur, Some([])))
    else if quoted then
      if s[0] == '\'' then Lex(s[1..], cur, false) else Lex(s[1..], Push(cur, s[0]), true)
    else if s[0] == '\'' then Lex(s[1..], if cur.Some? then cur else Some(""), true)
    else if s[0] == '\\' then
      if |s| == 1 then None
      else if s[1] == '\n' then Lex(s[2..], cur, false)
      else Lex(s[2..], Push(cur, s[1]), false)
    else if s[0] == ' ' || s[0] == '\t' then Emit(cur, Lex(s[1..], None, false))
    else if Special(s[0]) then None
    else Lex(s[1..], Push(cur, s[0]), false)
  }

  // ---- Quoting ----

  /** strings.ReplaceAll of each quote by the four characters '\'' . */
  function ReplaceQuotes(s: string): (r: string) {
    if s == "" then ""
    else (if s[0] == '\'' then "'\\''" else [s[0]]) + ReplaceQuotes(s[1..])
  }

  function ShQuote(s: string): (r: string) {
    if s == "" then "''" else "'" + ReplaceQuotes(s) + "'"
  }

  /** strings.Join with a space between. */
  function Join(parts: seq<string>): (r: string) {
    if parts == [] then ""
    else if |parts| == 1 then parts[0]
    else parts[0] + (" " + Join(parts[1..]))
  }

  function CommandLine(args: seq<string>): (r: string) {
    if args == [] then ""
    else if |args| == 1 then ShQuote(args[0])
    else ShQuote(args[0]) + (" " + CommandLine(args[1..]))
  }

  lemma {:induction false} JoinQuoted(quoted: seq<string>, args: seq<string>)
    requires |quoted| == |args| && forall i :: 0 <= i < |args| ==> quoted[i] == ShQuote(args[i])
    ensures Join(quoted) == CommandLine(args)
    decreases |args|
  {
    if |args| > 1 {
      JoinQuoted(quoted[1..], args[1..]);
    }
  }

  lemma LexQuotedChar(c: char, acc: string, rest: string)
    requires c != '\''
    ensures Lex([c] + rest, Some(acc), true) == Lex(rest, Some(acc + [c]), true)
  {
    assert ([c] + rest)[1..] == rest;
  }

  lemma LexEscapedQuote(acc: string, rest: string)
    ensures Lex("'\\''" + rest, Some(acc), true) == Lex(rest, Some(acc + "'"), true)
  {
    var s := "'\\''" + rest;
    var t := "\\''" + rest;
    var u := "'" + rest;
    assert s[1..] == t && t[2..] == u && u[1..] == rest;
    assert Lex(s, Some(acc), true) == Lex(t, Some(acc), false);
    assert Lex(t, Some(acc), false) == Lex(u, Some(acc + "'"), false);
  }

  lemma Assoc(a: string, b: string, c: string)
    ensures (a + b) + c == a + (b + c)
  {
  }

  lemma HeadTail(s: string)
    requires s != ""
    ensures s == [s[0]] + s[1..]
  {
  }

  /** Reading one character of a quoted body. */
  lemma LexQuotedHead(c: char, acc: string, rest: string)
    ensures Lex((if c == '\'' then "'\\''" else [c]) + rest, Some(acc), true) == Lex(rest, Some(acc + [c]), true)
  {
    if c == '\'' {
      LexEscapedQuote(acc, rest);
    } else {
      LexQuotedChar(c, acc, rest);
    }
  }

  lemma LexClosing(acc: string, rest: string)
    ensures Lex("'" + rest, Some(acc), true) == Lex(rest, Some(acc), false)
  {
    assert ("'" + rest)[1..] == rest;
  }

  /** Reading a quoted body and its closing quote adds the body itself. */
  lemma {:induction false} LexQuotedBody(s: string, acc: string, rest: string)
    ensures Lex(ReplaceQuotes(s) + ("'" + rest), Some(acc), true) == Lex(rest, Some(acc + s), false)
    decreases |s|
  {
    var close := "'" + rest;
    if s == "" {
      assert "" + close == close && acc + s == acc;
      LexClosing(acc, rest);
    } else {
      var tail := ReplaceQuotes(s[1..]);
      Assoc(if s[0] == '\'' then "'\\''" else [s[0]], tail, close);
      LexQuotedHead(s[0], acc, tail + close);
      LexQuotedBody(s[1..], acc + [s[0]], rest);
      Assoc(acc, [s[0]], s[1..]);
      HeadTail(s);
    }
  }

  lemma LexQuotedArg(a: string, rest: string)
    ensures Lex(ShQuote(a) + rest, None, false) == Lex(rest, Some(a), false)
  {
    var body := ReplaceQuotes(a) + ("'" + rest);
    OpenQuote(a, rest);
    assert ("'" + body)[1..] == body;
    LexQuotedBody(a, "", rest);
    assert "" + a == a;
  }

  lemma OpenQuote(a: string, rest: string)
    ensures ShQuote(a) + rest == "'" + (ReplaceQuotes(a) + ("'" + rest))
  {
    var q := ReplaceQuotes(a);
    assert ShQuote(a) == "'" + q + "'";
    assert ("'" + q + "'") + rest == "'" + (q + ("'" + rest));
  }

  lemma LexBlank(a: string, rest: string)
    ensures Lex(" " + rest, Some(a), false) == Emit(Some(a), Lex(rest, None, false))
  {
    assert (" " + rest)[1..] == rest;
  }

  /** A shell splits the command line into exactly the arguments it was built from. */
  lemma {:induction false} LexCommandLine(args: seq<string>)
    ensures Lex(CommandLine(args), None, false) == Some(args)
    decreases |args|
  {
    if |args| == 1 {
      LexQuotedArg(args[0], "");
      assert ShQuote(args[0]) + "" == ShQuote(args[0]) && [args[0]] + [] == args;
    } else if args != [] {
      var rest := CommandLine(args[1..]);
      LexCommandLine(args[1..]);
      LexQuotedArg(args[0], " " + rest);
      LexBlank(args[0], rest);
      assert [args[0]] + args[1..] == args;
    }
  }

  lemma LineMore(x: string, rest: seq<string>)
    ensures CommandLine([x]) == ShQuote(x)
    ensures rest != [] ==> CommandLine([x] + rest) == ShQuote(x) + (" " + CommandLine(rest))
  {
    assert ([x] + rest)[1..] == rest;
  }

  lemma Spaced(q: string, r: string, b: string)
    ensures q + (" " + (r + (" " + b))) == (q + (" " + r)) + (" " + b)
  {
  }

  /** The line of two argument lists is their lines with one space between. */
  lemma {:induction false} LinesJoin(a: seq<string>, b: seq<string>)
    requires a != [] && b != []
    ensures CommandLine(a + b) == CommandLine(a) + (" " + CommandLine(b))
    decreases |a|
  {
    var x, rest := a[0], a[1..];
    assert a == [x] + rest;
    if rest == [] {
      LineMore(x, b);
    } else {
      LinesJoin(rest, b);
      Regroup([x], rest, b);
      LineMore(x, rest);
      LineMore(x, rest + b);
      Spaced(ShQuote(x), CommandLine(rest), CommandLine(b));
    }
  }

  lemma {:induction false} ReplaceJoins(a: string, b: string)
    ensures ReplaceQuotes(a + b) == ReplaceQuotes(a) + ReplaceQuotes(b)
    decreases |a|
  {
    if a == "" {
      assert a + b == b;
    } else {
      assert (a + b)[1..] == a[1..] + b && (a + b)[0] == a[0];
      ReplaceJoins(a[1..], b);
      Assoc(if a[0] == '\'' then "'\\''" else [a[0]], ReplaceQuotes(a[1..]), ReplaceQuotes(b));
    }
  }

  lemma {:induction false} PlainKept(s: string)
    requires '\'' !in s
    ensures ReplaceQuotes(s) == s
    decreases |s|
  {
    if s != "" {
      PlainKept(s[1..]);
      HeadTail(s);
    }
  }

  /** An argument is put between single quotes; text without quotes stays as it is, and each quote in it
      becomes the four characters '\'' . */
  lemma QuotedIs(a: string, b: string)
    requires '\'' !in a
    ensures ShQuote(a) == "'" + a + "'"
    ensures ReplaceQuotes(a + ("'" + b)) == a + ("'\\''" + ReplaceQuotes(b))
    ensures b != "" ==> ShQuote(b) == "'" + ReplaceQuotes(b) + "'"
  {
    PlainKept(a);
    ReplaceJoins(a, "'" + b);
    assert ("'" + b)[1..] == b;
    assert "'" + "" + "'" == "''";
  }

  // ---- The arguments of a channel's outputs ----

  function Decimal(n: nat): (r: string)
    ensures r != ""
  {
    var digit := ['0' + (n % 10) as char];
    if n < 10 then digit else Decimal(n / 10) + digit
  }

  function OptionalFlag(flag: string, val: Option<string>): (r: seq<string>) {
    if val.Some? && val.value != "" then [flag, val.value] else []
  }

  function BoolFlag(flag: string, val: bool): (r: seq<string>) {
    [flag + if val then "=true" else "=false"]
  }

  function OutputHead(o: Output): (r: seq<string>) {
    ["--output"] + if o.url.Some? && o.url.value != "" then [o.url.value] else []
  }

  function OutputFlags(o: Output): (r: seq<string>) {
    OptionalFlag("--localaddr", o.localaddr) + ["--pkt-size", Decimal(o.pktSize)]
  }

  function OutputMaps(o: Output): (r: seq<string>) {
    BoolFlag("--map-video", "video" in o.streamMapping) + BoolFlag("--map-audio", "audio" in o.streamMapping)
    + BoolFlag("--map-data", "data" in o.streamMapping)
  }

  /** An output's section: the URL when there is one, then its flags. */
  function OutputArgs(o: Output): (r: seq<string>) {
    OutputHead(o) + OutputFlags(o) + OutputMaps(o)
  }

  function OutputsArgs(outputs: seq<Output>): (r: seq<string>) {
    if outputs == [] then []
    else
      var last := |outputs| - 1;
      OutputsArgs(outputs[..last]) + if outputs[last].enabled then OutputArgs(outputs[last]) else []
  }

  function Enabled(outputs: seq<Output>): (r: seq<Output>) {
    if outputs == [] then []
    else
      var last := |outputs| - 1;
      Enabled(outputs[..last]) + if outputs[last].enabled then [outputs[last]] else []
  }

  /** A disabled output leaves no trace in the command. */
  lemma {:induction false} DisabledLeaveNoTrace(outputs: seq<Output>)
    ensures OutputsArgs(outputs) == OutputsArgs(Enabled(outputs))
    decreases |outputs|
  {
    if outputs != [] {
      var last := |outputs| - 1;
      var init := Enabled(outputs[..last]);
      DisabledLeaveNoTrace(outputs[..last]);
      if outputs[last].enabled {
        assert (init + [outputs[last]])[..|init|] == init;
      } else {
        assert Enabled(outputs) == init && OutputsArgs(outputs) == OutputsArgs(outputs[..last]);
      }
    }
  }

  lemma {:induction false} EnabledAreEnabled(outputs: seq<Output>)
    ensures forall o :: o in Enabled(outputs) <==> o in outputs && o.enabled
    decreases |outputs|
  {
    if outputs != [] {
      var last := |outputs| - 1;
      EnabledAreEnabled(outputs[..last]);
      assert outputs == outputs[..last] + [outputs[last]];
    }
  }

  // ---- Reading the sections back ----

  /** What a section says about its output; an empty text is one that is not there. */
  datatype Section = Section(url: string, localaddr: string, pktSize: nat, video: bool, audio: bool, data: bool)

  function Text(val: Option<string>): (r: string) {
    if val.Some? then val.value else ""
  }

  function SectionOf(o: Output): (r: Section) {
    Section(Text(o.url), Text(o.localaddr), o.pktSize,
            "video" in o.streamMapping, "audio" in o.streamMapping, "data" in o.streamMapping)
  }

  function Sections(outputs: seq<Output>): (r: seq<Section>)
    ensures |r| == |outputs|
  {
    if outputs == [] then [] else [SectionOf(outputs[0])] + Sections(outputs[1..])
  }

  ghost predicate AllEnabled(outputs: seq<Output>) {
    forall o :: o in outputs ==> o.enabled
  }

  /** The number that a text of decimal digits stands for. */
  function Value(s: string): (r: int) {
    if s == "" then 0 else Value(s[..|s| - 1]) * 10 + (s[|s| - 1] as int - '0' as int)
  }

  /** The decimal text of a number reads back as that number, and has no leading zero. */
  lemma {:induction false} DecimalReadsBack(n: nat)
    ensures Value(Decimal(n)) == n && (n > 0 ==> Decimal(n)[0] != '0')
    ensures forall c :: c in Decimal(n) ==> '0' <= c <= '9'
    decreases n
  {
    DecimalEnds(n);
    if n >= 10 {
      var d := Decimal(n);
      DecimalReadsBack(n / 10);
      assert d == d[..|d| - 1] + [d[|d| - 1]];
    } else {
      assert Decimal(n)[..0] == "";
    }
  }

  lemma {:induction false} DecimalDigits(n: nat)
    ensures '0' <= Decimal(n)[0] <= '9'
    decreases n
  {
    if n >= 10 {
      DecimalDigits(n / 10);
    }
  }

  lemma {:induction false} DecimalInjective(n: nat, m: nat)
    requires Decimal(n) == Decimal(m)
    ensures n == m
    decreases n
  {
    DecimalEnds(n);
    DecimalEnds(m);
    if n >= 10 && m >= 10 {
      DecimalInjective(n / 10, m / 10);
    }
  }

  lemma DecimalEnds(n: nat)
    ensures var d := Decimal(n); d[|d| - 1] == '0' + (n % 10) as char
    ensures n >= 10 ==> var d := Decimal(n); |d| >= 2 && d[..|d| - 1] == Decimal(n / 10)
    ensures n < 10 ==> |Decimal(n)| == 1
  {
  }

  /** Where the flag --pkt-size stands in a section. */
  function PktAt(o: Output): (r: nat)
    ensures 1 <= r <= 4
  {
    1 + (if Text(o.url) != "" then 1 else 0) + if Text(o.localaddr) != "" then 2 else 0
  }

  /** The arguments of a section, one by one, with something behind it. */
  lemma Layout(o: Output, rest: seq<string>)
    ensures var s, q := OutputArgs(o) + rest, PktAt(o);
            && |s| == q + 5 + |rest| && s[q + 5..] == rest
            && (Text(o.url) != "" ==> s[1] == Text(o.url))
            && (Text(o.localaddr) != "" ==> s[q - 2] == "--localaddr" && s[q - 1] == Text(o.localaddr))
            && s[q] == "--pkt-size" && s[q + 1] == Decimal(o.pktSize)
            && s[q + 2..q + 5] == OutputMaps(o)
  {
    var s, q := OutputArgs(o) + rest, PktAt(o);
    assert |OutputHead(o)| + |OptionalFlag("--localaddr", o.localaddr)| == q;
    assert s == OutputHead(o) + (OutputFlags(o) + (OutputMaps(o) + rest));
  }

  /** A section argument by argument: what stands where, and which flag reports which mapping. */
  lemma SectionSays(o: Output)
    ensures var s := OutputArgs(o);
            var n := |s|;
            && n == 6 + (if Text(o.url) != "" then 1 else 0) + (if Text(o.localaddr) != "" then 2 else 0)
            && s[0] == "--output" && (Text(o.url) != "" ==> s[1] == Text(o.url))
            && (Text(o.localaddr) != "" ==> s[n - 7] == "--localaddr" && s[n - 6] == Text(o.localaddr))
            && s[n - 5] == "--pkt-size" && s[n - 4] == Decimal(o.pktSize)
            && s[n - 3] == (if "video" in o.streamMapping then "--map-video=true" else "--map-video=false")
            && s[n - 2] == (if "audio" in o.streamMapping then "--map-audio=true" else "--map-audio=false")
            && s[n - 1] == (if "data" in o.streamMapping then "--map-data=true" else "--map-data=false")
  {
    var s, q := OutputArgs(o), PktAt(o);
    Layout(o, []);
    assert s + [] == s;
    MapsSay(o);
    var maps := s[q + 2..q + 5];
    assert maps[0] == s[q + 2] && maps[1] == s[q + 3] && maps[2] == s[q + 4];
  }

  lemma MapsSay(o: Output)
    ensures var m := OutputMaps(o);
            && |m| == 3
            && m[0] == (if "video" in o.streamMapping then "--map-video=true" else "--map-video=false")
            && m[1] == (if "audio" in o.streamMapping then "--map-audio=true" else "--map-audio=false")
            && m[2] == (if "data" in o.streamMapping then "--map-data=true" else "--map-data=false")
  {
    assert "--map-video" + "=true" == "--map-video=true" && "--map-video" + "=false" == "--map-video=false";
    assert "--map-audio" + "=true" == "--map-audio=true" && "--map-audio" + "=false" == "--map-audio=false";
    assert "--map-data" + "=true" == "--map-data=true" && "--map-data" + "=false" == "--map-data=false";
  }

  /** Two sections with the flag at different places cannot begin the same arguments, whatever texts they hold:
      a number never looks like a flag. */
  lemma SamePlace(o: Output, o': Output, rest: seq<string>, rest': seq<string>)
    requires OutputArgs(o) + rest == OutputArgs(o') + rest'
    ensures PktAt(o) == PktAt(o')
  {
    Layout(o, rest);
    Layout(o', rest');
    DecimalDigits(o.pktSize);
    DecimalDigits(o'.pktSize);
  }

  lemma SameMaps(o: Output, o': Output)
    requires OutputMaps(o) == OutputMaps(o')
    ensures ("video" in o.streamMapping <==> "video" in o'.streamMapping)
    ensures ("audio" in o.streamMapping <==> "audio" in o'.streamMapping)
    ensures ("data" in o.streamMapping <==> "data" in o'.streamMapping)
  {
    var m, m' := OutputMaps(o), OutputMaps(o');
    assert |m[0]| == |m'[0]| && |m[1]| == |m'[1]| && |m[2]| == |m'[2]|;
  }

  /** A section can be told from what follows it, and says which output it is for. */
  lemma SectionReadBack(o: Output, o': Output, rest: seq<string>, rest': seq<string>)
    requires OutputArgs(o) + rest == OutputArgs(o') + rest'
    ensures SectionOf(o) == SectionOf(o') && rest == rest'
  {
    SamePlace(o, o', rest, rest');
    Layout(o, rest);
    Layout(o', rest');
    DecimalInjective(o.pktSize, o'.pktSize);
    SameMaps(o, o');
  }

  lemma LastSection(outputs: seq<Output>, o: Output)
    ensures OutputsArgs(outputs + [o]) == OutputsArgs(outputs) + if o.enabled then OutputArgs(o) else []
  {
    assert (outputs + [o])[..|outputs|] == outputs;
  }

  lemma {:induction false} HeadSection(o: Output, outputs: seq<Output>)
    requires o.enabled
    ensures OutputsArgs([o] + outputs) == OutputArgs(o) + OutputsArgs(outputs)
    decreases |outputs|
  {
    if outputs == [] {
      LastSection([], o);
      assert [o] + outputs == [] + [o];
    } else {
      var init, x := outputs[..|outputs| - 1], outputs[|outputs| - 1];
      assert outputs == init + [x];
      HeadSection(o, init);
      HeadThenLast(o, init, x);
    }
  }

  lemma HeadThenLast(o: Output, init: seq<Output>, x: Output)
    requires OutputsArgs([o] + init) == OutputArgs(o) + OutputsArgs(init)
    ensures OutputsArgs([o] + (init + [x])) == OutputArgs(o) + OutputsArgs(init + [x])
  {
    var all := [o] + init;
    assert all + [x] == [o] + (init + [x]);
    LastSection(init, x);
    LastSection(all, x);
    Regroup(OutputArgs(o), OutputsArgs(init), if x.enabled then OutputArgs(x) else []);
  }

  lemma Regroup(a: seq<string>, b: seq<string>, c: seq<string>)
    ensures (a + b) + c == a + (b + c)
  {
  }

  lemma Uncons(outputs: seq<Output>)
    requires outputs != [] && AllEnabled(outputs)
    ensures OutputsArgs(outputs) == OutputArgs(outputs[0]) + OutputsArgs(outputs[1..]) != []
    ensures AllEnabled(outputs[1..])
  {
    HeadSection(outputs[0], outputs[1..]);
    assert [outputs[0]] + outputs[1..] == outputs;
  }

  lemma SectionDetermines(o: Output, o': Output)
    requires SectionOf(o) == SectionOf(o')
    ensures OutputArgs(o) == OutputArgs(o')
  {
    assert OutputHead(o) == OutputHead(o') && OutputFlags(o) == OutputFlags(o') && OutputMaps(o) == OutputMaps(o');
  }

  lemma FirstSections(o: Output, o': Output, rest: seq<string>, rest': seq<string>)
    ensures OutputArgs(o) + rest == OutputArgs(o') + rest' <==> SectionOf(o) == SectionOf(o') && rest == rest'
  {
    if OutputArgs(o) + rest == OutputArgs(o') + rest' {
      SectionReadBack(o, o', rest, rest');
    }
    if SectionOf(o) == SectionOf(o') {
      SectionDetermines(o, o');
    }
  }

  lemma {:induction false} SectionsReadBack(a: seq<Output>, b: seq<Output>)
    requires AllEnabled(a) && AllEnabled(b)
    ensures OutputsArgs(a) == OutputsArgs(b) <==> Sections(a) == Sections(b)
    decreases |a|
  {
    if a != [] {
      Uncons(a);
    }
    if b != [] {
      Uncons(b);
    }
    if a != [] && b != [] {
      SectionsReadBack(a[1..], b[1..]);
      FirstSections(a[0], b[0], OutputsArgs(a[1..]), OutputsArgs(b[1..]));
      HeadsAndTails(SectionOf(a[0]), SectionOf(b[0]), Sections(a[1..]), Sections(b[1..]));
    }
  }

  lemma HeadsAndTails(x: Section, y: Section, p: seq<Section>, q: seq<Section>)
    ensures [x] + p == [y] + q <==> x == y && p == q
  {
    assert ([x] + p)[0] == x && ([x] + p)[1..] == p && ([y] + q)[0] == y && ([y] + q)[1..] == q;
  }

  /** The command line says of every enabled output, in order, what its section says, and nothing else: two
      channels with the same other arguments have the same line exactly when that is the same.  Texts may look
      like flags or hold quotes. */
  lemma SameLineIff(before: seq<string>, a: seq<Output>, b: seq<Output>)
    ensures CommandLine(before + OutputsArgs(a)) == CommandLine(before + OutputsArgs(b))
            <==> Sections(Enabled(a)) == Sections(Enabled(b))
  {
    DisabledLeaveNoTrace(a);
    DisabledLeaveNoTrace(b);
    EnabledAreEnabled(a);
    EnabledAreEnabled(b);
    SectionsReadBack(Enabled(a), Enabled(b));
    LexCommandLine(before + OutputsArgs(a));
    LexCommandLine(before + OutputsArgs(b));
    Behind(before, OutputsArgs(a), OutputsArgs(b));
  }

  lemma Behind(before: seq<string>, a: seq<string>, b: seq<string>)
    ensures before + a == before + b <==> a == b
  {
    assert (before + a)[|before|..] == a && (before + b)[|before|..] == b;
  }

  // ---- Builder ----

  class Builder {
    var args: seq<string>

    ghost predicate Valid()
      reads this
    {
      args != [] && args[0] == "remux"
    }

    constructor ()
      ensures Valid() && args == ["remux"]
    {
      args := ["remux"];
    }

    method WithStringFlag(flag: string, val: string)
      requires Valid()
      modifies this
      ensures Valid() && args == old(args) + if val == "" then [] else [flag, val]
    {
      if val != "" {
        args := args + [flag, val];
      }
    }

    method WithStringPFlag(flag: string, val: Option<string>)
      requires Valid()
      modifies this
      ensures Valid() && args == old(args) + if val.Some? && val.value != "" then [flag, val.value] else []
    {
      if val.Some? && val.value != "" {
        args := args + [flag, val.value];
      }
    }

    method WithBoolFlag(flag: string, val: bool)
      requires Valid()
      modifies this
      ensures Valid() && args == old(args) + [flag + if val then "=true" else "=false"]
    {
      if val {
        args := args + [flag + "=true"];
      } else {
        args := args + [flag + "=false"];
      }
    }

    method WithString(arg: string)
      requires Valid()
      modifies this
      ensures Valid() && args == old(args) + if arg == "" then [] else [arg]
    {
      if arg != "" {
        args := args + [arg];
      }
    }

    method WithStringP(arg: Option<string>)
      requires Valid()
      modifies this
      ensures Valid() && args == old(args) + if arg.Some? && arg.value != "" then [arg.value] else []
    {
      if arg.Some? && arg.value != "" {
        args := args + [arg.value];
      }
    }

    /** The outputs section of FromChannel: one section for each enabled output, in order. */
    method WithOutputs(outputs: seq<Output>)
      requires Valid()
      modifies this
      ensures Valid() && args == old(args) + OutputsArgs(outputs)
    {
      var i := 0;
      ghost var added: seq<string> := [];
      while i < |outputs|
        invariant 0 <= i <= |outputs| && Valid()
        invariant args == old(args) + added && added == OutputsArgs(outputs[..i])
      {
        NextOutput(outputs, i);
        if outputs[i].enabled {
          WithOutput(outputs[i]);
          Regroup(old(args), added, OutputArgs(outputs[i]));
          added := added + OutputArgs(outputs[i]);
        }
        i := i + 1;
      }
      assert outputs[..i] == outputs;
    }

    static lemma NextOutput(outputs: seq<Output>, i: nat)
      requires i < |outputs|
      ensures outputs[i].enabled ==> OutputsArgs(outputs[..i + 1]) == OutputsArgs(outputs[..i]) + OutputArgs(outputs[i])
      ensures !outputs[i].enabled ==> OutputsArgs(outputs[..i + 1]) == OutputsArgs(outputs[..i])
    {
      assert outputs[..i + 1][..i] == outputs[..i];
      assert OutputsArgs(outputs[..i]) + [] == OutputsArgs(outputs[..i]);
    }

    method WithOutput(o: Output)
      requires Valid()
      modifies this
      ensures Valid() && args == old(args) + OutputArgs(o)
    {
      WithOutputHead(o);
      WithOutputFlags(o);
      WithOutputMaps(o);
      Chain(old(args), OutputHead(o), OutputFlags(o), OutputMaps(o));
    }

    static lemma Chain(a: seq<string>, b: seq<string>, c: seq<string>, d: seq<string>)
      ensures a + b + c + d == a + (b + c + d)
    {
    }

    method WithOutputHead(o: Output)
      requires Valid()
      modifies this
      ensures Valid() && args == old(args) + OutputHead(o)
    {
      WithString("--output");
      WithStringP(o.url);
    }

    method WithOutputFlags(o: Output)
      requires Valid()
      modifies this
      ensures Valid() && args == old(args) + OutputFlags(o)
    {
      WithStringPFlag("--localaddr", o.localaddr);
      WithStringFlag("--pkt-size", Decimal(o.pktSize));
    }

    method WithOutputMaps(o: Output)
      requires Valid()
      modifies this
      ensures Valid() && args == old(args) + OutputMaps(o)
    {
      WithBoolFlag("--map-video", "video" in o.streamMapping);
      WithBoolFlag("--map-audio", "audio" in o.streamMapping);
      WithBoolFlag("--map-data", "data" in o.streamMapping);
      Chain(old(args), BoolFlag("--map-video", "video" in o.streamMapping),
            BoolFlag("--map-audio", "audio" in o.streamMapping), BoolFlag("--map-data", "data" in o.streamMapping));
    }

    method BuildArgv() returns (out: seq<string>)
      requires Valid()
      ensures out == args && out[0] == "remux"
    {
      out := args;
    }

    /** The one-line form; a shell reads it back as the argument vector. */
    method BuildString() returns (s: string)
      requires Valid()
      ensures s == CommandLine(args)
      ensures Lex(s, None, false) == Some(args)
    {
      var quoted := QuoteArgs();
      JoinQuoted(quoted, args);
      LexCommandLine(args);
      s := Join(quoted);
    }

    method QuoteArgs() returns (quoted: seq<string>)
      ensures |quoted| == |args| && forall j :: 0 <= j < |args| ==> quoted[j] == ShQuote(args[j])
    {
      quoted := [];
      var i := 0;
      while i < |args|
        invariant 0 <= i <= |args| && |quoted| == i
        invariant forall j :: 0 <= j < i ==> quoted[j] == ShQuote(args[j])
      {
        quoted := quoted + [ShQuote(args[i])];
        i := i + 1;
      }
    }
  }
}
