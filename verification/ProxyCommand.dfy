/** Printing a ProxyCommand and accepting it again (internal/core/core.go). */
module ProxyCommand {
  import opened Prelude
  import opened Names

  // ---------- quoting ----------

  const ESCAPED := "'\\''"

  predicate Special(c: char) {
    c in " \t'\\\"[]*?"
  }

  function EscapeChar(c: char): (r: string)
    ensures |r| == if c == '\'' then 4 else 1
  {
    if c == '\'' then ESCAPED else [c]
  }

  function Escape(v: string): string {
    if v == "" then "" else EscapeChar(v[0]) + Escape(v[1..])
  }

  /** strings.ReplaceAll of the escape sequence: leftmost first, no overlap. */
  function Unescape(s: string): string {
    if s == "" then ""
    else if HasPrefix(s, ESCAPED) then "'" + Unescape(s[4..])
    else [s[0]] + Unescape(s[1..])
  }

  predicate ContainsEscape(s: string) {
    exists i :: 0 <= i <= |s| - 4 && HasPrefix(s[i..], ESCAPED)
  }

  function ShellQuote(v: string): string {
    if exists i :: 0 <= i < |v| && Special(v[i]) then "'" + Escape(v) + "'" else v
  }

  function UnquoteShellArg(w: string): Option<string> {
    if !HasPrefix(w, "'") then Some(w)
    else if !HasSuffix(w, "'") || |w| < 2 then None
    else
      var inner := w[1..|w| - 1];
      if ('\'' in inner || '"' in inner) && !ContainsEscape(inner) then None else Some(Unescape(inner))
  }

  lemma PrefixHead(s: string, prefix: string)
    requires prefix != ""
    ensures HasPrefix(s, prefix) ==> s != "" && s[0] == prefix[0]
  {
  }

  /** Scanning an escaped text goes character by character of the original. */
  lemma UnescapeStep(c: char, rest: string)
    ensures Unescape(EscapeChar(c) + rest) == [c] + Unescape(rest)
  {
    var s := EscapeChar(c) + rest;
    assert s[|EscapeChar(c)|..] == rest;
    if c == '\'' {
      assert s[..4] == ESCAPED;
    } else {
      assert s[0] == c;
      PrefixHead(s, ESCAPED);
    }
  }

  lemma {:induction false} UnescapeEscape(v: string)
    ensures Unescape(Escape(v)) == v
  {
    if v == "" {
    } else {
      UnescapeEscape(v[1..]);
      UnescapeStep(v[0], Escape(v[1..]));
      hide Unescape;
    }
  }

  lemma {:induction false} EscapeQuotes(v: string)
    ensures '"' in Escape(v) <==> '"' in v
    ensures '\'' in Escape(v) <==> '\'' in v
  {
    if v == "" {
    } else {
      EscapeQuotes(v[1..]);
      assert v == [v[0]] + v[1..];
      assert '"' in EscapeChar(v[0]) <==> v[0] == '"';
      assert '\'' in EscapeChar(v[0]) <==> v[0] == '\'' by {
        assert ESCAPED[0] == '\'';
      }
      hide EscapeChar;
    }
  }

  lemma {:induction false} EscapeIsFound(v: string)
    requires '\'' in v
    ensures ContainsEscape(Escape(v))
  {
    var rest := Escape(v[1..]);
    var s := EscapeChar(v[0]) + rest;
    if v[0] == '\'' {
      assert s[0..] == s && s[..4] == ESCAPED;
    } else {
      EscapeIsFound(v[1..]);
      var i :| 0 <= i <= |rest| - 4 && HasPrefix(rest[i..], ESCAPED);
      assert s[i + 1..] == rest[i..];
    }
  }

  lemma UnquoteInner(inner: string)
    ensures UnquoteShellArg("'" + inner + "'") ==
              if ('\'' in inner || '"' in inner) && !ContainsEscape(inner) then None else Some(Unescape(inner))
  {
    var w := "'" + inner + "'";
    assert w[1..|w| - 1] == inner && w[..1] == "'" && w[|w| - 1..] == "'";
    hide Unescape, ContainsEscape;
  }

  /**
   Unquoting inverts quoting exactly for the values without a double quote or with a single one; any other is
   refused.
   */
  lemma UnquoteInvertsQuote(v: string)
    ensures UnquoteShellArg(ShellQuote(v)) == if '"' !in v || '\'' in v then Some(v) else None
  {
    if exists i :: 0 <= i < |v| && Special(v[i]) {
      hide Special, Escape, Unescape, UnquoteShellArg;
      UnescapeEscape(v);
      EscapeQuotes(v);
      UnquoteInner(Escape(v));
      if '\'' in v {
        EscapeIsFound(v);
      } else if '"' in v {
        NoEscapeWithoutQuote(Escape(v));
      }
    } else {
      assert forall i :: 0 <= i < |v| ==> !Special(v[i]);
      PrefixHead(v, "'");
    }
  }

  lemma NoEscapeWithoutQuote(s: string)
    requires '\'' !in s
    ensures !ContainsEscape(s)
  {
    forall i | 0 <= i <= |s| - 4 ensures !HasPrefix(s[i..], ESCAPED) {
      assert s[i..][..4][0] == s[i] && ESCAPED[0] == '\'';
    }
  }

  // ---------- what the shell reads ----------

  /** Characters that are more than themselves to the shell, section 2.2 of the POSIX Shell Command Language. */
  predicate Active(c: char) {
    c in "|&;<>()$`\\\"' \t\n*?["
  }

  /** At the start of a word these two are active as well. */
  predicate ActiveFirst(c: char) {
    c == '#' || c == '~'
  }

  function Before(c: char, rest: Option<string>): Option<string> {
    if rest.None? then None else Some([c] + rest.value)
  }

  /** The one word a text is to the shell, from inside or outside single quotes; none if it is anything else. */
  function ShellRest(s: string, quoted: bool): Option<string>
    decreases |s|
  {
    if s == "" then if quoted then None else Some("")
    else if s[0] == '\'' then ShellRest(s[1..], !quoted)
    else if quoted then Before(s[0], ShellRest(s[1..], true))
    else if s[0] == '\\' then
      if |s| == 1 || s[1] == '\n' then None else Before(s[1], ShellRest(s[2..], false))
    else if Active(s[0]) then None
    else Before(s[0], ShellRest(s[1..], false))
  }

  function ShellWord(s: string): Option<string> {
    if s == "" || ActiveFirst(s[0]) then None else ShellRest(s, false)
  }

  lemma QuoteToggles(rest: string, quoted: bool)
    ensures ShellRest("'" + rest, quoted) == ShellRest(rest, !quoted)
  {
    assert ("'" + rest)[1..] == rest;
  }

  lemma BackslashQuotes(rest: string)
    ensures ShellRest("\\'" + rest, false) == Before('\'', ShellRest(rest, false))
  {
    assert ("\\'" + rest)[2..] == rest;
  }

  /** Inside quotes an escaped character is read as the character, and the reading goes on inside quotes. */
  lemma EscapedCharReads(c: char, rest: string)
    ensures ShellRest(EscapeChar(c) + rest, true) == Before(c, ShellRest(rest, true))
  {
    if c == '\'' {
      QuoteToggles("\\''" + rest, true);
      assert "\\''" + rest == "\\'" + ("'" + rest);
      BackslashQuotes("'" + rest);
      QuoteToggles(rest, false);
      assert EscapeChar(c) + rest == "'" + ("\\''" + rest);
      hide ShellRest;
    } else {
      assert ([c] + rest)[1..] == rest;
    }
  }

  lemma {:induction false} EscapedReads(v: string)
    ensures ShellRest(Escape(v) + "'", true) == Some(v)
  {
    if v == "" {
      QuoteToggles("", true);
    } else {
      hide ShellRest, EscapeChar;
      EscapedReads(v[1..]);
      EscapedCharReads(v[0], Escape(v[1..]) + "'");
      Associates(EscapeChar(v[0]), Escape(v[1..]), "'");
      assert v == [v[0]] + v[1..];
    }
  }

  lemma {:induction false} UnquotedReads(v: string)
    requires '\'' !in v && '\\' !in v
    ensures ShellRest(v, false) == if exists i :: 0 <= i < |v| && Active(v[i]) then None else Some(v)
  {
    if v == "" {
    } else {
      UnquotedReads(v[1..]);
      assert v == [v[0]] + v[1..];
      if i :| 0 <= i < |v| - 1 && Active(v[1..][i]) {
        assert Active(v[i + 1]);
      }
      if i :| 0 < i < |v| && Active(v[i]) {
        assert Active(v[1..][i - 1]);
      }
      hide Active;
    }
  }

  /** The shell reads a quoted value as that value exactly if there was a reason to quote it, or none was needed. */
  lemma ShellReadsQuoted(v: string)
    ensures ShellWord(ShellQuote(v)) == Some(v) <==>
              || (exists i :: 0 <= i < |v| && Special(v[i]))
              || (v != "" && !ActiveFirst(v[0]) && forall i :: 0 <= i < |v| ==> !Active(v[i]))
  {
    if exists i :: 0 <= i < |v| && Special(v[i]) {
      EscapedReads(v);
      var s := "'" + Escape(v) + "'";
      assert s[1..] == Escape(v) + "'";
    } else {
      assert forall i :: 0 <= i < |v| ==> !Special(v[i]);
      UnquotedReads(v);
    }
    hide Active, Special, Escape;
  }

  /** A character of an address or of a relay URL. */
  predicate AddressChar(c: char) {
    RelayChar(c) || c == '[' || c == ']'
  }

  lemma AddressCharIsPlain(c: char)
    requires AddressChar(c)
    ensures (Special(c) || !Active(c)) && !ActiveFirst(c)
  {
  }

  /** Whatever an address is made of, the helper is handed the address. */
  lemma ShellReadsAddress(v: string)
    requires v != "" && forall i :: 0 <= i < |v| ==> AddressChar(v[i])
    ensures ShellWord(ShellQuote(v)) == Some(v)
  {
    hide *;
    ShellReadsQuoted(v);
    AddressCharIsPlain(v[0]);
    forall i | 0 <= i < |v| ensures Special(v[i]) || !Active(v[i]) {
      AddressCharIsPlain(v[i]);
    }
  }

  // ---------- words ----------

  /** unicode.IsSpace: the Latin-1 spaces and the code points of property White_Space beyond them. */
  predicate Space(c: char) {
    || '\t' <= c <= '\r' || c == ' ' || c == '\U{85}' || c == '\U{A0}'
    || c == '\U{1680}' || '\U{2000}' <= c <= '\U{200A}' || c == '\U{2028}' || c == '\U{2029}'
    || c == '\U{202F}' || c == '\U{205F}' || c == '\U{3000}'
  }

  predicate Word(w: string) {
    w != "" && forall i :: 0 <= i < |w| ==> !Space(w[i])
  }

  /** The first word of a text that does not start with a space. */
  function WordLength(s: string): (n: nat)
    ensures n <= |s| && (forall i :: 0 <= i < n ==> !Space(s[i])) && (n < |s| ==> Space(s[n]))
  {
    if s == "" || Space(s[0]) then 0 else 1 + WordLength(s[1..])
  }

  /** strings.Fields. */
  function Fields(s: string): seq<string>
    decreases |s|
  {
    if s == "" then []
    else if Space(s[0]) then Fields(s[1..])
    else
      var n := WordLength(s);
      [s[..n]] + Fields(s[n..])
  }

  /** Words, each after a space. */
  function Spaced(words: seq<string>): string {
    if words == [] then "" else " " + words[0] + Spaced(words[1..])
  }

  lemma WordLengthExact(w: string, s: string)
    requires Word(w) && (s == "" || Space(s[0]))
    ensures WordLength(w + s) == |w|
  {
    assert forall i :: 0 <= i < |w| ==> (w + s)[i] == w[i];
    assert s != "" ==> (w + s)[|w|] == s[0];
  }

  lemma FieldsNext(w: string, rest: string)
    requires Word(w) && (rest == "" || Space(rest[0]))
    ensures Fields(" " + w + rest) == [w] + Fields(rest)
  {
    WordLengthExact(w, rest);
    var s := w + rest;
    assert (" " + w + rest)[1..] == s;
    assert s[0] == w[0] && s[..|w|] == w && s[|w|..] == rest;
    assert Fields(s) == [w] + Fields(rest);
    hide WordLength, Word;
  }

  lemma {:induction false} FieldsSpaced(words: seq<string>)
    requires forall i :: 0 <= i < |words| ==> Word(words[i])
    ensures Fields(Spaced(words)) == words
  {
    if words == [] {
    } else {
      hide Word, Fields;
      FieldsSpaced(words[1..]);
      SpacedStarts(words[1..]);
      FieldsNext(words[0], Spaced(words[1..]));
      assert words == [words[0]] + words[1..];
    }
  }

  lemma SpacedStarts(words: seq<string>)
    ensures Spaced(words) == "" || Space(Spaced(words)[0])
  {
  }

  lemma Associates<T>(a: seq<T>, b: seq<T>, c: seq<T>)
    ensures (a + b) + c == a + (b + c)
  {
  }

  lemma {:induction false} SpacedAppends(a: seq<string>, b: seq<string>)
    ensures Spaced(a + b) == Spaced(a) + Spaced(b)
  {
    if a == [] {
      assert a + b == b;
    } else {
      SpacedAppends(a[1..], b);
      assert (a + b)[1..] == a[1..] + b && (a + b)[0] == a[0];
      Associates(" " + a[0], Spaced(a[1..]), Spaced(b));
    }
  }

  // ---------- routes ----------

  datatype Route = Direct(address: string) | Relay(url: string)

  const DIRECT := "--direct-address"
  const RELAY := "--relay-url"

  /** The library's address check; what it accepts has no space and no quote in it. */
  type AddressCheck = string -> bool

  ghost predicate PlainAddresses(check: AddressCheck) {
    forall v :: check(v) ==> Word(v) && '\'' !in v && '"' !in v
  }

  predicate ValidRoute(check: AddressCheck, r: Route) {
    match r
    case Direct(a) => check(a)
    case Relay(u) => ValidRelayURL(u)
  }

  function Printed(r: Route): seq<string> {
    match r
    case Direct(a) => [DIRECT, ShellQuote(a)]
    case Relay(u) => [RELAY, u]
  }

  function PrintedAll(routes: seq<Route>): seq<string> {
    if routes == [] then [] else Printed(routes[0]) + PrintedAll(routes[1..])
  }

  /** One flag and its value, as the helper would take them. */
  function ReadRoute(check: AddressCheck, flag: string, word: string): Option<Route> {
    var value := UnquoteShellArg(word);
    if value.None? then None
    else if flag == DIRECT then (if check(value.value) then Some(Direct(value.value)) else None)
    else if flag == RELAY then (if ValidRelayURL(value.value) then Some(Relay(value.value)) else None)
    else None
  }

  function ReadRoutes(check: AddressCheck, parts: seq<string>): Option<seq<Route>> {
    if parts == [] then Some([])
    else if |parts| == 1 then None
    else
      var first := ReadRoute(check, parts[0], parts[1]);
      if first.None? then None
      else
        var rest := ReadRoutes(check, parts[2..]);
        if rest.None? then None else Some([first.value] + rest.value)
  }

  lemma QuoteOfPlain(v: string)
    requires Word(v)
    ensures Word(ShellQuote(v))
  {
    EscapeHasNoSpace(v);
  }

  lemma {:induction false} EscapeHasNoSpace(v: string)
    requires forall i :: 0 <= i < |v| ==> !Space(v[i])
    ensures forall i :: 0 <= i < |Escape(v)| ==> !Space(Escape(v)[i])
  {
    if v == "" {
    } else {
      EscapeHasNoSpace(v[1..]);
    }
  }

  lemma RelayIsPlain(u: string)
    requires ValidRelayURL(u)
    ensures Word(u) && UnquoteShellArg(u) == Some(u)
  {
    assert RelayChar(u[0]);
    forall i | 0 <= i < |u| ensures !Space(u[i]) {
      assert RelayChar(u[i]);
    }
  }

  lemma ReadsDirect(check: AddressCheck, a: string)
    requires check(a) && Word(a) && '\'' !in a && '"' !in a
    ensures Word(DIRECT) && Word(ShellQuote(a)) && ReadRoute(check, DIRECT, ShellQuote(a)) == Some(Direct(a))
  {
    UnquoteInvertsQuote(a);
    QuoteOfPlain(a);
    hide UnquoteShellArg, ShellQuote, ValidRelayURL;
  }

  lemma ReadsRelay(check: AddressCheck, u: string)
    requires ValidRelayURL(u)
    ensures Word(RELAY) && Word(u) && ReadRoute(check, RELAY, u) == Some(Relay(u))
  {
    RelayIsPlain(u);
    hide UnquoteShellArg, ValidRelayURL;
    assert |RELAY| != |DIRECT|;
  }

  lemma ReadsWhatItPrints(check: AddressCheck, r: Route)
    requires PlainAddresses(check) && ValidRoute(check, r)
    ensures Word(Printed(r)[0]) && Word(Printed(r)[1]) && ReadRoute(check, Printed(r)[0], Printed(r)[1]) == Some(r)
  {
    hide ReadRoute, Word, ShellQuote, ValidRelayURL, DIRECT, RELAY;
    match r
    case Direct(a) => ReadsDirect(check, a);
    case Relay(u) => ReadsRelay(check, u);
  }

  lemma ReadsPair(check: AddressCheck, flag: string, word: string, rest: seq<string>)
    requires ReadRoute(check, flag, word).Some? && ReadRoutes(check, rest).Some?
    ensures ReadRoutes(check, [flag, word] + rest) ==
        Some([ReadRoute(check, flag, word).value] + ReadRoutes(check, rest).value)
  {
    var parts := [flag, word] + rest;
    assert parts[2..] == rest && parts[0] == flag && parts[1] == word;
    hide ReadRoute;
  }

  lemma {:induction false} ReadsAllItPrints(check: AddressCheck, routes: seq<Route>)
    requires PlainAddresses(check) && forall i :: 0 <= i < |routes| ==> ValidRoute(check, routes[i])
    ensures ReadRoutes(check, PrintedAll(routes)) == Some(routes)
    ensures forall i :: 0 <= i < |PrintedAll(routes)| ==> Word(PrintedAll(routes)[i])
  {
    hide ReadRoute, ReadRoutes, ShellQuote, Word, PlainAddresses, ValidRoute;
    if routes == [] {
      ReadsNothing(check);
    } else {
      ReadsWhatItPrints(check, routes[0]);
      ReadsAllItPrints(check, routes[1..]);
      var p, q := Printed(routes[0]), PrintedAll(routes[1..]);
      ReadsPair(check, p[0], p[1], q);
      assert PrintedAll(routes) == [p[0], p[1]] + q && routes == [routes[0]] + routes[1..];
    }
  }

  lemma ReadsNothing(check: AddressCheck)
    ensures ReadRoutes(check, []) == Some([])
  {
  }

  lemma {:induction false} PrintedAppends(a: seq<Route>, b: seq<Route>)
    ensures PrintedAll(a + b) == PrintedAll(a) + PrintedAll(b)
  {
    if a == [] {
      assert a + b == b;
    } else {
      hide Printed;
      PrintedAppends(a[1..], b);
      assert (a + b)[1..] == a[1..] + b && (a + b)[0] == a[0];
      Associates(Printed(a[0]), PrintedAll(a[1..]), PrintedAll(b));
    }
  }

  function Directs(addresses: seq<string>): seq<Route> {
    seq(|addresses|, i requires 0 <= i < |addresses| => Direct(addresses[i]))
  }

  function Relays(urls: seq<string>): seq<Route> {
    seq(|urls|, i requires 0 <= i < |urls| => Relay(urls[i]))
  }

  // ---------- printing ----------

  lemma PrintsNext(command: string, done: seq<Route>, r: Route)
    ensures command + Spaced(PrintedAll(done)) + " " + Printed(r)[0] + " " + Printed(r)[1] ==
        command + Spaced(PrintedAll(done + [r]))
  {
    var p := Printed(r);
    PrintedAppends(done, [r]);
    PrintedOne(r);
    SpacedAppends(PrintedAll(done), p);
    SpacedPair(p[0], p[1]);
    hide Spaced, PrintedAll, ShellQuote, Printed;
    assert p == [p[0], p[1]];
    Regroup(command, Spaced(PrintedAll(done)), p[0], p[1]);
  }

  lemma PrintedOne(r: Route)
    ensures |Printed(r)| == 2 && PrintedAll([r]) == Printed(r)
  {
    assert [r][1..] == [];
  }

  lemma Regroup(a: string, b: string, c: string, d: string)
    ensures a + b + " " + c + " " + d == a + (b + (" " + c + " " + d))
  {
  }

  lemma SpacedPair(a: string, b: string)
    ensures Spaced([a, b]) == " " + a + " " + b
  {
    assert [a, b][1..] == [b] && [b][1..] == [];
    assert Spaced([b]) == " " + b;
  }

  /** `appendRouteArgs`: direct addresses, then the relays; nothing without a route, nothing with a bad one. */
  method AppendRouteArgs(check: AddressCheck, command: string, relays: seq<string>, extra: seq<string>,
      direct: seq<string>)
    returns (r: Result<string>)
    ensures r.Ok? <==> Directs(direct) + Relays(relays + extra) != []
                       && (forall i :: 0 <= i < |direct| ==> check(direct[i]))
                       && (forall i :: 0 <= i < |relays + extra| ==> ValidRelayURL((relays + extra)[i]))
    ensures r.Ok? ==> r.value == command + Spaced(PrintedAll(Directs(direct) + Relays(relays + extra)))
  {
    var urls := relays + extra;
    hide Spaced, PrintedAll, ValidRelayURL, ShellQuote;
    for i := 0 to |urls|
      invariant forall j :: 0 <= j < i ==> ValidRelayURL(urls[j])
    {
      if !ValidRelayURL(urls[i]) {
        return Err("invalid relay URL");
      }
    }
    if |direct| == 0 && |relays| == 0 && |extra| == 0 {
      assert Directs(direct) + Relays(urls) == [];
      return Err("missing route");
    }
    assert |Directs(direct) + Relays(urls)| == |direct| + |urls|;
    var text := command;
    NothingPrinted(command);
    for i := 0 to |direct|
      invariant forall j :: 0 <= j < i ==> check(direct[j])
      invariant text == command + Spaced(PrintedAll(Directs(direct[..i])))
    {
      if !check(direct[i]) {
        return Err("invalid direct address");
      }
      PrintsNext(command, Directs(direct[..i]), Direct(direct[i]));
      assert Directs(direct[..i]) + [Direct(direct[i])] == Directs(direct[..i + 1]);
      text := text + " " + DIRECT + " " + ShellQuote(direct[i]);
    }
    assert direct[..|direct|] == direct;
    var first := Directs(direct);
    assert first + Relays(urls[..0]) == first;
    for i := 0 to |urls|
      invariant text == command + Spaced(PrintedAll(first + Relays(urls[..i])))
    {
      PrintsNext(command, first + Relays(urls[..i]), Relay(urls[i]));
      assert first + Relays(urls[..i]) + [Relay(urls[i])] == first + Relays(urls[..i + 1]);
      text := text + " " + RELAY + " " + urls[i];
    }
    assert urls[..|urls|] == urls;
    return Ok(text);
  }

  lemma NothingPrinted(command: string)
    ensures command == command + Spaced(PrintedAll(Directs([])))
  {
  }

  // ---------- accepting ----------

  /** `validateRouteArgs`: flags and values in pairs, every value a valid route. */
  method ValidateRouteArgs(check: AddressCheck, parts: seq<string>) returns (ok: bool)
    ensures ok <==> ReadRoutes(check, parts).Some?
  {
    var i := 0;
    hide ReadRoute;
    while i < |parts|
      invariant 0 <= i <= |parts|
      invariant ReadRoutes(check, parts).Some? <==> ReadRoutes(check, parts[i..]).Some?
    {
      var flag := parts[i];
      assert parts[i..][0] == flag;
      if i + 1 >= |parts| {
        return false;
      }
      assert parts[i..][1] == parts[i + 1] && parts[i..][2..] == parts[i + 2..];
      if ReadRoute(check, flag, parts[i + 1]).None? {
        return false;
      }
      i := i + 2;
    }
    assert parts[i..] == [];
    return true;
  }

  /** A route is spelled by the flag of its kind and a word that unquotes to its address. */
  ghost predicate SpelledBy(check: AddressCheck, flag: string, word: string, r: Route) {
    && ValidRoute(check, r)
    && flag == (if r.Direct? then "--direct-address" else "--relay-url")
    && UnquoteShellArg(word) == Some(if r.Direct? then r.address else r.url)
  }

  ghost predicate Spelled(check: AddressCheck, parts: seq<string>, routes: seq<Route>) {
    && |parts| == 2 * |routes|
    && forall i :: 0 <= i < |routes| ==> SpelledBy(check, parts[2 * i], parts[2 * i + 1], routes[i])
  }

  /** Arguments read as routes exactly if they spell them, pair by pair. */
  lemma {:induction false} ReadRoutesExact(check: AddressCheck, parts: seq<string>, routes: seq<Route>)
    ensures ReadRoutes(check, parts) == Some(routes) <==> Spelled(check, parts, routes)
  {
    if |parts| < 2 || routes == [] {
      hide SpelledBy, ReadRoute;
    } else {
      ReadRoutesExact(check, parts[2..], routes[1..]);
      SpelledNext(check, parts, routes);
      ReadRouteExact(check, parts[0], parts[1], routes[0]);
      assert routes == [routes[0]] + routes[1..];
      hide ReadRoute, Spelled, SpelledBy;
    }
  }

  lemma ReadRouteExact(check: AddressCheck, flag: string, word: string, r: Route)
    ensures ReadRoute(check, flag, word) == Some(r) <==> SpelledBy(check, flag, word, r)
  {
    hide UnquoteShellArg, ValidRelayURL;
    assert |RELAY| != |DIRECT|;
  }

  lemma SpelledNext(check: AddressCheck, parts: seq<string>, routes: seq<Route>)
    requires |parts| >= 2 && routes != []
    ensures Spelled(check, parts, routes) <==>
              SpelledBy(check, parts[0], parts[1], routes[0]) && Spelled(check, parts[2..], routes[1..])
  {
    hide SpelledBy;
    if |parts| == 2 * |routes| && SpelledBy(check, parts[0], parts[1], routes[0])
       && Spelled(check, parts[2..], routes[1..]) {
      forall i | 0 <= i < |routes| ensures SpelledBy(check, parts[2 * i], parts[2 * i + 1], routes[i]) {
        if i > 0 {
          var k := i - 1;
          assert SpelledBy(check, parts[2..][2 * k], parts[2..][2 * k + 1], routes[1..][k]);
        }
      }
    }
    if Spelled(check, parts, routes) {
      forall k | 0 <= k < |routes| - 1
        ensures SpelledBy(check, parts[2..][2 * k], parts[2..][2 * k + 1], routes[1..][k])
      {
        var i := k + 1;
        assert SpelledBy(check, parts[2 * i], parts[2 * i + 1], routes[i]);
      }
      assert SpelledBy(check, parts[2 * 0], parts[2 * 0 + 1], routes[0]);
    }
  }

  const OPTION := "ProxyCommand="

  predicate FlyCommand(parts: seq<string>) {
    |parts| >= 4 && parts[..4] == ["pigeons", "fly", "--stdio", "%h"]
  }

  predicate GrantCommand(parts: seq<string>) {
    |parts| >= 4 && parts[0] == "ternalctl" && parts[1] == "proxy" && ValidHostName(parts[2]) && parts[3] == "%h:%p"
  }

  /** The routes of an accepted `-o` option. */
  function Accepted(check: AddressCheck, option: string): Option<seq<Route>> {
    if !HasPrefix(option, OPTION) then None
    else
      var parts := Fields(option[|OPTION|..]);
      if FlyCommand(parts) || GrantCommand(parts) then ReadRoutes(check, parts[4..]) else None
  }

  method ValidateProxyCommand(check: AddressCheck, option: string) returns (ok: bool)
    ensures ok <==> Accepted(check, option).Some?
  {
    if !HasPrefix(option, OPTION) {
      return false;
    }
    var parts := Fields(option[|OPTION|..]);
    if !FlyCommand(parts) && !GrantCommand(parts) {
      return false;
    }
    ok := ValidateRouteArgs(check, parts[4..]);
  }

  /** The command's own words; all but the first come after a space. */
  function GrantWords(host: string): seq<string> {
    ["ternalctl", "proxy", host, "%h:%p"]
  }

  function Unspaced(words: seq<string>): string
    requires words != []
  {
    Spaced(words)[1..]
  }

  /** A text without its leading space has the same fields. */
  lemma FieldsUnspaced(words: seq<string>)
    requires words != [] && forall i :: 0 <= i < |words| ==> Word(words[i])
    ensures Fields(Unspaced(words)) == words
  {
    FieldsSpaced(words);
  }

  lemma HostIsWord(host: string)
    requires ValidHostName(host)
    ensures forall i :: 0 <= i < 4 ==> Word(GrantWords(host)[i])
  {
    forall i | 0 <= i < |host| ensures !Space(host[i]) {
      assert NameChar(host[i]);
    }
  }

  lemma GrantText(host: string)
    ensures Spaced(GrantWords(host)) == " " + ("ternalctl proxy " + host + " %h:%p")
  {
    SpacedPair("ternalctl", "proxy");
    SpacedPair(host, "%h:%p");
    SpacedAppends(["ternalctl", "proxy"], [host, "%h:%p"]);
    hide Spaced;
    assert ["ternalctl", "proxy"] + [host, "%h:%p"] == GrantWords(host);
  }

  /** `buildGrantAwareProxyCommand`: whatever it prints is accepted, and read back as the routes it was given. */
  method BuildGrantAwareProxyCommand(check: AddressCheck, host: string, relays: seq<string>, extra: seq<string>,
      direct: seq<string>)
    returns (r: Result<string>)
    requires PlainAddresses(check)
    ensures r.Ok? ==> Accepted(check, OPTION + r.value) == Some(Directs(direct) + Relays(relays + extra))
    ensures r.Ok? <==> ValidHostName(host) && Directs(direct) + Relays(relays + extra) != []
                       && (forall i :: 0 <= i < |direct| ==> check(direct[i]))
                       && (forall i :: 0 <= i < |relays + extra| ==> ValidRelayURL((relays + extra)[i]))
  {
    if !ValidHostName(host) {
      return Err("invalid host reference");
    }
    var command := "ternalctl proxy " + host + " %h:%p";
    hide Accepted, Spaced, PrintedAll, ValidRelayURL, ValidHostName;
    r := AppendRouteArgs(check, command, relays, extra, direct);
    if r.Ok? {
      PrintedIsAccepted(check, host, Directs(direct) + Relays(relays + extra));
    }
  }

  lemma AcceptsWords(check: AddressCheck, text: string, words: seq<string>)
    requires Fields(text) == words && GrantCommand(words)
    ensures Accepted(check, OPTION + text) == ReadRoutes(check, words[4..])
  {
    assert (OPTION + text)[|OPTION|..] == text && (OPTION + text)[..|OPTION|] == OPTION;
    hide Fields, GrantCommand, ReadRoutes;
  }

  lemma GrantCommandOf(host: string, args: seq<string>)
    requires ValidHostName(host)
    ensures GrantCommand(GrantWords(host) + args) && (GrantWords(host) + args)[4..] == args
  {
    hide ValidHostName;
  }

  lemma PrintedIsAccepted(check: AddressCheck, host: string, routes: seq<Route>)
    requires PlainAddresses(check) && ValidHostName(host) && forall i :: 0 <= i < |routes| ==>
        ValidRoute(check, routes[i])
    ensures Accepted(check, OPTION + ("ternalctl proxy " + host + " %h:%p" + Spaced(PrintedAll(routes)))) ==
        Some(routes)
  {
    hide *;
    var words, args := GrantWords(host), PrintedAll(routes);
    var text := "ternalctl proxy " + host + " %h:%p" + Spaced(args);
    ReadsAllItPrints(check, routes);
    PrintedWords(host, args);
    GrantCommandOf(host, args);
    AcceptsWords(check, text, words + args);
  }

  lemma PrintedWords(host: string, args: seq<string>)
    requires ValidHostName(host) && forall i :: 0 <= i < |args| ==> Word(args[i])
    ensures Fields("ternalctl proxy " + host + " %h:%p" + Spaced(args)) == GrantWords(host) + args
  {
    HostIsWord(host);
    GrantText(host);
    hide Spaced, Word, Fields, ValidHostName;
    WordsAfter("ternalctl proxy " + host + " %h:%p", GrantWords(host), args);
  }

  lemma WordsAfter(head: string, words: seq<string>, args: seq<string>)
    requires words != [] && Spaced(words) == " " + head
    requires forall i :: 0 <= i < |words| ==> Word(words[i])
    requires forall i :: 0 <= i < |args| ==> Word(args[i])
    ensures Fields(head + Spaced(args)) == words + args
  {
    hide Spaced, Word, Fields;
    SpacedAppends(words, args);
    DropSpace(head, Spaced(args));
    FieldsUnspaced(words + args);
  }

  lemma DropSpace(head: string, tail: string)
    ensures (" " + head + tail)[1..] == head + tail
  {
  }
}
