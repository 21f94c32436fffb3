/** The build-time credential loader, esp_code/load_env.py: `read_env`
    parses the lines of a `.env` file into a dictionary, `escape` prepares
    a value for a C string literal, and the script stops before writing the
    header when the WiFi SSID or password is missing or empty. */
module EnvLoader {
  import opened Wrappers

  // ----- Python's str.strip() -----

  /** The characters Python's `str.isspace` accepts (the ones `strip()`
      with no argument removes). */
  predicate IsSpace(c: char) {
    ('\t' <= c <= '\r') || ('\U{1c}' <= c <= ' ') || c == '\U{85}' || c == '\U{a0}' ||
    c == '\U{1680}' || ('\U{2000}' <= c <= '\U{200a}') || c == '\U{2028}' || c == '\U{2029}' ||
    c == '\U{202f}' || c == '\U{205f}' || c == '\U{3000}'
  }

  /** `s` without its leading whitespace. */
  function TrimStart(s: string): (r: string)
    ensures |r| <= |s| && r == s[|s| - |r|..]
    ensures |r| > 0 ==> !IsSpace(r[0])
    ensures forall i :: 0 <= i < |s| - |r| ==> IsSpace(s[i])
    decreases |s|
  {
    if |s| > 0 && IsSpace(s[0]) then TrimStart(s[1..]) else s
  }

  /** `s` without its trailing whitespace. */
  function TrimEnd(s: string): (r: string)
    ensures |r| <= |s| && r == s[..|r|]
    ensures |r| > 0 ==> !IsSpace(r[|r| - 1])
    ensures forall i :: |r| <= i < |s| ==> IsSpace(s[i])
    decreases |s|
  {
    if |s| > 0 && IsSpace(s[|s| - 1]) then TrimEnd(s[..|s| - 1]) else s
  }

  /** `s.strip()`: a run of `s` that neither starts nor ends with
      whitespace, obtained by removing whitespace only. */
  function Strip(s: string): (r: string)
    ensures |r| > 0 ==> !IsSpace(r[0]) && !IsSpace(r[|r| - 1])
  {
    TrimEnd(TrimStart(s))
  }

  /** Stripping only removes characters. */
  lemma StripSubset(s: string)
    ensures forall c :: c in Strip(s) ==> c in s
  {
    var t := TrimStart(s);
    var r := TrimEnd(t);
    assert forall c :: c in r ==> c in t;
    assert forall c :: c in t ==> c in s;
  }

  /** Stripping twice is stripping once. */
  lemma StripIdempotent(s: string)
    ensures Strip(Strip(s)) == Strip(s)
  {
    var r := Strip(s);
    if |r| > 0 {
      assert TrimStart(r) == r;
      assert TrimEnd(r) == r;
    }
  }

  /** The lines Python yields when it iterates over a text file: a line
      break, if any, is the last character. */
  predicate LineOfFile(raw: string) {
    forall i :: 0 <= i < |raw| - 1 ==> raw[i] != '\n'
  }

  /** Leading whitespace removed from a line of a file leaves a line of a file. */
  lemma TrimStartKeepsLine(raw: string)
    requires LineOfFile(raw)
    ensures LineOfFile(TrimStart(raw))
  {
    var t := TrimStart(raw);
    var k := |raw| - |t|;
    forall i | 0 <= i < |t| - 1
      ensures t[i] != '\n'
    {
      assert t[i] == raw[k + i];
    }
  }

  /** Stripping a line of a file removes its line break. */
  lemma {:induction false} StripLineHasNoBreak(raw: string)
    requires LineOfFile(raw)
    ensures '\n' !in Strip(raw)
  {
    var t := TrimStart(raw);
    TrimStartKeepsLine(raw);
    var r := TrimEnd(t);
    forall i | 0 <= i < |r|
      ensures r[i] != '\n'
    {
      if i < |r| - 1 {
        assert r[i] == t[i];
      } else {
        assert !IsSpace(r[i]);
      }
    }
  }

  // ----- read_env -----

  /** The key and the value of a `KEY=VALUE` line, both stripped. */
  datatype Entry = Entry(key: string, value: string)

  /** The position of the first `c` in `s`. */
  function IndexOf(s: string, c: char): (i: nat)
    requires c in s
    ensures i < |s| && s[i] == c && c !in s[..i]
  {
    if s[0] == c then 0 else 1 + IndexOf(s[1..], c)
  }

  /** One line of `read_env`: blank lines, `#` comments and lines without
      `=` give nothing; otherwise the stripped line is split at its first
      `=` and both halves are stripped. */
  function ParseLine(raw: string): Option<Entry> {
    var line := Strip(raw);
    if |line| == 0 || line[0] == '#' then None
    else if '=' !in line then None
    else
      var i := IndexOf(line, '=');
      Some(Entry(Strip(line[..i]), Strip(line[i + 1..])))
  }

  /** `secrets[key.strip()] = value.strip()`, when the line had an entry. */
  function Insert(m: map<string, string>, e: Option<Entry>): map<string, string> {
    match e
    case None => m
    case Some(en) => m[en.key := en.value]
  }

  /** The dictionary the entries of successive lines build, in order. */
  function Collect(es: seq<Option<Entry>>): map<string, string>
    decreases |es|
  {
    if |es| == 0 then map[] else Insert(Collect(es[..|es| - 1]), es[|es| - 1])
  }

  /** The entry of every line. */
  function ParseAll(lines: seq<string>): (es: seq<Option<Entry>>)
    ensures |es| == |lines|
    ensures forall i :: 0 <= i < |lines| ==> es[i] == ParseLine(lines[i])
    decreases |lines|
  {
    if |lines| == 0 then [] else ParseAll(lines[..|lines| - 1]) + [ParseLine(lines[|lines| - 1])]
  }

  /** `read_env` over the lines of the file. */
  function ReadEnvSpec(lines: seq<string>): map<string, string> {
    Collect(ParseAll(lines))
  }

  /** Reading one more line inserts its entry. */
  lemma ReadEnvSpecAppend(lines: seq<string>, raw: string)
    ensures ReadEnvSpec(lines + [raw]) == Insert(ReadEnvSpec(lines), ParseLine(raw))
  {
    var es := ParseAll(lines + [raw]);
    assert es[..|es| - 1] == ParseAll(lines);
  }

  /** `read_env`, the loop that fills the dictionary. */
  method ReadEnv(lines: seq<string>) returns (secrets: map<string, string>)
    ensures secrets == ReadEnvSpec(lines)
  {
    secrets := map[];
    var n := 0;
    while n < |lines|
      invariant 0 <= n <= |lines|
      invariant secrets == ReadEnvSpec(lines[..n])
    {
      assert lines[..n + 1] == lines[..n] + [lines[n]];
      ReadEnvSpecAppend(lines[..n], lines[n]);
      var line := Strip(lines[n]);
      n := n + 1;
      if |line| == 0 || line[0] == '#' {
        continue;
      }
      if '=' !in line {
        continue;
      }
      var i := IndexOf(line, '=');
      secrets := secrets[Strip(line[..i]) := Strip(line[i + 1..])];
    }
    assert lines[..|lines|] == lines;
  }

  /** Blank lines, comments and lines without `=` are skipped, and only
      those. */
  lemma ParseLineSkips(raw: string)
    ensures ParseLine(raw).None? <==>
      (Strip(raw) == [] || Strip(raw)[0] == '#' || '=' !in Strip(raw))
  {
  }

  /** An entry comes from the first `=` of the stripped line: the key is the
      stripped text before it, the value the stripped text after it, which
      may itself hold `=`. */
  lemma ParseLineSplitsAtFirstEquals(raw: string)
    requires ParseLine(raw).Some?
    ensures var line := Strip(raw); var e := ParseLine(raw).value;
      exists i :: 0 <= i < |line| && line[i] == '=' && '=' !in line[..i] &&
        e.key == Strip(line[..i]) && e.value == Strip(line[i + 1..])
  {
    var line := Strip(raw);
    var i := IndexOf(line, '=');
    assert line[i] == '=' && '=' !in line[..i];
  }

  /** Whether an entry sets `k`. */
  predicate SetsKey(e: Option<Entry>, k: string) {
    e.Some? && e.value.key == k
  }

  lemma {:induction false} CollectKeys(es: seq<Option<Entry>>, k: string)
    ensures k in Collect(es) <==> exists i :: 0 <= i < |es| && SetsKey(es[i], k)
    decreases |es|
  {
    if |es| > 0 {
      var init := es[..|es| - 1];
      CollectKeys(init, k);
      assert forall i :: 0 <= i < |init| ==> init[i] == es[i];
      if k in Collect(es) && k !in Collect(init) {
        assert SetsKey(es[|es| - 1], k);
      }
    }
  }

  lemma {:induction false} CollectLastWins(es: seq<Option<Entry>>, i: nat)
    requires i < |es| && es[i].Some?
    requires forall j :: i < j < |es| ==> !SetsKey(es[j], es[i].value.key)
    ensures es[i].value.key in Collect(es) && Collect(es)[es[i].value.key] == es[i].value.value
    decreases |es|
  {
    if i < |es| - 1 {
      var init := es[..|es| - 1];
      assert init[i] == es[i];
      assert forall j :: i < j < |init| ==> init[j] == es[j];
      CollectLastWins(init, i);
    }
  }

  /** A key is in the result exactly when some line sets it. */
  lemma ReadEnvKeys(lines: seq<string>, k: string)
    ensures k in ReadEnvSpec(lines) <==> exists i :: 0 <= i < |lines| && SetsKey(ParseLine(lines[i]), k)
  {
    CollectKeys(ParseAll(lines), k);
  }

  /** The last line that sets a key decides its value: a later duplicate
      overwrites an earlier one. */
  lemma LastDuplicateWins(lines: seq<string>, i: nat)
    requires i < |lines| && ParseLine(lines[i]).Some?
    requires forall j :: i < j < |lines| ==> !SetsKey(ParseLine(lines[j]), ParseLine(lines[i]).value.key)
    ensures var e := ParseLine(lines[i]).value;
      e.key in ReadEnvSpec(lines) && ReadEnvSpec(lines)[e.key] == e.value
  {
    CollectLastWins(ParseAll(lines), i);
  }

  /** Whether no value holds a line break. */
  predicate NoBreakInValues(es: seq<Option<Entry>>) {
    forall i :: 0 <= i < |es| && es[i].Some? ==> '\n' !in es[i].value.value
  }

  lemma {:induction false} CollectValuesHaveNoBreak(es: seq<Option<Entry>>)
    requires NoBreakInValues(es)
    ensures forall k :: k in Collect(es) ==> '\n' !in Collect(es)[k]
    decreases |es|
  {
    if |es| > 0 {
      var init := es[..|es| - 1];
      assert NoBreakInValues(init) by {
        assert forall i :: 0 <= i < |init| ==> init[i] == es[i];
      }
      CollectValuesHaveNoBreak(init);
    }
  }

  /** The value of a line of a file holds no line break. */
  lemma ParseLineValueHasNoBreak(raw: string)
    requires LineOfFile(raw) && ParseLine(raw).Some?
    ensures '\n' !in ParseLine(raw).value.value
  {
    StripLineHasNoBreak(raw);
    var line := Strip(raw);
    var i := IndexOf(line, '=');
    var tail := line[i + 1..];
    assert forall c :: c in tail ==> c in line;
    StripSubset(tail);
  }

  /** No value read from the lines of a file holds a line break. */
  lemma ReadEnvValuesHaveNoBreak(lines: seq<string>)
    requires forall i :: 0 <= i < |lines| ==> LineOfFile(lines[i])
    ensures forall k :: k in ReadEnvSpec(lines) ==> '\n' !in ReadEnvSpec(lines)[k]
  {
    var es := ParseAll(lines);
    forall i | 0 <= i < |es| && es[i].Some?
      ensures '\n' !in es[i].value.value
    {
      ParseLineValueHasNoBreak(lines[i]);
    }
    CollectValuesHaveNoBreak(es);
  }

  // ----- escape -----

  /** `s.replace(c, rep)` for a one-character pattern. */
  function Replace(s: string, c: char, rep: string): string
    decreases |s|
  {
    if |s| == 0 then [] else (if s[0] == c then rep else [s[0]]) + Replace(s[1..], c, rep)
  }

  /** `escape`: backslashes doubled first, then every double quote
      preceded by a backslash. */
  function Escape(v: string): string {
    Replace(Replace(v, '\\', "\\\\"), '"', "\\\"")
  }

  /** The same replacements applied in the other order. */
  function EscapeQuotesFirst(v: string): string {
    Replace(Replace(v, '"', "\\\""), '\\', "\\\\")
  }

  /** The character escapes of C for a single character. */
  function SimpleEscape(c: char): Option<char> {
    if c == '\\' then Some('\\')
    else if c == '"' then Some('"')
    else if c == '\'' then Some('\'')
    else if c == '?' then Some('?')
    else if c == 'n' then Some('\n')
    else if c == 't' then Some('\t')
    else if c == 'r' then Some('\r')
    else if c == 'a' then Some('\U{7}')
    else if c == 'b' then Some('\U{8}')
    else if c == 'f' then Some('\U{c}')
    else if c == 'v' then Some('\U{b}')
    else None
  }

  function Prepend(c: char, o: Option<string>): Option<string> {
    match o
    case None => None
    case Some(t) => Some([c] + t)
  }

  /** The characters a C compiler reads from the body of a string literal:
      `None` for a body that an unescaped `"` or a raw line break would cut
      short, or that holds an escape other than the simple ones. */
  function Unquote(s: string): Option<string>
    decreases |s|
  {
    if |s| == 0 then Some([])
    else if s[0] == '\\' then
      if |s| >= 2 && SimpleEscape(s[1]).Some? then Prepend(SimpleEscape(s[1]).value, Unquote(s[2..])) else None
    else if s[0] == '"' || s[0] == '\n' then None
    else Prepend(s[0], Unquote(s[1..]))
  }

  /** The escape of one character. */
  function EscapeChar(c: char): string {
    if c == '\\' then "\\\\" else if c == '"' then "\\\"" else [c]
  }

  /** `escape` as one pass over the value. */
  function EscapeOnePass(v: string): string
    decreases |v|
  {
    if |v| == 0 then [] else EscapeChar(v[0]) + EscapeOnePass(v[1..])
  }

  lemma {:induction false} ReplaceAppend(a: string, b: string, c: char, rep: string)
    ensures Replace(a + b, c, rep) == Replace(a, c, rep) + Replace(b, c, rep)
    decreases |a|
  {
    if |a| > 0 {
      assert (a + b)[1..] == a[1..] + b;
      ReplaceAppend(a[1..], b, c, rep);
    } else {
      assert a + b == b;
    }
  }

  /** The two chained replacements amount to escaping each character on
      its own: the second pass does not see backslashes of its own making. */
  lemma {:induction false} EscapeIsOnePass(v: string)
    ensures Escape(v) == EscapeOnePass(v)
    decreases |v|
  {
    if |v| > 0 {
      var head := if v[0] == '\\' then "\\\\" else [v[0]];
      var rest := Replace(v[1..], '\\', "\\\\");
      assert Replace(v, '\\', "\\\\") == head + rest;
      ReplaceAppend(head, rest, '"', "\\\"");
      assert Replace(head, '"', "\\\"") == EscapeChar(v[0]);
      EscapeIsOnePass(v[1..]);
    }
  }

  lemma {:induction false} UnquoteEscapeOnePass(v: string)
    requires '\n' !in v
    ensures Unquote(EscapeOnePass(v)) == Some(v)
    decreases |v|
  {
    if |v| > 0 {
      var rest := EscapeOnePass(v[1..]);
      UnquoteEscapeOnePass(v[1..]);
      var s := EscapeChar(v[0]) + rest;
      if v[0] == '\\' || v[0] == '"' {
        assert s[0] == '\\' && s[1] == v[0] && s[2..] == rest;
      } else {
        assert s[0] == v[0] && s[1..] == rest;
      }
      assert [v[0]] + v[1..] == v;
    }
  }

  /** Reading `escape(value)` back as the body of a C string literal gives
      the value again, for any value without a line break. */
  lemma EscapeRoundTrip(v: string)
    requires '\n' !in v
    ensures Unquote(Escape(v)) == Some(v)
  {
    EscapeIsOnePass(v);
    UnquoteEscapeOnePass(v);
  }

  /** The order of the two replacements matters: quoting first would have
      its backslash doubled, and the literal would end at the quote. */
  lemma QuotesFirstBreaksLiteral()
    ensures EscapeQuotesFirst("\"") == "\\\\\""
    ensures Unquote(EscapeQuotesFirst("\"")) == None
    ensures Unquote(Escape("\"")) == Some("\"")
  {
    assert Replace("\"", '"', "\\\"") == "\\\"";
    assert Replace("\\\"", '\\', "\\\\") == "\\\\\"" by {
      assert "\\\""[1..] == "\"";
    }
    EscapeRoundTrip("\"");
  }

  // ----- The script -----

  /** `ssid = secrets.get("WIFI_SSID")`, the same for the password, then
      `if not ssid or not password`: both must be present and non-empty. */
  function Credentials(secrets: map<string, string>): Option<(string, string)> {
    if "WIFI_SSID" in secrets && "WIFI_PASSWORD" in secrets &&
       secrets["WIFI_SSID"] != [] && secrets["WIFI_PASSWORD"] != []
    then Some((secrets["WIFI_SSID"], secrets["WIFI_PASSWORD"]))
    else None
  }

  /** How the script ends: without a `.env` file, without both credentials,
      or writing the header with the two escaped literal bodies. */
  datatype Outcome = NoEnvFile | MissingCredentials | Header(ssidLiteral: string, passwordLiteral: string)

  /** The top level of the script, given the lines of `.env` if it exists. */
  function Configure(envFile: Option<seq<string>>): Outcome {
    match envFile
    case None => NoEnvFile
    case Some(lines) =>
      match Credentials(ReadEnvSpec(lines))
      case None => MissingCredentials
      case Some(c) => Header(Escape(c.0), Escape(c.1))
  }

  /** The script stops before the header exactly when a credential is
      missing or empty. */
  lemma AbortsWithoutCredentials(lines: seq<string>)
    ensures var s := ReadEnvSpec(lines);
      Configure(Some(lines)) == MissingCredentials <==>
        ("WIFI_SSID" !in s || s["WIFI_SSID"] == [] || "WIFI_PASSWORD" !in s || s["WIFI_PASSWORD"] == [])
  {
  }

  /** The header it writes holds literals that a C compiler reads as
      exactly the SSID and the password of the file. */
  lemma HeaderRoundTrip(lines: seq<string>)
    requires forall i :: 0 <= i < |lines| ==> LineOfFile(lines[i])
    requires Configure(Some(lines)).Header?
    ensures var s := ReadEnvSpec(lines); var h := Configure(Some(lines));
      Unquote(h.ssidLiteral) == Some(s["WIFI_SSID"]) && Unquote(h.passwordLiteral) == Some(s["WIFI_PASSWORD"])
  {
    var s := ReadEnvSpec(lines);
    ReadEnvValuesHaveNoBreak(lines);
    EscapeRoundTrip(s["WIFI_SSID"]);
    EscapeRoundTrip(s["WIFI_PASSWORD"]);
  }
}
