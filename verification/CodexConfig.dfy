/** The Codex configuration printed for a manual provider, and the line parser that reads such
    configurations back. */
module CodexConfig {

  // ---------- strings ----------

  /** The place of the first `c`, or the length. */
  function First(s: string, c: char): (n: nat)
    ensures n <= |s|
  {
    if s == "" || s[0] == c then 0 else 1 + First(s[1..], c)
  }

  function Before(s: string, c: char): string {
    s[..First(s, c)]
  }

  function TrimLeft(s: string, cut: char -> bool): string {
    if s == "" || !cut(s[0]) then s else TrimLeft(s[1..], cut)
  }

  function TrimRight(s: string, cut: char -> bool): string {
    if s == "" || !cut(s[|s| - 1]) then s else TrimRight(s[..|s| - 1], cut)
  }

  function Trim(s: string, cut: char -> bool): string {
    TrimRight(TrimLeft(s, cut), cut)
  }

  /** White space in the sense of Unicode. */
  predicate IsSpace(c: char) {
    c == ' ' || '\t' <= c <= '\r' || c as int == 0x85 || c as int == 0xA0 || c as int == 0x1680
    || 0x2000 <= c as int <= 0x200A || c as int == 0x2028 || c as int == 0x2029 || c as int == 0x202F
    || c as int == 0x205F || c as int == 0x3000
  }

  predicate IsQuote(c: char) { c == '"' || c == '\'' }

  predicate IsBracket(c: char) { c == '[' || c == ']' || c == ' ' }

  function TrimSpace(s: string): string {
    Trim(s, IsSpace)
  }

  // ---------- the printer ----------

  predicate Printable(s: string) {
    forall i :: 0 <= i < |s| ==> ' ' <= s[i] <= '~'
  }

  predicate IdChar(c: char) {
    'a' <= c <= 'z' || 'A' <= c <= 'Z' || '0' <= c <= '9' || c == '_' || c == '-'
  }

  /** The names a provider may have. */
  predicate ProviderName(p: string) {
    1 <= |p| <= 64 && forall i :: 0 <= i < |p| ==> IdChar(p[i])
  }

  /** A quoted printable string has its quotes and backslashes escaped. */
  function Escape(s: string): string {
    if s == "" then ""
    else (if s[0] == '"' || s[0] == '\\' then ['\\', s[0]] else [s[0]]) + Escape(s[1..])
  }

  function Quote(s: string): string
    requires Printable(s)
  {
    ['"'] + Escape(s) + ['"']
  }

  const NAME := "name"
  const MODEL := "model"
  const MODEL_PROVIDER := "model_provider"
  const MODEL_PROVIDERS := "model_providers."
  const WIRE_API := "wire_api"
  const REQUIRES_AUTH := "requires_openai_auth"
  const BASE_URL := "base_url"
  const API_KEY := "api_key"
  const API_KEY_ENV := "api_key_env_var"

  function Setting(key: string, value: string): string {
    key + " = " + value
  }

  /** The lines that `codexConfig` prints. */
  function ConfigLines(p: string, m: string, u: string): seq<string>
    requires Printable(p) && Printable(m) && Printable(u)
  {
    [ Setting(MODEL_PROVIDER, Quote(p)),
      Setting(MODEL, Quote(m)),
      "",
      "[" + MODEL_PROVIDERS + p + "]",
      Setting(NAME, Quote(p)),
      Setting(WIRE_API, "\"responses\""),
      Setting(REQUIRES_AUTH, "true"),
      Setting(BASE_URL, Quote(u)) ]
  }

  function Unlines(lines: seq<string>): string {
    if lines == [] then "" else lines[0] + "\n" + Unlines(lines[1..])
  }

  function Print(p: string, m: string, u: string): string
    requires Printable(p) && Printable(m) && Printable(u)
  {
    Unlines(ConfigLines(p, m, u))
  }

  // ---------- the parser ----------

  datatype Config = Config(provider: string, model: string, baseURL: string, apiKey: string, apiKeyEnv: string)

  const MAX_LINE := 65535

  function DropReturn(line: string): string {
    if line != "" && line[|line| - 1] == '\r' then line[..|line| - 1] else line
  }

  /** The lines the scanner delivers: it stops at the first one that is too long for its buffer. */
  function Scanned(text: string): seq<string>
    decreases |text|
  {
    if text == "" then []
    else
      var n := First(text, '\n');
      if n > MAX_LINE then []
      else [DropReturn(text[..n])] + if n < |text| then Scanned(text[n + 1..]) else []
  }

  datatype Reader = Reader(section: string, config: Config)

  const START := Reader("", Config("", "", "", "", ""))

  /** What one setting does in the section it stands in. */
  function Assign(r: Reader, key: string, value: string): Reader {
    var c := r.config;
    var top := if r.section != "" then c
               else if key == MODEL_PROVIDER then c.(provider := value)
               else if key == MODEL then c.(model := value)
               else c;
    r.(config :=
      if r.section != MODEL_PROVIDERS + top.provider then top
      else if key == BASE_URL then top.(baseURL := value)
      else if key == API_KEY then top.(apiKey := value)
      else if key == API_KEY_ENV then top.(apiKeyEnv := value)
      else top)
  }

  function Feed(r: Reader, raw: string): Reader {
    var line := TrimSpace(Before(raw, '#'));
    if line == "" then r
    else if line[0] == '[' then r.(section := Trim(line, IsBracket))
    else
      var n := First(line, '=');
      if n == |line| then r
      else Assign(r, TrimSpace(line[..n]), Trim(TrimSpace(line[n + 1..]), IsQuote))
  }

  function FeedAll(r: Reader, lines: seq<string>): Reader {
    if lines == [] then r else Feed(FeedAll(r, lines[..|lines| - 1]), lines[|lines| - 1])
  }

  /** The defaults for what the text does not set; `fallback` is the base URL of the environment. */
  function WithDefaults(c: Config, fallback: string): Config {
    c.(provider := if c.provider == "" then "openai" else c.provider,
       baseURL := if c.baseURL == "" then fallback else c.baseURL)
  }

  function Parsed(text: string, fallback: string): Config {
    WithDefaults(FeedAll(START, Scanned(text)).config, fallback)
  }

  /** One round of the parser's loop. */
  method FeedLine(section: string, c: Config, raw: string) returns (section': string, c': Config)
    ensures Reader(section', c') == Feed(Reader(section, c), raw)
  {
    hide First, Before, TrimSpace, Trim;
    section', c' := section, c;
    var line := TrimSpace(Before(raw, '#'));
    if line == "" { return; }
    if line[0] == '[' {
      section' := Trim(line, IsBracket);
      return;
    }
    var n := First(line, '=');
    if n == |line| { return; }
    var k, v := TrimSpace(line[..n]), Trim(TrimSpace(line[n + 1..]), IsQuote);
    if section == "" {
      if k == MODEL_PROVIDER { c' := c'.(provider := v); }
      if k == MODEL { c' := c'.(model := v); }
    }
    if section == MODEL_PROVIDERS + c'.provider {
      if k == BASE_URL {
        c' := c'.(baseURL := v);
      } else if k == API_KEY {
        c' := c'.(apiKey := v);
      } else if k == API_KEY_ENV {
        c' := c'.(apiKeyEnv := v);
      }
    }
  }

  lemma FeedNext(r: Reader, lines: seq<string>, k: nat)
    requires k < |lines|
    ensures FeedAll(r, lines[..k + 1]) == Feed(FeedAll(r, lines[..k]), lines[k])
  {
    assert lines[..k + 1][..k] == lines[..k];
  }

  /** `parseCodex`. */
  method ParseCodex(text: string, fallback: string) returns (c: Config)
    ensures c == Parsed(text, fallback)
  {
    c := Config("", "", "", "", "");
    var section := "";
    var lines := Scanned(text);
    assert FeedAll(START, lines[..0]) == START;
    for i := 0 to |lines|
      invariant Reader(section, c) == FeedAll(START, lines[..i])
    {
      hide Feed, FeedAll, Scanned;
      FeedNext(START, lines, i);
      section, c := FeedLine(section, c, lines[i]);
    }
    hide Feed, FeedAll, Scanned;
    assert lines[..|lines|] == lines;
    if c.provider == "" { c := c.(provider := "openai"); }
    if c.baseURL == "" { c := c.(baseURL := fallback); }
  }
}
