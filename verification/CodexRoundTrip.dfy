/** Which providers, models and base URLs come back unchanged from a printed Codex configuration. */
module CodexRoundTrip {
  import opened CodexConfig

  // ---------- searching and trimming ----------

  lemma {:induction false} FirstAppend(a: string, b: string, c: char)
    requires c !in a
    ensures First(a + b, c) == |a| + First(b, c)
  {
    if a == "" {
      assert a + b == b;
    } else {
      assert (a + b)[1..] == a[1..] + b;
      FirstAppend(a[1..], b, c);
    }
  }

  lemma {:induction false} FirstIsFirst(s: string, c: char)
    ensures c !in s[..First(s, c)]
    ensures First(s, c) < |s| ==> s[First(s, c)] == c
  {
    if s != "" && s[0] != c {
      FirstIsFirst(s[1..], c);
      assert s[..First(s, c)] == [s[0]] + s[1..][..First(s[1..], c)];
    }
  }

  lemma FirstOfNone(s: string, c: char)
    requires c !in s
    ensures First(s, c) == |s|
  {
    FirstAppend(s, "", c);
    assert s + "" == s;
  }

  /** Trimming takes nothing from the inside, and nothing that is not cut. */
  lemma {:induction false} TrimRightAppend(a: string, b: string, cut: char -> bool)
    requires TrimRight(b, cut) != ""
    ensures TrimRight(a + b, cut) == a + TrimRight(b, cut)
  {
    if cut(b[|b| - 1]) {
      assert (a + b)[..|a + b| - 1] == a + b[..|b| - 1];
      TrimRightAppend(a, b[..|b| - 1], cut);
    }
  }

  lemma {:induction false} TrimRightEnd(s: string, cut: char -> bool)
    ensures TrimRight(s, cut) <= s
    ensures TrimRight(s, cut) != "" ==> !cut(TrimRight(s, cut)[|TrimRight(s, cut)| - 1])
    ensures s != "" && !cut(s[0]) ==> TrimRight(s, cut) != ""
  {
    if s != "" && cut(s[|s| - 1]) { TrimRightEnd(s[..|s| - 1], cut); }
  }

  lemma {:induction false} TrimLeftStart(s: string, cut: char -> bool)
    ensures TrimLeft(s, cut) != "" ==> !cut(TrimLeft(s, cut)[0])
    ensures forall c :: c in TrimLeft(s, cut) ==> c in s
  {
    if s != "" && cut(s[0]) { TrimLeftStart(s[1..], cut); }
  }

  lemma TrimEnds(s: string, cut: char -> bool)
    ensures var t := Trim(s, cut);
            && (t != "" ==> !cut(t[0]) && !cut(t[|t| - 1]))
            && forall c :: c in t ==> c in s
  {
    TrimLeftStart(s, cut);
    TrimRightEnd(TrimLeft(s, cut), cut);
  }

  lemma PadLeft(c: char, s: string, cut: char -> bool)
    requires cut(c)
    ensures TrimLeft([c] + s, cut) == TrimLeft(s, cut)
  {
    assert ([c] + s)[1..] == s;
  }

  lemma PadRight(s: string, c: char, cut: char -> bool)
    requires cut(c)
    ensures TrimRight(s + [c], cut) == TrimRight(s, cut)
  {
    assert (s + [c])[..|s|] == s;
  }

  /** A string that neither begins nor ends with cut characters is what padding trims down to. */
  lemma TrimPadded(a: char, s: string, b: char, cut: char -> bool)
    requires cut(a) && cut(b) && (s != "" ==> !cut(s[0]) && !cut(s[|s| - 1]))
    ensures Trim([a] + s + [b], cut) == s
  {
    assert [a] + s + [b] == [a] + (s + [b]);
    PadLeft(a, s + [b], cut);
    if s == "" {
      assert s + [b] == [b] + "";
      PadLeft(b, "", cut);
    } else {
      PadRight(s, b, cut);
    }
  }

  // ---------- counting ----------

  function Count(s: string, c: char): nat {
    if s == "" then 0 else (if s[0] == c then 1 else 0) + Count(s[1..], c)
  }

  lemma {:induction false} CountAppend(a: string, b: string, c: char)
    ensures Count(a + b, c) == Count(a, c) + Count(b, c)
  {
    if a == "" {
      assert a + b == b;
    } else {
      assert (a + b)[1..] == a[1..] + b;
      CountAppend(a[1..], b, c);
    }
  }

  lemma {:induction false} CountNone(s: string, c: char)
    ensures Count(s, c) == 0 <==> c !in s
  {
    if s != "" {
      CountNone(s[1..], c);
      assert s == [s[0]] + s[1..];
    }
  }

  lemma {:induction false} CountTrimRight(s: string, cut: char -> bool, c: char)
    requires !cut(c)
    ensures Count(TrimRight(s, cut), c) == Count(s, c)
  {
    if s != "" && cut(s[|s| - 1]) {
      CountTrimRight(s[..|s| - 1], cut, c);
      assert s == s[..|s| - 1] + [s[|s| - 1]];
      CountAppend(s[..|s| - 1], [s[|s| - 1]], c);
    }
  }

  lemma {:induction false} CountTrimLeft(s: string, cut: char -> bool, c: char)
    requires !cut(c)
    ensures Count(TrimLeft(s, cut), c) == Count(s, c)
  {
    if s != "" && cut(s[0]) { CountTrimLeft(s[1..], cut, c); }
  }

  lemma {:induction false} EscapeCounts(s: string)
    ensures Count(Escape(s), '\\') == 2 * Count(s, '\\') + Count(s, '"')
    ensures forall c :: c != '\\' ==> (c in Escape(s) <==> c in s)
    ensures |s| <= |Escape(s)|
    ensures Printable(s) ==> Printable(Escape(s))
  {
    if s != "" {
      EscapeCounts(s[1..]);
      assert s == [s[0]] + s[1..];
      var head := if s[0] == '"' || s[0] == '\\' then ['\\', s[0]] else [s[0]];
      CountAppend(head, Escape(s[1..]), '\\');
      assert head[1..] == if |head| == 2 then [s[0]] else [];
    }
  }

  lemma {:induction false} EscapePlain(s: string)
    requires '"' !in s && '\\' !in s
    ensures Escape(s) == s
  {
    if s != "" {
      EscapePlain(s[1..]);
      assert s == [s[0]] + s[1..];
    }
  }

  // ---------- a quoted value ----------

  /** What the parser makes of the text behind an equals sign. */
  function Read(q: string): string {
    Trim(TrimRight(Before(q, '#'), IsSpace), IsQuote)
  }

  /** The strings that survive: the parser knows neither escapes nor a hash inside of quotes, and
      strips quotes of both kinds from both ends. */
  predicate Plain(s: string) {
    && '"' !in s && '\\' !in s && '#' !in s
    && (s != "" ==> s[0] != '\'' && s[|s| - 1] != '\'')
  }

  /** A quoted string is read back exactly when it is plain. */
  lemma QuoteReadIff(s: string)
    requires Printable(s)
    ensures Read(Quote(s)) == s <==> Plain(s)
  {
    var q := Quote(s);
    EscapeCounts(s);
    if '#' in s {
      FirstIsFirst(q, '#');
      TrimRightEnd(Before(q, '#'), IsSpace);
      TrimEnds(TrimRight(Before(q, '#'), IsSpace), IsQuote);
      assert '#' !in Read(q);
    } else {
      assert '#' !in q;
      FirstOfNone(q, '#');
      assert Before(q, '#') == q && TrimRight(q, IsSpace) == q;
      UnhashedReadIff(s);
    }
  }

  lemma UnhashedReadIff(s: string)
    requires Printable(s) && '#' !in s
    ensures Trim(Quote(s), IsQuote) == s <==> Plain(s)
  {
    var q := Quote(s);
    if '"' in s || '\\' in s {
      EscapeCounts(s);
      CountAppend(['"'] + Escape(s), ['"'], '\\');
      CountAppend(['"'], Escape(s), '\\');
      CountNone(s, '"');
      CountNone(s, '\\');
      CountTrimLeft(q, IsQuote, '\\');
      CountTrimRight(TrimLeft(q, IsQuote), IsQuote, '\\');
      assert Count(['"'], '\\') == 0;
    } else {
      EscapePlain(s);
      if Plain(s) { TrimPadded('"', s, '"', IsQuote); } else { TrimEnds(q, IsQuote); }
    }
  }

  // ---------- one line ----------

  predicate Word(key: string) {
    key != "" && forall i :: 0 <= i < |key| ==> IdChar(key[i])
  }

  lemma WordHas(key: string)
    requires Word(key)
    ensures '#' !in key && '=' !in key && '\n' !in key
            && '[' !in key && ' ' !in key && !IsSpace(key[0]) && !IsSpace(key[|key| - 1])
  {
  }

  /** White space after the value is all that trimming the line takes. */
  lemma TrimSetting(key: string, value: string)
    requires Word(key) && value != "" && !IsSpace(value[0])
    ensures TrimSpace(Setting(key, value)) == Setting(key, TrimRight(value, IsSpace))
    ensures TrimRight(value, IsSpace) != ""
  {
    WordHas(key);
    TrimRightEnd(value, IsSpace);
    TrimRightAppend(key + " = ", value, IsSpace);
    assert Setting(key, value)[0] == key[0];
  }

  lemma TrimKey(key: string)
    requires Word(key)
    ensures TrimSpace(key + " ") == key
  {
    WordHas(key);
    assert key + " " == key + [' '] && (key + " ")[0] == key[0];
    PadRight(key, ' ', IsSpace);
  }

  lemma TrimValue(value: string)
    requires value != "" && !IsSpace(value[0]) && !IsSpace(value[|value| - 1])
    ensures TrimSpace(" " + value) == value
  {
    assert " " + value == [' '] + value;
    PadLeft(' ', value, IsSpace);
  }

  /** Cutting a setting at a hash cuts its value. */
  lemma CutSetting(key: string, value: string)
    requires Word(key) && value != "" && value[0] != '#'
    ensures Before(Setting(key, value), '#') == Setting(key, Before(value, '#'))
    ensures Before(value, '#') != "" && Before(value, '#')[0] == value[0]
  {
    WordHas(key);
    FirstAppend(key + " = ", value, '#');
  }

  /** The first equals sign of a setting stands behind its key. */
  lemma SplitSetting(key: string, value: string)
    requires Word(key)
    ensures var line := Setting(key, value); var n := First(line, '=');
            && line != "" && line[0] == key[0] && n == |key| + 1 && n < |line|
            && line[..n] == key + " " && line[n + 1..] == " " + value
  {
    WordHas(key);
    var line := Setting(key, value);
    assert line == (key + " ") + ("= " + value);
    FirstAppend(key + " ", "= " + value, '=');
    assert ("= " + value)[0] == '=';
    hide Word;
  }

  /** A setting line assigns what is read from behind its equals sign. */
  lemma FeedSetting(r: Reader, key: string, value: string)
    requires Word(key) && value != "" && !IsSpace(value[0]) && value[0] != '#'
    ensures Feed(r, Setting(key, value)) == Assign(r, key, Read(value))
  {
    hide Assign, TrimSpace, Trim, TrimRight, Before, First, Setting, IsSpace, Word;
    WordHas(key);
    CutSetting(key, value);
    var cut := Before(value, '#');
    TrimSetting(key, cut);
    var kept := TrimRight(cut, IsSpace);
    TrimRightEnd(cut, IsSpace);
    SplitSetting(key, kept);
    KeyStart(key);
    TrimKey(key);
    TrimValue(kept);
  }

  /** What a setting line changes: in the section of the chosen provider its address, key or key variable,
      at the top the choice of the provider or the model, and nothing anywhere else. */
  lemma SettingChangesOne(r: Reader, key: string, value: string)
    requires Word(key) && value != "" && !IsSpace(value[0]) && value[0] != '#'
    ensures var c, c', v := r.config, Feed(r, Setting(key, value)).config, Read(value);
            var top, own := r.section == "", r.section == "model_providers." + c.provider;
            && Feed(r, Setting(key, value)).section == r.section
            && c'.apiKey == (if own && key == "api_key" then v else c.apiKey)
            && c'.apiKeyEnv == (if own && key == "api_key_env_var" then v else c.apiKeyEnv)
            && c'.baseURL == (if own && key == "base_url" then v else c.baseURL)
            && c'.provider == (if top && key == "model_provider" then v else c.provider)
            && c'.model == (if top && key == "model" then v else c.model)
  {
    FeedSetting(r, key, value);
    hide Feed, Word, IsSpace, Setting;
    assert MODEL_PROVIDERS + r.config.provider != "";
  }

  lemma KeyStart(key: string)
    requires Word(key)
    ensures key[0] != '['
  {
  }

  /** A section line enters its section. */
  lemma FeedSection(r: Reader, p: string)
    requires ProviderName(p)
    ensures Feed(r, "[" + MODEL_PROVIDERS + p + "]") == r.(section := MODEL_PROVIDERS + p)
  {
    var name := MODEL_PROVIDERS + p;
    var line := "[" + MODEL_PROVIDERS + p + "]";
    assert line == ['['] + name + [']'];
    assert name[0] == 'm' && IdChar(name[|name| - 1]);
    assert '#' !in line;
    FirstOfNone(line, '#');
    assert Before(line, '#') == line && TrimSpace(line) == line;
    TrimPadded('[', name, ']', IsBracket);
  }

  // ---------- the lines of a text ----------

  predicate Clean(line: string) {
    '\n' !in line && '\r' !in line
  }

  function Fitting(lines: seq<string>): seq<string> {
    if lines == [] || |lines[0]| > MAX_LINE then [] else [lines[0]] + Fitting(lines[1..])
  }

  lemma {:induction false} ScannedLines(lines: seq<string>)
    requires forall i :: 0 <= i < |lines| ==> Clean(lines[i])
    ensures Scanned(Unlines(lines)) == Fitting(lines)
  {
    if lines != [] {
      var line, rest := lines[0], Unlines(lines[1..]);
      ScannedLines(lines[1..]);
      var text := line + "\n" + rest;
      assert text == line + ("\n" + rest);
      FirstAppend(line, "\n" + rest, '\n');
      assert text[..|line|] == line && text[|line| + 1..] == rest;
      assert line != "" ==> line[|line| - 1] in line;
    }
  }

  // ---------- the whole configuration ----------

  lemma NamesAreWords()
    ensures Word(MODEL_PROVIDER) && Word(MODEL) && Word(NAME)
    ensures Word(WIRE_API) && Word(REQUIRES_AUTH) && Word(BASE_URL)
  {
  }

  lemma ProviderIsPlain(p: string)
    requires ProviderName(p)
    ensures Printable(p) && Plain(p) && Read(Quote(p)) == p
  {
    assert Printable(p);
    QuoteReadIff(p);
  }

  lemma QuoteStarts(s: string)
    requires Printable(s)
    ensures Quote(s) != "" && Quote(s)[0] == '"'
  {
  }

  /** The settings above the section: provider and model. */
  lemma FeedTop(p: string, m: string)
    requires ProviderName(p) && Printable(m) && Printable(p)
    ensures Feed(START, Setting(MODEL_PROVIDER, Quote(p))) == Reader("", Config(p, "", "", "", ""))
    ensures Feed(Reader("", Config(p, "", "", "", "")), Setting(MODEL, Quote(m)))
            == Reader("", Config(p, Read(Quote(m)), "", "", ""))
  {
    hide Read, Feed, Quote;
    NamesAreWords();
    ProviderIsPlain(p);
    QuoteStarts(p);
    QuoteStarts(m);
    FeedSetting(START, MODEL_PROVIDER, Quote(p));
    FeedSetting(Reader("", Config(p, "", "", "", "")), MODEL, Quote(m));
  }

  /** The settings in the section: only the base URL matters. */
  lemma FeedInside(p: string, model: string, u: string)
    requires ProviderName(p) && Printable(u) && Printable(p)
    ensures var r := Reader(MODEL_PROVIDERS + p, Config(p, model, "", "", ""));
            && Feed(r, Setting(NAME, Quote(p))) == r
            && Feed(r, Setting(WIRE_API, "\"responses\"")) == r
            && Feed(r, Setting(REQUIRES_AUTH, "true")) == r
            && Feed(r, Setting(BASE_URL, Quote(u))) == r.(config := r.config.(baseURL := Read(Quote(u))))
  {
    var r := Reader(MODEL_PROVIDERS + p, Config(p, model, "", "", ""));
    hide Read, Feed, Quote;
    NamesAreWords();
    QuoteStarts(p);
    QuoteStarts(u);
    FeedSetting(r, NAME, Quote(p));
    FeedSetting(r, WIRE_API, "\"responses\"");
    FeedSetting(r, REQUIRES_AUTH, "true");
    FeedSetting(r, BASE_URL, Quote(u));
  }

  lemma QuoteIsClean(s: string)
    requires Printable(s)
    ensures Clean(Quote(s))
  {
    EscapeCounts(s);
  }

  lemma SettingIsClean(key: string, value: string)
    requires Word(key) && Clean(value)
    ensures Clean(Setting(key, value))
  {
    WordHas(key);
    assert '\r' !in key;
    assert Clean(" = ");
  }

  lemma LinesAreClean(p: string, m: string, u: string)
    requires ProviderName(p) && Printable(p) && Printable(m) && Printable(u)
    ensures forall i :: 0 <= i < 8 ==> Clean(ConfigLines(p, m, u)[i])
  {
    NamesAreWords();
    QuoteIsClean(p);
    QuoteIsClean(m);
    QuoteIsClean(u);
    SettingIsClean(MODEL_PROVIDER, Quote(p));
    SettingIsClean(MODEL, Quote(m));
    SettingIsClean(NAME, Quote(p));
    SettingIsClean(WIRE_API, "\"responses\"");
    SettingIsClean(REQUIRES_AUTH, "true");
    SettingIsClean(BASE_URL, Quote(u));
    assert Clean("[" + MODEL_PROVIDERS + p + "]");
    assert Clean("");
    hide Clean, Setting, Quote;
  }

  lemma {:induction false} FittingPrefix(lines: seq<string>, k: nat)
    requires k <= |lines| && forall i :: 0 <= i < k ==> |lines[i]| <= MAX_LINE
    requires k < |lines| ==> |lines[k]| > MAX_LINE
    ensures Fitting(lines) == lines[..k]
  {
    if k > 0 {
      FittingPrefix(lines[1..], k - 1);
      assert lines[..k] == [lines[0]] + lines[1..][..k - 1];
    }
  }

  predicate ModelFits(m: string)
    requires Printable(m)
  {
    |Quote(m)| + 8 <= MAX_LINE
  }

  predicate UrlFits(u: string)
    requires Printable(u)
  {
    |Quote(u)| + 11 <= MAX_LINE
  }

  /** How many lines the scanner delivers. */
  function Delivered(m: string, u: string): nat
    requires Printable(m) && Printable(u)
  {
    if !ModelFits(m) then 1 else if !UrlFits(u) then 7 else 8
  }

  lemma FittingLines(p: string, m: string, u: string)
    requires ProviderName(p) && Printable(p) && Printable(m) && Printable(u)
    ensures Fitting(ConfigLines(p, m, u)) == ConfigLines(p, m, u)[..Delivered(m, u)]
  {
    ProviderIsPlain(p);
    EscapePlain(p);
    FittingPrefix(ConfigLines(p, m, u), Delivered(m, u));
  }

  lemma FeedLines(p: string, m: string, u: string)
    requires ProviderName(p) && Printable(p) && Printable(m) && Printable(u)
    ensures var lines := ConfigLines(p, m, u);
            && FeedAll(START, lines[..1]).config == Config(p, "", "", "", "")
            && FeedAll(START, lines[..7]).config == Config(p, Read(Quote(m)), "", "", "")
            && FeedAll(START, lines[..8]).config == Config(p, Read(Quote(m)), Read(Quote(u)), "", "")
  {
    var lines := ConfigLines(p, m, u);
    var model := Read(Quote(m));
    var top := Reader("", Config(p, model, "", "", ""));
    FeedTop(p, m);
    assert Feed(top, "") == top;
    FeedSection(top, p);
    FeedInside(p, model, u);
    assert FeedAll(START, lines[..0]) == START;
    hide Feed, Read, Quote, FeedAll, Setting;
    FeedNext(START, lines, 0);
    FeedNext(START, lines, 1);
    FeedNext(START, lines, 2);
    FeedNext(START, lines, 3);
    FeedNext(START, lines, 4);
    FeedNext(START, lines, 5);
    FeedNext(START, lines, 6);
    FeedNext(START, lines, 7);
  }

  /** What is parsed of a printed configuration, by how long its lines are. */
  lemma ParsedPrint(p: string, m: string, u: string, fallback: string)
    requires ProviderName(p) && Printable(p) && Printable(m) && Printable(u)
    ensures var url := if ModelFits(m) && UrlFits(u) then Read(Quote(u)) else "";
            Parsed(Print(p, m, u), fallback)
            == Config(p, if ModelFits(m) then Read(Quote(m)) else "", if url == "" then fallback else url, "", "")
  {
    var lines := ConfigLines(p, m, u);
    LinesAreClean(p, m, u);
    ScannedLines(lines);
    FittingLines(p, m, u);
    FeedLines(p, m, u);
    hide Feed, Read, Quote, ConfigLines, FeedAll;
  }

  /** A value survives on its line exactly when it is plain and short enough. */
  lemma SurvivesIff(s: string)
    requires Printable(s)
    ensures ModelFits(s) && Read(Quote(s)) == s <==> Plain(s) && |s| <= MAX_LINE - 10
    ensures UrlFits(s) && Read(Quote(s)) == s <==> Plain(s) && |s| <= MAX_LINE - 13
    ensures !ModelFits(s) || !UrlFits(s) ==> s != ""
  {
    QuoteReadIff(s);
    if Plain(s) { EscapePlain(s); }
    hide Read, Plain;
  }

  /** A printed configuration comes back as it was, whatever base URL the environment sets, exactly
      when the model and the base URL are plain, the base URL is not empty, and neither makes a
      line longer than the scanner's buffer. */
  lemma RoundTripIff(p: string, m: string, u: string)
    requires ProviderName(p) && Printable(p) && Printable(m) && Printable(u)
    ensures (forall fallback :: fallback != "" ==> Parsed(Print(p, m, u), fallback) == Config(p, m, u, "", ""))
            <==> Plain(m) && Plain(u) && u != "" && |m| <= MAX_LINE - 10 && |u| <= MAX_LINE - 13
  {
    SurvivesIff(m);
    SurvivesIff(u);
    hide Parsed, Print, Read, Plain, Quote, ModelFits, UrlFits;
    if ModelFits(m) && Read(Quote(m)) == m && UrlFits(u) && Read(Quote(u)) == u && u != "" {
      forall fallback ensures Parsed(Print(p, m, u), fallback) == Config(p, m, u, "", "") {
        ParsedPrint(p, m, u, fallback);
      }
    } else {
      ParsedPrint(p, m, u, u + "x");
      assert |u + "x"| > |u|;
      assert Parsed(Print(p, m, u), u + "x") != Config(p, m, u, "", "");
    }
  }

  /** An empty text names the default provider, at the address of the environment, and no model or key. */
  lemma EmptyText(fallback: string)
    ensures Parsed("", fallback) == Config("openai", "", fallback, "", "")
  {
    assert Scanned("") == [];
  }
}
