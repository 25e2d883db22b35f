/** Redacting credentials: the secrets of the provider first, then three patterns, each of them a scan
    from left to right that replaces one match after the other. */
module Redaction {
  import opened Wrappers
  import opened StreamWriter

  /** `[REDACTED]`. */
  const REDACTED: Bytes := [91, 82, 69, 68, 65, 67, 84, 69, 68, 93]

  const BLANK: Byte := 32
  const DASH: Byte := 45
  const BRACKET: Byte := 93

  // ---------- bytes ----------

  predicate Space(b: Byte) {
    b == 9 || b == 10 || b == 12 || b == 13 || b == 32
  }

  predicate NoSpace(b: Byte) {
    !Space(b)
  }

  /** A colon or an equals sign. */
  predicate Sign(b: Byte) {
    b == 58 || b == 61
  }

  predicate NoSign(b: Byte) {
    !Sign(b)
  }

  /** What may join two words of a label: an underscore, a blank or a dash. */
  predicate Joint(b: Byte) {
    b == 95 || b == 32 || b == 45
  }

  predicate Letter(b: Byte) {
    65 <= b <= 90 || 97 <= b <= 122
  }

  predicate Digit(b: Byte) {
    48 <= b <= 57
  }

  /** Neither white space nor a quote. */
  predicate ValueByte(b: Byte) {
    !Space(b) && b != 34 && b != 39
  }

  predicate TokenByte(b: Byte) {
    Letter(b) || Digit(b) || b == 46 || b == 95 || b == 126 || b == 43 || b == 47 || b == 61 || b == 45
  }

  predicate WordByte(b: Byte) {
    Letter(b) || Digit(b) || b == 95
  }

  predicate KeyByte(b: Byte) {
    WordByte(b) || b == 45
  }

  /** The byte is this small letter, in either case. */
  predicate Folds(b: Byte, c: char) {
    'a' <= c <= 'z' && (b as int == c as int || b as int == c as int - 32)
  }

  // ---------- pieces of a pattern ----------

  /** The end of the longest run of such bytes. */
  function RunEnd(s: Bytes, i: nat, ok: Byte -> bool): (e: nat)
    requires i <= |s|
    ensures i <= e <= |s| && (forall k :: i <= k < e ==> ok(s[k])) && (e < |s| ==> !ok(s[e]))
    decreases |s| - i
  {
    if i < |s| && ok(s[i]) then RunEnd(s, i + 1, ok) else i
  }

  predicate IsWord(s: Bytes, i: nat, word: string) {
    i + |word| <= |s| && forall k :: 0 <= k < |word| ==> Folds(s[i + k], word[k])
  }

  /** The end of these words from `i` on, with at most one joint between two of them. */
  function WordsEnd(s: Bytes, i: nat, words: seq<string>): (e: Option<nat>)
    ensures e.Some? ==> words != [] && i + |words[0]| <= e.value <= |s|
    decreases |words|
  {
    if words == [] || !IsWord(s, i, words[0]) then None
    else
      var j := i + |words[0]|;
      if |words| == 1 then Some(j)
      else WordsEnd(s, if j < |s| && Joint(s[j]) then j + 1 else j, words[1..])
  }

  const LABELS: nat := 9

  /** The words of the n-th label. */
  function LabelWords(n: nat): seq<string>
    requires n < LABELS
  {
    if n == 0 then ["api", "key"] else if n == 1 then ["auth", "token"] else if n == 2 then ["access", "token"]
    else if n == 3 then ["refresh", "token"] else if n == 4 then ["authorization"]
    else if n == 5 then ["aws", "secret", "access", "key"] else if n == 6 then ["client", "secret"]
    else if n == 7 then ["password"] else ["webhook"]
  }

  /** A labelled value: where its label ends, where the sign or the word `bearer` stands, and where its
      value begins and ends. */
  datatype Shape = Shape(name: nat, gap: nat, value: nat, end: nat, signed: bool)

  function Valued(s: Bytes, name: nat, gap: nat, value: nat, signed: bool): (r: Option<Shape>)
    requires value <= |s|
    ensures r.Some? ==> r.value == Shape(name, gap, value, r.value.end, signed) && value < r.value.end <= |s|
  {
    var end := RunEnd(s, value, ValueByte);
    if end > value then Some(Shape(name, gap, value, end, signed)) else None
  }

  /** Behind a label: a sign, or the word `bearer` between white space, and then a value. */
  function Tail(s: Bytes, name: nat): (r: Option<Shape>)
    requires name <= |s|
    ensures r.Some? ==> r.value.name == name <= r.value.gap < r.value.value < r.value.end <= |s|
  {
    var gap := RunEnd(s, name, Space);
    if gap < |s| && Sign(s[gap]) then Valued(s, name, gap, RunEnd(s, gap + 1, Space), true)
    else if gap > name && IsWord(s, gap, "bearer") then
      var value := RunEnd(s, gap + 6, Space);
      if value > gap + 6 then Valued(s, name, gap, value, false) else None
    else None
  }

  /** The first of the labels, from the n-th on, that leads to a labelled value. */
  function Labelled(s: Bytes, n: nat): (r: Option<Shape>)
    requires n <= LABELS
    ensures r.Some? ==> 0 <= r.value.name <= r.value.gap < r.value.value < r.value.end <= |s|
    decreases LABELS - n
  {
    if n == LABELS then None
    else
      var name := WordsEnd(s, 0, LabelWords(n));
      if name.Some? && Tail(s, name.value).Some? then Tail(s, name.value) else Labelled(s, n + 1)
  }

  function BearerToken(s: Bytes): Option<nat> {
    if !IsWord(s, 0, "bearer") then None
    else
      var token := RunEnd(s, 6, Space);
      var end := RunEnd(s, token, TokenByte);
      if token > 6 && end - token >= 8 then Some(end) else None
  }

  /** Without the dashes at the end. */
  function Trimmed(s: Bytes, from: nat, end: nat): (e: nat)
    requires from <= end <= |s|
    ensures from <= e <= end && (e > from ==> s[e - 1] != DASH) && forall k :: e <= k < end ==> s[k] == DASH
  {
    if end > from && s[end - 1] == DASH then Trimmed(s, from, end - 1) else end
  }

  /** A key begins and ends at the bounds of a word. */
  function Key(before: bool, s: Bytes): Option<nat> {
    if before || |s| < 3 || s[..3] != [115, 107, 45] then None
    else
      var end := Trimmed(s, 3, RunEnd(s, 3, KeyByte));
      if end >= 11 then Some(end) else None
  }

  // ---------- what the bytes and the labels spell ----------

  /** The bytes are those of this ASCII text. */
  predicate Spells(s: Bytes, text: string) {
    |s| == |text| && forall k :: 0 <= k < |s| ==> s[k] as int == text[k] as int
  }

  lemma PlaceholderSpells()
    ensures Spells(REDACTED, "[REDACTED]")
  {
  }

  /** The classes of bytes by their characters. */
  lemma ClassesIff(b: Byte)
    ensures var c := b as int;
            && (Space(b) <==> c in {'\t' as int, '\n' as int, 12, '\r' as int, ' ' as int})
            && (Sign(b) <==> c in {':' as int, '=' as int})
            && (Joint(b) <==> c in {'_' as int, ' ' as int, '-' as int})
            && (Letter(b) <==> 'A' as int <= c <= 'Z' as int || 'a' as int <= c <= 'z' as int)
            && (Digit(b) <==> '0' as int <= c <= '9' as int)
            && (ValueByte(b) <==> !Space(b) && c !in {'"' as int, '\'' as int})
            && (KeyByte(b) <==> Letter(b) || Digit(b) || c in {'_' as int, '-' as int})
            && (WordByte(b) <==> KeyByte(b) && c != '-' as int)
            && (TokenByte(b) <==>
                  || Letter(b) || Digit(b)
                  || c in {'.' as int, '_' as int, '~' as int, '+' as int, '/' as int, '=' as int, '-' as int})
  {
  }

  /** A byte folds to a small letter in either case. */
  lemma FoldsIff(b: Byte, c: char)
    requires 'a' <= c <= 'z'
    ensures Folds(b, c) <==> b as int == c as int || b as int == c as int - 'a' as int + 'A' as int
  {
  }

  /** The words of a label as the name of a variable. */
  function Underscored(words: seq<string>): string {
    if words == [] then "" else if |words| == 1 then words[0] else words[0] + "_" + Underscored(words[1..])
  }

  /** The labels, as names of variables. */
  lemma LabelsSpell()
    ensures LABELS == 9
    ensures Underscored(LabelWords(0)) == "api_key" && Underscored(LabelWords(1)) == "auth_token"
    ensures Underscored(LabelWords(2)) == "access_token" && Underscored(LabelWords(3)) == "refresh_token"
    ensures Underscored(LabelWords(4)) == "authorization" && Underscored(LabelWords(6)) == "client_secret"
    ensures Underscored(LabelWords(5)) == "aws_secret_access_key"
    ensures Underscored(LabelWords(7)) == "password" && Underscored(LabelWords(8)) == "webhook"
  {
    hide Underscored;
    OneWord("authorization");
    OneWord("password");
    OneWord("webhook");
    TwoWords("api", "key");
    TwoWords("auth", "token");
    TwoWords("access", "token");
    TwoWords("refresh", "token");
    TwoWords("client", "secret");
    TwoWords("access", "key");
    MoreWords("secret", ["access", "key"]);
    MoreWords("aws", ["secret"] + ["access", "key"]);
    assert ["secret"] + ["access", "key"] == ["secret", "access", "key"];
    assert ["aws"] + ["secret", "access", "key"] == ["aws", "secret", "access", "key"];
  }

  lemma OneWord(a: string)
    ensures Underscored([a]) == a
  {
  }

  lemma MoreWords(a: string, rest: seq<string>)
    requires rest != []
    ensures Underscored([a] + rest) == a + "_" + Underscored(rest)
  {
    assert ([a] + rest)[1..] == rest;
  }

  lemma TwoWords(a: string, b: string)
    ensures Underscored([a, b]) == a + "_" + b
  {
    assert [a, b][1..] == [b];
  }

  /** The text has this name at `i`, in letters of either case. */
  predicate Names(s: Bytes, i: nat, name: string) {
    && i + |name| <= |s|
    && forall k :: 0 <= k < |name| ==> if name[k] == '_' then s[i + k] == 95 else Folds(s[i + k], name[k])
  }

  predicate SmallWords(words: seq<string>) {
    forall k, j :: 0 <= k < |words| && 0 <= j < |words[k]| ==> 'a' <= words[k][j] <= 'z'
  }

  lemma NameAt(first: string, rest: string, k: nat)
    requires k < |first + "_" + rest|
    ensures (first + "_" + rest)[k]
            == if k < |first| then first[k] else if k == |first| then '_' else rest[k - |first| - 1]
  {
  }

  lemma NamesSplit(s: Bytes, i: nat, first: string, rest: string)
    requires Names(s, i, first + "_" + rest) && forall k :: 0 <= k < |first| ==> first[k] != '_'
    ensures IsWord(s, i, first) && i + |first| < |s| && s[i + |first|] == 95 && Names(s, i + |first| + 1, rest)
  {
    var name := first + "_" + rest;
    forall k | 0 <= k < |first| ensures Folds(s[i + k], first[k]) { NameAt(first, rest, k); }
    NameAt(first, rest, |first|);
    var j := i + |first| + 1;
    forall k | 0 <= k < |rest| ensures if rest[k] == '_' then s[j + k] == 95 else Folds(s[j + k], rest[k]) {
      NameAt(first, rest, |first| + 1 + k);
      assert s[i + (|first| + 1 + k)] == s[j + k];
    }
  }

  lemma NamesOne(s: Bytes, i: nat, word: string)
    requires Names(s, i, word) && forall k :: 0 <= k < |word| ==> word[k] != '_'
    ensures IsWord(s, i, word)
  {
  }

  /** Such a name is read as the label, whatever its case. */
  lemma {:induction false} NamesAreLabels(s: Bytes, i: nat, words: seq<string>)
    requires words != [] && SmallWords(words) && Names(s, i, Underscored(words))
    ensures WordsEnd(s, i, words) == Some(i + |Underscored(words)|)
    decreases |words|
  {
    var first := words[0];
    assert forall k :: 0 <= k < |first| ==> 'a' <= first[k] <= 'z';
    hide Names, IsWord, Folds;
    if |words| == 1 {
      NamesOne(s, i, first);
    } else {
      NamesSplit(s, i, first, Underscored(words[1..]));
      assert SmallWords(words[1..]);
      hide SmallWords;
      NamesAreLabels(s, i + |first| + 1, words[1..]);
    }
  }

  /** The word `bearer`, at least one byte of white space, and a token of at least eight bytes, which the
      match takes in full. */
  lemma BearerIff(s: Bytes, end: nat)
    ensures BearerToken(s) == Some(end) <==>
              && IsWord(s, 0, "bearer") && end <= |s| && (end < |s| ==> !TokenByte(s[end]))
              && exists token: nat :: TokenAt(s, token, end)
  {
    hide Space, TokenByte;
    if IsWord(s, 0, "bearer") {
      var token := RunEnd(s, 6, Space);
      assert token > 6 && RunEnd(s, token, TokenByte) - token >= 8 ==> TokenAt(s, token, RunEnd(s, token, TokenByte));
      if other: nat :| TokenAt(s, other, end) {
        SpaceIsNoToken();
        assert !Space(s[other]);
      }
    }
  }

  /** White space from the end of `bearer` to here, and a token from here on. */
  predicate TokenAt(s: Bytes, token: nat, end: nat) {
    && 6 < token && token + 8 <= end <= |s|
    && (forall k :: 6 <= k < token ==> Space(s[k])) && (forall k :: token <= k < end ==> TokenByte(s[k]))
  }

  lemma SpaceIsNoToken()
    ensures forall b :: TokenByte(b) ==> !Space(b)
  {
  }

  /** A key is `sk-` and at least eight more letters, digits, underscores or dashes, at the beginning of a
      word; it goes on to the last byte that is no dash. */
  lemma KeyIff(before: bool, s: Bytes, end: nat)
    ensures Key(before, s) == Some(end) <==>
              && !before && 11 <= end <= |s| && Spells(s[..3], "sk-") && s[end - 1] != DASH
              && (forall k :: 3 <= k < end ==> KeyByte(s[k]))
              && exists stop :: end <= stop <= |s| && KeyStops(s, end, stop)
  {
    if |s| >= 3 { KeyWord(s); }
    hide KeyByte, Spells;
    if |s| >= 3 {
      var stop := RunEnd(s, 3, KeyByte);
      var last := Trimmed(s, 3, stop);
      assert KeyStops(s, last, stop);
      if 11 <= end <= |s| && s[end - 1] != DASH && forall k :: 3 <= k < end ==> KeyByte(s[k]) {
        if other :| end <= other <= |s| && KeyStops(s, end, other) {
          DashIsKey();
          assert forall k :: 3 <= k < other ==> KeyByte(s[k]);
          assert other == stop;
        }
      }
    }
  }

  lemma DashIsKey()
    ensures KeyByte(DASH)
  {
  }

  lemma KeyWord(s: Bytes)
    requires |s| >= 3
    ensures Spells(s[..3], "sk-") <==> s[..3] == [115, 107, 45]
  {
  }

  /** Between the end of the key and here there are only dashes, and here no byte of a key. */
  predicate KeyStops(s: Bytes, end: nat, stop: nat)
    requires end <= stop <= |s|
  {
    (forall k :: end <= k < stop ==> s[k] == DASH) && (stop < |s| ==> !KeyByte(s[stop]))
  }

  // ---------- one pass ----------

  datatype Pass = Secret(bytes: Bytes) | Credentials | BearerTokens | Keys

  /** The length of the match at the front of the text, which a word byte comes before or not. */
  function Found(p: Pass, before: bool, s: Bytes): (n: Option<nat>)
    ensures n.Some? ==> 0 < n.value <= |s|
  {
    match p
    case Secret(bytes) => if bytes != [] && bytes <= s then Some(|bytes|) else None
    case Credentials => if Labelled(s, 0).Some? then Some(Labelled(s, 0).value.end) else None
    case BearerTokens => BearerToken(s)
    case Keys => Key(before, s)
  }

  /** The part of a match that stays is the one up to its first sign, or its first field. */
  function Masked(m: Bytes): Bytes {
    var sign := RunEnd(m, 0, NoSign);
    if sign < |m| then m[..sign + 1] + REDACTED
    else m[..RunEnd(m, 0, NoSpace)] + [BLANK] + REDACTED
  }

  function Replacement(p: Pass, m: Bytes): (r: Bytes)
    ensures |r| >= |REDACTED| && r[|r| - 1] == BRACKET
  {
    if p.Secret? then REDACTED else Masked(m)
  }

  // ---------- one step of a scan ----------

  function StepLength(p: Pass, before: bool, s: Bytes): (n: nat)
    requires s != []
    ensures 0 < n <= |s|
  {
    if Found(p, before, s).Some? then Found(p, before, s).value else 1
  }

  function StepOutput(p: Pass, before: bool, s: Bytes): Bytes
    requires s != []
  {
    if Found(p, before, s).Some? then Replacement(p, s[..Found(p, before, s).value]) else [s[0]]
  }

  function StepMatches(p: Pass, before: bool, s: Bytes, at: nat): seq<(nat, nat)>
    requires s != []
  {
    if Found(p, before, s).Some? then [(at, at + Found(p, before, s).value)] else []
  }

  /** One match after the other is replaced, from left to right. */
  function Redacted(p: Pass, before: bool, s: Bytes): Bytes
    decreases |s|
  {
    if s == [] then []
    else
      var n := StepLength(p, before, s);
      StepOutput(p, before, s) + Redacted(p, WordByte(s[n - 1]), s[n..])
  }

  /** The intervals that are replaced; the text begins at `at`. */
  function Matches(p: Pass, before: bool, s: Bytes, at: nat): seq<(nat, nat)>
    decreases |s|
  {
    if s == [] then []
    else
      var n := StepLength(p, before, s);
      StepMatches(p, before, s, at) + Matches(p, WordByte(s[n - 1]), s[n..], at + n)
  }

  predicate Crossed(ms: seq<(nat, nat)>, cut: nat) {
    exists k :: 0 <= k < |ms| && ms[k].0 < cut < ms[k].1
  }

  /** The text ends with a newline or a bracket, which no key holds and no word. */
  predicate Closed(s: Bytes) {
    s != [] && (s[|s| - 1] == NEWLINE || s[|s| - 1] == BRACKET)
  }

  /** Only keys look at what is before them and behind them. */
  predicate MayCut(p: Pass, before: bool, a: Bytes) {
    p.Keys? ==> if a == [] then !before else Closed(a)
  }

  // ---------- a match does not depend on what is behind it ----------

  lemma RunLocal(a: Bytes, b: Bytes, i: nat, ok: Byte -> bool)
    requires i <= |a|
    ensures RunEnd(a, i, ok) < |a| ==> RunEnd(a + b, i, ok) == RunEnd(a, i, ok)
    ensures RunEnd(a, i, ok) == |a| ==> RunEnd(a + b, i, ok) >= |a|
  {
    var e, f := RunEnd(a, i, ok), RunEnd(a + b, i, ok);
    assert forall k :: i <= k < |a| ==> (a + b)[k] == a[k];
  }

  lemma WordLocal(a: Bytes, b: Bytes, i: nat, word: string)
    requires i + |word| <= |a|
    ensures IsWord(a + b, i, word) <==> IsWord(a, i, word)
  {
    assert (a + b)[i..i + |word|] == a[i..i + |word|];
    forall k | 0 <= k < |word| ensures Folds((a + b)[i + k], word[k]) == Folds(a[i + k], word[k]) {}
  }

  predicate NoneEmpty(words: seq<string>) {
    forall k :: 0 <= k < |words| ==> words[k] != ""
  }

  lemma {:induction false} WordsLocal(a: Bytes, b: Bytes, i: nat, words: seq<string>)
    requires NoneEmpty(words)
    ensures WordsEnd(a, i, words).Some? ==> WordsEnd(a + b, i, words) == WordsEnd(a, i, words)
    ensures WordsEnd(a + b, i, words).Some? && WordsEnd(a + b, i, words).value <= |a| ==>
              WordsEnd(a, i, words) == WordsEnd(a + b, i, words)
    decreases |words|
  {
    if words != [] && i + |words[0]| <= |a| {
      var j := i + |words[0]|;
      WordLocal(a, b, i, words[0]);
      hide IsWord;
      if |words| > 1 {
        RestNotEmpty(words);
        if j < |a| {
          WordsLocal(a, b, if Joint(a[j]) then j + 1 else j, words[1..]);
        } else {
          assert WordsEnd(a, j, words[1..]).None?;
        }
      }
    }
  }

  lemma RestNotEmpty(words: seq<string>)
    requires NoneEmpty(words) && |words| > 1
    ensures NoneEmpty(words[1..]) && |words[1..][0]| > 0
  {
    assert words[1..][0] == words[1];
  }

  lemma LabelsNotEmpty(n: nat)
    requires n < LABELS
    ensures NoneEmpty(LabelWords(n))
  {
  }

  lemma ValuedLocal(a: Bytes, b: Bytes, name: nat, gap: nat, value: nat, signed: bool)
    requires value <= |a|
    ensures Valued(a, name, gap, value, signed).Some? ==> Valued(a + b, name, gap, value, signed).Some?
    ensures var whole := Valued(a + b, name, gap, value, signed);
            whole.Some? && whole.value.end <= |a| ==> Valued(a, name, gap, value, signed) == whole
  {
    RunLocal(a, b, value, ValueByte);
  }

  lemma SameFront(a: Bytes, b: Bytes, i: nat)
    requires i < |a|
    ensures (a + b)[i] == a[i]
  {
  }

  lemma TailLocal(a: Bytes, b: Bytes, name: nat)
    requires name <= |a|
    ensures Tail(a, name).Some? ==> Tail(a + b, name).Some?
    ensures Tail(a + b, name).Some? && Tail(a + b, name).value.end <= |a| ==> Tail(a, name) == Tail(a + b, name)
  {
    hide RunEnd, IsWord, Valued, Sign;
    RunLocal(a, b, name, Space);
    var gap := RunEnd(a + b, name, Space);
    if gap < |a| {
      SameFront(a, b, gap);
      if Sign(a[gap]) {
        RunLocal(a, b, gap + 1, Space);
        ValuedLocal(a, b, name, gap, RunEnd(a, gap + 1, Space), true);
      } else if gap + 6 <= |a| {
        WordLocal(a, b, gap, "bearer");
        RunLocal(a, b, gap + 6, Space);
        ValuedLocal(a, b, name, gap, RunEnd(a, gap + 6, Space), false);
      }
    }
  }

  lemma {:induction false} LabelledLocal(a: Bytes, b: Bytes, n: nat)
    requires n <= LABELS
    ensures Labelled(a, n).Some? ==> Labelled(a + b, n).Some?
    ensures Labelled(a + b, n).Some? && Labelled(a + b, n).value.end <= |a| ==> Labelled(a, n) == Labelled(a + b, n)
    decreases LABELS - n
  {
    hide *;
    if n < LABELS {
      LabelledStep(a, n);
      LabelledStep(a + b, n);
      LabelsNotEmpty(n);
      WordsLocal(a, b, 0, LabelWords(n));
      LabelledLocal(a, b, n + 1);
      var name := WordsEnd(a + b, 0, LabelWords(n));
      if name.Some? && name.value <= |a| { TailLocal(a, b, name.value); }
    } else {
      NoneLabelled(a);
      NoneLabelled(a + b);
    }
  }

  lemma NoneLabelled(s: Bytes)
    ensures Labelled(s, LABELS).None?
  {
  }

  lemma LabelledStep(s: Bytes, n: nat)
    requires n < LABELS
    ensures var name := WordsEnd(s, 0, LabelWords(n));
            Labelled(s, n) == if name.Some? && Tail(s, name.value).Some? then Tail(s, name.value)
                              else Labelled(s, n + 1)
  {
    hide Tail, WordsEnd, LabelWords;
  }

  lemma TokenLocal(a: Bytes, b: Bytes)
    ensures BearerToken(a).Some? ==> BearerToken(a + b).Some?
    ensures BearerToken(a + b).Some? && BearerToken(a + b).value <= |a| ==> BearerToken(a) == BearerToken(a + b)
  {
    if 6 <= |a| {
      WordLocal(a, b, 0, "bearer");
      RunLocal(a, b, 6, Space);
      RunLocal(a, b, RunEnd(a, 6, Space), TokenByte);
    }
  }

  lemma KeyLocal(before: bool, a: Bytes, b: Bytes)
    requires Closed(a)
    ensures Key(before, a + b) == Key(before, a)
  {
    if |a| >= 3 {
      assert (a + b)[..3] == a[..3];
      if a[..3] == [115, 107, 45] {
        var end := RunEnd(a, 3, KeyByte);
        RunLocal(a, b, 3, KeyByte);
        assert end < |a|;
        TrimLocal(a, b, 3, end);
      }
    } else {
      assert a[|a| - 1] == (a + b)[|a| - 1];
      assert |a + b| >= 3 ==> (a + b)[..3][|a| - 1] == a[|a| - 1];
    }
  }

  lemma {:induction false} TrimLocal(a: Bytes, b: Bytes, from: nat, end: nat)
    requires from <= end <= |a|
    ensures Trimmed(a + b, from, end) == Trimmed(a, from, end)
  {
    if end > from && a[end - 1] == DASH { TrimLocal(a, b, from, end - 1); }
  }

  /** Whether a match begins at the front, and which one if it ends in time, is decided by the text up
      to the cut. */
  lemma FoundLocal(p: Pass, before: bool, a: Bytes, b: Bytes)
    requires a != [] && MayCut(p, before, a)
    ensures Found(p, before, a).Some? ==> Found(p, before, a + b).Some?
    ensures Found(p, before, a + b).Some? && Found(p, before, a + b).value <= |a| ==>
              Found(p, before, a) == Found(p, before, a + b)
  {
    match p
    case Secret(bytes) =>
      if |bytes| <= |a| { assert (a + b)[..|bytes|] == a[..|bytes|]; }
    case Credentials => LabelledLocal(a, b, 0);
    case BearerTokens => TokenLocal(a, b);
    case Keys => KeyLocal(before, a, b);
  }

  // ---------- cutting a text in two ----------

  /** What is before the second part does not matter. */
  lemma AfterCut(p: Pass, before: bool, b: Bytes, at: nat)
    requires MayCut(p, before, [])
    ensures Redacted(p, before, b) == Redacted(p, false, b) && Matches(p, before, b, at) == Matches(p, false, b, at)
  {
    hide *;
    if b != [] {
      SameFound(p, before, b);
      SameStep(p, before, false, b, b, at);
      Step(p, before, b, at);
      Step(p, false, b, at);
    } else {
      NothingScanned(p, before, at);
      NothingScanned(p, false, at);
    }
  }

  lemma SameFound(p: Pass, before: bool, s: Bytes)
    requires MayCut(p, before, [])
    ensures Found(p, before, s) == Found(p, false, s)
  {
    hide Labelled, BearerToken, Key;
  }

  /** Scans that find the same match take the same step. */
  lemma SameStep(p: Pass, before: bool, other: bool, a: Bytes, s: Bytes, at: nat)
    requires a != [] && s != [] && Found(p, before, a) == Found(p, other, s)
    requires var n := StepLength(p, other, s); n <= |a| && a[..n] == s[..n]
    ensures StepLength(p, before, a) == StepLength(p, other, s)
    ensures StepOutput(p, before, a) == StepOutput(p, other, s)
    ensures StepMatches(p, before, a, at) == StepMatches(p, other, s, at)
  {
    hide Found, Replacement;
    assert a[..StepLength(p, other, s)][0] == a[0] && s[..StepLength(p, other, s)][0] == s[0];
  }

  lemma NothingScanned(p: Pass, before: bool, at: nat)
    ensures Redacted(p, before, []) == [] && Matches(p, before, [], at) == []
  {
  }

  /** The intervals are not empty and lie between these places. */
  predicate Inside(ms: seq<(nat, nat)>, lo: nat, hi: nat) {
    forall k :: 0 <= k < |ms| ==> lo <= ms[k].0 < ms[k].1 <= hi
  }

  lemma InsideJoin(xs: seq<(nat, nat)>, ys: seq<(nat, nat)>, lo: nat, mid: nat, hi: nat)
    requires Inside(xs, lo, mid) && Inside(ys, mid, hi) && lo <= mid <= hi
    ensures Inside(xs + ys, lo, hi)
  {
  }

  lemma StepInside(p: Pass, before: bool, s: Bytes, at: nat)
    requires s != []
    ensures Inside(StepMatches(p, before, s, at), at, at + StepLength(p, before, s))
  {
    hide Found;
  }

  lemma {:induction false} AllInside(p: Pass, before: bool, s: Bytes, at: nat)
    ensures Inside(Matches(p, before, s, at), at, at + |s|)
    decreases |s|
  {
    hide Found, WordByte, Matches, Inside, StepMatches, StepOutput, Redacted, StepLength;
    if s == [] {
      NothingScanned(p, before, at);
      NoneInside(at);
    } else {
      var n := StepLength(p, before, s);
      Step(p, before, s, at);
      StepInside(p, before, s, at);
      AllInside(p, WordByte(s[n - 1]), s[n..], at + n);
      InsideJoin(StepMatches(p, before, s, at), Matches(p, WordByte(s[n - 1]), s[n..], at + n), at, at + n, at + |s|);
    }
  }

  lemma NoneInside(at: nat)
    ensures Inside([], at, at)
  {
  }

  lemma MatchesIn(p: Pass, before: bool, s: Bytes, at: nat)
    ensures forall k :: 0 <= k < |Matches(p, before, s, at)| ==>
              var m := Matches(p, before, s, at)[k]; at <= m.0 < m.1 <= at + |s|
  {
    hide Found, WordByte, Matches;
    AllInside(p, before, s, at);
  }

  /** The two parts have no match that lies across the cut. */
  lemma PartsNotCrossed(p: Pass, before: bool, a: Bytes, b: Bytes, at: nat)
    ensures !Crossed(Matches(p, before, a, at) + Matches(p, false, b, at + |a|), at + |a|)
  {
    hide *;
    MatchesIn(p, before, a, at);
    MatchesIn(p, false, b, at + |a|);
    ApartNotCrossed(Matches(p, before, a, at), Matches(p, false, b, at + |a|), at + |a|);
  }

  lemma ApartNotCrossed(xs: seq<(nat, nat)>, ys: seq<(nat, nat)>, cut: nat)
    requires forall k :: 0 <= k < |xs| ==> xs[k].1 <= cut
    requires forall k :: 0 <= k < |ys| ==> cut <= ys[k].0
    ensures !Crossed(xs + ys, cut)
  {
  }

  lemma CrossedTail(m: (nat, nat), ms: seq<(nat, nat)>, cut: nat)
    ensures Crossed([m] + ms, cut) <==> m.0 < cut < m.1 || Crossed(ms, cut)
  {
    if Crossed(ms, cut) {
      var k :| 0 <= k < |ms| && ms[k].0 < cut < ms[k].1;
      assert ([m] + ms)[k + 1] == ms[k];
    }
    assert ([m] + ms)[0] == m;
  }

  /** A text cut in two has the matches of its parts exactly when none of its matches lies across the
      cut; for keys the cut has to be behind a newline or a bracket. */
  lemma {:induction false} CutKeepsMatchesIff(p: Pass, before: bool, a: Bytes, b: Bytes, at: nat)
    requires MayCut(p, before, a)
    ensures Matches(p, before, a + b, at) == Matches(p, before, a, at) + Matches(p, false, b, at + |a|)
            <==> !Crossed(Matches(p, before, a + b, at), at + |a|)
    decreases |a|
  {
    PartsNotCrossed(p, before, a, b, at);
    if !Crossed(Matches(p, before, a + b, at), at + |a|) { UncrossedMatches(p, before, a, b, at); }
  }

  lemma Step(p: Pass, before: bool, s: Bytes, at: nat)
    requires s != []
    ensures var n := StepLength(p, before, s);
            && Redacted(p, before, s) == StepOutput(p, before, s) + Redacted(p, WordByte(s[n - 1]), s[n..])
            && Matches(p, before, s, at)
               == StepMatches(p, before, s, at) + Matches(p, WordByte(s[n - 1]), s[n..], at + n)
  {
    hide StepLength, StepOutput, StepMatches, WordByte;
  }

  /** Up to a cut that its next match does not cross, a text is scanned like its first part. */
  lemma StepLocal(p: Pass, before: bool, a: Bytes, b: Bytes, at: nat)
    requires a != [] && MayCut(p, before, a) && StepLength(p, before, a + b) <= |a|
    ensures StepLength(p, before, a) == StepLength(p, before, a + b)
    ensures StepOutput(p, before, a) == StepOutput(p, before, a + b)
    ensures StepMatches(p, before, a, at) == StepMatches(p, before, a + b, at)
  {
    hide Found, Replacement, MayCut, StepOutput, StepMatches;
    FoundLocal(p, before, a, b);
    Split(a, b, StepLength(p, before, a + b));
    SameStep(p, before, before, a, a + b, at);
  }

  /** Whether a match lies across a later cut: the next one, or one behind it. */
  lemma StepCrossed(p: Pass, before: bool, s: Bytes, at: nat, cut: nat)
    requires s != [] && at < cut
    ensures var n := StepLength(p, before, s);
            Crossed(Matches(p, before, s, at), cut)
            <==> cut < at + n || Crossed(Matches(p, WordByte(s[n - 1]), s[n..], at + n), cut)
  {
    hide Found, Matches, Redacted, WordByte, Crossed;
    Step(p, before, s, at);
    var n := StepLength(p, before, s);
    var later := Matches(p, WordByte(s[n - 1]), s[n..], at + n);
    CrossedTail((at, at + n), later, cut);
    assert [] + later == later;
  }

  lemma {:induction false} UncrossedMatches(p: Pass, before: bool, a: Bytes, b: Bytes, at: nat)
    requires MayCut(p, before, a) && !Crossed(Matches(p, before, a + b, at), at + |a|)
    ensures Matches(p, before, a + b, at) == Matches(p, before, a, at) + Matches(p, false, b, at + |a|)
    ensures Redacted(p, before, a + b) == Redacted(p, before, a) + Redacted(p, false, b)
    decreases |a|
  {
    hide *;
    if a == [] {
      AfterCut(p, before, b, at);
      NothingScanned(p, before, at);
      assert [] + b == b && [] + Matches(p, false, b, at) == Matches(p, false, b, at);
    } else {
      var n := StepLength(p, before, a + b);
      StepCrossed(p, before, a + b, at, at + |a|);
      StepLocal(p, before, a, b, at);
      Step(p, before, a + b, at);
      Step(p, before, a, at);
      Split(a, b, n);
      CutLater(p, before, a, n);
      assert at + n + |a[n..]| == at + |a|;
      UncrossedMatches(p, WordByte(a[n - 1]), a[n..], b, at + n);
      Regroup(StepOutput(p, before, a), Redacted(p, WordByte(a[n - 1]), a[n..]), Redacted(p, false, b));
      Regroup(StepMatches(p, before, a, at), Matches(p, WordByte(a[n - 1]), a[n..], at + n),
              Matches(p, false, b, at + |a|));
    }
  }

  lemma Split(a: Bytes, b: Bytes, n: nat)
    requires 0 < n <= |a|
    ensures (a + b)[n..] == a[n..] + b && (a + b)[..n] == a[..n] && (a + b)[n - 1] == a[n - 1] && (a + b)[0] == a[0]
  {
  }

  lemma Regroup<T>(x: seq<T>, y: seq<T>, z: seq<T>)
    ensures x + (y + z) == x + y + z
  {
  }

  lemma CutLater(p: Pass, before: bool, a: Bytes, n: nat)
    requires MayCut(p, before, a) && 0 < n <= |a|
    ensures MayCut(p, WordByte(a[n - 1]), a[n..])
  {
  }

  lemma ClosedJoin(x: Bytes, y: Bytes)
    requires if y == [] then Closed(x) else Closed(y)
    ensures Closed(x + y)
  {
    assert y == [] ==> x + y == x;
  }

  lemma StepCloses(p: Pass, before: bool, s: Bytes)
    requires Closed(s)
    ensures var n := StepLength(p, before, s); if n < |s| then Closed(s[n..]) else Closed(StepOutput(p, before, s))
  {
    hide Found, Replacement;
  }

  lemma NotEmptyClosed(s: Bytes)
    requires Closed(s)
    ensures s != []
  {
  }

  lemma {:induction false} StaysClosed(p: Pass, before: bool, s: Bytes)
    requires Closed(s)
    ensures Closed(Redacted(p, before, s))
    decreases |s|
  {
    hide *;
    NotEmptyClosed(s);
    Step(p, before, s, 0);
    StepCloses(p, before, s);
    var n := StepLength(p, before, s);
    var rest := Redacted(p, WordByte(s[n - 1]), s[n..]);
    if n < |s| {
      StaysClosed(p, WordByte(s[n - 1]), s[n..]);
      NotEmptyClosed(rest);
    } else {
      assert s[n..] == [];
      NothingScanned(p, WordByte(s[n - 1]), 0);
    }
    ClosedJoin(StepOutput(p, before, s), rest);
  }

  // ---------- all passes ----------

  function RedactAll(passes: seq<Pass>, text: Bytes): Bytes
    decreases |passes|
  {
    if passes == [] then text else RedactAll(passes[1..], Redacted(passes[0], false, text))
  }

  /** `Redact`. */
  function Redact(secrets: seq<Bytes>, text: Bytes): Bytes {
    RedactAll(Passes(secrets), text)
  }

  function Passes(secrets: seq<Bytes>): seq<Pass> {
    seq(|secrets|, i requires 0 <= i < |secrets| => Secret(secrets[i])) + [Credentials, BearerTokens, Keys]
  }

  /** In no pass does a match lie across the cut between these two parts. */
  predicate Uncut(passes: seq<Pass>, a: Bytes, b: Bytes)
    decreases |passes|
  {
    passes == []
    || (!Crossed(Matches(passes[0], false, a + b, 0), |a|)
        && Uncut(passes[1..], Redacted(passes[0], false, a), Redacted(passes[0], false, b)))
  }

  /** A cut behind a newline leaves the redaction as it is if no match lies across it. */
  lemma {:induction false} UncutKeepsRedaction(passes: seq<Pass>, a: Bytes, b: Bytes)
    requires Closed(a) && Uncut(passes, a, b)
    ensures RedactAll(passes, a + b) == RedactAll(passes, a) + RedactAll(passes, b)
    decreases |passes|
  {
    if passes != [] {
      var p := passes[0];
      UncrossedMatches(p, false, a, b, 0);
      StaysClosed(p, false, a);
      UncutKeepsRedaction(passes[1..], Redacted(p, false, a), Redacted(p, false, b));
    }
  }

  // ---------- the bytes of a labelled value ----------

  /** Words of letters, none beginning with the letter of `bearer`. */
  predicate GoodWords(words: seq<string>) {
    forall k :: 0 <= k < |words| ==> words[k] != "" && words[k][0] != 'b'
  }

  lemma LabelsAreGood(n: nat)
    requires n < LABELS
    ensures GoodWords(LabelWords(n))
  {
  }

  /** What the bytes of a label are. */
  predicate LabelBytes(s: Bytes, i: nat, end: nat) {
    && i < end <= |s| && Letter(s[i]) && Letter(s[end - 1])
    && (forall q :: i <= q < end ==> Letter(s[q]) || Joint(s[q]))
    && (forall q :: i <= q < end && Space(s[q]) ==> q + 1 < end && !Folds(s[q + 1], 'b'))
  }

  lemma WordBytes(s: Bytes, i: nat, word: string)
    requires IsWord(s, i, word)
    ensures forall q :: i <= q < i + |word| ==> Letter(s[q])
    ensures word != "" && word[0] != 'b' ==> !Folds(s[i], 'b')
  {
    forall q | i <= q < i + |word| ensures Letter(s[q]) { assert Folds(s[i + (q - i)], word[q - i]); }
    if word != "" { assert Folds(s[i + 0], word[0]); }
  }

  lemma {:induction false} WordsBytes(s: Bytes, i: nat, words: seq<string>)
    requires GoodWords(words) && WordsEnd(s, i, words).Some?
    ensures LabelBytes(s, i, WordsEnd(s, i, words).value) && !Folds(s[i], 'b')
    decreases |words|
  {
    WordBytes(s, i, words[0]);
    hide IsWord;
    if |words| > 1 {
      var j := i + |words[0]|;
      assert GoodWords(words[1..]) by { forall k | 0 <= k < |words| - 1 ensures words[1..][k] == words[k + 1] {} }
      WordsBytes(s, if j < |s| && Joint(s[j]) then j + 1 else j, words[1..]);
    }
  }

  /** What the bytes of a labelled value are. */
  predicate ShapeBytes(s: Bytes, h: Shape) {
    && LabelBytes(s, 0, h.name) && h.name <= h.gap < h.value < h.end <= |s|
    && (forall q :: h.name <= q < h.gap ==> Space(s[q]))
    && (if h.signed then Sign(s[h.gap]) && forall q :: h.gap < q < h.value ==> Space(s[q])
        else h.name < h.gap && h.gap + 6 < h.value && (forall q :: h.gap <= q < h.gap + 6 ==> Letter(s[q]))
             && Folds(s[h.gap], 'b') && forall q :: h.gap + 6 <= q < h.value ==> Space(s[q]))
    && (forall q :: h.value <= q < h.end ==> ValueByte(s[q]))
    && (h.end < |s| ==> !ValueByte(s[h.end]))
  }

  lemma TailBytes(s: Bytes, name: nat)
    requires LabelBytes(s, 0, name) && Tail(s, name).Some?
    ensures ShapeBytes(s, Tail(s, name).value)
  {
    var gap := RunEnd(s, name, Space);
    if !(gap < |s| && Sign(s[gap])) {
      WordBytes(s, gap, "bearer");
      assert Folds(s[gap + 0], "bearer"[0]);
    }
    hide IsWord, LabelBytes;
  }

  lemma {:induction false} LabelledBytes(s: Bytes, n: nat)
    requires n <= LABELS && Labelled(s, n).Some?
    ensures ShapeBytes(s, Labelled(s, n).value)
    decreases LABELS - n
  {
    hide Tail, WordsEnd, ShapeBytes, LabelBytes, LabelWords;
    var name := WordsEnd(s, 0, LabelWords(n));
    if name.Some? && Tail(s, name.value).Some? {
      LabelsAreGood(n);
      WordsBytes(s, 0, LabelWords(n));
      TailBytes(s, name.value);
    } else {
      LabelledBytes(s, n + 1);
    }
  }

  predicate Begins(s: Bytes, x: char, y: char, z: char) {
    |s| >= 3 && Folds(s[0], x) && Folds(s[1], y) && Folds(s[2], z)
  }

  /** How the labels begin. */
  predicate LabelStart(s: Bytes) {
    || Begins(s, 'a', 'p', 'i') || Begins(s, 'a', 'u', 't') || Begins(s, 'a', 'c', 'c') || Begins(s, 'r', 'e', 'f')
    || Begins(s, 'a', 'w', 's') || Begins(s, 'c', 'l', 'i') || Begins(s, 'p', 'a', 's') || Begins(s, 'w', 'e', 'b')
  }

  lemma WordBegins(s: Bytes, word: string)
    requires |word| >= 3 && IsWord(s, 0, word)
    ensures Begins(s, word[0], word[1], word[2])
  {
    assert Folds(s[0 + 0], word[0]) && Folds(s[0 + 1], word[1]) && Folds(s[0 + 2], word[2]);
  }

  lemma WordStart(s: Bytes, n: nat)
    requires n < LABELS && IsWord(s, 0, LabelWords(n)[0])
    ensures LabelStart(s)
  {
    hide IsWord, Begins;
    WordBegins(s, LabelWords(n)[0]);
  }

  lemma {:induction false} LabelledStart(s: Bytes, n: nat)
    requires n <= LABELS && Labelled(s, n).Some?
    ensures LabelStart(s)
    decreases LABELS - n
  {
    hide Tail, LabelStart, IsWord, LabelWords;
    if WordsEnd(s, 0, LabelWords(n)).Some? { WordStart(s, n); } else { LabelledStart(s, n + 1); }
  }

  /** The text does not begin like any label. */
  predicate Unlike(x: Byte, y: Byte, z: Byte) {
    x !in {65, 97, 82, 114, 67, 99, 80, 112, 87, 119} || (x == 82 && z == 68) || (x == 65 && y == 67 && z == 84)
    || (x == 67 && y == 84)
  }

  lemma StartBytes(s: Bytes)
    requires LabelStart(s)
    ensures !Unlike(s[0], s[1], s[2])
  {
  }

  lemma UnlikeHasNone(s: Bytes)
    requires s != []
    requires if |s| >= 3 then Unlike(s[0], s[1], s[2]) else true
    ensures Labelled(s, 0).None?
  {
    hide Labelled, LabelStart, Unlike;
    if Labelled(s, 0).Some? {
      LabelledStart(s, 0);
      StartLetters(s);
      StartBytes(s);
    }
  }

  lemma PlaceholderBytes(t: nat)
    requires t < |REDACTED|
    ensures REDACTED[t] == (if t == 0 then 91 else if t == 1 then 82 else if t == 2 then 69 else if t == 3 then 68
                            else if t == 4 then 65 else if t == 5 then 67 else if t == 6 then 84 else if t == 7 then 69
                            else if t == 8 then 68 else 93)
  {
  }

  lemma PlaceholderUnlike(t: nat, y: Byte, z: Byte)
    requires t < |REDACTED| && (t < 8 ==> y == REDACTED[t + 1] && z == REDACTED[t + 2])
    ensures Unlike(REDACTED[t], y, z)
  {
    PlaceholderBytes(t);
    if t < 8 {
      PlaceholderBytes(t + 1);
      PlaceholderBytes(t + 2);
    }
  }

  /** No label begins in a placeholder, whatever comes behind it. */
  lemma NoLabelInPlaceholder(s: Bytes, t: nat)
    requires t < |REDACTED| && s != [] && s[0] == REDACTED[t]
    requires t < 8 && |s| >= 3 ==> s[1] == REDACTED[t + 1] && s[2] == REDACTED[t + 2]
    ensures Labelled(s, 0).None?
  {
    hide Labelled, Unlike;
    if |s| >= 3 { PlaceholderUnlike(t, s[1], s[2]); }
    UnlikeHasNone(s);
  }

  // ---------- text without matches ----------

  predicate Plain(s: Bytes, q: nat)
    requires q <= |s|
  {
    Labelled(s[q..], 0).None?
  }

  /** The text after the first pattern. */
  function Cleaned(s: Bytes): Bytes {
    Redacted(Credentials, false, s)
  }

  lemma WholeIsMasked(s: Bytes)
    requires Labelled(s, 0).Some?
    ensures var end := Labelled(s, 0).value.end; Cleaned(s) == Masked(s[..end]) + Cleaned(s[end..])
  {
    hide Labelled, Masked, WordByte;
    var end := Labelled(s, 0).value.end;
    AfterCut(Credentials, WordByte(s[end - 1]), s[end..], 0);
  }

  lemma OneStays(s: Bytes)
    requires s != [] && Labelled(s, 0).None?
    ensures Cleaned(s) == [s[0]] + Cleaned(s[1..])
  {
    hide Labelled, Masked, WordByte;
    AfterCut(Credentials, WordByte(s[0]), s[1..], 0);
  }

  lemma NoneCleaned()
    ensures Cleaned([]) == []
  {
  }

  /** As long as no match begins, the text stays. */
  lemma {:induction false} PlainStays(s: Bytes, n: nat)
    requires n <= |s| && forall q :: 0 <= q < n ==> Plain(s, q)
    ensures Cleaned(s) == s[..n] + Cleaned(s[n..])
    decreases n
  {
    hide *;
    if n == 0 {
      assert s[0..] == s && s[..0] + Cleaned(s) == Cleaned(s);
    } else {
      PlainFirst(s);
      OneStays(s);
      PlainRest(s, n);
      PlainStays(s[1..], n - 1);
      assert s[1..][n - 1..] == s[n..] && [s[0]] + s[1..][..n - 1] == s[..n];
      Regroup([s[0]], s[1..][..n - 1], Cleaned(s[n..]));
    }
  }

  lemma PlainFirst(s: Bytes)
    requires s != [] && Plain(s, 0)
    ensures Labelled(s, 0).None?
  {
    hide Labelled;
    assert s[0..] == s;
  }

  lemma PlainRest(s: Bytes, n: nat)
    requires 0 < n <= |s| && forall q :: 0 <= q < n ==> Plain(s, q)
    ensures forall q :: 0 <= q < n - 1 ==> Plain(s[1..], q)
  {
    hide Labelled;
    forall q | 0 <= q < n - 1 ensures Plain(s[1..], q) {
      assert s[1..][q..] == s[q + 1..];
      assert Plain(s, q + 1);
    }
  }

  /** A text keeps its first byte: no match begins with a sign or white space. */
  lemma CleanedFirst(s: Bytes)
    requires s != []
    ensures Cleaned(s) != [] && Cleaned(s)[0] == s[0]
  {
    hide *;
    if Labelled(s, 0).Some? {
      WholeIsMasked(s);
      MaskedStart(s);
      var m := Masked(s[..Labelled(s, 0).value.end]);
      assert m[..3][0] == m[0] && s[..3][0] == s[0];
    } else {
      OneStays(s);
    }
  }

  /** The label of a match stays: at least its first three letters. */
  lemma MaskedStart(s: Bytes)
    requires Labelled(s, 0).Some?
    ensures var m := Masked(s[..Labelled(s, 0).value.end]); |s| >= 3 && |m| >= 3 && m[..3] == s[..3]
  {
    hide Labelled, LabelStart, RunEnd;
    LabelledStart(s, 0);
    LabelledBytes(s, 0);
    var m := s[..Labelled(s, 0).value.end];
    StartLetters(s);
    assert m[0] == s[0] && m[1] == s[1] && m[2] == s[2];
    assert RunEnd(m, 0, NoSign) >= 3 && RunEnd(m, 0, NoSpace) >= 3;
  }

  lemma StartLetters(s: Bytes)
    requires LabelStart(s)
    ensures |s| >= 3 && Letter(s[0]) && Letter(s[1]) && Letter(s[2])
  {
  }

  // ---------- a match that lies across a cut ----------

  /** The match at the front of the two parts lies across the cut behind the first, at a newline. */
  predicate Crosses(x: Bytes, b: Bytes) {
    EndsLine(x) && Labelled(x + b, 0).Some? && Labelled(x + b, 0).value.end > |x|
  }

  /** The cut is behind the label and not behind the value. */
  lemma CutInGap(x: Bytes, b: Bytes)
    requires Crosses(x, b)
    ensures var h := Labelled(x + b, 0).value;
            && ShapeBytes(x + b, h) && h.name < |x| <= h.value && |x| - 1 != h.gap
            && (!h.signed ==> |x| <= h.gap || |x| > h.gap + 6)
  {
    LabelledBytes(x + b, 0);
    hide Labelled;
    assert (x + b)[|x| - 1] == NEWLINE;
  }

  lemma LaterBytes(x: Bytes, b: Bytes, q: nat, h: Shape)
    requires q < |x| && ShapeBytes(x[q..], h)
    ensures ValueByte(x[q + h.value]) && q + h.value < |x|
    ensures h.signed ==> Sign(x[q + h.gap])
    ensures !h.signed ==> q + h.gap > q && Folds(x[q + h.gap], 'b') && Space(x[q + h.gap - 1]) && h.gap + 6 < h.value
  {
    var y := x[q..];
    assert forall k :: 0 <= k < |y| ==> y[k] == x[q + k];
    assert ValueByte(y[h.value]);
    if !h.signed { assert Space(y[h.gap - 1]); }
  }

  /** No match begins in the part before such a cut, read on its own. */
  lemma FrontIsPlain(x: Bytes, b: Bytes, q: nat)
    requires Crosses(x, b) && q < |x|
    ensures Plain(x, q)
  {
    hide Labelled, ShapeBytes, ValueByte, Sign, Space, Folds;
    CutInGap(x, b);
    var h := Labelled(x + b, 0).value;
    if Labelled(x[q..], 0).Some? {
      var h' := Labelled(x[q..], 0).value;
      LabelledBytes(x[q..], 0);
      LaterBytes(x, b, q, h');
      NoSecondGap(x, b, h, q + h'.gap, q + h'.value);
    }
  }

  /** Behind the sign, or the word, of a labelled value there is white space up to the cut. */
  lemma NoSecondGap(x: Bytes, b: Bytes, h: Shape, gap: nat, value: nat)
    requires ShapeBytes(x + b, h) && h.name < |x| <= h.value && gap < value < |x|
    ensures Sign(x[gap]) ==> !ValueByte(x[value])
    ensures gap > 0 && gap + 6 < value && Folds(x[gap], 'b') && Space(x[gap - 1]) ==> !ValueByte(x[value])
  {
    var s := x + b;
    assert s[value] == x[value] && s[gap] == x[gap] && (gap > 0 ==> s[gap - 1] == x[gap - 1]);
    assert Sign(s[gap]) ==> gap == h.gap;
    assert gap > 0 && Folds(s[gap], 'b') && Space(s[gap - 1]) ==> gap == h.gap;
  }

  // ---------- what such a cut changes ----------

  /** A key has neither a sign nor white space: the placeholder comes behind it, not in its place. */
  lemma KeyStays(before: bool, s: Bytes)
    requires Key(before, s).Some?
    ensures var n := Key(before, s).value;
            n <= |s| && Replacement(Keys, s[..n]) == s[..n] + [BLANK] + REDACTED
  {
    var m := s[..Key(before, s).value];
    assert s[..3][0] == s[0] && s[..3][1] == s[1] && s[..3][2] == s[2];
    assert forall q :: 3 <= q < |m| ==> KeyByte(m[q]);
    assert forall q :: 0 <= q < |m| ==> !Sign(m[q]) && !Space(m[q]);
    hide RunEnd, Key, KeyByte;
    assert RunEnd(m, 0, NoSign) == |m| == RunEnd(m, 0, NoSpace) && m[..|m|] == m;
  }

  lemma SignedMask(s: Bytes, h: Shape)
    requires ShapeBytes(s, h) && h.signed
    ensures Masked(s[..h.end]) == s[..h.gap + 1] + REDACTED
  {
    var m := s[..h.end];
    assert RunEnd(m, 0, NoSign) == h.gap by {
      hide RunEnd;
      assert Sign(m[h.gap]) && forall q :: 0 <= q < h.gap ==> m[q] == s[q] && !Sign(m[q]);
    }
    assert m[..h.gap + 1] == s[..h.gap + 1];
  }

  /** Without a sign, the first field of the label stays. */
  lemma BareMask(s: Bytes, h: Shape) returns (f: nat)
    requires ShapeBytes(s, h) && !h.signed && forall q :: 0 <= q < h.end ==> !Sign(s[q])
    ensures f <= h.name && Space(s[f]) && Masked(s[..h.end]) == s[..f] + [BLANK] + REDACTED
  {
    var m := s[..h.end];
    hide RunEnd;
    f := RunEnd(m, 0, NoSpace);
    assert Space(m[h.name]);
    assert RunEnd(m, 0, NoSign) == |m|;
    assert m[..f] == s[..f];
  }

  lemma FirstIsLetter(s: Bytes)
    requires s != [] && !Letter(s[0])
    ensures Labelled(s, 0).None?
  {
    hide Labelled, LabelStart;
    if Labelled(s, 0).Some? {
      LabelledStart(s, 0);
      StartLetters(s);
    }
  }

  lemma CancelFront(x: Bytes, y: Bytes, z: Bytes)
    ensures x + y == x + z <==> y == z
  {
    assert (x + y)[|x|..] == y && (x + z)[|x|..] == z;
  }

  lemma SplitAt<T>(x: seq<T>, t: nat)
    requires t <= |x|
    ensures x == x[..t] + x[t..]
  {
  }

  lemma NotShorter(left: Bytes, later: Bytes)
    requires left != []
    ensures left + later != later
  {
    assert |left + later| > |later|;
  }

  /** How far the value agrees with the placeholder: nothing begins in that part. */
  lemma {:induction false} PlaceholderStep(d: Bytes, n: nat, t: nat)
    requires t <= |REDACTED| && t <= n <= |d| && d[..t] == REDACTED[..t]
    requires Cleaned(d) == d[..t] + Cleaned(d[t..]) && REDACTED + Cleaned(d[n..]) == Cleaned(d)
    ensures n >= |REDACTED| && d[..|REDACTED|] == REDACTED
    ensures Cleaned(d) == REDACTED + Cleaned(d[|REDACTED|..])
    decreases |REDACTED| - t
  {
    hide *;
    if t < |REDACTED| {
      var front, left, later := REDACTED[..t], REDACTED[t..], Cleaned(d[n..]);
      SplitAt(REDACTED, t);
      Regroup(front, left, later);
      CancelFront(front, left + later, Cleaned(d[t..]));
      NotShorter(left, later);
      OneMore(d, n, t, later);
      PlaceholderStep(d, n, t + 1);
    } else {
      assert REDACTED[..t] == REDACTED;
    }
  }

  lemma CleanedStart(s: Bytes)
    requires Labelled(s, 0).Some?
    ensures var r := Cleaned(s); |s| >= 3 && |r| >= 3 && r[0] == s[0] && r[1] == s[1] && r[2] == s[2]
  {
    hide Labelled, Masked, WordByte;
    MaskedStart(s);
    var m := Masked(s[..Labelled(s, 0).value.end]);
    assert m[..3][0] == m[0] && m[..3][1] == m[1] && m[..3][2] == m[2];
  }

  lemma LeftOver(t: nat, later: Bytes)
    requires t < |REDACTED|
    ensures var r := REDACTED[t..] + later;
            r[0] == REDACTED[t] && (t < 8 ==> r[1] == REDACTED[t + 1] && r[2] == REDACTED[t + 2])
  {
  }

  /** Text that is redacted to the rest of a placeholder begins with that, and with no match. */
  lemma ReadsPlaceholder(s: Bytes, t: nat, later: Bytes)
    requires t < |REDACTED| && s != [] && Cleaned(s) == REDACTED[t..] + later
    ensures s[0] == REDACTED[t] && Labelled(s, 0).None?
  {
    hide *;
    CleanedFirst(s);
    LeftOver(t, later);
    if Labelled(s, 0).Some? {
      CleanedStart(s);
      NoLabelInPlaceholder(s, t);
    }
  }

  lemma OneMore(d: Bytes, n: nat, t: nat, later: Bytes)
    requires t < |REDACTED| && t < n <= |d| && d[..t] == REDACTED[..t]
    requires Cleaned(d) == d[..t] + Cleaned(d[t..]) && Cleaned(d[t..]) == REDACTED[t..] + later
    ensures d[..t + 1] == REDACTED[..t + 1] && Cleaned(d) == d[..t + 1] + Cleaned(d[t + 1..])
  {
    hide *;
    var s := d[t..];
    ReadsPlaceholder(s, t, later);
    OneStays(s);
    assert s[1..] == d[t + 1..] && d[..t] + [s[0]] == d[..t + 1];
    assert REDACTED[..t] + [REDACTED[t]] == REDACTED[..t + 1];
    Regroup(d[..t], [s[0]], Cleaned(d[t + 1..]));
  }

  /** Hiding a value that is read from its first byte on leaves the text as it is exactly when the value
      reads like the placeholder already. */
  lemma HiddenIff(d: Bytes, n: nat)
    requires 0 < n <= |d| && (forall q :: 0 <= q < n ==> ValueByte(d[q])) && (n < |d| ==> !ValueByte(d[n]))
    ensures REDACTED + Cleaned(d[n..]) == Cleaned(d) <==> d[..n] == REDACTED
  {
    hide Cleaned, Plain, ValueByte;
    var k := |REDACTED|;
    if d[..n] == REDACTED {
      PlaceholderIsPlain(d);
      PlainStays(d, n);
    }
    if REDACTED + Cleaned(d[n..]) == Cleaned(d) {
      assert d[0..] == d && d[..0] + Cleaned(d) == Cleaned(d);
      PlaceholderStep(d, n, 0);
      CancelFront(REDACTED, Cleaned(d[n..]), Cleaned(d[k..]));
      if k < n { LaterDiffers(d, k, n); }
    }
  }

  /** A value byte is never shown as what comes behind a value. */
  lemma LaterDiffers(d: Bytes, k: nat, n: nat)
    requires k < n <= |d| && ValueByte(d[k]) && (n < |d| ==> !ValueByte(d[n]))
    ensures Cleaned(d[n..]) != Cleaned(d[k..])
  {
    hide Cleaned;
    CleanedFirst(d[k..]);
    if n < |d| {
      CleanedFirst(d[n..]);
    } else {
      assert d[n..] == [];
      NoneCleaned();
    }
  }

  lemma PlaceholderIsPlain(d: Bytes)
    requires |d| >= |REDACTED| && d[..|REDACTED|] == REDACTED
    ensures forall q :: 0 <= q < |REDACTED| ==> Plain(d, q)
  {
    hide Labelled;
    forall q | 0 <= q < |REDACTED| ensures Plain(d, q) {
      assert forall k :: 0 <= k < |REDACTED| ==> d[k] == REDACTED[k];
      NoLabelInPlaceholder(d[q..], q);
    }
  }

  // ---------- main result on cuts ----------

  /** The sign stands behind the cut, directly before a value that reads like the placeholder. */
  predicate AlreadyHidden(x: Bytes, b: Bytes) {
    match Labelled(x + b, 0)
    case None => false
    case Some(h) =>
      h.signed && |x| <= h.gap && h.value == h.gap + 1 && (x + b)[h.value..h.end] == REDACTED
  }

  /** A match by the word `bearer` has no sign in its value. */
  predicate OneSeparator(x: Bytes, b: Bytes) {
    match Labelled(x + b, 0)
    case None => true
    case Some(h) => h.signed || forall q :: h.value <= q < h.end ==> !Sign((x + b)[q])
  }

  lemma FrontStays(x: Bytes, b: Bytes)
    requires Crosses(x, b)
    ensures Cleaned(x) == x
  {
    hide *;
    forall q | 0 <= q < |x| ensures Plain(x, q) { FrontIsPlain(x, b, q); }
    PlainStays(x, |x|);
    NoneCleaned();
    assert x[..|x|] == x && x[|x|..] == [] && x + [] == x;
  }

  lemma NoSigns(s: Bytes, h: Shape)
    requires ShapeBytes(s, h) && !h.signed && forall q :: h.value <= q < h.end ==> !Sign(s[q])
    ensures forall q :: 0 <= q < h.end ==> !Sign(s[q])
  {
  }

  lemma AfterFirstSpace(s: Bytes, h: Shape, f: nat)
    requires ShapeBytes(s, h) && !h.signed && f <= h.name && Space(s[f])
    ensures f + 1 < h.value && s[f + 1] != REDACTED[0]
  {
  }

  lemma BareWhole(front: Bytes, rest: Bytes)
    ensures var r := front + [BLANK] + REDACTED + rest;
            |r| > |front| + 1 && r[|front|] == BLANK && r[|front| + 1] == REDACTED[0]
  {
  }

  /** By the word: the whole has a blank and a bracket where the parts have white space. */
  lemma BareDiffers(x: Bytes, b: Bytes)
    requires Crosses(x, b) && !Labelled(x + b, 0).value.signed && OneSeparator(x, b)
    ensures Cleaned(x + b) != x + Cleaned(b)
  {
    hide Labelled, Cleaned, ShapeBytes, Masked, RunEnd, Sign;
    var s := x + b;
    CutInGap(x, b);
    WholeIsMasked(s);
    var h := Labelled(s, 0).value;
    NoSigns(s, h);
    var f := BareMask(s, h);
    AfterFirstSpace(s, h, f);
    BareWhole(s[..f], Cleaned(s[h.end..]));
    assert (x + Cleaned(b))[f] == s[f];
    if f + 1 < |x| { assert (x + Cleaned(b))[f + 1] == s[f + 1]; }
  }

  lemma SignedWhole(front: Bytes, rest: Bytes)
    ensures var r := front + REDACTED + rest; |r| > |front| && r[|front|] == REDACTED[0]
  {
  }

  /** By a sign before the cut: the whole has a bracket where the parts have white space. */
  lemma SignBeforeDiffers(x: Bytes, b: Bytes)
    requires Crosses(x, b) && Labelled(x + b, 0).value.signed && Labelled(x + b, 0).value.gap < |x|
    ensures Cleaned(x + b) != x + Cleaned(b)
  {
    hide Labelled, Cleaned, Masked;
    var s := x + b;
    CutInGap(x, b);
    WholeIsMasked(s);
    var h := Labelled(s, 0).value;
    SignedMask(s, h);
    SignedWhole(s[..h.gap + 1], Cleaned(s[h.end..]));
    assert Space(s[h.gap + 1]);
    assert (x + Cleaned(b))[h.gap + 1] == s[h.gap + 1];
  }

  /** What is behind the sign decides. */
  lemma SignBehindSplits(x: Bytes, b: Bytes)
    requires Crosses(x, b) && Labelled(x + b, 0).value.signed && |x| <= Labelled(x + b, 0).value.gap
    ensures var h := Labelled(x + b, 0).value; var c := h.gap + 1 - |x|;
            Cleaned(x + b) == x + Cleaned(b) <==> REDACTED + Cleaned(b[h.end - |x|..]) == Cleaned(b[c..])
  {
    hide Labelled, Cleaned, Masked;
    var s := x + b;
    CutInGap(x, b);
    WholeIsMasked(s);
    var h := Labelled(s, 0).value;
    SignedMask(s, h);
    var c := h.gap + 1 - |x|;
    var later := Cleaned(b[h.end - |x|..]);
    assert s[h.end..] == b[h.end - |x|..] && s[..h.gap + 1] == x + b[..c];
    GapStays(x, b, h);
    Regroup(x + b[..c], REDACTED, later);
    Regroup(x, b[..c], Cleaned(b[c..]));
    CancelFront(x + b[..c], REDACTED + later, Cleaned(b[c..]));
  }

  lemma GapStays(x: Bytes, b: Bytes, h: Shape)
    requires ShapeBytes(x + b, h) && h.signed && h.name < |x| <= h.gap
    ensures Cleaned(b) == b[..h.gap + 1 - |x|] + Cleaned(b[h.gap + 1 - |x|..])
  {
    hide Labelled;
    var c := h.gap + 1 - |x|;
    forall q | 0 <= q < c ensures Plain(b, q) {
      assert b[q..][0] == b[q] == (x + b)[|x| + q];
      FirstIsLetter(b[q..]);
    }
    PlainStays(b, c);
  }

  /** The text behind the sign: a value, or white space before it. */
  lemma BehindSign(x: Bytes, b: Bytes, h: Shape)
    requires ShapeBytes(x + b, h) && h.signed && h.name < |x| <= h.gap
    ensures var d, n := b[h.gap + 1 - |x|..], h.end - h.gap - 1;
            && 0 < n <= |d| && d[n..] == b[h.end - |x|..] && (x + b)[h.gap + 1..h.end] == d[..n]
            && (h.value > h.gap + 1 ==> d[0] != REDACTED[0])
            && (h.value == h.gap + 1 ==>
                  (forall q :: 0 <= q < n ==> ValueByte(d[q])) && (n < |d| ==> !ValueByte(d[n])))
  {
    hide ValueByte;
    var d, s := b[h.gap + 1 - |x|..], x + b;
    assert forall q :: 0 <= q < |d| ==> d[q] == s[h.gap + 1 + q];
  }

  lemma SignBehindIff(x: Bytes, b: Bytes)
    requires Crosses(x, b) && Labelled(x + b, 0).value.signed && |x| <= Labelled(x + b, 0).value.gap
    ensures Cleaned(x + b) == x + Cleaned(b) <==> AlreadyHidden(x, b)
  {
    hide Labelled, Cleaned, Masked, ShapeBytes, ValueByte;
    SignBehindSplits(x, b);
    CutInGap(x, b);
    var h := Labelled(x + b, 0).value;
    BehindSign(x, b, h);
    var d, n := b[h.gap + 1 - |x|..], h.end - h.gap - 1;
    if h.value == h.gap + 1 { HiddenIff(d, n); } else { SpaceBehind(d, n); }
  }

  lemma SpaceBehind(d: Bytes, n: nat)
    requires n <= |d| && d != [] && d[0] != REDACTED[0]
    ensures REDACTED + Cleaned(d[n..]) != Cleaned(d)
  {
    hide *;
    CleanedFirst(d);
    SignedWhole([], Cleaned(d[n..]));
    assert [] + REDACTED == REDACTED;
  }

  /** A cut inside a match changes what is shown, unless the value read like the placeholder already. */
  lemma CrossingIff(x: Bytes, b: Bytes)
    requires Crosses(x, b) && OneSeparator(x, b)
    ensures Cleaned(x + b) == Cleaned(x) + Cleaned(b) <==> AlreadyHidden(x, b)
  {
    FrontStays(x, b);
    hide Labelled, Cleaned;
    var h := Labelled(x + b, 0).value;
    if !h.signed { BareDiffers(x, b); }
    else if h.gap < |x| { SignBeforeDiffers(x, b); }
    else { SignBehindIff(x, b); }
  }

  /** The rest of the first part from where the match begins that lies across the cut, if any. */
  function Torn(a: Bytes, b: Bytes): Option<Bytes>
    decreases |a|
  {
    if a == [] then None
    else
      var n := StepLength(Credentials, false, a + b);
      if n > |a| then Some(a) else Torn(a[n..], b)
  }

  lemma TornCrosses(a: Bytes, b: Bytes)
    requires EndsLine(a) && StepLength(Credentials, false, a + b) > |a|
    ensures Crosses(a, b)
  {
    hide Labelled;
  }

  /** Every text may be cut behind a newline without changing its redaction exactly when no match lies
      across the cut, or the match there hides a value that read like the placeholder already. */
  lemma {:induction false} CutKeepsOutputIff(a: Bytes, b: Bytes)
    requires a == [] || EndsLine(a)
    requires Torn(a, b).Some? ==> OneSeparator(Torn(a, b).value, b)
    ensures Cleaned(a + b) == Cleaned(a) + Cleaned(b)
            <==> Torn(a, b).None? || AlreadyHidden(Torn(a, b).value, b)
    decreases |a|
  {
    hide Cleaned, AlreadyHidden, OneSeparator, EndsLine, StepLength, StepOutput;
    if a == [] {
      NoneCleaned();
      assert a + b == b && [] + Cleaned(b) == Cleaned(b);
    } else {
      var n := StepLength(Credentials, false, a + b);
      if n > |a| {
        TornCrosses(a, b);
        CrossingIff(a, b);
      } else {
        CleanedStep(a, b);
        LaterLine(a, n);
        CutKeepsOutputIff(a[n..], b);
        var first := StepOutput(Credentials, false, a + b);
        Regroup(first, Cleaned(a[n..]), Cleaned(b));
        CancelFront(first, Cleaned(a[n..] + b), Cleaned(a[n..]) + Cleaned(b));
      }
    }
  }

  lemma LaterLine(a: Bytes, n: nat)
    requires EndsLine(a) && n <= |a|
    ensures a[n..] == [] || EndsLine(a[n..])
  {
  }

  lemma CleanedStep(a: Bytes, b: Bytes)
    requires a != [] && StepLength(Credentials, false, a + b) <= |a|
    ensures var n := StepLength(Credentials, false, a + b); var first := StepOutput(Credentials, false, a + b);
            Cleaned(a + b) == first + Cleaned(a[n..] + b) && Cleaned(a) == first + Cleaned(a[n..])
  {
    hide StepLength, StepOutput, WordByte, Redacted;
    var n := StepLength(Credentials, false, a + b);
    StepLocal(Credentials, false, a, b, 0);
    Split(a, b, n);
    Step(Credentials, false, a + b, 0);
    Step(Credentials, false, a, 0);
    AfterCut(Credentials, WordByte(a[n - 1]), a[n..] + b, 0);
    AfterCut(Credentials, WordByte(a[n - 1]), a[n..], 0);
  }

  /** There is such a match exactly when the intervals of the whole show one. */
  lemma {:induction false} TornIff(a: Bytes, b: Bytes, before: bool, at: nat)
    ensures Torn(a, b).Some? <==> Crossed(Matches(Credentials, before, a + b, at), at + |a|)
    decreases |a|
  {
    hide *;
    TornStep(a, b);
    if a == [] {
      MatchesIn(Credentials, before, b, at);
      assert a + b == b;
      AllBehind(Matches(Credentials, before, b, at), at);
    } else {
      SameLength(a + b, before);
      var n := StepLength(Credentials, before, a + b);
      StepCrossed(Credentials, before, a + b, at, at + |a|);
      if n <= |a| {
        Split(a, b, n);
        assert at + n + |a[n..]| == at + |a|;
        TornIff(a[n..], b, WordByte((a + b)[n - 1]), at + n);
      }
    }
  }

  lemma TornStep(a: Bytes, b: Bytes)
    ensures Torn(a, b) == if a == [] then None
                          else var n := StepLength(Credentials, false, a + b);
                               if n > |a| then Some(a) else Torn(a[n..], b)
  {
    hide StepLength;
  }

  lemma SameLength(s: Bytes, before: bool)
    requires s != []
    ensures StepLength(Credentials, before, s) == StepLength(Credentials, false, s)
  {
    hide Labelled;
  }

  lemma AllBehind(ms: seq<(nat, nat)>, cut: nat)
    requires forall k :: 0 <= k < |ms| ==> cut <= ms[k].0
    ensures !Crossed(ms, cut)
  {
  }
}
