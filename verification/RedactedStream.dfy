/** The writer of process output with the redaction of the program: when the cuts into writes show, and
    when they do not. */
module RedactedStream {
  import opened Wrappers
  import opened Redaction
  import opened StreamWriter

  /** The redaction with these secrets. */
  function Redactor(secrets: seq<Bytes>): Bytes -> Bytes {
    (text: Bytes) => Redact(secrets, text)
  }

  /** No match of any pass lies across the end of a block of this run. */
  predicate UncutRun(blocks: seq<Block>, passes: seq<Pass>) {
    forall i :: 0 < i < |blocks| ==> Uncut(passes, Concat(blocks[..i]), blocks[i].bytes)
  }

  /** Only the last operation is a flush, as for a command that has ended. */
  predicate FlushedAtEnd(ops: seq<Operation>) {
    ops != [] && ops[|ops| - 1].Flushed? && forall i :: 0 <= i < |ops| - 1 ==> ops[i].Wrote?
  }

  lemma {:induction false} OnlyLines(ops: seq<Operation>, limit: nat)
    requires forall i :: 0 <= i < |ops| ==> ops[i].Wrote?
    ensures forall i :: 0 <= i < |BlocksOf(ops, limit)| ==> EndsLine(BlocksOf(ops, limit)[i].bytes)
  {
    if ops != [] {
      var front, op := ops[..|ops| - 1], ops[|ops| - 1];
      OnlyLines(front, limit);
      assert ops == front + [op];
      OperationNext(front, op, limit);
      SplitAtNewline(Pending(front, limit) + op.bytes);
      hide LineEnd, Pending;
    }
  }

  lemma {:induction false} LinesClose(blocks: seq<Block>)
    requires blocks != [] && forall i :: 0 <= i < |blocks| ==> EndsLine(blocks[i].bytes)
    ensures Closed(Concat(blocks))
  {
  }

  /** Cutting behind newlines that no match crosses keeps the program's redaction. */
  lemma UncutRunKeeps(blocks: seq<Block>, secrets: seq<Bytes>)
    requires UncutRun(blocks, Passes(secrets))
    requires forall i :: 0 <= i < |blocks| - 1 ==> EndsLine(blocks[i].bytes)
    ensures CutsKeep(blocks, Redactor(secrets))
  {
    hide Uncut, Concat, RedactAll, Passes, Closed;
    forall i | 0 < i < |blocks| ensures Distributes(Redactor(secrets), Concat(blocks[..i]), blocks[i].bytes) {
      LinesClose(blocks[..i]);
      UncutKeepsRedaction(Passes(secrets), Concat(blocks[..i]), blocks[i].bytes);
    }
  }

  lemma LinesThenRest(ops: seq<Operation>, limit: nat)
    requires FlushedAtEnd(ops)
    ensures var blocks := BlocksOf(ops, limit); forall i :: 0 <= i < |blocks| - 1 ==> EndsLine(blocks[i].bytes)
  {
    hide BlocksOf, Pending, LineEnd;
    var n := |ops| - 1;
    OnlyLines(ops[..n], limit);
    OperationNext(ops[..n], Flushed, limit);
    assert ops == ops[..n] + [Flushed];
  }

  /** What a command's writer holds at the end is the end of the redacted whole, if no line overflowed
      and no credential lies across the end of a block: then the cuts into writes do not show. */
  lemma UncutRunIsRedactedAtOnce(w: Writer, secrets: seq<Bytes>)
    requires w.Valid() && w.redact == Redactor(secrets) && Lossless(w.ops, w.limit) && FlushedAtEnd(w.ops)
    requires UncutRun(BlocksOf(w.ops, w.limit), Passes(secrets))
    ensures w.buf == Suffix(Redact(secrets, Raw(w.ops)), w.limit)
  {
    hide Lossless, LineEnd, UncutRun, Redact, BlocksOf, Pending, Raw, Concat, Passes, EndsLine;
    LinesThenRest(w.ops, w.limit);
    UncutRunKeeps(BlocksOf(w.ops, w.limit), secrets);
    ChunksDoNotMatter(w);
  }

  // ---------- a label at the end of a line ----------

  /** `password:` and a newline. */
  const LABEL: Bytes := [112, 97, 115, 115, 119, 111, 114, 100, 58, 10]

  /** `hunter2` and a newline. */
  const VALUE: Bytes := [104, 117, 110, 116, 101, 114, 50, 10]

  /** `password:[REDACTED]` and a newline. */
  const HIDDEN: Bytes := [112, 97, 115, 115, 119, 111, 114, 100, 58] + REDACTED + [10]

  lemma BearerBegins(s: Bytes)
    requires IsWord(s, 0, "bearer")
    ensures s != [] && Folds(s[0], 'b')
  {
    assert Folds(s[0 + 0], "bearer"[0]);
  }

  lemma NotBearer(s: Bytes)
    requires s != [] && !Folds(s[0], 'b')
    ensures BearerToken(s).None?
  {
    if IsWord(s, 0, "bearer") { BearerBegins(s); }
  }

  lemma {:induction false} NoBearer(s: Bytes, before: bool)
    requires forall q :: 0 <= q < |s| ==> !Folds(s[q], 'b')
    ensures Redacted(BearerTokens, before, s) == s
    decreases |s|
  {
    if s != [] {
      NotBearer(s);
      hide BearerToken, Folds, WordByte;
      NoBearer(s[1..], WordByte(s[0]));
    }
  }

  lemma {:induction false} NoKey(s: Bytes, before: bool)
    requires forall q :: 0 <= q < |s| ==> s[q] != 107
    ensures Redacted(Keys, before, s) == s
    decreases |s|
  {
    if s != [] {
      assert |s| >= 3 ==> s[..3][1] == s[1];
      NoKey(s[1..], WordByte(s[0]));
    }
  }

  /** Text without the letters of the other two patterns is what the first pattern leaves of it. */
  lemma OnlyCredentials(text: Bytes, shown: Bytes)
    requires Cleaned(text) == shown && forall q :: 0 <= q < |shown| ==> !Folds(shown[q], 'b') && shown[q] != 107
    ensures Redact([], text) == shown
  {
    NoBearer(shown, false);
    NoKey(shown, false);
    hide Redacted, Folds;
    var passes := Passes([]);
    assert passes == [Credentials, BearerTokens, Keys];
    assert passes[1..] == [BearerTokens, Keys] && passes[1..][1..] == [Keys] && passes[1..][1..][1..] == [];
    assert RedactAll(passes, text) == RedactAll(passes[1..], shown) == RedactAll(passes[1..][1..], shown);
    assert RedactAll(passes[1..][1..], shown) == RedactAll(passes[1..][1..][1..], shown);
  }

  lemma NotALabelHere(s: Bytes, n: nat)
    requires n < 7 && s != [] && Folds(s[0], 'p')
    ensures WordsEnd(s, 0, LabelWords(n)).None?
  {
    var word := LabelWords(n)[0];
    assert |word| >= 3 && word[0] != 'p';
    hide IsWord, LabelWords;
    if IsWord(s, 0, word) { WordBegins(s, word); }
  }

  /** The labelled value that the two lines make. */
  lemma LinesMakeOne(s: Bytes)
    requires s == LABEL + VALUE
    ensures Labelled(s, 0) == Some(Shape(8, 8, 10, 17, true))
  {
    hide Labelled, Tail, WordsEnd, LabelWords;
    for n := 0 to 7
      invariant Labelled(s, 0) == Labelled(s, n)
    {
      LabelledStep(s, n);
      NotALabelHere(s, n);
    }
    LabelledStep(s, 7);
    PasswordEnds(s);
    ValueBehind(s);
  }

  lemma IsPassword(s: Bytes)
    requires |s| >= 8 && s[0] == 112 && s[1] == 97 && s[2] == 115 && s[3] == 115
    requires s[4] == 119 && s[5] == 111 && s[6] == 114 && s[7] == 100
    ensures IsWord(s, 0, "password")
  {
    var word := "password";
    forall k | 0 <= k < 8 ensures Folds(s[0 + k], word[k]) {
      if k == 0 || k == 1 || k == 2 || k == 3 {} else {}
    }
  }

  lemma PasswordEnds(s: Bytes)
    requires s == LABEL + VALUE
    ensures WordsEnd(s, 0, LabelWords(7)) == Some(8)
  {
    hide IsWord;
    IsPassword(s);
  }

  lemma ValueBehind(s: Bytes)
    requires s == LABEL + VALUE
    ensures Tail(s, 8) == Some(Shape(8, 8, 10, 17, true))
  {
    assert s[8] == 58 && s[9] == 10 && s[17] == 10;
    assert forall q :: 10 <= q < 17 ==> ValueByte(s[q]);
    hide RunEnd;
    assert RunEnd(s, 8, Space) == 8 && RunEnd(s, 9, Space) == 10 && RunEnd(s, 10, ValueByte) == 17;
  }

  lemma NoStartIsPlain(s: Bytes, q: nat)
    requires q < |s| && !LabelStart(s[q..])
    ensures Plain(s, q)
  {
    hide Labelled, LabelStart;
    if Labelled(s[q..], 0).Some? { LabelledStart(s[q..], 0); }
  }

  /** No label begins with the bytes of the value. */
  lemma NoStartInValue(s: Bytes)
    requires s != [] && s[0] in VALUE && (s[0] == 114 && |s| > 1 ==> s[1] == 50)
    ensures !LabelStart(s)
  {
  }

  lemma ValueIsPlain()
    ensures Cleaned(VALUE) == VALUE
  {
    hide Labelled, LabelStart;
    forall q | 0 <= q < |VALUE| ensures Plain(VALUE, q) {
      assert VALUE[q..][0] == VALUE[q];
      NoStartInValue(VALUE[q..]);
      NoStartIsPlain(VALUE, q);
    }
    PlainStays(VALUE, |VALUE|);
    NoneCleaned();
    assert VALUE[|VALUE|..] == [] && VALUE[..|VALUE|] == VALUE;
  }

  /** The redaction of the two lines at once, and of each on its own. */
  lemma RedactedLines()
    ensures Redact([], LABEL + VALUE) == HIDDEN && Redact([], LABEL) == LABEL && Redact([], VALUE) == VALUE
    ensures Redact([], []) == []
  {
    hide Labelled, Masked, Redact, Cleaned;
    var s := LABEL + VALUE;
    LinesMakeOne(s);
    FrontStays(LABEL, VALUE);
    ValueIsPlain();
    OnlyCredentials(LABEL, LABEL);
    OnlyCredentials(VALUE, VALUE);
    WholeIsMasked(s);
    LabelledBytes(s, 0);
    SignedMask(s, Shape(8, 8, 10, 17, true));
    assert s[17..] == [10];
    FirstIsLetter([10]);
    OneStays([10]);
    assert [10][1..] == [];
    NoneCleaned();
    assert s[..9] + REDACTED + [10] == HIDDEN;
    HiddenBytes();
    OnlyCredentials(s, HIDDEN);
    OnlyCredentials([], []);
  }

  lemma HiddenBytes()
    ensures forall q :: 0 <= q < |HIDDEN| ==> !Folds(HIDDEN[q], 'b') && HIDDEN[q] != 107
  {
    assert HIDDEN == [112, 97, 115, 115, 119, 111, 114, 100, 58, 91, 82, 69, 68, 65, 67, 84, 69, 68, 93, 10];
  }

  lemma WriteLines(ops: seq<Operation>, line: Bytes, limit: nat)
    requires Pending(ops, limit) == [] && EndsLine(line)
    ensures Pending(ops + [Wrote(line)], limit) == []
    ensures BlocksOf(ops + [Wrote(line)], limit) == BlocksOf(ops, limit) + [Lines(line)]
  {
    OperationNext(ops, Wrote(line), limit);
    hide Pending, BlocksOf;
    assert [] + line == line && LineEnd(line) == |line| && line[..|line|] == line && line[|line|..] == [];
  }

  /** In two writes, the label and the value are shown; in one write, the value is hidden. */
  lemma TwoWritesShowTheValue(w: Writer)
    requires w.Valid() && w.redact == Redactor([])
    ensures w.ops == [Wrote(LABEL), Wrote(VALUE), Flushed] ==> w.buf == Suffix(LABEL + VALUE, w.limit)
    ensures w.ops == [Wrote(LABEL + VALUE), Flushed] ==> w.buf == Suffix(HIDDEN, w.limit)
  {
    RedactedLines();
    BlocksOfTwo(w.limit, w.redact);
    BlocksOfOne(w.limit, w.redact);
    hide Redact, BlocksOf, Pending, Lossless, Suffix;
  }

  lemma BlocksOfTwo(limit: nat, redact: Bytes -> Bytes)
    requires redact(LABEL) == LABEL && redact(VALUE) == VALUE && redact([]) == []
    ensures Output(BlocksOf([Wrote(LABEL), Wrote(VALUE), Flushed], limit), redact) == LABEL + VALUE
  {
    hide *;
    var first, second := [Wrote(LABEL)], [Wrote(LABEL), Wrote(VALUE)];
    NothingYet(limit);
    LinesEnd();
    assert [] + [Wrote(LABEL)] == first && first + [Wrote(VALUE)] == second;
    assert second + [Flushed] == [Wrote(LABEL), Wrote(VALUE), Flushed];
    WriteLines([], LABEL, limit);
    WriteLines(first, VALUE, limit);
    OperationNext(second, Flushed, limit);
    Shows3(Lines(LABEL), Lines(VALUE), Rest([]), redact);
    assert [] + [Lines(LABEL)] + [Lines(VALUE)] + [Rest([])] == [Lines(LABEL), Lines(VALUE), Rest([])];
    assert LABEL + VALUE + [] == LABEL + VALUE;
  }

  lemma BlocksOfOne(limit: nat, redact: Bytes -> Bytes)
    requires redact(LABEL + VALUE) == HIDDEN && redact([]) == []
    ensures Output(BlocksOf([Wrote(LABEL + VALUE), Flushed], limit), redact) == HIDDEN
  {
    hide *;
    var all := LABEL + VALUE;
    NothingYet(limit);
    LinesEnd();
    assert [] + [Wrote(all)] == [Wrote(all)] && [Wrote(all)] + [Flushed] == [Wrote(all), Flushed];
    WriteLines([], all, limit);
    OperationNext([Wrote(all)], Flushed, limit);
    Shows2(Lines(all), Rest([]), redact);
    assert [] + [Lines(all)] + [Rest([])] == [Lines(all), Rest([])];
    assert HIDDEN + [] == HIDDEN;
  }

  lemma LinesEnd()
    ensures EndsLine(LABEL) && EndsLine(VALUE) && EndsLine(LABEL + VALUE)
  {
  }

  lemma NothingYet(limit: nat)
    ensures Pending([], limit) == [] && BlocksOf([], limit) == []
  {
  }

  lemma Shows2(x: Block, y: Block, redact: Bytes -> Bytes)
    ensures Output([x, y], redact) == redact(x.bytes) + redact(y.bytes)
  {
    OneBlock(x, redact);
    ConcatNext([x], y, redact);
    assert [x] + [y] == [x, y];
  }

  lemma Shows3(x: Block, y: Block, z: Block, redact: Bytes -> Bytes)
    ensures Output([x, y, z], redact) == redact(x.bytes) + redact(y.bytes) + redact(z.bytes)
  {
    Shows2(x, y, redact);
    ConcatNext([x, y], z, redact);
    assert [x, y] + [z] == [x, y, z];
  }
}
