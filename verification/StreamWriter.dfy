/** The bounded writer of a child process's output: it redacts whole lines, keeps the last bytes of
    what it redacted, and passes every redacted block on. */
module StreamWriter {
  newtype Byte = n: int | 0 <= n < 256
  type Bytes = seq<Byte>

  const NEWLINE: Byte := 10

  // ---------- what was written ----------

  datatype Operation = Wrote(bytes: Bytes) | Flushed

  /** All the bytes written. */
  function Raw(ops: seq<Operation>): Bytes {
    if ops == [] then []
    else Raw(ops[..|ops| - 1]) + match ops[|ops| - 1]
                                 case Wrote(bytes) => bytes
                                 case Flushed => []
  }

  /** The place just behind the last newline, zero if there is none. */
  function LineEnd(b: Bytes): (n: nat)
    ensures n <= |b|
  {
    if b == [] then 0
    else if b[|b| - 1] == NEWLINE then |b|
    else LineEnd(b[..|b| - 1])
  }

  predicate EndsLine(b: Bytes) {
    b != [] && b[|b| - 1] == NEWLINE
  }

  lemma {:induction false} SplitAtNewline(b: Bytes)
    ensures LineEnd(b) > 0 <==> NEWLINE in b
    ensures LineEnd(b) > 0 ==> EndsLine(b[..LineEnd(b)])
    ensures NEWLINE !in b[LineEnd(b)..] && b == b[..LineEnd(b)] + b[LineEnd(b)..]
  {
    if b != [] && b[|b| - 1] != NEWLINE {
      var front := b[..|b| - 1];
      SplitAtNewline(front);
      var n := LineEnd(front);
      assert LineEnd(b) == n;
      hide LineEnd;
      assert b == front + [b[|b| - 1]];
      assert b[n..] == front[n..] + [b[|b| - 1]];
      if n > 0 { assert b[..n] == front[..n]; }
    }
  }

  /** The unterminated line: what was written since the last newline or flush. */
  function Line(ops: seq<Operation>): Bytes {
    if ops == [] then []
    else match ops[|ops| - 1]
      case Flushed => []
      case Wrote(bytes) =>
        var all := Line(ops[..|ops| - 1]) + bytes;
        all[LineEnd(all)..]
  }

  /** The newest write ends no line and leaves one that is over the limit. */
  predicate Overflows(ops: seq<Operation>, limit: nat) {
    ops != [] && ops[|ops| - 1].Wrote? && NEWLINE !in ops[|ops| - 1].bytes && |Line(ops)| > limit
  }

  predicate Lossless(ops: seq<Operation>, limit: nat) {
    forall k :: 0 < k <= |ops| ==> !Overflows(ops[..k], limit)
  }

  lemma LosslessNext(ops: seq<Operation>, op: Operation, limit: nat)
    ensures Lossless(ops + [op], limit) <==> Lossless(ops, limit) && !Overflows(ops + [op], limit)
  {
    hide Overflows;
    var ops' := ops + [op];
    assert ops'[..|ops'|] == ops';
    forall k | 0 < k <= |ops| ensures ops'[..k] == ops[..k] {}
    if Lossless(ops', limit) {
      forall k | 0 < k <= |ops| ensures !Overflows(ops[..k], limit) { assert ops'[..k] == ops[..k]; }
      assert !Overflows(ops'[..|ops'|], limit);
    }
  }

  // ---------- what was handed to the redaction ----------

  /** A block of bytes redacted at once: whole lines, or what was left at a flush. */
  datatype Block = Lines(bytes: Bytes) | Rest(bytes: Bytes)

  function Concat(blocks: seq<Block>): Bytes {
    if blocks == [] then [] else Concat(blocks[..|blocks| - 1]) + blocks[|blocks| - 1].bytes
  }

  /** All the redacted output. */
  function Output(blocks: seq<Block>, redact: Bytes -> Bytes): Bytes {
    if blocks == [] then [] else Output(blocks[..|blocks| - 1], redact) + redact(blocks[|blocks| - 1].bytes)
  }

  /** The redacted blocks that are not empty. */
  function Calls(blocks: seq<Block>, redact: Bytes -> Bytes): seq<Bytes> {
    if blocks == [] then []
    else
      var clean := redact(blocks[|blocks| - 1].bytes);
      Calls(blocks[..|blocks| - 1], redact) + if clean == [] then [] else [clean]
  }

  predicate WholeBlock(b: Block) {
    if b.Lines? then EndsLine(b.bytes) else NEWLINE !in b.bytes
  }

  /** No line is split between two redactions except at a flush. */
  predicate WholeLines(blocks: seq<Block>) {
    forall i :: 0 <= i < |blocks| ==> WholeBlock(blocks[i])
  }

  function Suffix(b: Bytes, limit: nat): (s: Bytes)
    ensures |s| <= limit && |s| <= |b| && s == b[|b| - |s|..]
    ensures |s| == limit || s == b
  {
    if |b| > limit then b[|b| - limit..] else b
  }

  lemma SuffixOfSuffix(a: Bytes, b: Bytes, limit: nat)
    ensures Suffix(Suffix(a, limit) + b, limit) == Suffix(a + b, limit)
  {
    var kept := Suffix(a, limit);
    var dropped := a[..|a| - |kept|];
    assert a == dropped + kept;
    assert a + b == dropped + (kept + b);
    if |kept + b| >= limit {
      var n := |kept + b| - limit;
      assert (a + b)[|dropped| + n..] == (kept + b)[n..];
    }
  }

  // ---------- what the operations determine ----------

  /** What is held back after these operations. */
  function Pending(ops: seq<Operation>, limit: nat): Bytes {
    if ops == [] then []
    else match ops[|ops| - 1]
      case Flushed => []
      case Wrote(bytes) =>
        var all := Pending(ops[..|ops| - 1], limit) + bytes;
        if LineEnd(all) > 0 then all[LineEnd(all)..] else Suffix(all, limit)
  }

  /** The blocks these operations make: a write makes one if it ends a line, a flush always. */
  function BlocksOf(ops: seq<Operation>, limit: nat): seq<Block> {
    if ops == [] then []
    else
      var front := ops[..|ops| - 1];
      BlocksOf(front, limit) + match ops[|ops| - 1]
                               case Flushed => [Rest(Pending(front, limit))]
                               case Wrote(bytes) => Completed(Pending(front, limit) + bytes)
  }

  function Completed(all: Bytes): seq<Block> {
    if LineEnd(all) > 0 then [Lines(all[..LineEnd(all)])] else []
  }

  lemma OperationNext(ops: seq<Operation>, op: Operation, limit: nat)
    ensures var all := Pending(ops, limit) + (if op.Wrote? then op.bytes else []);
            && Pending(ops + [op], limit)
               == (if op.Flushed? then [] else if LineEnd(all) > 0 then all[LineEnd(all)..] else Suffix(all, limit))
            && BlocksOf(ops + [op], limit)
               == BlocksOf(ops, limit) + if op.Flushed? then [Rest(Pending(ops, limit))] else Completed(all)
  {
    hide LineEnd, Completed;
    assert (ops + [op])[..|ops|] == ops;
  }

  // ---------- the writer ----------

  class Writer {
    const limit: nat
    const redact: Bytes -> Bytes
    const observed: bool
    var pending: Bytes
    var buf: Bytes
    var calls: seq<Bytes>
    ghost var ops: seq<Operation>
    ghost var blocks: seq<Block>

    ghost predicate Valid()
      reads this
    {
      && pending == Pending(ops, limit) && blocks == BlocksOf(ops, limit)
      && Accounts(pending, ops, blocks, limit)
      && WholeLines(blocks)
      && Shown()
    }

    /** The buffer and the callback show the redacted blocks. */
    ghost predicate Shown()
      reads this`buf, this`calls, this`blocks
    {
      && buf == Suffix(Output(blocks, redact), limit)
      && calls == if observed then Calls(blocks, redact) else []
    }

    /** The bytes written are those redacted so far and those pending, unless a line overflowed. */
    static ghost predicate Accounts(pending: Bytes, ops: seq<Operation>, blocks: seq<Block>, limit: nat) {
      && NEWLINE !in pending
      && (Lossless(ops, limit) ==> Concat(blocks) + pending == Raw(ops) && pending == Line(ops))
      && (!Lossless(ops, limit) ==> |Concat(blocks)| + |pending| < |Raw(ops)|)
    }

    constructor (limit: nat, redact: Bytes -> Bytes, observed: bool)
      ensures Valid() && ops == [] && this.limit == limit && this.redact == redact && this.observed == observed
    {
      this.limit, this.redact, this.observed := limit, redact, observed;
      pending, buf, calls, ops, blocks := [], [], [], [], [];
    }

    method AppendClean(ghost block: Block, clean: Bytes)
      requires clean == redact(block.bytes)
      requires buf == Suffix(Output(blocks, redact), limit)
      modifies this`buf, this`blocks
      ensures blocks == old(blocks) + [block] && buf == Suffix(Output(blocks, redact), limit)
    {
      SuffixOfSuffix(Output(blocks, redact), clean, limit);
      assert (blocks + [block])[..|blocks|] == blocks;
      buf := buf + clean;
      if |buf| > limit { buf := buf[|buf| - limit..]; }
      blocks := blocks + [block];
    }

    /** Redacts a block, keeps what fits and passes it on. */
    method Emit(ghost block: Block, bytes: Bytes)
      requires Shown() && WholeLines(blocks) && bytes == block.bytes && WholeBlock(block)
      modifies this`buf, this`blocks, this`calls
      ensures Shown() && blocks == old(blocks) + [block] && WholeLines(blocks)
    {
      var clean := redact(bytes);
      AppendClean(block, clean);
      assert blocks[..|blocks| - 1] == old(blocks);
      if clean != [] && observed { calls := calls + [clean]; }
    }

    /** Takes all the bytes, whatever happens to them. Nothing redacted is ever changed again. */
    method Write(p: Bytes) returns (n: nat)
      requires Valid()
      modifies this
      ensures Valid() && n == |p| && ops == old(ops) + [Wrote(p)]
      ensures old(blocks) <= blocks && |blocks| == |old(blocks)| + if NEWLINE in p then 1 else 0
    {
      hide Accounts, Shown, LineEnd, WholeLines, Pending, BlocksOf;
      OperationNext(ops, Wrote(p), limit);
      ghost var ops0, pending0 := ops, pending;
      ops := ops + [Wrote(p)];
      pending := pending + p;
      var end := LineEnd(pending);
      if end > 0 {
        CompleteAccounts(pending0, p, ops0, blocks, limit);
        var lines := pending[..end];
        pending := pending[end..];
        Emit(Lines(lines), lines);
      } else {
        PartialAccounts(pending0, p, ops0, blocks, limit);
        if |pending| > limit { pending := pending[|pending| - limit..]; }
      }
      return |p|;
    }

    /** Redacts what is left, as if it were a whole line. */
    method Flush()
      requires Valid()
      modifies this
      ensures Valid() && ops == old(ops) + [Flushed] && pending == []
      ensures blocks == old(blocks) + [Rest(old(pending))]
    {
      hide Accounts, Shown, WholeLines, Pending, BlocksOf;
      OperationNext(ops, Flushed, limit);
      var rest := pending;
      FlushAccounts(rest, ops, blocks, limit);
      ops := ops + [Flushed];
      pending := [];
      Emit(Rest(rest), rest);
    }
  }

  lemma LineNext(ops: seq<Operation>, p: Bytes)
    ensures var ops' := ops + [Wrote(p)]; var all := Line(ops) + p;
            Line(ops') == all[LineEnd(all)..] && Raw(ops') == Raw(ops) + p
  {
    assert (ops + [Wrote(p)])[..|ops|] == ops;
    hide LineEnd;
  }

  /** What one more write does to the unterminated line. */
  lemma WriteLine(ops: seq<Operation>, p: Bytes, limit: nat)
    ensures var ops' := ops + [Wrote(p)]; var all := Line(ops) + p;
            && Line(ops') == all[LineEnd(all)..] && Raw(ops') == Raw(ops) + p
            && (Lossless(ops', limit) <==> Lossless(ops, limit) && !(NEWLINE !in p && |Line(ops')| > limit))
  {
    LosslessNext(ops, Wrote(p), limit);
    LineNext(ops, p);
    hide Lossless, LineEnd, Line, Raw;
  }

  lemma CompleteAccounts(pending: Bytes, p: Bytes, ops: seq<Operation>, blocks: seq<Block>, limit: nat)
    requires Writer.Accounts(pending, ops, blocks, limit) && LineEnd(pending + p) > 0
    ensures var all := pending + p; var n := LineEnd(all);
            NEWLINE in p && EndsLine(all[..n])
              && Writer.Accounts(all[n..], ops + [Wrote(p)], blocks + [Lines(all[..n])], limit)
  {
    WriteLine(ops, p, limit);
    hide Lossless, LineEnd, Line, Raw;
    var all := pending + p;
    var n := LineEnd(all);
    SplitAtNewline(all);
    var complete, rest := all[..n], all[n..];
    assert (blocks + [Lines(complete)])[..|blocks|] == blocks;
    var before := Concat(blocks);
    assert Concat(blocks + [Lines(complete)]) == before + complete;
    assert before + complete + rest == before + pending + p;
  }

  lemma PartialAccounts(pending: Bytes, p: Bytes, ops: seq<Operation>, blocks: seq<Block>, limit: nat)
    requires Writer.Accounts(pending, ops, blocks, limit) && LineEnd(pending + p) == 0
    ensures NEWLINE !in p
    ensures Writer.Accounts(Suffix(pending + p, limit), ops + [Wrote(p)], blocks, limit)
  {
    WriteLine(ops, p, limit);
    hide Lossless, LineEnd, Line, Raw, Concat;
    var all := pending + p;
    SplitAtNewline(all);
    assert all[0..] == all;
    var before := Concat(blocks);
    assert before + all == before + pending + p;
  }

  lemma FlushAccounts(pending: Bytes, ops: seq<Operation>, blocks: seq<Block>, limit: nat)
    requires Writer.Accounts(pending, ops, blocks, limit)
    ensures NEWLINE !in pending && Writer.Accounts([], ops + [Flushed], blocks + [Rest(pending)], limit)
  {
    LosslessNext(ops, Flushed, limit);
    assert (ops + [Flushed])[..|ops|] == ops;
    assert (blocks + [Rest(pending)])[..|blocks|] == blocks;
    hide Lossless;
  }

  // ---------- main results ----------

  /** The bytes redacted and pending are all the bytes written, in order, exactly when no write
      without a newline left a line over the limit. */
  lemma LosslessIff(w: Writer)
    requires w.Valid()
    ensures Concat(w.blocks) + w.pending == Raw(w.ops) <==> Lossless(w.ops, w.limit)
  {
  }

  // ---------- redacting in blocks ----------

  predicate Distributes(redact: Bytes -> Bytes, a: Bytes, b: Bytes) {
    redact(a + b) == redact(a) + redact(b)
  }

  /** No cut of this run changes the redaction of what was written up to the end of its block. */
  predicate CutsKeep(blocks: seq<Block>, redact: Bytes -> Bytes) {
    forall i :: 0 < i < |blocks| ==> Distributes(redact, Concat(blocks[..i]), blocks[i].bytes)
  }

  lemma ConcatNext(blocks: seq<Block>, b: Block, redact: Bytes -> Bytes)
    ensures Concat(blocks + [b]) == Concat(blocks) + b.bytes
    ensures Output(blocks + [b], redact) == Output(blocks, redact) + redact(b.bytes)
  {
    assert (blocks + [b])[..|blocks|] == blocks;
  }

  lemma OneBlock(b: Block, redact: Bytes -> Bytes)
    ensures Concat([b]) == b.bytes && Output([b], redact) == redact(b.bytes)
  {
    ConcatNext([], b, redact);
    assert [] + [b] == [b];
  }

  /** After k blocks, what was shown is the redaction of all that was handed over. */
  predicate ShownAtOnce(blocks: seq<Block>, redact: Bytes -> Bytes, k: nat)
    requires k <= |blocks|
  {
    Output(blocks[..k], redact) == redact(Concat(blocks[..k]))
  }

  /** At every moment of a run, what was shown is the redaction of all that was handed over, exactly
      when no cut changes the redaction. */
  lemma {:induction false} RedactedAtOnceIff(blocks: seq<Block>, redact: Bytes -> Bytes)
    ensures CutsKeep(blocks, redact) <==> forall k :: 0 < k <= |blocks| ==> ShownAtOnce(blocks, redact, k)
  {
    hide Concat, Output, CutsKeep, ShownAtOnce;
    if blocks == [] {
      NoCuts(redact);
    } else {
      var n := |blocks| - 1;
      RedactedAtOnceIff(blocks[..n], redact);
      FrontCuts(blocks, redact);
      forall k | 0 < k <= n ensures ShownAtOnce(blocks[..n], redact, k) == ShownAtOnce(blocks, redact, k) {
        FrontShown(blocks, redact, k);
      }
      LastShown(blocks, redact);
    }
  }

  lemma NoCuts(redact: Bytes -> Bytes)
    ensures CutsKeep([], redact)
  {
  }

  lemma FrontShown(blocks: seq<Block>, redact: Bytes -> Bytes, k: nat)
    requires k < |blocks|
    ensures ShownAtOnce(blocks[..|blocks| - 1], redact, k) == ShownAtOnce(blocks, redact, k)
  {
    assert blocks[..|blocks| - 1][..k] == blocks[..k];
  }

  /** The last block is shown at once with the others exactly when its cut keeps the redaction. */
  lemma LastShown(blocks: seq<Block>, redact: Bytes -> Bytes)
    requires blocks != []
    ensures var n := |blocks| - 1;
            && (n == 0 ==> ShownAtOnce(blocks, redact, 1))
            && (n > 0 && ShownAtOnce(blocks, redact, n) ==>
                  ShownAtOnce(blocks, redact, n + 1) == Distributes(redact, Concat(blocks[..n]), blocks[n].bytes))
  {
    hide Concat, Output;
    var n := |blocks| - 1;
    ConcatNext(blocks[..n], blocks[n], redact);
    OneBlock(blocks[n], redact);
    assert blocks == blocks[..n] + [blocks[n]] && blocks[..n + 1] == blocks;
    if n == 0 { assert blocks == [blocks[n]]; }
  }

  lemma FrontCuts(blocks: seq<Block>, redact: Bytes -> Bytes)
    requires blocks != []
    ensures var n := |blocks| - 1;
            CutsKeep(blocks, redact)
            <==> CutsKeep(blocks[..n], redact) && (n > 0 ==> Distributes(redact, Concat(blocks[..n]), blocks[n].bytes))
  {
    hide Concat, Distributes;
    var n := |blocks| - 1;
    assert forall i :: 0 < i < n ==> blocks[..n][..i] == blocks[..i] && blocks[..n][i] == blocks[i];
  }

  /** However the output arrives in chunks, after the final flush the writer holds the end of the
      redacted whole, whatever the redaction is, if no cut of this run changes it and no line overflowed. */
  lemma ChunksDoNotMatter(w: Writer)
    requires w.Valid() && Lossless(w.ops, w.limit) && w.ops != [] && w.ops[|w.ops| - 1].Flushed?
    requires CutsKeep(BlocksOf(w.ops, w.limit), w.redact)
    ensures w.buf == Suffix(w.redact(Raw(w.ops)), w.limit)
  {
    var n := |w.blocks|;
    RedactedAtOnceIff(w.blocks, w.redact);
    hide Lossless, CutsKeep, LineEnd;
    assert w.pending == [] && n > 0;
    assert ShownAtOnce(w.blocks, w.redact, n);
    assert w.blocks[..n] == w.blocks && Concat(w.blocks) + [] == Concat(w.blocks);
  }
}
