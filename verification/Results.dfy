/** The append-only result files of a job and the resume scan (services/results.py). */
module Results {
  import opened TokenCounts

  /** A line of output.jsonl or errors.jsonl: an entry with its `_index` and usage, or something
      the scan cannot parse. */
  datatype Line = Entry(index: nat, usage: Tokens) | Unreadable

  datatype ResumeState = ResumeState(done: set<nat>, completed: nat, failed: nat, tokens: Tokens)

  function NothingDone(): ResumeState {
    ResumeState({}, 0, 0, Zero())
  }

  /** The scan's treatment of one line: unreadable lines and repeated indices are skipped. */
  function Count(st: ResumeState, line: Line, isError: bool): ResumeState {
    if line.Unreadable? || line.index in st.done then st
    else if isError then st.(done := st.done + {line.index}, failed := st.failed + 1)
    else st.(done := st.done + {line.index}, completed := st.completed + 1, tokens := Add(st.tokens, line.usage))
  }

  function ScanFile(st: ResumeState, lines: seq<Line>, isError: bool): ResumeState {
    if lines == [] then st else Count(ScanFile(st, lines[..|lines| - 1], isError), lines[|lines| - 1], isError)
  }

  /** `scan_resume_state`: the success file first, then the error file. */
  function Scan(output: seq<Line>, errors: seq<Line>): ResumeState {
    ScanFile(ScanFile(NothingDone(), output, false), errors, true)
  }

  /** The indices with an entry in these lines. */
  function Indices(lines: seq<Line>): set<nat> {
    if lines == [] then {} else
      var x := lines[|lines| - 1];
      Indices(lines[..|lines| - 1]) + (if x.Entry? then {x.index} else {})
  }

  /** No index twice in these lines. */
  predicate Unique(lines: seq<Line>) {
    lines == [] ||
    var front, x := lines[..|lines| - 1], lines[|lines| - 1];
    Unique(front) && (x.Entry? ==> x.index !in Indices(front))
  }

  /** No index twice, neither inside a file nor across the two. */
  predicate NoDuplicates(output: seq<Line>, errors: seq<Line>) {
    Unique(output) && Unique(errors) && Indices(output) !! Indices(errors)
  }

  /** `acc` plus the usage on these lines. */
  function PlusUsage(acc: Tokens, lines: seq<Line>): Tokens {
    if lines == [] then acc else
      var rest, x := PlusUsage(acc, lines[..|lines| - 1]), lines[|lines| - 1];
      if x.Entry? then Add(rest, x.usage) else rest
  }

  lemma PlusUsageSnoc(acc: Tokens, lines: seq<Line>, x: Line)
    ensures PlusUsage(acc, lines + [x]) == if x.Entry? then Add(PlusUsage(acc, lines), x.usage) else PlusUsage(acc, lines)
  {
    assert (lines + [x])[..|lines|] == lines;
  }

  /** What the lines say was used: the plain sum, with nothing skipped. */
  function Usage(lines: seq<Line>): Tokens {
    PlusUsage(Zero(), lines)
  }

  lemma {:induction false} IndicesMeaning(lines: seq<Line>, x: nat)
    ensures x in Indices(lines) <==> exists i :: 0 <= i < |lines| && lines[i].Entry? && lines[i].index == x
    decreases |lines|
  {
    if lines != [] {
      var n := |lines| - 1;
      var front := lines[..n];
      IndicesMeaning(front, x);
      if x in Indices(front) {
        var i :| 0 <= i < n && front[i].Entry? && front[i].index == x;
        assert lines[i] == front[i];
      }
      forall i | 0 <= i < n && lines[i].Entry? && lines[i].index == x ensures x in Indices(front) {
        assert front[i] == lines[i];
      }
    }
  }

  /** `Unique`, stated on positions. */
  lemma {:induction false} UniqueMeaning(lines: seq<Line>)
    ensures Unique(lines) <==>
      forall i, j | 0 <= i < j < |lines| && lines[i].Entry? && lines[j].Entry? :: lines[i].index != lines[j].index
    decreases |lines|
  {
    if lines != [] {
      var n := |lines| - 1;
      var front, x := lines[..n], lines[n];
      UniqueMeaning(front);
      forall i | 0 <= i < n ensures front[i] == lines[i] {}
      if x.Entry? {
        IndicesMeaning(front, x.index);
        if i :| 0 <= i < n && front[i].Entry? && front[i].index == x.index {
          assert lines[i].index == lines[n].index;
        }
      }
      if Unique(front) && !Unique(lines) {
        assert x.Entry? && x.index in Indices(front);
      }
      if !Unique(front) {
        var i, j :| 0 <= i < j < n && front[i].Entry? && front[j].Entry? && front[i].index == front[j].index;
        assert lines[i].index == lines[j].index;
      }
    }
  }

  lemma IndicesSnoc(lines: seq<Line>, x: Line)
    ensures Indices(lines + [x]) == Indices(lines) + (if x.Entry? then {x.index} else {})
    ensures Unique(lines + [x]) <==> Unique(lines) && (x.Entry? ==> x.index !in Indices(lines))
  {
  }

  lemma {:induction false} IndicesConcat(a: seq<Line>, b: seq<Line>)
    ensures Indices(a + b) == Indices(a) + Indices(b)
    ensures Unique(a + b) ==> Unique(a)
    decreases |b|
  {
    if b == [] {
      assert a + b == a;
    } else {
      var front, x := b[..|b| - 1], b[|b| - 1];
      assert a + b == (a + front) + [x];
      assert b == front + [x];
      IndicesConcat(a, front);
      IndicesSnoc(a + front, x);
      IndicesSnoc(front, x);
    }
  }

  lemma ScanFileSnoc(st: ResumeState, lines: seq<Line>, x: Line, isError: bool)
    ensures ScanFile(st, lines + [x], isError) == Count(ScanFile(st, lines, isError), x, isError)
  {
  }

  lemma {:induction false} ScanFileDone(st: ResumeState, lines: seq<Line>, isError: bool)
    ensures ScanFile(st, lines, isError).done == st.done + Indices(lines)
    decreases |lines|
  {
    if lines == [] {
      assert Indices(lines) == {};
    } else {
      var front, x := lines[..|lines| - 1], lines[|lines| - 1];
      assert lines == front + [x];
      ScanFileDone(st, front, isError);
      IndicesSnoc(front, x);
    }
  }

  /** How many indices these lines have that are not in `done`. */
  function News(lines: seq<Line>, done: set<nat>): nat {
    |Indices(lines) - done|
  }

  lemma NewsSnoc(front: seq<Line>, x: Line, done: set<nat>)
    ensures News(front + [x], done)
         == News(front, done) + if x.Entry? && x.index !in done + Indices(front) then 1 else 0
  {
    IndicesSnoc(front, x);
    var before := Indices(front) - done;
    if x.Entry? && x.index !in done + Indices(front) {
      assert Indices(front + [x]) - done == before + {x.index};
    } else {
      assert Indices(front + [x]) - done == before;
    }
  }

  /** What the scan counts, without following its order: how many new indices each file brings; a failed
      line never adds tokens. */
  lemma {:induction false} ScanFileMeaning(st: ResumeState, lines: seq<Line>, isError: bool)
    ensures var r, added := ScanFile(st, lines, isError), News(lines, st.done);
            && r.completed == st.completed + (if isError then 0 else added)
            && r.failed == st.failed + (if isError then added else 0)
            && (isError ==> r.tokens == st.tokens)
    decreases |lines|
  {
    if lines == [] {
      assert Indices(lines) - st.done == {};
    } else {
      var front, x := lines[..|lines| - 1], lines[|lines| - 1];
      assert lines == front + [x];
      ScanFileMeaning(st, front, isError);
      ScanFileDone(st, front, isError);
      NewsSnoc(front, x, st.done);
    }
  }

  /** And the tokens: if no index repeats, the plain sum of the success file's usage. */
  lemma {:induction false} ScanFileTokens(st: ResumeState, lines: seq<Line>)
    requires Unique(lines) && Indices(lines) !! st.done
    ensures ScanFile(st, lines, false).tokens == PlusUsage(st.tokens, lines)
    decreases |lines|
  {
    if lines != [] {
      var front, x := lines[..|lines| - 1], lines[|lines| - 1];
      ScanFileTokens(st, front);
      ScanFileDone(st, front, false);
    }
  }

  /** The scan is exact on files the writer keeps free of duplicates. */
  lemma ScanMeaning(output: seq<Line>, errors: seq<Line>)
    ensures var r := Scan(output, errors);
            && r.done == Indices(output) + Indices(errors)
            && r.completed == |Indices(output)|
            && r.failed == |Indices(errors) - Indices(output)|
            && r.completed + r.failed == |r.done|
            && (Unique(output) ==> r.tokens == Usage(output))
  {
    var a := ScanFile(NothingDone(), output, false);
    ScanFileMeaning(NothingDone(), output, false);
    ScanFileMeaning(a, errors, true);
    if Unique(output) {
      ScanFileTokens(NothingDone(), output);
    }
    ScanFileDone(NothingDone(), output, false);
    ScanFileDone(a, errors, true);
    assert Indices(output) - NothingDone().done == Indices(output);
    var o, e := Indices(output), Indices(errors);
    assert o + e == o + (e - o);
  }

  /** Appending a new error line extends the scan by exactly that failure. */
  lemma ScanAppendError(output: seq<Line>, errors: seq<Line>, x: Line)
    ensures Scan(output, errors + [x]) == Count(Scan(output, errors), x, true)
  {
  }

  /** A success line lands in the middle of the scan (before the whole error file) and still counts
      once, as long as its index is new. */
  lemma {:induction false} CountSuccessFirst(st: ResumeState, errors: seq<Line>, x: Line)
    requires x.Entry? && x.index !in st.done && x.index !in Indices(errors)
    ensures ScanFile(Count(st, x, false), errors, true) == Count(ScanFile(st, errors, true), x, false)
    decreases |errors|
  {
    if errors != [] {
      var front, y := errors[..|errors| - 1], errors[|errors| - 1];
      assert errors == front + [y];
      IndicesSnoc(front, y);
      CountSuccessFirst(st, front, x);
      ScanFileDone(st, front, true);
      var a := ScanFile(st, front, true);
      if y.Entry? {
        assert a.done + {x.index} + {y.index} == a.done + {y.index} + {x.index};
      }
    }
  }

  lemma {:induction false} ScanAppendSuccess(output: seq<Line>, errors: seq<Line>, x: Line)
    requires x.Entry? && x.index !in Indices(output) + Indices(errors)
    ensures Scan(output + [x], errors) == Count(Scan(output, errors), x, false)
  {
    ScanFileSnoc(NothingDone(), output, x, false);
    ScanFileDone(NothingDone(), output, false);
    CountSuccessFirst(ScanFile(NothingDone(), output, false), errors, x);
  }

  lemma {:induction false} ScanFileUpTo(st: ResumeState, lines: seq<Line>, k: nat, isError: bool)
    requires k < |lines|
    ensures ScanFile(st, lines[..k + 1], isError) == Count(ScanFile(st, lines[..k], isError), lines[k], isError)
  {
    assert lines[..k + 1] == lines[..k] + [lines[k]];
    ScanFileSnoc(st, lines[..k], lines[k], isError);
  }

  // ------------------------------------------------------------------ the imperative form

  method ScanLines(st: ResumeState, lines: seq<Line>, isError: bool) returns (r: ResumeState)
    ensures r == ScanFile(st, lines, isError)
  {
    var done, completed, failed, tokens := st.done, st.completed, st.failed, st.tokens;
    for k := 0 to |lines|
      invariant ResumeState(done, completed, failed, tokens) == ScanFile(st, lines[..k], isError)
    {
      ScanFileUpTo(st, lines, k, isError);
      if lines[k].Entry? && lines[k].index !in done {
        done := done + {lines[k].index};
        if isError {
          failed := failed + 1;
        } else {
          completed := completed + 1;
          tokens := Add(tokens, lines[k].usage);
        }
      }
    }
    assert lines[..|lines|] == lines;
    r := ResumeState(done, completed, failed, tokens);
  }

  /** `scan_resume_state`. A missing file reads as an empty one. */
  method ScanResumeState(output: seq<Line>, errors: seq<Line>) returns (r: ResumeState)
    ensures r == Scan(output, errors)
  {
    var a := ScanLines(NothingDone(), output, false);
    r := ScanLines(a, errors, true);
  }

  /** The buffered writer over the two files. What it has accepted is disk plus buffer. */
  class ResultWriter {
    const flushSize: nat
    var output: seq<Line>
    var errors: seq<Line>
    var outBuf: seq<Line>
    var errBuf: seq<Line>

    ghost predicate Valid()
      reads this
    {
      flushSize > 0 && |outBuf| < flushSize && |errBuf| < flushSize
    }

    ghost function Accepted(): (seq<Line>, seq<Line>)
      reads this
    {
      (output + outBuf, errors + errBuf)
    }

    constructor (flushSize: nat, output: seq<Line>, errors: seq<Line>)
      requires flushSize > 0
      ensures Valid() && this.flushSize == flushSize
      ensures outBuf == errBuf == [] && this.output == output && this.errors == errors
    {
      this.flushSize := flushSize;
      this.output, this.errors := output, errors;
      outBuf, errBuf := [], [];
    }

    method Flush()
      modifies this
      ensures output == old(output + outBuf) && errors == old(errors + errBuf) && outBuf == errBuf == []
      ensures Accepted() == old(Accepted()) && (flushSize > 0 ==> Valid())
    {
      var out, err := outBuf, errBuf;
      outBuf, errBuf := [], [];
      if out != [] {
        output := output + out;
      }
      if err != [] {
        errors := errors + err;
      }
      assert output + [] == old(output + outBuf) && errors + [] == old(errors + errBuf);
    }

    /** One line accepted; a buffer that is full sends both to disk. */
    method WriteSuccess(index: nat, usage: Tokens)
      requires Valid()
      modifies this
      ensures Valid() && Accepted() == (old(Accepted()).0 + [Entry(index, usage)], old(Accepted()).1)
      ensures if |old(outBuf)| + 1 < flushSize
              then output == old(output) && errors == old(errors)
                   && outBuf == old(outBuf) + [Entry(index, usage)] && errBuf == old(errBuf)
              else outBuf == errBuf == []
      ensures old(output) <= output && old(errors) <= errors
    {
      outBuf := outBuf + [Entry(index, usage)];
      assert output + outBuf == old(Accepted()).0 + [Entry(index, usage)];
      if |outBuf| >= flushSize {
        Flush();
      }
    }

    method WriteFailure(index: nat)
      requires Valid()
      modifies this
      ensures Valid() && Accepted() == (old(Accepted()).0, old(Accepted()).1 + [Entry(index, Zero())])
      ensures if |old(errBuf)| + 1 < flushSize
              then output == old(output) && errors == old(errors)
                   && outBuf == old(outBuf) && errBuf == old(errBuf) + [Entry(index, Zero())]
              else outBuf == errBuf == []
      ensures old(output) <= output && old(errors) <= errors
    {
      errBuf := errBuf + [Entry(index, Zero())];
      assert errors + errBuf == old(Accepted()).1 + [Entry(index, Zero())];
      if |errBuf| >= flushSize {
        Flush();
      }
    }
  }
}
