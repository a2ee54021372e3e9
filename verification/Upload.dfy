/** From the uploaded file to its results: validation (services/jsonl.py), the job's total (api/jobs.py:
    `create_job`) and the run (worker/runner.py) together. */
module Upload {
  import Jsonl
  import Results
  import Runs

  /** The file's items as the run reads them: it was accepted at creation, with this total. */
  predicate AcceptedAs(lines: seq<Jsonl.Line>, maxItems: nat, show: Jsonl.Json -> string, total: nat) {
    var v := Jsonl.Report(Jsonl.Texts(lines), maxItems, 3, show);
    v.errors == [] && v.total == total
  }

  lemma AcceptedTotal(lines: seq<Jsonl.Line>, maxItems: nat, show: Jsonl.Json -> string, total: nat)
    requires AcceptedAs(lines, maxItems, show, total)
    ensures total == |Jsonl.Texts(lines)| && 0 < total <= maxItems
  {
    Jsonl.CleanReportIff(Jsonl.Texts(lines), maxItems, 3, show);
  }

  /** The run reads items until its reader gives up; if the file is all UTF-8 it reads every one. */
  lemma RunReadsEveryItem(lines: seq<Jsonl.Line>, maxItems: nat, show: Jsonl.Json -> string, total: nat,
                          n: nat, items: seq<Jsonl.Item>, stop: Jsonl.Option<Jsonl.Stop>)
    requires AcceptedAs(lines, maxItems, show, total)
    requires Jsonl.Readable(lines, n) && Jsonl.IsIteration(items, stop, lines, n, show)
    ensures |items| <= total && (forall i | 0 <= i < |items| :: items[i].index == i)
    ensures stop.None? <==> Jsonl.AllUtf8(lines)
    ensures stop.None? ==> |items| == total
  {
    Jsonl.ValidatedFileIterates(lines, maxItems, 3, show, n, items, stop);
    AcceptedTotal(lines, maxItems, show, total);
    Jsonl.TextsGrow(lines, n);
  }

  /** Completeness as a statement about the uploaded file: a job that ends `succeeded` or `completed` has
      exactly one result for each of its counting lines, under the line's index, and none besides. */
  lemma EveryLineHasItsResult(lines: seq<Jsonl.Line>, maxItems: nat, show: Jsonl.Json -> string, s: Runs.Session)
    requires AcceptedAs(lines, maxItems, show, s.total)
    requires Runs.Inv(s) && Runs.Enabled(s, Runs.Finish) && !Runs.VerdictAtEnd(s).Stopped?
    ensures var t := Runs.Step(s, Runs.Finish);
            && Results.NoDuplicates(t.output, t.errors)
            && |Results.Indices(t.output)| + |Results.Indices(t.errors)| == |Jsonl.Texts(lines)|
            && (forall i :: i in Results.Indices(t.output) + Results.Indices(t.errors) <==> 0 <= i < |Jsonl.Texts(lines)|)
  {
    AcceptedTotal(lines, maxItems, show, s.total);
    Runs.FinishedMeansComplete(s);
  }
}
