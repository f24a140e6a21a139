/** CDS acquisition: either gene prediction on every genome, or renaming the
    coding sequences the inputs already hold; then the failures are pruned and
    the per-genome CDS files are grouped into numbered chunk files. */
module CdsAcquisition {
  import opened Wrappers
  import opened Sequences
  import opened Decimal
  import opened Files
  import opened GenomeRegistry
  import opened Collaborators

  /** What acquisition hands on to deduplication. */
  datatype Acquired = Acquired(
    genomes: seq<Entry>,              // input_basenames after pruning failures
    renameJobs: seq<RenameJob>,       // CDS-input mode only
    cdsFastas: seq<string>,           // one CDS file per remaining genome
    coordinates: map<string, string>, // empty in CDS-input mode
    cdsCount: nat,                    // CDS extracted or renamed
    failed: map<string, string>,      // input path to predictor message
    failureOrder: seq<string>,        // the order the failures are listed in
    failureLines: seq<string>)        // gene_prediction_failures.tsv

  /** The renaming of one input in CDS-input mode: its CDS go to
      `<cds dir>/<id>.fasta` with headers `<id>-protein<n>`, numbered from 1,
      50000 records per write. */
  function RenameJobFor(e: Entry, cdsPath: string): RenameJob {
    RenameJob(e.path, JoinPath(cdsPath, e.id + ".fasta"), 1, 50000, e.id + "-protein")
  }

  /** Different genome identifiers never share an output file or a header prefix. */
  lemma RenameJobsSeparate(cdsPath: string, a: Entry, b: Entry)
    ensures RenameJobFor(a, cdsPath).output == RenameJobFor(b, cdsPath).output ==> a.id == b.id
    ensures RenameJobFor(a, cdsPath).prefix == RenameJobFor(b, cdsPath).prefix ==> a.id == b.id
  {
    if RenameJobFor(a, cdsPath).output == RenameJobFor(b, cdsPath).output {
      assert RenameJobFor(a, cdsPath).output == (cdsPath + "/") + a.id + ".fasta";
      assert RenameJobFor(b, cdsPath).output == (cdsPath + "/") + b.id + ".fasta";
      SandwichInjective(cdsPath + "/", a.id, b.id, ".fasta");
    }
    if RenameJobFor(a, cdsPath).prefix == RenameJobFor(b, cdsPath).prefix {
      assert [] + a.id + "-protein" == a.id + "-protein";
      assert [] + b.id + "-protein" == b.id + "-protein";
      SandwichInjective([], a.id, b.id, "-protein");
    }
  }

  /** The loop that fills `renaming_inputs` and `cds_fastas`. */
  method RenamingJobs(genomes: seq<Entry>, cdsPath: string) returns (jobs: seq<RenameJob>, fastas: seq<string>)
    ensures |jobs| == |genomes| && |fastas| == |genomes|
    ensures forall i :: 0 <= i < |genomes| ==> jobs[i] == RenameJobFor(genomes[i], cdsPath) && fastas[i] == jobs[i].output
    ensures NoDuplicates(Ids(genomes)) ==> NoDuplicates(fastas)
  {
    jobs, fastas := [], [];
    for k := 0 to |genomes|
      invariant |jobs| == k && |fastas| == k
      invariant forall i :: 0 <= i < k ==> jobs[i] == RenameJobFor(genomes[i], cdsPath) && fastas[i] == jobs[i].output
    {
      var job := RenameJobFor(genomes[k], cdsPath);
      jobs := jobs + [job];
      fastas := fastas + [job.output];
    }
    if NoDuplicates(Ids(genomes)) {
      forall i, j | 0 <= i < j < |fastas| ensures fastas[i] != fastas[j] {
        RenameJobsSeparate(cdsPath, genomes[i], genomes[j]);
        assert Ids(genomes)[i] != Ids(genomes)[j];
      }
    }
  }

  /** `im.prune_dictionary`: the genomes whose input path did not fail, in order. */
  function PruneFailed(genomes: seq<Entry>, failed: set<string>): (kept: seq<Entry>)
    ensures forall e :: e in kept <==> e in genomes && e.path !in failed
    ensures |kept| <= |genomes|
    ensures NoDuplicates(Ids(genomes)) ==> NoDuplicates(Ids(kept))
  {
    if genomes == [] then []
    else
      var prior, e := genomes[..|genomes| - 1], genomes[|genomes| - 1];
      assert genomes == prior + [e];
      var kept' := PruneFailed(prior, failed);
      assert NoDuplicates(Ids(genomes)) ==> NoDuplicates(Ids(prior)) && e.id !in Ids(prior) by {
        if NoDuplicates(Ids(genomes)) {
          forall i, j | 0 <= i < j < |prior| ensures Ids(prior)[i] != Ids(prior)[j] {
            assert Ids(genomes)[i] != Ids(genomes)[j];
          }
          forall i | 0 <= i < |prior| ensures Ids(prior)[i] != e.id {
            assert Ids(genomes)[i] != Ids(genomes)[|prior|];
          }
        }
      }
      if e.path in failed then kept'
      else
        assert NoDuplicates(Ids(genomes)) ==> e.id !in Ids(kept') by {
          if NoDuplicates(Ids(genomes)) {
            forall i | 0 <= i < |kept'| ensures Ids(kept')[i] != e.id {
              assert kept'[i] in prior;
              var j :| 0 <= j < |prior| && prior[j] == kept'[i];
              assert Ids(prior)[j] == kept'[i].id;
            }
          }
        }
        assert Ids(kept' + [e]) == Ids(kept') + [e.id];
        kept' + [e]
  }

  /** The positions of `genomes` whose input path did not fail, in increasing
      order. */
  function KeptPositions(genomes: seq<Entry>, failed: set<string>): (idx: seq<nat>)
    ensures forall k :: 0 <= k < |idx| ==> idx[k] < |genomes| && genomes[idx[k]].path !in failed
    ensures forall k, l :: 0 <= k < l < |idx| ==> idx[k] < idx[l]
    ensures forall i :: 0 <= i < |genomes| && genomes[i].path !in failed ==> i in idx
  {
    if genomes == [] then []
    else
      var prior := genomes[..|genomes| - 1];
      var idx := KeptPositions(prior, failed);
      assert forall k :: 0 <= k < |idx| ==> genomes[idx[k]] == prior[idx[k]];
      assert forall i :: 0 <= i < |prior| ==> genomes[i] == prior[i];
      if genomes[|genomes| - 1].path in failed then idx else idx + [|genomes| - 1]
  }

  /** Pruning keeps the genomes that did not fail in their input order: the
      k-th kept genome is the one at the k-th surviving position. */
  lemma {:induction false} PruneFailedInOrder(genomes: seq<Entry>, failed: set<string>)
    ensures var kept, idx := PruneFailed(genomes, failed), KeptPositions(genomes, failed);
      |kept| == |idx| && forall k :: 0 <= k < |kept| ==> kept[k] == genomes[idx[k]]
  {
    if genomes != [] {
      var prior := genomes[..|genomes| - 1];
      PruneFailedInOrder(prior, failed);
      var idx := KeptPositions(prior, failed);
      assert forall k :: 0 <= k < |idx| ==> genomes[idx[k]] == prior[idx[k]];
    }
  }

  /** When no input path failed, pruning keeps every genome. */
  lemma {:induction false} PruneNothing(genomes: seq<Entry>, failed: set<string>)
    requires forall i :: 0 <= i < |genomes| ==> genomes[i].path !in failed
    ensures PruneFailed(genomes, failed) == genomes
  {
    if genomes != [] {
      var prior, e := genomes[..|genomes| - 1], genomes[|genomes| - 1];
      assert genomes == prior + [e];
      forall i | 0 <= i < |prior| ensures prior[i].path !in failed {
        assert prior[i] == genomes[i];
      }
      PruneNothing(prior, failed);
      assert PruneFailed(genomes, failed) == PruneFailed(prior, failed) + [e];
    }
  }

  /** One `id<TAB>message` line of the failure report. */
  function FailureLine(path: string, message: string): string {
    path + "\t" + message
  }

  /** The name of the `index`-th concatenated CDS file (numbered from 1). */
  function ChunkFileName(cdsPath: string, index: nat): string {
    JoinPath(cdsPath, "coding_sequences_" + NatToString(index) + ".fasta")
  }

  /** Different chunk numbers give different chunk files. */
  lemma ChunkFileNamesDistinct(cdsPath: string, m: nat, n: nat)
    requires m != n
    ensures ChunkFileName(cdsPath, m) != ChunkFileName(cdsPath, n)
  {
    NatToStringInjective(m, n);
    SandwichDistinct("coding_sequences_", NatToString(m), NatToString(n), ".fasta");
    JoinPathDistinct(cdsPath, "coding_sequences_" + NatToString(m) + ".fasta",
                     "coding_sequences_" + NatToString(n) + ".fasta");
  }

  /** The loop that names one concatenated file per group with a running
      `file_index`; the names never collide. */

  method ChunkFiles(groups: seq<seq<string>>, cdsPath: string) returns (files: seq<string>)
    ensures |files| == |groups|
    ensures forall i :: 0 <= i < |groups| ==> files[i] == ChunkFileName(cdsPath, i + 1)
    ensures NoDuplicates(files)
  {
    files := [];
    var fileIndex := 1;
    for k := 0 to |groups|
      invariant fileIndex == k + 1 && |files| == k
      invariant forall i :: 0 <= i < k ==> files[i] == ChunkFileName(cdsPath, i + 1)
    {
      files := files + [ChunkFileName(cdsPath, fileIndex)];
      fileIndex := fileIndex + 1;
    }
    forall i, j | 0 <= i < j < |files| ensures files[i] != files[j] {
      ChunkFileNamesDistinct(cdsPath, i + 1, j + 1);
    }
  }

  /** The number of records each renaming job renamed. */
  function RecordsRenamed(jobs: seq<RenameJob>, tools: Tools): (counts: seq<nat>)
    ensures |counts| == |jobs|
    ensures forall i :: 0 <= i < |jobs| ==> counts[i] == tools.renameCds(jobs[i])
  {
    if jobs == [] then [] else [tools.renameCds(jobs[0])] + RecordsRenamed(jobs[1..], tools)
  }

  /** Every failed input path is listed once, in `failureOrder`, and each
      line of the failure report is one of them with its message. */
  predicate FailuresListed(a: Acquired) {
    && Elements(a.failureOrder) == a.failed.Keys && NoDuplicates(a.failureOrder)
    && |a.failureLines| == |a.failureOrder|
    && forall i :: 0 <= i < |a.failureOrder| ==>
         a.failureLines[i] == FailureLine(a.failureOrder[i], a.failed[a.failureOrder[i]])
  }

  /** How acquisition follows from the genomes: in predict mode the failures,
      CDS files, coordinates and count are the predictor's, and the run stops
      exactly when it gave no CDS file; in CDS-input mode nothing fails, every
      genome is kept and gets its renaming job, and the count is the sum of
      the records renamed; in both, the genomes kept are the input's minus
      those whose path failed, and every failure is listed. */
  predicate AcquiredFrom(entries: seq<Entry>, cdsInput: bool, ptf: Option<string>, prodigalMode: string,
                         cdsPath: string, tools: Tools, res: Result<Acquired, Abort>) {
    && (!cdsInput ==>
          var pr := tools.predictGenes(entries, ptf, prodigalMode);
          && (res.Failure? <==> |pr.cdsFastas| == 0)
          && (res.Failure? ==> res.error == NoCdsPredicted)
          && (res.Success? ==>
                && res.value.failed == pr.failed
                && res.value.cdsFastas == pr.cdsFastas
                && res.value.coordinates == pr.coordinates
                && res.value.cdsCount == pr.totalExtracted
                && res.value.renameJobs == []))
    && (cdsInput ==>
          && res.Success?
          && res.value.failed == map[] && res.value.coordinates == map[]
          && res.value.genomes == entries
          && |res.value.renameJobs| == |entries| && |res.value.cdsFastas| == |entries|
          && (forall i :: 0 <= i < |entries| ==>
                res.value.renameJobs[i] == RenameJobFor(entries[i], cdsPath)
                && res.value.cdsFastas[i] == res.value.renameJobs[i].output)
          && res.value.cdsCount == Sum(RecordsRenamed(res.value.renameJobs, tools)))
    && (res.Success? ==>
          && res.value.genomes == PruneFailed(entries, res.value.failed.Keys)
          && FailuresListed(res.value))
  }

  /** Gene prediction or renaming, then pruning of the genomes that failed. */
  method AcquireCds(entries: seq<Entry>, cdsInput: bool, ptf: Option<string>, prodigalMode: string,
                    cdsPath: string, tools: Tools) returns (res: Result<Acquired, Abort>)
    ensures AcquiredFrom(entries, cdsInput, ptf, prodigalMode, cdsPath, tools, res)
  {
    var failed: map<string, string>;
    var cdsFastas: seq<string>;
    var coordinates: map<string, string>;
    var cdsCount: nat;
    var jobs: seq<RenameJob> := [];
    if !cdsInput {
      var pr := tools.predictGenes(entries, ptf, prodigalMode);
      failed, cdsCount, cdsFastas, coordinates := pr.failed, pr.totalExtracted, pr.cdsFastas, pr.coordinates;
      if |cdsFastas| == 0 {
        return Failure(NoCdsPredicted);
      }
    } else {
      jobs, cdsFastas := RenamingJobs(entries, cdsPath);
      var renamed := RecordsRenamed(jobs, tools);
      failed := map[];
      coordinates := map[];
      cdsCount := Sum(renamed);
    }
    var genomes := entries;
    var order: seq<string> := [];
    var lines: seq<string> := [];
    if |failed| == 0 {
      assert failed.Keys == {};
      PruneNothing(entries, failed.Keys);
    } else {
      genomes := PruneFailed(entries, failed.Keys);
      order := Enumerate(failed.Keys);
      lines := seq(|order|, i requires 0 <= i < |order| => FailureLine(order[i], failed[order[i]]));
    }
    res := Success(Acquired(genomes, jobs, cdsFastas, coordinates, cdsCount, failed, order, lines));
  }
}
