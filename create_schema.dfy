/** `create_schema_seed` and `main`: the whole run from the list of input
    files to the schema directory, with the files it leaves in the output
    directory. */
module CreateSchema {
  import opened Wrappers
  import opened Sequences
  import opened Ordering
  import opened Files
  import opened GenomeRegistry
  import opened Collaborators
  import opened CdsAcquisition
  import opened SurvivorPipeline
  import opened SchemaLayout

  /** The run's parameters that the modelled logic reads. */
  datatype Config = Config(
    outputDir: string,
    schemaName: string,
    ptf: Option<string>,       // Prodigal training file
    minimumLength: nat,
    translationTable: nat,
    prodigalMode: string,
    cdsInput: bool)            // inputs already hold coding sequences

  /** The number of concatenated CDS files. */
  const ChunkCount := 15

  function TempDirectory(outputDir: string): string {
    JoinPath(outputDir, "temp")
  }

  function CdsDirectory(outputDir: string): string {
    JoinPath(TempDirectory(outputDir), "2_cds_files")
  }

  function FailuresReportPath(outputDir: string): string {
    JoinPath(outputDir, "gene_prediction_failures.tsv")
  }

  function InvalidCdsReportPath(outputDir: string): string {
    JoinPath(outputDir, "invalid_cds.txt")
  }

  function SchemaDirectory(outputDir: string, schemaName: string): string {
    JoinPath(outputDir, schemaName)
  }

  /** The failure report, written only when some genome failed. */
  function FailureReport(outputDir: string, a: Acquired): (r: map<string, Content>)
    ensures r.Keys <= {FailuresReportPath(outputDir)}
  {
    if |a.failed| > 0 then map[FailuresReportPath(outputDir) := Lines(a.failureLines)] else map[]
  }

  /** The failure report exists exactly when some genome failed, and holds
      one `path<TAB>message` line per failed input path and nothing else. */
  lemma FailureReportLists(outputDir: string, a: Acquired)
    requires FailuresListed(a)
    ensures FailuresReportPath(outputDir) in FailureReport(outputDir, a) <==> |a.failed| > 0
    ensures |a.failed| > 0 ==>
      && FailureReport(outputDir, a)[FailuresReportPath(outputDir)] == Lines(a.failureLines)
      && |a.failureLines| == |a.failed|
      && (forall path :: path in a.failed ==> FailureLine(path, a.failed[path]) in a.failureLines)
      && (forall l :: l in a.failureLines ==>
            exists path :: path in a.failed && l == FailureLine(path, a.failed[path]))
  {
    ListedSetCardinality(a.failureOrder, a.failed.Keys);
    assert |a.failed| == |a.failed.Keys|;
    forall path | path in a.failed ensures FailureLine(path, a.failed[path]) in a.failureLines {
      assert path in Elements(a.failureOrder);
      var i :| 0 <= i < |a.failureOrder| && a.failureOrder[i] == path;
      assert a.failureLines[i] == FailureLine(path, a.failed[path]);
    }
    forall l | l in a.failureLines
      ensures exists path :: path in a.failed && l == FailureLine(path, a.failed[path])
    {
      var i :| 0 <= i < |a.failureLines| && a.failureLines[i] == l;
      assert a.failureOrder[i] in Elements(a.failureOrder);
    }
  }

  /** Adding a one-entry map is updating one key. */
  lemma UnionSingleton<K, V>(a: map<K, V>, k: K, v: V)
    ensures a + map[k := v] == a[k := v]
  {
  }

  /** A locus file is never a file directly inside the output directory. */
  lemma LocusPathNotInOutputDir(outputDir: string, schemaName: string, locus: string, name: string)
    requires '/' !in name
    ensures LocusPath(SchemaDirectory(outputDir, schemaName), locus) != JoinPath(outputDir, name)
  {
    var head := outputDir + "/";
    var tail := schemaName + "/" + locus + ".fasta";
    assert LocusPath(SchemaDirectory(outputDir, schemaName), locus) == head + tail;
    assert tail != name by {
      assert tail[|schemaName|] == '/';
    }
    assert (head + tail)[|head|..] == tail;
    assert (head + name)[|head|..] == name;
  }

  /** The two reports and the locus files all have different paths, so the
      schema never overwrites a report. */
  lemma OutputPathsDistinct(outputDir: string, schemaName: string, locus: string)
    ensures FailuresReportPath(outputDir) != InvalidCdsReportPath(outputDir)
    ensures LocusPath(SchemaDirectory(outputDir, schemaName), locus) != FailuresReportPath(outputDir)
    ensures LocusPath(SchemaDirectory(outputDir, schemaName), locus) != InvalidCdsReportPath(outputDir)
  {
    var n := |outputDir + "/"|;
    assert FailuresReportPath(outputDir)[n] == 'g';
    assert InvalidCdsReportPath(outputDir)[n] == 'i';
    LocusPathNotInOutputDir(outputDir, schemaName, locus, "gene_prediction_failures.tsv");
    LocusPathNotInOutputDir(outputDir, schemaName, locus, "invalid_cds.txt");
  }

  /** What `create_schema_seed` returns: the locus files and the temporary
      directory. */
  datatype SeedOutput = SeedOutput(lociPaths: map<string, string>, tempDirectory: string)

  /** Everything up to protein deduplication. */
  datatype Prepared = Prepared(acquired: Acquired, cdsFiles: seq<string>, preprocessed: Preprocessed)

  /** Predict mode found no CDS in any genome. */
  predicate NoCdsFound(entries: seq<Entry>, cfg: Config, tools: Tools) {
    !cfg.cdsInput && |tools.predictGenes(entries, cfg.ptf, cfg.prodigalMode).cdsFastas| == 0
  }

  /** The chunk files: one per group of CDS files, numbered from 1. */
  predicate ChunkedFrom(cdsFiles: seq<string>, a: Acquired, cfg: Config, tools: Tools) {
    && |cdsFiles| == |tools.divideIntoChunks(a.cdsFastas, ChunkCount)|
    && forall i :: 0 <= i < |cdsFiles| ==> cdsFiles[i] == ChunkFileName(CdsDirectory(cfg.outputDir), i + 1)
  }

  /** How everything up to protein deduplication follows from the genomes:
      acquisition, the chunk files, and preprocessing of the chunk files
      under the identifiers of the genomes kept. */
  predicate PreparedFrom(prep: Prepared, entries: seq<Entry>, cfg: Config, tools: Tools) {
    && AcquiredFrom(entries, cfg.cdsInput, cfg.ptf, cfg.prodigalMode, CdsDirectory(cfg.outputDir), tools,
                    Success(prep.acquired))
    && ChunkedFrom(prep.cdsFiles, prep.acquired, cfg, tools)
    && PreprocessedFrom(prep.preprocessed, Ids(prep.acquired.genomes), prep.cdsFiles,
                        cfg.minimumLength, cfg.translationTable, tools)
  }

  /** The temporary directories, CDS acquisition and the failure report. */
  method AcquireStage(fs: FileSystem, entries: seq<Entry>, cfg: Config, tools: Tools) returns (res: Result<Acquired, Abort>)
    modifies fs
    ensures fs.dirs == old(fs.dirs) + {TempDirectory(cfg.outputDir), CdsDirectory(cfg.outputDir)}
    ensures AcquiredFrom(entries, cfg.cdsInput, cfg.ptf, cfg.prodigalMode, CdsDirectory(cfg.outputDir), tools, res)
    ensures res.Failure? ==> fs.files == old(fs.files)
    ensures res.Success? ==> fs.files == old(fs.files) + FailureReport(cfg.outputDir, res.value)
  {
    fs.CreateDirectory(TempDirectory(cfg.outputDir));
    var cdsPath := CdsDirectory(cfg.outputDir);
    fs.CreateDirectory(cdsPath);
    res := AcquireCds(entries, cfg.cdsInput, cfg.ptf, cfg.prodigalMode, cdsPath, tools);
    if res.Success? {
      var a := res.value;
      if |a.failed| > 0 {
        fs.WriteFile(FailuresReportPath(cfg.outputDir), Lines(a.failureLines));
        UnionSingleton(old(fs.files), FailuresReportPath(cfg.outputDir), Lines(a.failureLines));
      } else {
        assert old(fs.files) + map[] == old(fs.files);
      }
    }
  }

  /** Chunking, preprocessing and the invalid-CDS report. */
  method PreprocessStage(fs: FileSystem, a: Acquired, cfg: Config, tools: Tools) returns (prep: Prepared)
    modifies fs
    ensures prep.acquired == a && ChunkedFrom(prep.cdsFiles, a, cfg, tools)
    ensures PreprocessedFrom(prep.preprocessed, Ids(a.genomes), prep.cdsFiles,
                             cfg.minimumLength, cfg.translationTable, tools)
    ensures fs.dirs == old(fs.dirs)
    ensures fs.files == old(fs.files)[InvalidCdsReportPath(cfg.outputDir) := Lines(prep.preprocessed.invalidLines)]
  {
    var groups := tools.divideIntoChunks(a.cdsFastas, ChunkCount);
    var cdsFiles := ChunkFiles(groups, CdsDirectory(cfg.outputDir));
    var p := Preprocess(Ids(a.genomes), cdsFiles, cfg.minimumLength, cfg.translationTable, tools);
    fs.WriteFile(InvalidCdsReportPath(cfg.outputDir), Lines(p.invalidLines));
    prep := Prepared(a, cdsFiles, p);
  }

  /** The part of `create_schema_seed` after the prefix check and before
      clustering. */
  method Prepare(fs: FileSystem, entries: seq<Entry>, cfg: Config, tools: Tools) returns (res: Result<Prepared, Abort>)
    modifies fs
    ensures fs.dirs == old(fs.dirs) + {TempDirectory(cfg.outputDir), CdsDirectory(cfg.outputDir)}
    ensures res.Failure? <==> NoCdsFound(entries, cfg, tools)
    ensures res.Failure? ==> res.error == NoCdsPredicted && fs.files == old(fs.files)
    ensures res.Success? ==>
      && PreparedFrom(res.value, entries, cfg, tools)
      && fs.files == (old(fs.files) + FailureReport(cfg.outputDir, res.value.acquired))
                       [InvalidCdsReportPath(cfg.outputDir) := Lines(res.value.preprocessed.invalidLines)]
  {
    var acquired := AcquireStage(fs, entries, cfg, tools);
    if acquired.Failure? {
      return Failure(acquired.error);
    }
    var prep := PreprocessStage(fs, acquired.value, cfg, tools);
    res := Success(prep);
  }

  /** What clustering, the BLAST stages and the choice of representatives
      gave: `reduced` fails where a BLAST stage stopped the run, and
      `representatives` where a survivor had no DNA sequence. */
  datatype Outcome = Outcome(
    finalInput: seq<string>,
    reduced: Result<Survivors, Abort>,
    representativeOrder: seq<string>,
    representatives: Result<seq<FastaRecord>, string>)

  /** How the outcome follows from the preprocessed sequences: the BLAST
      stages as `ReducedFrom` says, and, when they succeed, the survivors
      listed once each and looked up in the DNA index. */
  predicate OutcomeFrom(o: Outcome, p: Preprocessed, tools: Tools) {
    && ReducedFrom(p, tools, o.finalInput, o.reduced)
    && (o.reduced.Success? ==>
          && NoDuplicates(o.representativeOrder) && Elements(o.representativeOrder) == o.reduced.value.survivors
          && o.representatives == GetSequencesById(p.dna.sequences, o.representativeOrder))
  }

  /** Where the run stopped after preprocessing, if it did. */
  function OutcomeAbort(o: Outcome): (stop: Option<Abort>)
    ensures stop.Some? ==> IsBlastAbort(stop.value) || o.reduced.Failure?
  {
    if o.reduced.Failure? then Some(o.reduced.error)
    else if o.representatives.Failure? then Some(MissingSequence(o.representatives.error))
    else None
  }

  /** For an outcome that follows from the preprocessed sequences, every stop
      is a BLAST-stage abort: one of the BLAST stages, or the DNA lookup of the
      survivors they leave. */
  lemma OutcomeStopsAreBlastAborts(o: Outcome, p: Preprocessed, tools: Tools)
    requires OutcomeFrom(o, p, tools)
    ensures OutcomeAbort(o).Some? ==> IsBlastAbort(OutcomeAbort(o).value)
  {
  }

  /** A completed run: its survivors, listed once each, with their DNA
      sequences as representatives. */
  predicate RepresentativesFrom(o: Outcome, p: Preprocessed) {
    && o.reduced.Success? && o.representatives.Success?
    && NoDuplicates(o.representativeOrder) && Elements(o.representativeOrder) == o.reduced.value.survivors
    && GetSequencesById(p.dna.sequences, o.representativeOrder) == o.representatives
  }

  /** When the stages that are not modelled keep the promises in
      `StagesConform`, every survivor has a DNA sequence, so a run stops
      after preprocessing only where a BLAST stage stops it. */
  lemma ConformingStagesFindSequences(o: Outcome, p: Preprocessed, tools: Tools)
    requires OutcomeFrom(o, p, tools) && o.reduced.Success?
    requires Elements(p.candidates) == Elements(p.dna.distinct) - Elements(p.small.small)
    requires Elements(p.schemaIds) == Elements(p.proteins.distinct)
    requires StagesConform(p)
    ensures o.representatives.Success? && OutcomeAbort(o) == None
  {
    SurvivorsExcluded(p, tools, o.finalInput, o.reduced);
    SurvivorsAreValidCandidates(p, o.reduced.value.survivors);
    forall i | 0 <= i < |o.representativeOrder| ensures o.representativeOrder[i] in p.dna.sequences {
      assert o.representativeOrder[i] in Elements(o.representativeOrder);
    }
  }

  /** The part of `create_schema_seed` from clustering to the schema files. */
  method Complete(fs: FileSystem, p: Preprocessed, cfg: Config, tools: Tools)
    returns (res: Result<map<string, string>, Abort>, ghost outcome: Outcome)
    modifies fs
    ensures OutcomeFrom(outcome, p, tools)
    ensures res.Failure? <==> OutcomeAbort(outcome).Some?
    ensures res.Failure? ==>
      && res.error == OutcomeAbort(outcome).value && IsBlastAbort(res.error)
      && fs.dirs == old(fs.dirs) && fs.files == old(fs.files)
    ensures res.Success? ==> RepresentativesFrom(outcome, p)
    ensures res.Success? ==>
      var schemaDir := SchemaDirectory(cfg.outputDir, cfg.schemaName);
      var reps := outcome.representatives.value;
      var records := SchemaRecords(reps, tools.replaceCharacters);
      && fs.dirs == old(fs.dirs) + {schemaDir}
      && fs.files == old(fs.files) + WrittenFiles(schemaDir, records, LocusOrder(reps, tools.replaceCharacters))
      && res.value.Keys == records.Keys
      && (forall k :: k in res.value ==> res.value[k] == LocusPath(schemaDir, k))
  {
    var finalInput, reduced := Reduce(p, tools);
    if reduced.Failure? {
      return Failure(reduced.error), Outcome(finalInput, reduced, [], Success([]));
    }
    var order := Enumerate(reduced.value.survivors);
    var representatives := GetSequencesById(p.dna.sequences, order);
    outcome := Outcome(finalInput, reduced, order, representatives);
    if representatives.Failure? {
      return Failure(MissingSequence(representatives.error)), outcome;
    }
    var lociPaths := CreateSchemaStructure(fs, representatives.value, cfg.outputDir, cfg.schemaName, tools.replaceCharacters);
    res := Success(lociPaths);
  }

  /** The intermediate results of a run, as far as it went. */
  datatype Trace = Trace(prepared: Option<Prepared>, outcome: Option<Outcome>)

  /** The abort a result carries, if any. */
  function Stop<T>(res: Result<T, Abort>): Option<Abort> {
    if res.Failure? then Some(res.error) else None
  }

  /** How a run that passed the prefix check went: it stops with
      `NoCdsPredicted` exactly when predict mode found no CDS; otherwise
      everything up to protein deduplication follows from the genomes, the
      outcome from that, and the run stops exactly where the outcome says. */
  predicate SeedRunFrom(entries: seq<Entry>, cfg: Config, tools: Tools, stop: Option<Abort>, trace: Trace) {
    && (NoCdsFound(entries, cfg, tools) ==> stop == Some(NoCdsPredicted) && trace.prepared.None?)
    && (!NoCdsFound(entries, cfg, tools) ==>
          && trace.prepared.Some? && PreparedFrom(trace.prepared.value, entries, cfg, tools)
          && trace.outcome.Some? && OutcomeFrom(trace.outcome.value, trace.prepared.value.preprocessed, tools)
          && stop == OutcomeAbort(trace.outcome.value))
  }

  /** `create_schema_seed` after the prefix check, on the genomes named by
      the input paths. */
  method SeedFromGenomes(fs: FileSystem, entries: seq<Entry>, cfg: Config, tools: Tools)
    returns (res: Result<SeedOutput, Abort>, ghost trace: Trace)
    modifies fs
    ensures res.Failure? && trace.prepared.Some? ==>
      var a := trace.prepared.value.acquired;
      && fs.dirs == old(fs.dirs) + {TempDirectory(cfg.outputDir), CdsDirectory(cfg.outputDir)}
      && fs.files == (old(fs.files) + FailureReport(cfg.outputDir, a))
                       [InvalidCdsReportPath(cfg.outputDir) := Lines(trace.prepared.value.preprocessed.invalidLines)]
    ensures res.Success? ==>
      && trace.prepared.Some? && trace.outcome.Some?
      && RepresentativesFrom(trace.outcome.value, trace.prepared.value.preprocessed)
    ensures res.Success? ==>
      var prep := trace.prepared.value;
      var reps := trace.outcome.value.representatives.value;
      var schemaDir := SchemaDirectory(cfg.outputDir, cfg.schemaName);
      var records := SchemaRecords(reps, tools.replaceCharacters);
      && res.value.tempDirectory == TempDirectory(cfg.outputDir)
      && fs.dirs == old(fs.dirs) + {TempDirectory(cfg.outputDir), CdsDirectory(cfg.outputDir), schemaDir}
      && fs.files == (old(fs.files) + FailureReport(cfg.outputDir, prep.acquired))
                       [InvalidCdsReportPath(cfg.outputDir) := Lines(prep.preprocessed.invalidLines)]
                     + WrittenFiles(schemaDir, records, LocusOrder(reps, tools.replaceCharacters))
      && res.value.lociPaths.Keys == records.Keys
      && (forall k :: k in res.value.lociPaths ==> res.value.lociPaths[k] == LocusPath(schemaDir, k))
    ensures SeedRunFrom(entries, cfg, tools, Stop(res), trace)
    ensures trace.prepared.None? ==>
      fs.dirs == old(fs.dirs) + {TempDirectory(cfg.outputDir), CdsDirectory(cfg.outputDir)}
      && fs.files == old(fs.files)
  {
    trace := Trace(None, None);
    var prepared := Prepare(fs, entries, cfg, tools);
    if prepared.Failure? {
      res := Failure(prepared.error);
      assert SeedRunFrom(entries, cfg, tools, Stop(res), trace);
      return;
    }
    var lociPaths, outcome := Complete(fs, prepared.value.preprocessed, cfg, tools);
    trace := Trace(Some(prepared.value), Some(outcome));
    if lociPaths.Failure? {
      res := Failure(lociPaths.error);
      assert SeedRunFrom(entries, cfg, tools, Stop(res), trace);
      return;
    }
    assert RepresentativesFrom(outcome, prepared.value.preprocessed);
    res := Success(SeedOutput(lociPaths.value, TempDirectory(cfg.outputDir)));
    assert SeedRunFrom(entries, cfg, tools, Stop(res), trace);
  }

  /** `create_schema_seed`: the prefix check, then the run on the genomes
      the input paths name. */
  method CreateSchemaSeed(fs: FileSystem, inputs: seq<string>, cfg: Config, tools: Tools)
    returns (res: Result<SeedOutput, Abort>, ghost trace: Trace)
    modifies fs
    ensures CheckPrefixes(inputs).Some? ==>
      && res == Failure(DuplicatePrefixes(CheckPrefixes(inputs).value))
      && fs.dirs == old(fs.dirs) && fs.files == old(fs.files)
    ensures CheckPrefixes(inputs).None? && res.Failure? && trace.prepared.Some? ==>
      var a := trace.prepared.value.acquired;
      && fs.dirs == old(fs.dirs) + {TempDirectory(cfg.outputDir), CdsDirectory(cfg.outputDir)}
      && fs.files == (old(fs.files) + FailureReport(cfg.outputDir, a))
                       [InvalidCdsReportPath(cfg.outputDir) := Lines(trace.prepared.value.preprocessed.invalidLines)]
    ensures res.Success? ==>
      && CheckPrefixes(inputs).None? && trace.prepared.Some? && trace.outcome.Some?
      && RepresentativesFrom(trace.outcome.value, trace.prepared.value.preprocessed)
    ensures res.Success? ==>
      var prep := trace.prepared.value;
      var reps := trace.outcome.value.representatives.value;
      var schemaDir := SchemaDirectory(cfg.outputDir, cfg.schemaName);
      var records := SchemaRecords(reps, tools.replaceCharacters);
      && res.value.tempDirectory == TempDirectory(cfg.outputDir)
      && fs.dirs == old(fs.dirs) + {TempDirectory(cfg.outputDir), CdsDirectory(cfg.outputDir), schemaDir}
      && fs.files == (old(fs.files) + FailureReport(cfg.outputDir, prep.acquired))
                       [InvalidCdsReportPath(cfg.outputDir) := Lines(prep.preprocessed.invalidLines)]
                     + WrittenFiles(schemaDir, records, LocusOrder(reps, tools.replaceCharacters))
      && res.value.lociPaths.Keys == records.Keys
      && (forall k :: k in res.value.lociPaths ==> res.value.lociPaths[k] == LocusPath(schemaDir, k))
    ensures CheckPrefixes(inputs).None? ==>
      && SeedRunFrom(InputBasenames(inputs), cfg, tools, Stop(res), trace)
      && (trace.prepared.None? ==>
            fs.dirs == old(fs.dirs) + {TempDirectory(cfg.outputDir), CdsDirectory(cfg.outputDir)}
            && fs.files == old(fs.files))
  {
    var check := CheckPrefixes(inputs);
    if check.Some? {
      return Failure(DuplicatePrefixes(check.value)), Trace(None, None);
    }
    res, trace := SeedFromGenomes(fs, InputBasenames(inputs), cfg, tools);
  }

  /** The representatives' headers are the survivors' identifiers, so their
      locus names are the sanitised identifiers. */
  lemma RepresentativeNames(o: Outcome, p: Preprocessed, sanitize: string -> string)
    requires RepresentativesFrom(o, p)
    ensures |LocusNames(o.representatives.value, sanitize)| == |o.representativeOrder|
    ensures forall i :: 0 <= i < |o.representativeOrder| ==>
              o.representatives.value[i] == FastaRecord(o.representativeOrder[i], p.dna.sequences[o.representativeOrder[i]])
              && LocusNames(o.representatives.value, sanitize)[i] == sanitize(o.representativeOrder[i])
  {
  }

  /** Survivors that sanitise to different names give distinct locus names. */
  lemma DistinctLocusNames(o: Outcome, p: Preprocessed, sanitize: string -> string)
    requires RepresentativesFrom(o, p)
    requires forall a, b :: a in o.reduced.value.survivors && b in o.reduced.value.survivors && sanitize(a) == sanitize(b) ==> a == b
    ensures NoDuplicates(LocusNames(o.representatives.value, sanitize))
  {
    var order := o.representativeOrder;
    var names := LocusNames(o.representatives.value, sanitize);
    RepresentativeNames(o, p, sanitize);
    forall i, j | 0 <= i < j < |names| ensures names[i] != names[j] {
      assert order[i] in Elements(order) && order[j] in Elements(order);
      assert order[i] != order[j];
    }
  }

  /** A schema never has more loci than survivors, and has one locus per
      survivor when sanitising keeps their identifiers apart. */
  lemma LociPerSurvivor(o: Outcome, p: Preprocessed, sanitize: string -> string)
    requires RepresentativesFrom(o, p)
    ensures |SchemaRecords(o.representatives.value, sanitize)| <= |o.reduced.value.survivors|
    ensures (forall a, b :: a in o.reduced.value.survivors && b in o.reduced.value.survivors && sanitize(a) == sanitize(b) ==> a == b)
            ==> |SchemaRecords(o.representatives.value, sanitize)| == |o.reduced.value.survivors|
  {
    ListedSetCardinality(o.representativeOrder, o.reduced.value.survivors);
    LocusCountIff(o.representatives.value, sanitize);
    if forall a, b :: a in o.reduced.value.survivors && b in o.reduced.value.survivors && sanitize(a) == sanitize(b) ==> a == b {
      DistinctLocusNames(o, p, sanitize);
    }
  }

  /** Every locus holds the DNA sequence of a survivor whose sanitised
      identifier is the locus name. */
  lemma LocusHoldsSurvivorSequence(o: Outcome, p: Preprocessed, sanitize: string -> string, locus: string)
    requires RepresentativesFrom(o, p)
    requires locus in SchemaRecords(o.representatives.value, sanitize)
    ensures exists x :: x in o.reduced.value.survivors && sanitize(x) == locus && x in p.dna.sequences
                        && SchemaRecords(o.representatives.value, sanitize)[locus] == p.dna.sequences[x]
  {
    RepresentativeNames(o, p, sanitize);
    LocusTakesLastSequence(o.representatives.value, sanitize, locus);
    var i :| 0 <= i < |o.representatives.value| && sanitize(o.representatives.value[i].header) == locus
             && SchemaRecords(o.representatives.value, sanitize)[locus] == o.representatives.value[i].sequence;
    var x := o.representativeOrder[i];
    assert x in Elements(o.representativeOrder);
    assert o.representatives.value[i] == FastaRecord(x, p.dna.sequences[x]);
  }

  /** The training file gene prediction uses: none in meta mode, where a given
      file only goes into the schema. */
  function TrainingFile(prodigalMode: string, ptf: Option<string>): Option<string> {
    if prodigalMode == "meta" then None else ptf
  }

  /** `main`: the input paths (one per line of the input list) sorted by their
      lower-cased text, the training file dropped in meta mode, the seed
      created, and the number of loci reported. */
  method Run(fs: FileSystem, inputLines: seq<string>, cfg: Config, tools: Tools)
    returns (res: Result<nat, Abort>, ghost trace: Trace)
    modifies fs
    ensures var sorted := SortByLower(inputLines);
      var seedCfg := cfg.(ptf := TrainingFile(cfg.prodigalMode, cfg.ptf));
      && (CheckPrefixes(inputLines).Some? ==>
            && res == Failure(DuplicatePrefixes(CheckPrefixes(inputLines).value))
            && fs.dirs == old(fs.dirs) && fs.files == old(fs.files))
      && (CheckPrefixes(inputLines).None? ==>
            SeedRunFrom(InputBasenames(sorted), seedCfg, tools, Stop(res), trace))
    ensures res.Success? ==>
      && trace.prepared.Some? && trace.outcome.Some?
      && RepresentativesFrom(trace.outcome.value, trace.prepared.value.preprocessed)
    ensures res.Success? ==>
      var o := trace.outcome.value;
      && res.value == |SchemaRecords(o.representatives.value, tools.replaceCharacters)|
      && res.value <= |o.reduced.value.survivors|
    ensures res.Success? ==>
      var prep := trace.prepared.value;
      var reps := trace.outcome.value.representatives.value;
      var schemaDir := SchemaDirectory(cfg.outputDir, cfg.schemaName);
      && fs.dirs == old(fs.dirs) + {TempDirectory(cfg.outputDir), CdsDirectory(cfg.outputDir), schemaDir}
      && fs.files == (old(fs.files) + FailureReport(cfg.outputDir, prep.acquired))
                       [InvalidCdsReportPath(cfg.outputDir) := Lines(prep.preprocessed.invalidLines)]
                     + WrittenFiles(schemaDir, SchemaRecords(reps, tools.replaceCharacters),
                                    LocusOrder(reps, tools.replaceCharacters))
    ensures CheckPrefixes(inputLines).None? && res.Failure? && trace.prepared.Some? ==>
      && fs.dirs == old(fs.dirs) + {TempDirectory(cfg.outputDir), CdsDirectory(cfg.outputDir)}
      && fs.files == (old(fs.files) + FailureReport(cfg.outputDir, trace.prepared.value.acquired))
                       [InvalidCdsReportPath(cfg.outputDir) := Lines(trace.prepared.value.preprocessed.invalidLines)]
    ensures CheckPrefixes(inputLines).None? && trace.prepared.None? ==>
      && fs.dirs == old(fs.dirs) + {TempDirectory(cfg.outputDir), CdsDirectory(cfg.outputDir)}
      && fs.files == old(fs.files)
  {
    var sorted := SortByLower(inputLines);
    PrefixCheckIgnoresOrder(sorted, inputLines);
    var seedCfg := cfg.(ptf := TrainingFile(cfg.prodigalMode, cfg.ptf));
    var seed;
    seed, trace := CreateSchemaSeed(fs, sorted, seedCfg, tools);
    if seed.Failure? {
      return Failure(seed.error), trace;
    }
    LociPerSurvivor(trace.outcome.value, trace.prepared.value.preprocessed, tools.replaceCharacters);
    res := Success(|seed.value.lociPaths|);
  }
}
