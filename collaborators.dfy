/** What the schema-creation process receives from the stages it delegates
    to: gene prediction, CDS renaming, deduplication, length and translation
    filters, clustering and its two pruning filters, BLAST with BSR, and
    header sanitising. Each stage is a function of what it is given; the
    thresholds, word and window sizes and worker counts it is called with are
    fixed for a run and folded into the function. */
module Collaborators {
  import opened Wrappers
  import opened GenomeRegistry
  import opened Files

  /** `cf.predict_genes`: genomes that failed (input path to message), the
      number of CDS extracted, one CDS file per genome that succeeded and the
      coordinate files by genome. (Its fifth value is never used.) */
  datatype Prediction = Prediction(
    failed: map<string, string>,
    totalExtracted: nat,
    cdsFastas: seq<string>,
    coordinates: map<string, string>)

  /** One call of `fao.integer_headers` that renames the CDS of an input file:
      records numbered from `start`, at most `limit` per write, headers
      `<prefix><n>`. */
  datatype RenameJob = RenameJob(input: string, output: string, start: nat, limit: nat, prefix: string)

  /** `cf.exclude_duplicates`: the identifiers kept (the first of each group of
      identical sequences), the kept file as an index from identifier to
      sequence, and how many records were dropped. */
  datatype Dedup = Dedup(distinct: seq<string>, sequences: map<string, string>, repeated: nat)

  /** `cf.exclude_small`: identifiers below the minimum length, and the
      `id<TAB>reason` lines explaining each. */
  datatype SmallFilter = SmallFilter(small: seq<string>, lines: seq<string>)

  /** `cf.translate_sequences`: identifiers written to the protein file, those
      that could not be translated, and the lines explaining each. */
  datatype Translation = Translation(translated: seq<string>, untranslatable: seq<string>, lines: seq<string>)

  /** Clusters, by representative identifier, each with its members. */
  type Clusters = map<string, seq<string>>

  /** `cf.cluster_representative_filter`. */
  datatype RepresentativeFilter = RepresentativeFilter(
    clusters: Clusters, excluded: set<string>, singletons: seq<string>, remaining: nat)

  /** `cf.cluster_intra_filter`. */
  datatype IntraFilter = IntraFilter(clusters: Clusters, excluded: seq<string>)

  /** `cf.blast_clusters` followed by `sm.apply_bsr` on every result file: the
      excluded identifiers as BLAST reported them (integer headers, flattened
      over the files) and the table back to the original identifiers. */
  datatype ClusterBlast = ClusterBlast(excludedHeaders: seq<string>, idsDict: map<string, string>)

  /** The final all-against-all BLASTp: the stderr of every job, and the headers
      `sm.apply_bsr` excludes from the concatenated results. */
  datatype FinalBlast = FinalBlast(stderrs: seq<string>, excludedHeaders: seq<string>)

  datatype Tools = Tools(
    predictGenes: (seq<Entry>, Option<string>, string) -> Prediction,   // genomes, training file, mode
    renameCds: RenameJob -> nat,                                         // records renamed
    divideIntoChunks: (seq<string>, nat) -> seq<seq<string>>,            // files, number of chunks
    dedupDna: (seq<string>, seq<string>) -> Dedup,                       // CDS files, genome ids
    excludeSmall: (Dedup, nat) -> SmallFilter,                           // distinct file, minimum length
    translate: (seq<string>, Dedup, nat, nat) -> Translation,            // ids, file, table, minimum length
    dedupProtein: (Translation, seq<string>) -> Dedup,                   // protein file, genome ids
    cluster: (Dedup, nat) -> Clusters,                                   // proteins, group size
    representativeFilter: Clusters -> RepresentativeFilter,
    intraFilter: (Clusters, Dedup) -> IntraFilter,                       // clusters, proteins
    blastClusters: (Clusters, Dedup) -> ClusterBlast,                    // clusters, proteins; the DNA index
                                                                         // and BSR threshold `apply_bsr` reads are folded in
    makeBlastDb: seq<FastaRecord> -> string,                             // stderr of makeblastdb
    finalBlast: seq<FastaRecord> -> FinalBlast,                          // integer-header records; the DNA index
                                                                         // and BSR threshold `apply_bsr` reads are folded in
    replaceCharacters: string -> string)                                 // locus-name sanitising

  /** Everything that stops a run. */
  datatype Abort =
    | DuplicatePrefixes(repeated: map<string, nat>)   // inputs sharing a prefix, with counts
    | NoCdsPredicted                                  // no genome yielded a CDS file
    | UnknownHeader(header: string)                   // a header missing from its id table
    | MissingSequence(seqid: string)                  // an identifier missing from a sequence index
    | DatabaseFailed(stderr: string)                  // makeblastdb wrote to stderr
    | BlastFailed(stderr: string)                     // some final BLASTp job wrote to stderr

  /** The aborts of the clustering and BLAST stages. */
  predicate IsBlastAbort(e: Abort) {
    e.UnknownHeader? || e.MissingSequence? || e.DatabaseFailed? || e.BlastFailed?
  }
}
