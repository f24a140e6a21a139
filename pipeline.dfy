/** The survivor-set pipeline of `create_schema_seed`: a set of sequence
    identifiers threaded through deduplication, the length and translation
    filters, clustering with its two pruning filters, cluster BLAST and final
    BLAST. Every stage removes identifiers by set difference. */
module SurvivorPipeline {
  import opened Wrappers
  import opened Sequences
  import opened Ordering
  import opened Files
  import opened IntegerHeaders
  import opened Collaborators

  /** The header prefix of the final BLAST's integer headers. */
  const FinalHeaderPrefix := "seq_"

  /** Everything from DNA deduplication to protein deduplication. */
  datatype Preprocessed = Preprocessed(
    dna: Dedup,                  // distinct DNA sequences and their index
    small: SmallFilter,          // sequences below the minimum length
    candidates: seq<string>,     // identifiers handed to translation
    translation: Translation,
    invalidLines: seq<string>,   // invalid_cds.txt
    proteins: Dedup,             // distinct proteins and their index
    schemaIds: seq<string>)      // identifiers entering clustering

  /** How the preprocessed identifiers follow from the genome identifiers and
      the chunk files: DNA deduplication, exclusion of small sequences,
      translation of the remaining candidates (each once, sorted), the invalid
      report (untranslatable first, then small), protein deduplication, and
      the distinct proteins sorted for clustering. */
  predicate PreprocessedFrom(p: Preprocessed, genomeIds: seq<string>, cdsFiles: seq<string>,
                             minimumLength: nat, translationTable: nat, tools: Tools) {
    && p.dna == tools.dedupDna(cdsFiles, genomeIds)
    && p.small == tools.excludeSmall(p.dna, minimumLength)
    && Elements(p.candidates) == Elements(p.dna.distinct) - Elements(p.small.small)
    && NoDuplicates(p.candidates) && SortedByLower(p.candidates)
    && p.translation == tools.translate(p.candidates, p.dna, translationTable, minimumLength)
    && p.invalidLines == p.translation.lines + p.small.lines
    && p.proteins == tools.dedupProtein(p.translation, genomeIds)
    && multiset(p.schemaIds) == multiset(p.proteins.distinct) && SortedByLower(p.schemaIds)
    && Elements(p.schemaIds) == Elements(p.proteins.distinct)
  }

  /** DNA deduplication, exclusion of small sequences, translation of the
      sorted candidates and protein deduplication. */
  method Preprocess(genomeIds: seq<string>, cdsFiles: seq<string>, minimumLength: nat,
                    translationTable: nat, tools: Tools) returns (p: Preprocessed)
    ensures PreprocessedFrom(p, genomeIds, cdsFiles, minimumLength, translationTable, tools)
  {
    var dna := tools.dedupDna(cdsFiles, genomeIds);
    var small := tools.excludeSmall(dna, minimumLength);
    var schemaSeqids := SortedList(Elements(dna.distinct) - Elements(small.small));
    var translation := tools.translate(schemaSeqids, dna, translationTable, minimumLength);
    var invalidLines := translation.lines + small.lines;
    var proteins := tools.dedupProtein(translation, genomeIds);
    var clusteringIds := SortByLower(proteins.distinct);
    SortKeepsMembers(proteins.distinct);
    p := Preprocessed(dna, small, schemaSeqids, translation, invalidLines, proteins, clusteringIds);
  }

  /** `math.ceil(len(proteins) / 40)` in integers: the fewest groups of 40
      that hold every protein. */
  function GroupSize(proteinCount: nat): (g: nat)
    ensures g * 40 >= proteinCount
    ensures g == 0 || (g - 1) * 40 < proteinCount
  {
    (proteinCount + 39) / 40
  }

  /** The cluster BLAST stage: it runs only when clusters remain, and the
      identifiers it excludes are mapped back through its id table. */
  function ClusterBsrStep(clusters: Clusters, proteins: Dedup, tools: Tools): (r: Result<set<string>, Abort>)
    ensures |clusters| == 0 ==> r == Success({})
    ensures |clusters| > 0 ==>
      var cb := tools.blastClusters(clusters, proteins);
      && (r.Success? <==> forall i :: 0 <= i < |cb.excludedHeaders| ==> cb.excludedHeaders[i] in cb.idsDict)
      && (r.Success? ==> r.value <= cb.idsDict.Values)
      && (r.Success? ==> r.value == set i | 0 <= i < |cb.excludedHeaders| && cb.excludedHeaders[i] in cb.idsDict
                                           :: cb.idsDict[cb.excludedHeaders[i]])
      && (r.Failure? ==> r.error.UnknownHeader? && r.error.header in cb.excludedHeaders
                         && r.error.header !in cb.idsDict)
  {
    if |clusters| == 0 then Success({})
    else
      var cb := tools.blastClusters(clusters, proteins);
      match MapBack(cb.excludedHeaders, cb.idsDict)
      case Failure(h) => Failure(UnknownHeader(h))
      case Success(ids) =>
        var mapped := set i | 0 <= i < |cb.excludedHeaders| && cb.excludedHeaders[i] in cb.idsDict
                              :: cb.idsDict[cb.excludedHeaders[i]];
        assert Elements(ids) == mapped by {
          forall x | x in Elements(ids) ensures x in mapped {
            var i :| 0 <= i < |ids| && ids[i] == x;
            assert cb.idsDict[cb.excludedHeaders[i]] == x;
          }
          forall x | x in mapped ensures x in Elements(ids) {
            var i :| 0 <= i < |cb.excludedHeaders| && cb.excludedHeaders[i] in cb.idsDict
                     && cb.idsDict[cb.excludedHeaders[i]] == x;
            assert ids[i] == x;
          }
        }
        assert mapped <= cb.idsDict.Values by {
          forall x | x in mapped ensures x in cb.idsDict.Values {
            var i :| 0 <= i < |cb.excludedHeaders| && cb.excludedHeaders[i] in cb.idsDict
                     && cb.idsDict[cb.excludedHeaders[i]] == x;
          }
        }
        Success(Elements(ids))
  }

  /** The integer-header records the final BLAST works on, if every
      identifier has a protein sequence. */
  function FinalBlastRecords(finalInput: seq<string>, proteins: Dedup): Result<seq<FastaRecord>, string> {
    match GetSequencesById(proteins.sequences, finalInput)
    case Failure(id) => Failure(id)
    case Success(records) => Success(IntegerRecords(FinalHeaderPrefix, records))
  }

  /** The final BLAST stage: a stderr from the database build or from any BLAST
      job is fatal, and so is an excluded header that was never given out;
      otherwise each excluded header maps back to the identifier of the record
      that was renamed to it. */
  function FinalBlastStep(finalInput: seq<string>, proteins: Dedup, tools: Tools): (r: Result<seq<string>, Abort>)
    ensures FinalBlastRecords(finalInput, proteins).Failure? ==>
      r == Failure(MissingSequence(FinalBlastRecords(finalInput, proteins).error))
    ensures FinalBlastRecords(finalInput, proteins).Success? ==>
      var records := FinalBlastRecords(finalInput, proteins).value;
      var dbErr := tools.makeBlastDb(records);
      var fb := tools.finalBlast(records);
      var blastQuiet := forall i :: 0 <= i < |fb.stderrs| ==> |fb.stderrs[i]| == 0;
      var known := forall i :: 0 <= i < |fb.excludedHeaders| ==>
                     fb.excludedHeaders[i] in Elements(HeaderNames(FinalHeaderPrefix, |finalInput|));
      && (r.Failure? && r.error.DatabaseFailed? <==> |dbErr| > 0)
      && (r.Failure? && r.error.DatabaseFailed? ==> r.error == DatabaseFailed(dbErr))
      && (r.Failure? && r.error.BlastFailed? <==> |dbErr| == 0 && !blastQuiet)
      && (r.Failure? && r.error.BlastFailed? ==> r.error == BlastFailed(Concat(fb.stderrs)))
      && (r.Failure? && r.error.UnknownHeader? <==> |dbErr| == 0 && blastQuiet && !known)
      && (r.Success? <==> |dbErr| == 0 && blastQuiet && known)
      && (r.Success? ==>
            && |r.value| == |fb.excludedHeaders|
            && forall i :: 0 <= i < |r.value| ==>
                 exists k :: 0 <= k < |finalInput| && fb.excludedHeaders[i] == HeaderAt(FinalHeaderPrefix, k)
                             && r.value[i] == finalInput[k])
    ensures r.Success? ==> Elements(r.value) <= Elements(finalInput)
    ensures r.Failure? ==> IsBlastAbort(r.error)
  {
    match FinalBlastRecords(finalInput, proteins)
    case Failure(id) => Failure(MissingSequence(id))
    case Success(records) =>
      var table := HeaderTable(FinalHeaderPrefix, finalInput);
      HeaderTableKeys(FinalHeaderPrefix, finalInput);
      var dbErr := tools.makeBlastDb(records);
      if |dbErr| > 0 then Failure(DatabaseFailed(dbErr))
      else
        var fb := tools.finalBlast(records);
        var blastErr := Concat(fb.stderrs);
        ConcatEmptyIff(fb.stderrs);
        if |blastErr| > 0 then Failure(BlastFailed(blastErr))
        else match MapBack(fb.excludedHeaders, table)
          case Failure(h) => Failure(UnknownHeader(h))
          case Success(ids) =>
            MappedBackWithin(FinalHeaderPrefix, finalInput, fb.excludedHeaders);
            Success(ids)
  }

  /** What clustering and the BLAST stages leave. */
  datatype Survivors = Survivors(
    clusters: Clusters,
    representative: RepresentativeFilter,
    intra: IntraFilter,
    clusterExcluded: set<string>,  // cluster BLAST exclusions, mapped back
    finalExcluded: seq<string>,    // final BLAST exclusions, mapped back
    survivors: set<string>)        // the loci representatives

  /** How clustering through final BLAST follows from the preprocessed
      proteins, given the sorted list `finalInput` the final BLAST compares:
      each stage is its tool's result, the identifiers entering the final
      BLAST are those entering clustering minus every earlier exclusion, and
      the run stops where the first BLAST stage stops. */
  predicate ReducedFrom(p: Preprocessed, tools: Tools, finalInput: seq<string>, res: Result<Survivors, Abort>) {
    var clusters := tools.cluster(p.proteins, GroupSize(|p.proteins.sequences|));
    var rep := tools.representativeFilter(clusters);
    var intra := tools.intraFilter(rep.clusters, p.proteins);
    var step := ClusterBsrStep(intra.clusters, p.proteins, tools);
    && (step.Failure? ==> res == Failure(step.error))
    && (step.Success? ==>
          && Elements(finalInput) == Elements(p.schemaIds) - rep.excluded - Elements(intra.excluded) - step.value
          && NoDuplicates(finalInput) && SortedByLower(finalInput)
          && var fin := FinalBlastStep(finalInput, p.proteins, tools);
          && (fin.Failure? ==> res == Failure(fin.error))
          && (fin.Success? ==> res == Success(Survivors(clusters, rep, intra, step.value, fin.value,
                                                        Elements(finalInput) - Elements(fin.value)))))
  }

  /** The survivors were compared in the final BLAST, came from the identifiers
      entering clustering, and were excluded by no stage. */
  lemma SurvivorsExcluded(p: Preprocessed, tools: Tools, finalInput: seq<string>, res: Result<Survivors, Abort>)
    requires ReducedFrom(p, tools, finalInput, res) && res.Success?
    ensures var s := res.value;
      && s.survivors <= Elements(finalInput) <= Elements(p.schemaIds)
      && s.survivors !! s.representative.excluded
      && s.survivors !! Elements(s.intra.excluded)
      && s.survivors !! s.clusterExcluded
      && s.survivors !! Elements(s.finalExcluded)
  {
  }

  /** Clustering through final BLAST, reassigning the survivor set at each
      stage. `finalInput` is the sorted list the final BLAST compares. */
  method Reduce(p: Preprocessed, tools: Tools) returns (finalInput: seq<string>, res: Result<Survivors, Abort>)
    ensures ReducedFrom(p, tools, finalInput, res)
    ensures res.Failure? ==> IsBlastAbort(res.error)
  {
    finalInput := [];
    var proteins := p.proteins;
    var clusters := tools.cluster(proteins, GroupSize(|proteins.sequences|));
    var rep := tools.representativeFilter(clusters);
    var schemaSeqids := Elements(p.schemaIds) - rep.excluded;
    var intra := tools.intraFilter(rep.clusters, proteins);
    schemaSeqids := schemaSeqids - Elements(intra.excluded);
    var step := ClusterBsrStep(intra.clusters, proteins, tools);
    if step.Failure? {
      return finalInput, Failure(step.error);
    }
    schemaSeqids := schemaSeqids - step.value;
    finalInput := SortedList(schemaSeqids);
    var fin := FinalBlastStep(finalInput, proteins, tools);
    if fin.Failure? {
      return finalInput, Failure(fin.error);
    }
    schemaSeqids := Elements(finalInput) - Elements(fin.value);
    res := Success(Survivors(clusters, rep, intra, step.value, fin.value, schemaSeqids));
  }

  /** What the pipeline takes the unseen stages to promise: translation only
      writes candidates it could translate, protein deduplication keeps
      translated identifiers, and the DNA index holds every distinct
      identifier. */
  predicate StagesConform(p: Preprocessed) {
    && Elements(p.translation.translated) <= Elements(p.candidates) - Elements(p.translation.untranslatable)
    && Elements(p.proteins.distinct) <= Elements(p.translation.translated)
    && Elements(p.dna.distinct) <= p.dna.sequences.Keys
  }

  /** Under those promises every representative is a distinct DNA sequence
      that is long enough and translatable, and has a sequence to write. */
  lemma SurvivorsAreValidCandidates(p: Preprocessed, survivors: set<string>)
    requires Elements(p.candidates) == Elements(p.dna.distinct) - Elements(p.small.small)
    requires survivors <= Elements(p.proteins.distinct)
    requires StagesConform(p)
    ensures survivors <= Elements(p.dna.distinct) - Elements(p.small.small) - Elements(p.translation.untranslatable)
    ensures survivors <= p.dna.sequences.Keys
  {
  }
}
