# chewBBACA schema creation, modelled in Dafny

This project models chewBBACA's `CreateSchema` process
(`CHEWBBACA/CreateSchema/create_schema.py`). The process turns a list of
genome assemblies, or of files that already hold coding sequences (CDS), into
a *schema seed*: one FASTA file per locus, each holding one representative
allele. The model covers:

- **Genome registry.** Each input path is named by the part of its file name
  before the first `.`. A run whose inputs do not all have distinct prefixes is
  refused before any directory is created, with a `prefix: count` report
  (`GenomeRegistry`).
- **CDS acquisition.** In predict mode, genomes the predictor failed on are
  pruned and reported in `gene_prediction_failures.tsv`, and the run stops if
  no genome gave a CDS file. In CDS-input mode, every input is renamed to
  `<id>.fasta` with headers `<id>-protein<n>`. The per-genome files are then
  grouped into numbered chunk files (`CdsAcquisition`).
- **The survivor set.** DNA deduplication, the length filter, translation
  (its failures go to `invalid_cds.txt`), protein deduplication, the
  representative and intra-cluster filters, cluster BLAST with BSR and the
  final BLAST with BSR each remove identifiers by set difference. Identifiers
  are sorted by lower-cased text at three points. BLAST results come back with
  integer headers and are mapped back through a header table. Any stderr from
  the database build or from a final BLAST job stops the run
  (`SurvivorPipeline`, `IntegerHeaders`, `Ordering`).
- **Schema layout.** Every surviving identifier is sanitised into a locus name.
  The locus is written to `<schema dir>/<locus>.fasta` as a single record
  `<locus>_1` (`SchemaLayout`).
- **The run as a whole.** The input list is sorted, the training file is
  dropped in Prodigal's meta mode, and the number of loci is reported
  (`CreateSchema`).

The stages whose code lives in chewBBACA's `utils` package are fields of the
`Collaborators.Tools` datatype: gene prediction, CDS renaming, chunking,
deduplication, the length and translation filters, clustering and its
filters, BLAST with BSR, and header sanitising. Each is a function of what it
receives, with the thresholds of the run folded in. The model relies on
nothing about them except what `create_schema.py` itself does with their
results. `SurvivorPipeline.StagesConform` states the few further promises a
reader may grant them. The file system is a `Files.FileSystem` object that
holds the directories and the files the run leaves in the output directory.

In two places the model follows the code as written:

- A path listed twice refuses the run. The path dictionary keeps it once, but
  the check counts the list, so the report can be empty
  (`RepeatedPathRefused`, `EmptyReportIff`).
- In predict mode, a run in which every genome failed stops with "no CDS"
  only because the predictor then returns no CDS file.

## Model

| member | source | states |
|---|---|---|
| Sequences.FirstOccurrences | CHEWBBACA/CreateSchema/create_schema.py:184-187 | the keys of a dictionary filled from a list: every element once, nothing else, and the list itself when it has no repeats |
| Sequences.Enumerate | CHEWBBACA/CreateSchema/create_schema.py:517 | `list(set)`: each member of the set listed exactly once, in an order the language leaves open |
| Sequences.MapCount | CHEWBBACA/CreateSchema/create_schema.py:191-192 | in a list free of repeats, a value occurs among the mapped entries as often as there are entries mapping to it |
| Ordering.SortByLower | CHEWBBACA/CreateSchema/create_schema.py:328 | `sort_iterable(key=lower)`: a permutation of its input, ordered by lower-cased text |
| Ordering.SortKeepsMembers | CHEWBBACA/CreateSchema/create_schema.py:362-363 | sorting keeps exactly the members and the length, and keeps a list free of repeats |
| Ordering.LexLeTotal | CHEWBBACA/CreateSchema/create_schema.py:457 | the string order behind the sort key compares any two identifiers |
| Ordering.LexLeTransitive | CHEWBBACA/CreateSchema/create_schema.py:457 | the string order behind the sort key is transitive |
| Ordering.LexLeAntisymmetric | CHEWBBACA/CreateSchema/create_schema.py:457 | two strings ordered both ways are equal |
| Ordering.SortedPairwise | CHEWBBACA/CreateSchema/create_schema.py:457 | in a sorted list every earlier identifier's key is no greater than every later one's |
| Ordering.SortedList | CHEWBBACA/CreateSchema/create_schema.py:327-328 | `sorted(list(set))`: exactly the set's members, each once, sorted by lower-cased text |
| Decimal.ParseNatToString | CHEWBBACA/CreateSchema/create_schema.py:285 | the file index written into a chunk file name reads back as the same number |
| Decimal.NatToStringInjective | CHEWBBACA/CreateSchema/create_schema.py:285 | different file indices give different numerals |
| Files.GetSequencesById | CHEWBBACA/CreateSchema/create_schema.py:524 | the records of the requested identifiers in request order, or the failure naming an identifier the index lacks, exactly when one is missing |
| Files.JoinPathDistinct | CHEWBBACA/CreateSchema/create_schema.py:156 | different names in one directory are different paths |
| GenomeRegistry.Basename | CHEWBBACA/CreateSchema/create_schema.py:184-185 | the base name is the suffix of the path after its last `/` and holds no `/` |
| GenomeRegistry.BeforeFirstDot | CHEWBBACA/CreateSchema/create_schema.py:186-187 | the genome id is the prefix of the base name before its first `.` and holds no `.` |
| GenomeRegistry.PrefixCheckPassesIff | CHEWBBACA/CreateSchema/create_schema.py:189-190 | the run goes on exactly when no two inputs, counted with repetition, share a genome id |
| GenomeRegistry.PrefixReportIsExact | CHEWBBACA/CreateSchema/create_schema.py:183-195 | the report names exactly the prefixes carried by more than one distinct input path, each with the number of distinct paths that carry it |
| GenomeRegistry.SharingCount | CHEWBBACA/CreateSchema/create_schema.py:183-192 | a prefix's count among the path dictionary's values is the number of distinct input paths whose file name has that prefix |
| GenomeRegistry.EmptyReportIff | CHEWBBACA/CreateSchema/create_schema.py:189-199 | a refusal has an empty report exactly when the distinct paths all have distinct prefixes |
| GenomeRegistry.RepeatedPathRefused | CHEWBBACA/CreateSchema/create_schema.py:184-190 | a path listed twice is refused even when no two files share a prefix |
| GenomeRegistry.PassedCheckDistinctIds | CHEWBBACA/CreateSchema/create_schema.py:189-199 | after the check passes, the genomes carry pairwise distinct ids |
| GenomeRegistry.IdsPermutation | CHEWBBACA/CreateSchema/create_schema.py:189 | reordering the input paths only reorders the list of genome ids |
| GenomeRegistry.PrefixCheckIgnoresOrder | CHEWBBACA/CreateSchema/create_schema.py:575 | sorting the inputs changes neither whether the run is refused nor the report |
| IntegerHeaders.HeaderAtInjective | CHEWBBACA/CreateSchema/create_schema.py:470 | different record positions get different integer headers |
| IntegerHeaders.HeaderNames | CHEWBBACA/CreateSchema/create_schema.py:469-470 | a renamed file has one header per record, all different |
| IntegerHeaders.HeaderTableKeys | CHEWBBACA/CreateSchema/create_schema.py:470 | the table's keys are exactly the integer headers |
| IntegerHeaders.HeaderTableValues | CHEWBBACA/CreateSchema/create_schema.py:470 | the table's values are exactly the identifiers renamed |
| IntegerHeaders.HeaderTableShape | CHEWBBACA/CreateSchema/create_schema.py:469-470 | keys, values, and one entry per renamed record |
| IntegerHeaders.MapBack | CHEWBBACA/CreateSchema/create_schema.py:515 | `[ids_dict2[h] for h in excluded]`: the identifiers in order, or, exactly when some header is missing from the table, the first such header, as the KeyError names it |
| IntegerHeaders.HeaderRoundTrip | CHEWBBACA/CreateSchema/create_schema.py:469-470 | mapping the integer headers back gives the original identifiers |
| IntegerHeaders.MappedBackWithin | CHEWBBACA/CreateSchema/create_schema.py:469-516 | each header the final BLAST excludes is the integer header `seq_<k+1>` of the k-th compared identifier, and maps back to that identifier; so the exclusions are among the compared identifiers |
| CdsAcquisition.RenameJobsSeparate | CHEWBBACA/CreateSchema/create_schema.py:242-247 | genomes with different ids never share a renamed output file or header prefix |
| CdsAcquisition.RenamingJobs | CHEWBBACA/CreateSchema/create_schema.py:240-248 | one renaming job and one CDS file per genome, in dictionary order, with distinct files for distinct ids |
| CdsAcquisition.PruneFailed | CHEWBBACA/CreateSchema/create_schema.py:265-267 | the genomes kept are exactly those whose path did not fail, and their ids stay distinct |
| CdsAcquisition.KeptPositions | CHEWBBACA/CreateSchema/create_schema.py:265-267 | the positions of the genomes whose path did not fail: each in range and not failed, strictly increasing, and none left out |
| CdsAcquisition.PruneFailedInOrder | CHEWBBACA/CreateSchema/create_schema.py:265-267 | `prune_dictionary` keeps input order: the k-th genome kept is the genome at the k-th surviving position |
| CdsAcquisition.PruneNothing | CHEWBBACA/CreateSchema/create_schema.py:262-267 | when no input path failed, pruning keeps every genome, in order |
| CdsAcquisition.ChunkFileNamesDistinct | CHEWBBACA/CreateSchema/create_schema.py:284-286 | different file indices name different chunk files |
| CdsAcquisition.ChunkFiles | CHEWBBACA/CreateSchema/create_schema.py:280-293 | one chunk file per group, numbered from 1 in group order, no two alike |
| CdsAcquisition.AcquireCds | CHEWBBACA/CreateSchema/create_schema.py:207-272 | predict mode: failures, CDS files, coordinates and count are the predictor's, and it stops with "no CDS" exactly when no CDS file came back; CDS-input mode: no failures, no coordinates, the genomes unchanged, one renaming job and CDS file per genome and the count summed over the renaming results; on success the genomes are the inputs minus the failed ones in input order, with one `path<TAB>message` line per failed path |
| SurvivorPipeline.Preprocess | CHEWBBACA/CreateSchema/create_schema.py:308-363 | translation gets the distinct minus the small identifiers, each once and sorted; the invalid lines are the untranslatable then the small ones; protein deduplication gets the translation; the identifiers entering the filters are the distinct proteins, each as often as deduplication listed it, sorted |
| SurvivorPipeline.GroupSize | CHEWBBACA/CreateSchema/create_schema.py:378 | `ceil(n / 40)` in integers: the fewest groups of 40 that hold every protein |
| SurvivorPipeline.ClusterBsrStep | CHEWBBACA/CreateSchema/create_schema.py:422-444 | no exclusions without clusters; otherwise the exclusions are exactly the id table's values for the excluded headers, failing exactly when a header is missing from the table |
| SurvivorPipeline.FinalBlastStep | CHEWBBACA/CreateSchema/create_schema.py:463-517 | stops with the missing identifier when a sequence is missing; with makeblastdb's stderr as the error text exactly when it wrote any; with the concatenated BLAST stderr exactly when the database built and some BLAST job wrote one; with an unknown header exactly when no stderr was written and some excluded header is not the integer header of a compared record; otherwise the i-th exclusion is `seq_<k+1>` mapped back to the k-th compared identifier |
| SurvivorPipeline.Reduce | CHEWBBACA/CreateSchema/create_schema.py:369-517 | clustering, the representative and intra-cluster filters and cluster BLAST as the collaborators give them; the final BLAST compares the schema identifiers minus their exclusions, each once and sorted; the survivors are those minus the final exclusions; a failure is always a BLAST-stage abort |
| SurvivorPipeline.SurvivorsExcluded | CHEWBBACA/CreateSchema/create_schema.py:415-517 | the survivors were compared in the final BLAST, came from the identifiers entering clustering, and are disjoint from each of the four exclusion sets |
| SurvivorPipeline.SurvivorsAreValidCandidates | CHEWBBACA/CreateSchema/create_schema.py:322-363 | if the stages keep their promises, every survivor is a distinct DNA sequence that is long enough, translatable and indexed |
| SchemaLayout.LocusPathInjective | CHEWBBACA/CreateSchema/create_schema.py:162-165 | different loci get different paths |
| SchemaLayout.SchemaRecords | CHEWBBACA/CreateSchema/create_schema.py:159-160 | the record dictionary has one key per distinct locus name, and each holds the sequence of the last record with that name |
| SchemaLayout.LastRecordWins | CHEWBBACA/CreateSchema/create_schema.py:159-160 | filing one more record adds its name and overrides earlier records of that name |
| SchemaLayout.LocusOrder | CHEWBBACA/CreateSchema/create_schema.py:166 | the dictionary's iteration order lists every locus once |
| SchemaLayout.LocusTakesLastSequence | CHEWBBACA/CreateSchema/create_schema.py:159-160 | every locus holds the sequence of a representative with its name that no later representative shares |
| SchemaLayout.LocusCountIff | CHEWBBACA/CreateSchema/create_schema.py:159-165 | at most one locus per representative, and exactly one each when no two sanitise to the same name |
| SchemaLayout.WrittenFilesPaths | CHEWBBACA/CreateSchema/create_schema.py:166-169 | a file is written at a locus' path and nowhere else |
| SchemaLayout.WrittenFilesContent | CHEWBBACA/CreateSchema/create_schema.py:166-169 | each locus file holds one record, `<locus>_1`, with that locus' sequence |
| SchemaLayout.WrittenFilesCount | CHEWBBACA/CreateSchema/create_schema.py:166-169 | distinct loci give as many files as loci |
| SchemaLayout.WriteLocusFiles | CHEWBBACA/CreateSchema/create_schema.py:166-169 | the loop adds exactly the locus files and leaves the directories alone |
| SchemaLayout.CreateSchemaStructure | CHEWBBACA/CreateSchema/create_schema.py:155-174 | creates the schema directory, writes one file per locus, and returns each locus' path |
| CreateSchema.FailureReport | CHEWBBACA/CreateSchema/create_schema.py:265-272 | the only file the failure report writes is `gene_prediction_failures.tsv` in the output directory |
| CreateSchema.FailureReportLists | CHEWBBACA/CreateSchema/create_schema.py:262-272 | `gene_prediction_failures.tsv` is written exactly when some genome failed, and then holds one `path<TAB>message` line per failed path, each failed path listed, and nothing else |
| CreateSchema.LocusPathNotInOutputDir | CHEWBBACA/CreateSchema/create_schema.py:155-165 | a locus file is never a file directly in the output directory |
| CreateSchema.OutputPathsDistinct | CHEWBBACA/CreateSchema/create_schema.py:270-271 | the two reports and the locus files never share a path |
| CreateSchema.AcquireStage | CHEWBBACA/CreateSchema/create_schema.py:200-272 | creates `temp` and `temp/2_cds_files`; acquisition as `AcquireCds` states; on success the failure report is the only file written, and a stop writes nothing |
| CreateSchema.PreprocessStage | CHEWBBACA/CreateSchema/create_schema.py:280-363 | one chunk file per group the chunker returns, numbered from 1; preprocessing of those files under the kept genomes' ids; then `invalid_cds.txt` with the invalid lines and no other change |
| CreateSchema.Prepare | CHEWBBACA/CreateSchema/create_schema.py:200-363 | stops with "no CDS" exactly when predict mode found none, having written nothing; otherwise acquisition, chunking and preprocessing as their stages state, with the failure report and `invalid_cds.txt` written |
| CreateSchema.Complete | CHEWBBACA/CreateSchema/create_schema.py:369-527 | the BLAST stages as `Reduce` states; the survivors listed once each and looked up in the DNA index; it fails exactly when a BLAST stage stops or a survivor lacks a DNA sequence, leaving the files untouched; on success the schema holds one file per locus and each locus' path is returned |
| CreateSchema.OutcomeAbort | CHEWBBACA/CreateSchema/create_schema.py:506-524 | when the BLAST stages succeeded, any stop after preprocessing is a BLAST-stage abort (a missing DNA sequence); when they failed, the stop is theirs, which `OutcomeStopsAreBlastAborts` shows to be a BLAST-stage abort too |
| CreateSchema.OutcomeStopsAreBlastAborts | CHEWBBACA/CreateSchema/create_schema.py:415-524 | for an outcome that follows from the preprocessed sequences, every stop is a BLAST-stage abort: an unknown header, a missing sequence, or stderr from makeblastdb or BLAST |
| CreateSchema.ConformingStagesFindSequences | CHEWBBACA/CreateSchema/create_schema.py:322-524 | when the unseen stages keep the promises in `StagesConform`, every survivor has a DNA sequence, so only a BLAST stage can stop the run after preprocessing |
| CreateSchema.SeedFromGenomes | CHEWBBACA/CreateSchema/create_schema.py:200-543 | after the prefix check: stops with "no CDS" exactly when predict mode found none, and otherwise exactly where the BLAST stages or the DNA lookup stop; the files written at each stop; on success the two reports plus the schema |
| CreateSchema.CreateSchemaSeed | CHEWBBACA/CreateSchema/create_schema.py:177-543 | a repeated prefix stops the run with the exact report before any write; otherwise the run on the genomes the paths name, as `SeedFromGenomes` states |
| CreateSchema.DistinctLocusNames | CHEWBBACA/CreateSchema/create_schema.py:159-160 | survivors that sanitise apart give distinct locus names |
| CreateSchema.LociPerSurvivor | CHEWBBACA/CreateSchema/create_schema.py:524-527 | never more loci than survivors, and one per survivor when sanitising keeps them apart |
| CreateSchema.LocusHoldsSurvivorSequence | CHEWBBACA/CreateSchema/create_schema.py:524-527 | every locus holds the DNA sequence of a survivor that sanitises to its name |
| CreateSchema.Run | CHEWBBACA/CreateSchema/create_schema.py:565-589 | the run is that of `create_schema_seed` on the input lines sorted by lower-cased text, with the training file dropped in meta mode; refused exactly as the unsorted list would be, with nothing written; the directories and files left are those of the seed run at each kind of stop, and on success the two reports plus the schema; the reported count is the number of loci, at most the number of survivors |

## Left out

- Printing and progress messages: they are not modelled.
- The process pools (`mo.map_async_parallelizer`) and the predictor, BLAST and makeblastdb runs are left out. Their results are `Tools` fields.
- BSR and clustering thresholds, word and window sizes and worker counts are left out. They are folded into the `Tools` functions, and no floating-point arithmetic is modelled.
- `size_threshold`: the run accepts it but only prints it (lines 179, 558), so it is not modelled.
- Scratch directories under `temp` other than `2_cds_files` are not modelled. The same goes for the files written there: the prediction files, the concatenated chunk contents, the removal of per-genome files, the deduplication, translation and clustering files, `excluded.txt` (lines 449-450), the BLAST inputs and outputs, and the representatives FASTA. Each file is named in the model only where its name matters.
- The CDS coordinates table written when the inputs are genomes (lines 529-541) is not modelled. Coordinates are carried in `Acquired` but not written.
- The `short` directory (`fo.create_short`, line 172): its code is not part of this model.
- `main`'s removal of the temporary directory (line 586) is not modelled, because the files inside it are not modelled.
- Reading the input list (`fo.read_lines`, line 572): `Run` receives the stripped lines.
- `im.integer_mapping` of genome ids (lines 277-278): the deduplication collaborators receive the genome ids themselves.
- `fao.integer_headers` is not part of this model. It is taken to number records `<prefix>1`, `<prefix>2`, … in file order, and to return the table from new header to old.
- `fo.file_basename` and `fo.split_joiner` are taken to be `os.path.basename` and "field 0 of split on `.`".
- `os.path.join` is modelled as `dir + "/" + name`. This is the behaviour for relative names without a trailing separator.
- `str.lower()` is modelled for ASCII letters only. Other characters are kept as they are.
- The duplicate-prefix message is modelled as a map from prefix to count. The lines of text in set order are not modelled.
- `chewBBACA.py`: it is argument parsing and dispatch, and is not part of this model.
- Ordering.SortByLower: the contract states that the result is a permutation of the input, sorted by lower-cased text. It does not state that the sort is stable. Stability only matters for entries whose texts differ only in letter case.
- CdsAcquisition.AcquireCds: the order of the lines in `gene_prediction_failures.tsv` is not modelled. The source writes them in the predictor's dictionary order, and the model lists the failed paths in an unspecified order.
