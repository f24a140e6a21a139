/** `create_schema_structure`: one FASTA file per locus in the schema
    directory, holding the locus representative as allele 1. */
module SchemaLayout {
  import opened Sequences
  import opened Files

  /** `<schema dir>/<locus>.fasta`. */
  function LocusPath(schemaDir: string, locus: string): string {
    JoinPath(schemaDir, locus + ".fasta")
  }

  lemma LocusPathInjective(schemaDir: string)
    ensures forall a, b :: LocusPath(schemaDir, a) == LocusPath(schemaDir, b) ==> a == b
  {
    forall a, b | LocusPath(schemaDir, a) == LocusPath(schemaDir, b) ensures a == b {
      assert LocusPath(schemaDir, a) == (schemaDir + "/") + a + ".fasta";
      assert LocusPath(schemaDir, b) == (schemaDir + "/") + b + ".fasta";
      SandwichInjective(schemaDir + "/", a, b, ".fasta");
    }
  }

  /** The locus names of the representatives: their headers with the
      forbidden characters replaced, in file order. */
  function LocusNames(reps: seq<FastaRecord>, sanitize: string -> string): (names: seq<string>)
    ensures |names| == |reps|
    ensures forall i :: 0 <= i < |reps| ==> names[i] == sanitize(reps[i].header)
  {
    seq(|reps|, i requires 0 <= i < |reps| => sanitize(reps[i].header))
  }

  /** No later representative sanitises to the same locus name as `reps[i]`. */
  predicate LastWithName(reps: seq<FastaRecord>, sanitize: string -> string, i: int)
    requires 0 <= i < |reps|
  {
    forall j :: i < j < |reps| ==> sanitize(reps[j].header) != sanitize(reps[i].header)
  }

  /** `schema_records`: a dictionary from locus name to sequence, filled in
      file order, so a later record overwrites an earlier one whose header
      sanitises to the same name. */
  function SchemaRecords(reps: seq<FastaRecord>, sanitize: string -> string): (m: map<string, string>)
    ensures m.Keys == Elements(LocusNames(reps, sanitize))
    ensures forall i :: 0 <= i < |reps| && LastWithName(reps, sanitize, i) ==>
              m[sanitize(reps[i].header)] == reps[i].sequence
  {
    if |reps| == 0 then map[]
    else
      var last := reps[|reps| - 1];
      var m0 := SchemaRecords(reps[..|reps| - 1], sanitize);
      LastRecordWins(reps, sanitize, m0);
      m0[sanitize(last.header) := last.sequence]
  }

  /** Filing the final record after the others: the keys gain its name, and
      each record whose name does not occur later is what its name maps to. */
  lemma LastRecordWins(reps: seq<FastaRecord>, sanitize: string -> string, m0: map<string, string>)
    requires |reps| > 0
    requires var init := reps[..|reps| - 1];
      && m0.Keys == Elements(LocusNames(init, sanitize))
      && forall i :: 0 <= i < |init| && LastWithName(init, sanitize, i) ==>
           m0[sanitize(init[i].header)] == init[i].sequence
    ensures var last := reps[|reps| - 1];
      var m := m0[sanitize(last.header) := last.sequence];
      && m.Keys == Elements(LocusNames(reps, sanitize))
      && forall i :: 0 <= i < |reps| && LastWithName(reps, sanitize, i) ==>
           m[sanitize(reps[i].header)] == reps[i].sequence
  {
    var init, last := reps[..|reps| - 1], reps[|reps| - 1];
    var m := m0[sanitize(last.header) := last.sequence];
    assert LocusNames(reps, sanitize) == LocusNames(init, sanitize) + [sanitize(last.header)];
    forall i | 0 <= i < |reps| && LastWithName(reps, sanitize, i)
      ensures m[sanitize(reps[i].header)] == reps[i].sequence
    {
      if i < |init| {
        assert sanitize(reps[|reps| - 1].header) != sanitize(reps[i].header);
        assert init[i] == reps[i];
        assert LastWithName(init, sanitize, i) by {
          forall j | i < j < |init| ensures sanitize(init[j].header) != sanitize(init[i].header) {
            assert init[j] == reps[j];
          }
        }
      }
    }
  }

  /** The dictionary's iteration order: each locus where its name first occurs. */
  function LocusOrder(reps: seq<FastaRecord>, sanitize: string -> string): (loci: seq<string>)
    ensures Elements(loci) == SchemaRecords(reps, sanitize).Keys
    ensures NoDuplicates(loci)
  {
    FirstOccurrences(LocusNames(reps, sanitize))
  }

  /** Every locus takes the sequence of the last representative with its name. */
  lemma {:induction false} LocusTakesLastSequence(reps: seq<FastaRecord>, sanitize: string -> string, k: string)
    requires k in SchemaRecords(reps, sanitize)
    ensures exists i :: 0 <= i < |reps| && sanitize(reps[i].header) == k && LastWithName(reps, sanitize, i)
                        && SchemaRecords(reps, sanitize)[k] == reps[i].sequence
  {
    var names := LocusNames(reps, sanitize);
    assert k in names;
    var i :| 0 <= i < |reps| && names[i] == k;
    while i + 1 < |reps| && exists j :: i < j < |reps| && names[j] == k
      invariant 0 <= i < |reps| && names[i] == k
      decreases |reps| - i
    {
      var j :| i < j < |reps| && names[j] == k;
      i := j;
    }
    assert LastWithName(reps, sanitize, i);
  }

  /** One locus per representative exactly when no two representatives
      sanitise to the same name; otherwise loci are merged. */
  lemma LocusCountIff(reps: seq<FastaRecord>, sanitize: string -> string)
    ensures |SchemaRecords(reps, sanitize)| <= |reps|
    ensures |SchemaRecords(reps, sanitize)| == |reps| <==> NoDuplicates(LocusNames(reps, sanitize))
  {
    ElementsCardinality(LocusNames(reps, sanitize));
  }

  /** The single-record FASTA file of a locus: allele 1 is its representative. */
  function LocusFile(locus: string, sequence: string): Content {
    Fasta([FastaRecord(locus + "_1", sequence)])
  }

  /** The files written after visiting `loci` in order, one file per visit. */
  function WrittenFiles(schemaDir: string, records: map<string, string>, loci: seq<string>): map<string, Content>
    requires forall i :: 0 <= i < |loci| ==> loci[i] in records
  {
    if loci == [] then map[]
    else
      var k := loci[|loci| - 1];
      WrittenFiles(schemaDir, records, loci[..|loci| - 1])[LocusPath(schemaDir, k) := LocusFile(k, records[k])]
  }

  /** Visiting loci writes a file at each locus' path and nowhere else. */
  lemma {:induction false} WrittenFilesPaths(schemaDir: string, records: map<string, string>, loci: seq<string>)
    requires forall i :: 0 <= i < |loci| ==> loci[i] in records
    ensures forall p :: p in WrittenFiles(schemaDir, records, loci) <==>
              exists i :: 0 <= i < |loci| && p == LocusPath(schemaDir, loci[i])
  {
    if loci != [] {
      var init := loci[..|loci| - 1];
      WrittenFilesPaths(schemaDir, records, init);
      forall p ensures p in WrittenFiles(schemaDir, records, loci) <==>
                       exists i :: 0 <= i < |loci| && p == LocusPath(schemaDir, loci[i]) {
        if exists i :: 0 <= i < |loci| && p == LocusPath(schemaDir, loci[i]) {
          var i :| 0 <= i < |loci| && p == LocusPath(schemaDir, loci[i]);
          if i < |init| {
            assert p == LocusPath(schemaDir, init[i]);
          }
        }
      }
    }
  }

  /** Each locus file holds that locus' own sequence as allele 1. */
  lemma {:induction false} WrittenFilesContent(schemaDir: string, records: map<string, string>, loci: seq<string>)
    requires forall i :: 0 <= i < |loci| ==> loci[i] in records
    ensures forall i :: 0 <= i < |loci| ==>
              LocusPath(schemaDir, loci[i]) in WrittenFiles(schemaDir, records, loci) &&
              WrittenFiles(schemaDir, records, loci)[LocusPath(schemaDir, loci[i])] == LocusFile(loci[i], records[loci[i]])
  {
    if loci != [] {
      var init, k := loci[..|loci| - 1], loci[|loci| - 1];
      WrittenFilesContent(schemaDir, records, init);
      LocusPathInjective(schemaDir);
      forall i | 0 <= i < |loci|
        ensures LocusPath(schemaDir, loci[i]) in WrittenFiles(schemaDir, records, loci)
        ensures WrittenFiles(schemaDir, records, loci)[LocusPath(schemaDir, loci[i])] == LocusFile(loci[i], records[loci[i]])
      {
        if i < |init| {
          assert loci[i] == init[i];
        }
      }
    }
  }

  /** Distinct loci give as many files as loci. */
  lemma {:induction false} WrittenFilesCount(schemaDir: string, records: map<string, string>, loci: seq<string>)
    requires forall i :: 0 <= i < |loci| ==> loci[i] in records
    requires NoDuplicates(loci)
    ensures |WrittenFiles(schemaDir, records, loci)| == |loci|
  {
    if loci != [] {
      var init, k := loci[..|loci| - 1], loci[|loci| - 1];
      WrittenFilesCount(schemaDir, records, init);
      WrittenFilesPaths(schemaDir, records, init);
      assert k !in init;
      assert LocusPath(schemaDir, k) !in WrittenFiles(schemaDir, records, init) by {
        LocusPathInjective(schemaDir);
      }
    }
  }

  /** Overwriting a key of the right operand of a union. */
  lemma UnionUpdate<K, V>(a: map<K, V>, b: map<K, V>, k: K, v: V)
    ensures (a + b)[k := v] == a + b[k := v]
  {
  }

  /** The loop over `schema_records`: one file written per locus, in order. */
  method WriteLocusFiles(fs: FileSystem, schemaDir: string, records: map<string, string>, loci: seq<string>)
    requires forall i :: 0 <= i < |loci| ==> loci[i] in records
    modifies fs
    ensures fs.dirs == old(fs.dirs)
    ensures fs.files == old(fs.files) + WrittenFiles(schemaDir, records, loci)
  {
    for i := 0 to |loci|
      invariant fs.dirs == old(fs.dirs)
      invariant fs.files == old(fs.files) + WrittenFiles(schemaDir, records, loci[..i])
    {
      var k := loci[i];
      ghost var before := WrittenFiles(schemaDir, records, loci[..i]);
      fs.WriteFile(LocusPath(schemaDir, k), LocusFile(k, records[k]));
      assert loci[..i + 1][..i] == loci[..i];
      UnionUpdate(old(fs.files), before, LocusPath(schemaDir, k), LocusFile(k, records[k]));
    }
    assert loci[..|loci|] == loci;
  }

  /** `create_schema_structure`: creates the schema directory, writes one
      file per locus in the dictionary's order and returns each locus' path. */
  method CreateSchemaStructure(fs: FileSystem, representatives: seq<FastaRecord>, outputDir: string,
                               schemaName: string, sanitize: string -> string)
    returns (lociPaths: map<string, string>)
    modifies fs
    ensures var records := SchemaRecords(representatives, sanitize);
      && fs.dirs == old(fs.dirs) + {JoinPath(outputDir, schemaName)}
      && fs.files == old(fs.files) + WrittenFiles(JoinPath(outputDir, schemaName), records, LocusOrder(representatives, sanitize))
      && lociPaths.Keys == records.Keys
      && forall k :: k in lociPaths ==> lociPaths[k] == LocusPath(JoinPath(outputDir, schemaName), k)
  {
    var schemaDir := JoinPath(outputDir, schemaName);
    fs.CreateDirectory(schemaDir);
    var records := SchemaRecords(representatives, sanitize);
    var loci := LocusOrder(representatives, sanitize);
    lociPaths := map k | k in records :: LocusPath(schemaDir, k);
    WriteLocusFiles(fs, schemaDir, records, loci);
  }
}
