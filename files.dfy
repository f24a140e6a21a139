/** The part of the file system the schema-creation process leaves behind:
    directories, line-oriented report files and FASTA files. */
module Files {
  import opened Wrappers

  /** `os.path.join(dir, name)` for a relative name. */
  function JoinPath(dir: string, name: string): string {
    dir + "/" + name
  }

  /** Different names in one directory are different paths. */
  lemma JoinPathDistinct(dir: string, name1: string, name2: string)
    requires name1 != name2
    ensures JoinPath(dir, name1) != JoinPath(dir, name2)
  {
    assert JoinPath(dir, name1)[|dir| + 1..] == name1;
    assert JoinPath(dir, name2)[|dir| + 1..] == name2;
  }

  /** One FASTA record: its header (the identifier) and its sequence. */
  datatype FastaRecord = FastaRecord(header: string, sequence: string)

  datatype Content =
    | Lines(lines: seq<string>)           // a text file written line by line
    | Fasta(records: seq<FastaRecord>)    // a FASTA file

  /** `fao.get_sequences_by_id`: the records of `ids`, in that order, taken from
      an indexed FASTA file; the first identifier the index lacks raises. */
  function GetSequencesById(index: map<string, string>, ids: seq<string>): (r: Result<seq<FastaRecord>, string>)
    ensures r.Success? ==> |r.value| == |ids|
    ensures r.Success? ==> forall i :: 0 <= i < |ids| ==>
              ids[i] in index && r.value[i] == FastaRecord(ids[i], index[ids[i]])
    ensures r.Failure? <==> exists i :: 0 <= i < |ids| && ids[i] !in index
    ensures r.Failure? ==> r.error in ids && r.error !in index
  {
    if ids == [] then Success([])
    else if ids[0] !in index then Failure(ids[0])
    else match GetSequencesById(index, ids[1..])
      case Failure(missing) => Failure(missing)
      case Success(rest) => Success([FastaRecord(ids[0], index[ids[0]])] + rest)
  }

  /** Directories and files, by path. */
  class FileSystem {
    var dirs: set<string>
    var files: map<string, Content>

    constructor ()
      ensures dirs == {} && files == map[]
    {
      dirs := {};
      files := map[];
    }

    /** `fo.create_directory`. */
    method CreateDirectory(path: string)
      modifies this
      ensures dirs == old(dirs) + {path} && files == old(files)
    {
      dirs := dirs + {path};
    }

    /** Writing a file in mode 'w': its previous content is replaced. */
    method WriteFile(path: string, content: Content)
      modifies this
      ensures files == old(files)[path := content] && dirs == old(dirs)
    {
      files := files[path := content];
    }
  }
}
