/** The genome registry: each input file is named by the part of its file
    name before the first '.', and a run whose inputs do not have one such
    prefix each is refused before any work starts. */
module GenomeRegistry {
  import opened Wrappers
  import opened Sequences

  /** One entry of the `input_basenames` dictionary: input path and genome id. */
  datatype Entry = Entry(path: string, id: string)

  /** `os.path.basename`: the text after the last '/'. */
  function Basename(p: string): (b: string)
    ensures |b| <= |p| && b == p[|p| - |b|..]
    ensures '/' !in b
    ensures |b| == |p| || p[|p| - |b| - 1] == '/'
  {
    if p == [] || p[|p| - 1] == '/' then []
    else
      var b' := Basename(p[..|p| - 1]);
      assert p == p[..|p| - 1] + [p[|p| - 1]];
      b' + [p[|p| - 1]]
  }

  /** Field 0 of `s.split('.')`: the text before the first '.'. */
  function BeforeFirstDot(s: string): (r: string)
    ensures r <= s && '.' !in r
    ensures r == s || s[|r|] == '.'
  {
    if s == [] || s[0] == '.' then [] else [s[0]] + BeforeFirstDot(s[1..])
  }

  /** The genome identifier of an input path. */
  function GenomeId(path: string): string {
    BeforeFirstDot(Basename(path))
  }

  function GenomeIds(paths: seq<string>): seq<string> {
    seq(|paths|, i requires 0 <= i < |paths| => GenomeId(paths[i]))
  }

  /** The `input_basenames` dictionary, in insertion order. */
  function InputBasenames(paths: seq<string>): (entries: seq<Entry>)
  {
    var d := FirstOccurrences(paths);
    seq(|d|, i requires 0 <= i < |d| => Entry(d[i], GenomeId(d[i])))
  }

  /** The dictionary's values, `list(input_basenames.values())`. */
  function Ids(entries: seq<Entry>): seq<string> {
    seq(|entries|, i requires 0 <= i < |entries| => entries[i].id)
  }

  /** The `prefix: count` report: every prefix that occurs more than once in
      `ids`, with its number of occurrences. */
  function RepeatedPrefixes(ids: seq<string>): map<string, nat> {
    map p | p in Elements(ids) && multiset(ids)[p] > 1 :: multiset(ids)[p]
  }

  /** The fail-fast check on the inputs: None lets the run proceed, Some(report)
      stops it with the repeated prefixes. */
  function CheckPrefixes(paths: seq<string>): Option<map<string, nat>> {
    var ids := Ids(InputBasenames(paths));
    if |Elements(ids)| < |paths| then Some(RepeatedPrefixes(ids)) else None
  }

  /** The run proceeds exactly when no two inputs (counted with repetition)
      have the same genome identifier. */
  lemma PrefixCheckPassesIff(paths: seq<string>)
    ensures CheckPrefixes(paths).None? <==> NoDuplicates(GenomeIds(paths))
  {
    var d := FirstOccurrences(paths);
    var ids := Ids(InputBasenames(paths));
    ElementsCardinality(ids);
    ElementsCardinality(d);
    ElementsCardinality(paths);
    assert |Elements(d)| == |Elements(paths)|;
    if NoDuplicates(GenomeIds(paths)) {
      assert NoDuplicates(paths) by {
        forall i, j | 0 <= i < j < |paths| ensures paths[i] != paths[j] {
          assert GenomeIds(paths)[i] != GenomeIds(paths)[j];
        }
      }
      assert ids == GenomeIds(paths);
    }
    if CheckPrefixes(paths).None? {
      assert NoDuplicates(paths);
      assert ids == GenomeIds(paths);
    }
  }

  /** The distinct input paths whose genome identifier is `p`. */
  function Sharing(paths: seq<string>, p: string): set<string> {
    Preimage(GenomeId, paths, p)
  }

  /** The report lists exactly the prefixes shared by several distinct input
      paths, each with the number of those paths. */
  lemma PrefixReportIsExact(paths: seq<string>)
    requires CheckPrefixes(paths).Some?
    ensures var report := CheckPrefixes(paths).value;
            && (forall p :: p in report <==> |Sharing(paths, p)| > 1)
            && (forall p :: p in report ==> report[p] == |Sharing(paths, p)|)
  {
    var ids := Ids(InputBasenames(paths));
    var report := CheckPrefixes(paths).value;
    assert report == RepeatedPrefixes(ids);
    forall p ensures (p in report <==> |Sharing(paths, p)| > 1)
                 && (p in report ==> report[p] == |Sharing(paths, p)|) {
      SharingCount(paths, p);
      assert p in report <==> multiset(ids)[p] > 1;
    }
  }

  /** A genome identifier occurs in the dictionary's values once per distinct
      path that has it. */
  lemma SharingCount(paths: seq<string>, p: string)
    ensures multiset(Ids(InputBasenames(paths)))[p] == |Sharing(paths, p)|
  {
    var d := FirstOccurrences(paths);
    IdsOfKeys(paths);
    MapCount(GenomeId, d, p);
    var viaKeys := Preimage(GenomeId, d, p);
    forall x ensures x in viaKeys <==> x in Sharing(paths, p) {
      assert x in d <==> x in Elements(d);
      assert x in paths <==> x in Elements(paths);
    }
    assert viaKeys == Sharing(paths, p);
  }

  /** The report is empty exactly when the distinct input paths all have
      different prefixes, which happens when the run is refused only because
      an input path was listed more than once. */
  lemma EmptyReportIff(paths: seq<string>)
    requires CheckPrefixes(paths).Some?
    ensures CheckPrefixes(paths).value == map[] <==> NoDuplicates(Ids(InputBasenames(paths)))
  {
    var ids := Ids(InputBasenames(paths));
    var report := RepeatedPrefixes(ids);
    assert CheckPrefixes(paths).value == report;
    NoDuplicatesCounts(ids);
    if report == map[] {
      forall x ensures multiset(ids)[x] <= 1 {
        assert x !in report;
      }
    } else {
      var p :| p in report;
      assert multiset(ids)[p] > 1;
    }
  }

  /** Listing a file twice refuses the run even when every file has its own
      prefix (the report is then empty, by `EmptyReportIff`): the dictionary
      keeps one entry per path, but the check counts the list. */
  lemma RepeatedPathRefused(paths: seq<string>)
    requires !NoDuplicates(paths)
    ensures CheckPrefixes(paths).Some?
  {
    var d := FirstOccurrences(paths);
    ElementsCardinality(paths);
    ElementsCardinality(d);
    ElementsCardinality(Ids(InputBasenames(paths)));
  }

  /** A run that passes the check goes on with distinct genome identifiers. */
  lemma PassedCheckDistinctIds(paths: seq<string>)
    requires CheckPrefixes(paths).None?
    ensures NoDuplicates(Ids(InputBasenames(paths)))
  {
    PrefixCheckPassesIff(paths);
    assert NoDuplicates(paths) by {
      forall i, j | 0 <= i < j < |paths| ensures paths[i] != paths[j] {
        assert GenomeIds(paths)[i] != GenomeIds(paths)[j];
      }
    }
    assert Ids(InputBasenames(paths)) == GenomeIds(paths);
  }

  /** The dictionary's values are the genome identifiers of its keys. */
  lemma IdsOfKeys(paths: seq<string>)
    ensures Ids(InputBasenames(paths)) == Map(GenomeId, FirstOccurrences(paths))
  {
    MapAt(GenomeId, FirstOccurrences(paths));
  }

  /** Permuted input lists give permuted identifier lists. */
  lemma IdsPermutation(a: seq<string>, b: seq<string>)
    requires multiset(a) == multiset(b)
    ensures multiset(Ids(InputBasenames(a))) == multiset(Ids(InputBasenames(b)))
  {
    PermutationElements(a, b);
    DistinctPermutation(FirstOccurrences(a), FirstOccurrences(b));
    MapPermutation(GenomeId, FirstOccurrences(a), FirstOccurrences(b));
    IdsOfKeys(a);
    IdsOfKeys(b);
  }

  /** The check and its report depend only on which paths are listed and how
      often, not on their order: sorting the input list first changes
      neither. */
  lemma PrefixCheckIgnoresOrder(a: seq<string>, b: seq<string>)
    requires multiset(a) == multiset(b)
    ensures CheckPrefixes(a) == CheckPrefixes(b)
  {
    assert |a| == |multiset(a)| == |multiset(b)| == |b|;
    IdsPermutation(a, b);
    PermutationElements(Ids(InputBasenames(a)), Ids(InputBasenames(b)));
  }
}
