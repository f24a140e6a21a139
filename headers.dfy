/** Integer headers: before a sequence file is handed to BLAST, its records are
    renamed `<prefix>1`, `<prefix>2`, ... in file order and a table maps each
    new header back to the original identifier. */
module IntegerHeaders {
  import opened Wrappers
  import opened Sequences
  import opened Decimal
  import opened Files

  /** The header given to the record at 0-based position `i`. */
  function HeaderAt(prefix: string, i: nat): string {
    prefix + NatToString(i + 1)
  }

  lemma HeaderAtInjective(prefix: string)
    ensures forall i: nat, j: nat :: HeaderAt(prefix, i) == HeaderAt(prefix, j) ==> i == j
  {
    forall i: nat, j: nat | HeaderAt(prefix, i) == HeaderAt(prefix, j) ensures i == j {
      SandwichInjective(prefix, NatToString(i + 1), NatToString(j + 1), []);
      NatToStringInjective(i + 1, j + 1);
    }
  }

  /** The headers of a renamed file of `count` records, in file order. */
  function HeaderNames(prefix: string, count: nat): (hs: seq<string>)
    ensures |hs| == count && NoDuplicates(hs)
  {
    HeaderAtInjective(prefix);
    seq(count, i requires 0 <= i < count => HeaderAt(prefix, i))
  }

  /** The renamed records: same sequences, integer headers. */
  function IntegerRecords(prefix: string, records: seq<FastaRecord>): seq<FastaRecord> {
    seq(|records|, i requires 0 <= i < |records| => FastaRecord(HeaderAt(prefix, i), records[i].sequence))
  }

  /** The table from integer header back to the identifier it replaced. */
  function HeaderTable(prefix: string, ids: seq<string>): (table: map<string, string>)
    ensures forall i :: 0 <= i < |ids| ==> HeaderAt(prefix, i) in table && table[HeaderAt(prefix, i)] == ids[i]
  {
    HeaderAtInjective(prefix);
    map i | 0 <= i < |ids| :: HeaderAt(prefix, i) := ids[i]
  }

  /** The table's keys are the integer headers. */
  lemma HeaderTableKeys(prefix: string, ids: seq<string>)
    ensures HeaderTable(prefix, ids).Keys == Elements(HeaderNames(prefix, |ids|))
  {
    var table := HeaderTable(prefix, ids);
    var names := HeaderNames(prefix, |ids|);
    forall h | h in table.Keys ensures h in Elements(names) {
      var i :| 0 <= i < |ids| && h == HeaderAt(prefix, i);
      assert names[i] == h;
    }
    forall h | h in Elements(names) ensures h in table.Keys {
      var i :| 0 <= i < |names| && names[i] == h;
    }
  }

  /** The table's values are the original identifiers. */
  lemma HeaderTableValues(prefix: string, ids: seq<string>)
    ensures HeaderTable(prefix, ids).Values == Elements(ids)
  {
    var table := HeaderTable(prefix, ids);
    forall x | x in table.Values ensures x in Elements(ids) {
      var h :| h in table && table[h] == x;
      var i :| 0 <= i < |ids| && h == HeaderAt(prefix, i);
    }
    forall x | x in Elements(ids) ensures x in table.Values {
      var i :| 0 <= i < |ids| && ids[i] == x;
      assert table[HeaderAt(prefix, i)] == x;
    }
  }

  /** The table has one entry per renamed record: its keys are the integer
      headers and its values the original identifiers. */
  lemma HeaderTableShape(prefix: string, ids: seq<string>)
    ensures HeaderTable(prefix, ids).Keys == Elements(HeaderNames(prefix, |ids|))
    ensures HeaderTable(prefix, ids).Values == Elements(ids)
    ensures |HeaderTable(prefix, ids)| == |ids|
  {
    var table := HeaderTable(prefix, ids);
    var names := HeaderNames(prefix, |ids|);
    HeaderTableKeys(prefix, ids);
    HeaderTableValues(prefix, ids);
    ElementsCardinality(names);
    assert |table| == |table.Keys|;
  }

  /** `[table[h] for h in headers]`: each header mapped back; the first header
      the table lacks raises (its KeyError is the Failure). */
  function MapBack(headers: seq<string>, table: map<string, string>): (r: Result<seq<string>, string>)
    ensures r.Success? <==> forall i :: 0 <= i < |headers| ==> headers[i] in table
    ensures r.Success? ==> |r.value| == |headers|
    ensures r.Success? ==> forall i :: 0 <= i < |headers| ==> r.value[i] == table[headers[i]]
    ensures r.Failure? ==> r.error in headers && r.error !in table
    ensures r.Failure? ==>
      exists i :: 0 <= i < |headers| && headers[i] == r.error && forall j :: 0 <= j < i ==> headers[j] in table
  {
    if headers == [] then Success([])
    else if headers[0] !in table then Failure(headers[0])
    else match MapBack(headers[1..], table)
      case Failure(h) =>
        var i :| 0 <= i < |headers[1..]| && headers[1..][i] == h
                 && forall j :: 0 <= j < i ==> headers[1..][j] in table;
        assert headers[i + 1] == h && forall j :: 0 <= j < i + 1 ==> headers[j] in table;
        Failure(h)
      case Success(rest) => Success([table[headers[0]]] + rest)
  }

  /** Renaming is lossless: mapping every integer header back restores the
      original identifiers, in order. */
  lemma {:induction false} HeaderRoundTrip(prefix: string, ids: seq<string>)
    ensures MapBack(HeaderNames(prefix, |ids|), HeaderTable(prefix, ids)) == Success(ids)
  {
    var names, table := HeaderNames(prefix, |ids|), HeaderTable(prefix, ids);
    forall i | 0 <= i < |names| ensures names[i] in table {
      assert names[i] == HeaderAt(prefix, i);
    }
    var r := MapBack(names, table);
    assert r.value == ids by {
      forall i | 0 <= i < |ids| ensures r.value[i] == ids[i] {
        assert names[i] == HeaderAt(prefix, i);
      }
    }
  }

  /** Whatever BLAST reports under integer headers maps back to the identifier
      of the record that was given that header, so into the identifiers that
      were renamed. */
  lemma MappedBackWithin(prefix: string, ids: seq<string>, headers: seq<string>)
    requires MapBack(headers, HeaderTable(prefix, ids)).Success?
    ensures var r := MapBack(headers, HeaderTable(prefix, ids)).value;
      forall i :: 0 <= i < |r| ==>
        exists k :: 0 <= k < |ids| && headers[i] == HeaderAt(prefix, k) && r[i] == ids[k]
    ensures Elements(MapBack(headers, HeaderTable(prefix, ids)).value) <= Elements(ids)
  {
    var table := HeaderTable(prefix, ids);
    var names := HeaderNames(prefix, |ids|);
    var r := MapBack(headers, table).value;
    HeaderTableKeys(prefix, ids);
    forall i | 0 <= i < |r|
      ensures exists k :: 0 <= k < |ids| && headers[i] == HeaderAt(prefix, k) && r[i] == ids[k]
    {
      assert headers[i] in table;
      assert headers[i] in Elements(names);
      var k :| 0 <= k < |names| && names[k] == headers[i];
      assert headers[i] == HeaderAt(prefix, k);
      assert r[i] == table[headers[i]] == ids[k];
    }
    forall x | x in r ensures x in Elements(ids) {
      var i :| 0 <= i < |r| && r[i] == x;
      var k :| 0 <= k < |ids| && headers[i] == HeaderAt(prefix, k) && r[i] == ids[k];
      assert ids[k] in ids;
    }
  }
}
