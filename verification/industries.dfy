/**
 * GET /industries (routes/industries.js): the rows of
 * industries LEFT JOIN company_industries LEFT JOIN companies are folded into
 * an object keyed by industry name, each holding the distinct non-null
 * company codes of that industry, and the object is then listed as one
 * single-key record per industry, in the order the keys were added.
 */
module Industries {
  import opened Api
  import opened Dedup

  /** One joined row: `industry` and `code`, the code NULL when no company is linked. */
  datatype IndustryRow = IndustryRow(industry: string, code: Option<string>)

  /** The value `{companies: [...]}` stored under each industry name. */
  datatype CompanyList = CompanyList(companies: seq<string>)

  /** One element of the response list, the object `{[industry]: {companies}}`. */
  type IndustryRecord = map<string, CompanyList>

  /** The body `{industries: [...]}`. */
  datatype IndustriesBody = IndustriesBody(industries: seq<IndustryRecord>)

  // ---------------------------------------------------------------------------
  // Reference definition of the grouping

  /** The industry column of the rows, in row order. */
  function IndustryNames(rows: seq<IndustryRow>): seq<string>
    decreases |rows|
  {
    if |rows| == 0 then []
    else IndustryNames(rows[..|rows| - 1]) + [rows[|rows| - 1].industry]
  }

  /** The non-null codes of the rows of `industry`, in row order, repeats included. */
  function CodesOf(rows: seq<IndustryRow>, industry: string): seq<string>
    decreases |rows|
  {
    if |rows| == 0 then []
    else
      var last := rows[|rows| - 1];
      var earlier := CodesOf(rows[..|rows| - 1], industry);
      if last.industry == industry && last.code.Some? then earlier + [last.code.value] else earlier
  }

  /** The industries of the response, each once, in first-seen order. */
  function Industries(rows: seq<IndustryRow>): seq<string> {
    Distinct(IndustryNames(rows))
  }

  /** The `companies` list of `industry`: its distinct non-null codes, in first-seen order. */
  function CompaniesOf(rows: seq<IndustryRow>, industry: string): seq<string> {
    Distinct(CodesOf(rows, industry))
  }

  /** The accumulator the fold should end with, as a map from industry name. */
  function Groups(rows: seq<IndustryRow>): map<string, CompanyList> {
    map ind | ind in IndustryNames(rows) :: CompanyList(CompaniesOf(rows, ind))
  }

  /**
   * `Object.keys(acc).map(key => ({[key]: acc[key]}))`: one single-key record
   * per key, in key order (routes/industries.js:33-35).
   */
  function Format(keys: seq<string>, acc: map<string, CompanyList>): (records: seq<IndustryRecord>)
    requires forall k :: k in keys ==> k in acc
    ensures |records| == |keys|
    ensures forall i :: 0 <= i < |keys| ==>
      records[i].Keys == {keys[i]} && records[i][keys[i]] == acc[keys[i]]
  {
    seq(|keys|, i requires 0 <= i < |keys| => map[keys[i] := acc[keys[i]]])
  }

  /** The response list the handler should produce for `rows`. */
  function Grouped(rows: seq<IndustryRow>): (records: seq<IndustryRecord>)
  {
    DistinctMembers(IndustryNames(rows));
    Format(Industries(rows), Groups(rows))
  }

  // ---------------------------------------------------------------------------
  // The fold of routes/industries.js:20-31

  /** Appending a row appends its industry to the industry column. */
  lemma NamesStep(rows: seq<IndustryRow>, row: IndustryRow)
    ensures IndustryNames(rows + [row]) == IndustryNames(rows) + [row.industry]
  {
  }

  /** Appending a row appends its code to its industry's codes, when the code is not null. */
  lemma CodesStep(rows: seq<IndustryRow>, row: IndustryRow, industry: string)
    ensures CodesOf(rows + [row], industry) ==
      if row.industry == industry && row.code.Some? then CodesOf(rows, industry) + [row.code.value]
      else CodesOf(rows, industry)
  {
  }

  /** Appending a row adds its industry to the list when the industry is new. */
  lemma IndustriesStep(rows: seq<IndustryRow>, row: IndustryRow)
    ensures Industries(rows + [row]) ==
      if row.industry in Groups(rows) then Industries(rows) else Industries(rows) + [row.industry]
  {
    NamesStep(rows, row);
    DistinctMembers(IndustryNames(rows));
    var names := IndustryNames(rows) + [row.industry];
    assert names[..|names| - 1] == IndustryNames(rows);
  }

  /** Appending a row appends its code to its industry's list, when the code is not null and not yet listed. */
  lemma CompaniesStep(rows: seq<IndustryRow>, row: IndustryRow, industry: string)
    ensures CompaniesOf(rows + [row], industry) ==
      if row.industry == industry && row.code.Some? && row.code.value !in CompaniesOf(rows, industry)
      then CompaniesOf(rows, industry) + [row.code.value]
      else CompaniesOf(rows, industry)
  {
  }

  /** An industry that no row names has no codes. */
  lemma {:induction false} CodesOfAbsent(rows: seq<IndustryRow>, industry: string)
    requires industry !in IndustryNames(rows)
    ensures CodesOf(rows, industry) == []
  {
    if |rows| > 0 {
      CodesOfAbsent(rows[..|rows| - 1], industry);
    }
  }

  /**
   * The reducer and the formatting: a dictionary `acc` from industry name to
   * `{companies}`, with `keys` recording the order in which its keys were
   * added (the order `Object.keys` reports for non-numeric keys).
   */
  method GroupByIndustry(rows: seq<IndustryRow>) returns (records: seq<IndustryRecord>)
    ensures records == Grouped(rows)
  {
    var acc: map<string, CompanyList> := map[];
    var keys: seq<string> := [];
    var i := 0;
    while i < |rows|
      invariant i <= |rows|
      invariant keys == Industries(rows[..i])
      invariant forall k :: k in acc <==> k in IndustryNames(rows[..i])
      invariant forall k :: k in acc ==> acc[k] == CompanyList(CompaniesOf(rows[..i], k))
    {
      var row := rows[i];
      assert rows[..i + 1] == rows[..i] + [row];
      NamesStep(rows[..i], row);
      IndustriesStep(rows[..i], row);
      if row.industry !in acc {
        CodesOfAbsent(rows[..i], row.industry);
        acc := acc[row.industry := CompanyList([])];
        keys := keys + [row.industry];
      }
      if row.code.Some? && row.code.value !in acc[row.industry].companies {
        acc := acc[row.industry := CompanyList(acc[row.industry].companies + [row.code.value])];
      }
      forall k | k in acc
        ensures acc[k] == CompanyList(CompaniesOf(rows[..i + 1], k))
      {
        CompaniesStep(rows[..i], row, k);
      }
      i := i + 1;
    }
    assert rows[..i] == rows;
    assert acc == Groups(rows);
    DistinctMembers(IndustryNames(rows));
    records := Format(keys, acc);
  }

  /** The GET / handler (routes/industries.js:10-41). */
  method GetIndustries(q: Rows<IndustryRow>) returns (r: Response<IndustriesBody>)
    ensures q.Err? ==> r == Fail(Propagated(q.error))
    ensures q.Ok? ==> r == Reply(200, IndustriesBody(Grouped(q.value)))
  {
    match q
    case Err(e) =>
      r := Fail(Propagated(e));
    case Ok(rows) =>
      var records := GroupByIndustry(rows);
      r := Reply(200, IndustriesBody(records));
  }

  // ---------------------------------------------------------------------------
  // What the response promises

  /** Each record has exactly one key, the industry name, holding that industry's list. */
  lemma RecordShape(rows: seq<IndustryRow>)
    ensures |Grouped(rows)| == |Industries(rows)|
    ensures forall i :: 0 <= i < |Grouped(rows)| ==>
      |Grouped(rows)[i]| == 1 && Grouped(rows)[i].Keys == {Industries(rows)[i]} &&
      Grouped(rows)[i][Industries(rows)[i]].companies == CompaniesOf(rows, Industries(rows)[i])
  {
  }

  /** Every industry of the rows is listed, exactly once, and nothing else is. */
  lemma EachIndustryOnce(rows: seq<IndustryRow>)
    ensures forall ind :: ind in Industries(rows) <==> exists k :: 0 <= k < |rows| && rows[k].industry == ind
    ensures NoDuplicates(Industries(rows))
  {
    DistinctMembers(IndustryNames(rows));
    DistinctNoDuplicates(IndustryNames(rows));
    IndustryNamesAt(rows);
  }

  /** The industry column lists exactly the rows' industries, row by row. */
  lemma {:induction false} IndustryNamesAt(rows: seq<IndustryRow>)
    ensures |IndustryNames(rows)| == |rows|
    ensures forall k :: 0 <= k < |rows| ==> IndustryNames(rows)[k] == rows[k].industry
  {
    if |rows| > 0 {
      IndustryNamesAt(rows[..|rows| - 1]);
    }
  }

  /** Industries are listed in the order of the first row that names each. */
  lemma IndustriesFirstSeenOrder(rows: seq<IndustryRow>)
    ensures forall ind :: ind in Industries(rows) ==> ind in IndustryNames(rows)
    ensures forall i, j :: 0 <= i < j < |Industries(rows)| ==>
      FirstIndex(IndustryNames(rows), Industries(rows)[i]) < FirstIndex(IndustryNames(rows), Industries(rows)[j])
  {
    DistinctFirstSeenOrder(IndustryNames(rows));
  }

  /** The codes of `industry` are exactly those of its rows with a non-null code. */
  lemma {:induction false} CodesOfMembers(rows: seq<IndustryRow>, industry: string, c: string)
    ensures c in CodesOf(rows, industry) <==>
      exists k :: 0 <= k < |rows| && rows[k].industry == industry && rows[k].code == Some(c)
  {
    if |rows| > 0 {
      var p := rows[..|rows| - 1];
      CodesOfMembers(p, industry, c);
      if c in CodesOf(p, industry) {
        var k :| 0 <= k < |p| && p[k].industry == industry && p[k].code == Some(c);
        assert rows[k] == p[k];
      }
      if exists k :: 0 <= k < |rows| && rows[k].industry == industry && rows[k].code == Some(c) {
        var k :| 0 <= k < |rows| && rows[k].industry == industry && rows[k].code == Some(c);
        if k < |p| {
          assert p[k] == rows[k];
        }
      }
    }
  }

  /**
   * A code is listed under an industry exactly when some row pairs that
   * industry with that code: null codes are never listed, every non-null code
   * is listed under its row's industry, and under no industry it is not
   * paired with.
   */
  lemma CompanyMembership(rows: seq<IndustryRow>, industry: string, c: string)
    ensures c in CompaniesOf(rows, industry) <==>
      exists k :: 0 <= k < |rows| && rows[k].industry == industry && rows[k].code == Some(c)
  {
    DistinctMembers(CodesOf(rows, industry));
    CodesOfMembers(rows, industry, c);
  }

  /** Every non-null code of a row appears in the list of that row's industry. */
  lemma EveryCodeListed(rows: seq<IndustryRow>, k: nat)
    requires k < |rows| && rows[k].code.Some?
    ensures rows[k].industry in Industries(rows)
    ensures rows[k].code.value in CompaniesOf(rows, rows[k].industry)
  {
    EachIndustryOnce(rows);
    CompanyMembership(rows, rows[k].industry, rows[k].code.value);
  }

  /** No company code appears twice in one industry's list. */
  lemma CompaniesNoDuplicates(rows: seq<IndustryRow>, industry: string)
    ensures NoDuplicates(CompaniesOf(rows, industry))
  {
    DistinctNoDuplicates(CodesOf(rows, industry));
  }

  /** Within an industry, codes are listed in the order they were first seen. */
  lemma CompaniesFirstSeenOrder(rows: seq<IndustryRow>, industry: string)
    ensures forall c :: c in CompaniesOf(rows, industry) ==> c in CodesOf(rows, industry)
    ensures forall i, j :: 0 <= i < j < |CompaniesOf(rows, industry)| ==>
      FirstIndex(CodesOf(rows, industry), CompaniesOf(rows, industry)[i]) <
      FirstIndex(CodesOf(rows, industry), CompaniesOf(rows, industry)[j])
  {
    DistinctFirstSeenOrder(CodesOf(rows, industry));
  }

  /** An industry whose rows all have a null code is still listed, with no companies. */
  lemma NullOnlyIndustryListedEmpty(rows: seq<IndustryRow>, k: nat)
    requires k < |rows|
    requires forall m :: 0 <= m < |rows| && rows[m].industry == rows[k].industry ==> rows[m].code.None?
    ensures rows[k].industry in Industries(rows)
    ensures CompaniesOf(rows, rows[k].industry) == []
  {
    EachIndustryOnce(rows);
    var ind := rows[k].industry;
    if CompaniesOf(rows, ind) != [] {
      CompanyMembership(rows, ind, CompaniesOf(rows, ind)[0]);
    }
  }
}
