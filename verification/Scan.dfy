/** Reading the tenant table page by page. */
module Scan {
  import opened Types
  import opened Certificates
  import opened Matching
  import opened TenantSpecs

  datatype Attribute =
    | S(text: string)
    | SS(texts: seq<string>)
    | N(number: Option<int>)         // None: not an integer
    | Bool(truth: bool)
    | M(entries: map<string, Attribute>)

  type Row = map<string, Attribute>

  /** Attribute names; an empty name switches an optional mapping off. */
  datatype Mapping = Mapping(
    name: string, domains: string, enabled: string, connectionGroup: string, certArn: string,
    validationTokenHost: string, primaryDomain: string, ctLogging: string,
    dnsProvider: string, hostedZone: string, dnsTtl: string, dnsAssumeRole: string,
    webAclAction: string, webAclArn: string, geoType: string, geoLocations: string,
    parameters: string, tags: string)

  function Text(row: Row, key: string): Option<string>
  {
    if key in row && row[key].S? then Some(row[key].text) else None
  }

  function OptionalText(row: Row, key: string): Option<string>
  {
    var t := Text(row, key);
    if key == "" || t == Some("") then None else t
  }

  function DomainList(row: Row, key: string): Option<seq<string>>
  {
    if key !in row then None
    else match row[key]
      case S(s) => if s == "" then None else Some([s])
      case SS(ss) => if ss == [] then None else Some(ss)
      case _ => None
  }

  function Truth(row: Row, key: string): Option<bool>
  {
    if key == "" || key !in row then None
    else match row[key]
      case Bool(b) => Some(b)
      case S(s) => Some(Lower(s) == "true")
      case _ => None
  }

  function Number(row: Row, key: string): Option<int>
  {
    if key != "" && key in row && row[key].N? then row[key].number else None
  }

  function TextSet(row: Row, key: string): Option<seq<string>>
  {
    if key != "" && key in row && row[key].SS? && row[key].texts != [] then Some(row[key].texts) else None
  }

  /** The text-valued entries of a map attribute, unless there are none. */
  function TextMap(row: Row, key: string): Option<map<string, string>>
  {
    if key == "" || key !in row || !row[key].M? then None
    else
      var m := row[key].entries;
      var texts := map k | k in m && m[k].S? :: m[k].text;
      if texts == map[] then None else Some(texts)
  }

  /** A row names a tenant when it has a name and at least one domain. */
  predicate Mappable(row: Row, c: Mapping)
  {
    Text(row, c.name).GetOr("") != "" && DomainList(row, c.domains).Some?
  }

  function MapRow(row: Row, c: Mapping): Item
    requires Mappable(row, c)
  {
    Item(Text(row, c.name).value, DomainList(row, c.domains).value, Truth(row, c.enabled),
         OptionalText(row, c.connectionGroup), OptionalText(row, c.certArn),
         OptionalText(row, c.validationTokenHost), OptionalText(row, c.primaryDomain), OptionalText(row, c.ctLogging),
         OptionalText(row, c.dnsProvider), OptionalText(row, c.hostedZone), Number(row, c.dnsTtl),
         OptionalText(row, c.dnsAssumeRole), OptionalText(row, c.webAclAction), OptionalText(row, c.webAclArn),
         OptionalText(row, c.geoType), TextSet(row, c.geoLocations), TextMap(row, c.parameters), TextMap(row, c.tags))
  }

  /** The items of a list of rows, in order, leaving out rows that name no tenant. */
  function MapRows(rows: seq<Row>, c: Mapping): seq<Item>
  {
    if rows == [] then []
    else
      var row := rows[|rows| - 1];
      MapRows(rows[..|rows| - 1], c) + if Mappable(row, c) then [MapRow(row, c)] else []
  }

  /** The answer to one scan request: rows and whether more follow, or an error. */
  datatype Page = Page(rows: seq<Row>, more: bool) | Failed(err: AwsError)

  function AllRows(pages: seq<Page>): seq<Row>
    requires forall p | p in pages :: p.Page?
  {
    if pages == [] then [] else AllRows(pages[..|pages| - 1]) + pages[|pages| - 1].rows
  }

  /** `n` requests make a complete scan. */
  ghost predicate Complete(answers: seq<Page>, n: nat)
  {
    && 0 < n <= |answers|
    && (forall i | 0 <= i < n :: answers[i].Page?)
    && (forall i | 0 <= i < n - 1 :: answers[i].more) && !answers[n - 1].more
  }

  lemma {:induction false} MapRowsAppend(a: seq<Row>, b: seq<Row>, c: Mapping)
    ensures MapRows(a + b, c) == MapRows(a, c) + MapRows(b, c)
  {
    if b == [] {
      assert a + b == a;
    } else {
      assert (a + b)[..|a + b| - 1] == a + b[..|b| - 1];
      MapRowsAppend(a, b[..|b| - 1], c);
    }
  }

  lemma NoPages(c: Mapping)
    ensures MapRows(AllRows([]), c) == []
  {
  }

  lemma PageAppended(answers: seq<Page>, i: nat, c: Mapping)
    requires i < |answers| && forall k | 0 <= k <= i :: answers[k].Page?
    ensures MapRows(AllRows(answers[..i + 1]), c) == MapRows(AllRows(answers[..i]), c) + MapRows(answers[i].rows, c)
  {
    assert answers[..i + 1][..i] == answers[..i];
    MapRowsAppend(AllRows(answers[..i]), answers[i].rows, c);
  }

  /** The paging loop over the answers the table gives, one per request. A scan succeeds only on a
      complete run of pages, with the mapped rows of all of them in order; an error on any page, or
      a table that never ends, yields nothing. */
  method ScanTenants(answers: seq<Page>, c: Mapping) returns (r: Result<seq<Item>>)
    ensures r.Ok? <==> exists n: nat :: Complete(answers, n)
    ensures forall n: nat | Complete(answers, n) :: r == Ok(MapRows(AllRows(answers[..n]), c))
  {
    hide MapRow, Mappable, AllRows;
    var items: seq<Item> := [];
    NoPages(c);
    assert answers[..0] == [];
    for i := 0 to |answers|
      invariant forall k | 0 <= k < i :: answers[k].Page? && answers[k].more
      invariant items == MapRows(AllRows(answers[..i]), c)
    {
      if answers[i].Failed? { return Err(answers[i].err); }
      ghost var before := items;
      var rows := answers[i].rows;
      for j := 0 to |rows|
        invariant items == before + MapRows(rows[..j], c)
      {
        assert rows[..j + 1][..j] == rows[..j];
        if Mappable(rows[j], c) { items := items + [MapRow(rows[j], c)]; }
      }
      assert rows[..|rows|] == rows;
      PageAppended(answers, i, c);
      if !answers[i].more {
        assert Complete(answers, i + 1);
        return Ok(items);
      }
    }
    r := Err(OtherError);
  }

  /** An item comes from a mappable row of its name, and every such row gives an item. */
  lemma {:induction false} ItemsAreRows(rows: seq<Row>, c: Mapping, name: string)
    ensures (exists item :: item in MapRows(rows, c) && item.name == name)
            <==> (exists row :: row in rows && Mappable(row, c) && Text(row, c.name) == Some(name))
  {
    if rows != [] {
      var init, last := rows[..|rows| - 1], rows[|rows| - 1];
      ItemsAreRows(init, c, name);
      assert rows == init + [last];
      if Mappable(last, c) {
        assert MapRow(last, c) in MapRows(rows, c);
      }
    }
  }

  // Rows by their cells.

  /** The row gives the tenant `name` some domain, as one text or as a set. */
  predicate Declares(row: Row, c: Mapping, name: string)
  {
    && name != "" && c.name in row && row[c.name] == S(name)
    && c.domains in row && row[c.domains] != S("") && row[c.domains] != SS([])
    && (row[c.domains].S? || row[c.domains].SS?)
  }

  lemma MappableExactly(row: Row, c: Mapping)
    ensures Mappable(row, c) <==> exists name :: Declares(row, c, name)
    ensures forall name :: Mappable(row, c) && Text(row, c.name) == Some(name) <==> Declares(row, c, name)
    ensures Mappable(row, c) ==> Declares(row, c, MapRow(row, c).name)
    ensures Mappable(row, c) ==> row[c.domains] in {SS(MapRow(row, c).domains), S(MapRow(row, c).domains[0])}
  {
    if Mappable(row, c) { assert Declares(row, c, row[c.name].text); }
  }

  // A row that stands for an item.

  /** The attribute names of a mapping, and an item's values in the same order. */
  function Columns(c: Mapping): seq<string>
  {
    [c.name, c.domains, c.enabled, c.connectionGroup, c.certArn, c.validationTokenHost, c.primaryDomain, c.ctLogging,
     c.dnsProvider, c.hostedZone, c.dnsTtl, c.dnsAssumeRole, c.webAclAction, c.webAclArn, c.geoType, c.geoLocations,
     c.parameters, c.tags]
  }

  function TextCell(t: Option<string>): Option<Attribute>
  {
    if t.Some? then Some(S(t.value)) else None
  }

  function MapCell(m: Option<map<string, string>>): Option<Attribute>
  {
    if m.Some? then Some(M(map k | k in m.value :: S(m.value[k]))) else None
  }

  function Cells(item: Item): seq<Option<Attribute>>
  {
    [Some(S(item.name)), Some(SS(item.domains)),
     if item.enabled.Some? then Some(Bool(item.enabled.value)) else None,
     TextCell(item.connectionGroup), TextCell(item.certArn), TextCell(item.validationTokenHost),
     TextCell(item.primaryDomain), TextCell(item.ctLogging), TextCell(item.dnsProvider), TextCell(item.hostedZone),
     if item.dnsTtl.Some? then Some(N(item.dnsTtl)) else None,
     TextCell(item.dnsAssumeRole), TextCell(item.webAclAction), TextCell(item.webAclArn), TextCell(item.geoType),
     if item.geoLocations.Some? then Some(SS(item.geoLocations.value)) else None,
     MapCell(item.parameters), MapCell(item.tags)]
  }

  function Fill(columns: seq<string>, cells: seq<Option<Attribute>>): Row
    requires |columns| == |cells|
  {
    if columns == [] then map[]
    else
      var n := |columns| - 1;
      var row := Fill(columns[..n], cells[..n]);
      if cells[n].Some? then row[columns[n] := cells[n].value] else row
  }

  lemma {:induction false} FilledCell(columns: seq<string>, cells: seq<Option<Attribute>>)
    requires |columns| == |cells| && NoDuplicates(columns)
    ensures var row := Fill(columns, cells);
      && (forall i | 0 <= i < |columns| ::
            if cells[i].Some? then columns[i] in row && row[columns[i]] == cells[i].value else columns[i] !in row)
      && forall key | key in row :: key in columns
  {
    if columns != [] {
      var n := |columns| - 1;
      FilledCell(columns[..n], cells[..n]);
      assert forall i | 0 <= i < n :: columns[..n][i] == columns[i] && cells[..n][i] == cells[i];
    }
  }

  predicate Present(t: Option<string>) { t != Some("") }

  /** No value is empty, as an empty one reads like an absent one. */
  predicate Readable(item: Item)
  {
    && item.name != "" && item.domains != []
    && Present(item.connectionGroup) && Present(item.certArn) && Present(item.validationTokenHost)
    && Present(item.primaryDomain) && Present(item.ctLogging) && Present(item.dnsProvider) && Present(item.hostedZone)
    && Present(item.dnsAssumeRole) && Present(item.webAclAction) && Present(item.webAclArn) && Present(item.geoType)
    && item.geoLocations != Some([]) && item.parameters != Some(map[]) && item.tags != Some(map[])
  }

  /** The row holds a cell's value under its attribute name. */
  predicate Holds(row: Row, key: string, cell: Option<Attribute>)
  {
    key != "" && if cell.Some? then key in row && row[key] == cell.value else key !in row
  }

  lemma RowHolds(item: Item, c: Mapping, i: nat)
    requires NoDuplicates(Columns(c)) && "" !in Columns(c) && i < |Columns(c)|
    ensures Holds(Fill(Columns(c), Cells(item)), Columns(c)[i], Cells(item)[i])
  {
    FilledCell(Columns(c), Cells(item));
  }

  lemma TextBack(row: Row, key: string, t: Option<string>)
    requires Holds(row, key, TextCell(t))
    ensures OptionalText(row, key) == t <==> Present(t)
  {
  }

  lemma MapBack(row: Row, key: string, m: Option<map<string, string>>)
    requires Holds(row, key, MapCell(m))
    ensures TextMap(row, key) == m <==> m != Some(map[])
  {
    if m.Some? {
      var entries := row[key].entries;
      assert m.value == map k | k in entries && entries[k].S? :: entries[k].text;
    }
  }

  lemma TextColumn(item: Item, c: Mapping, i: nat, key: string, t: Option<string>)
    requires NoDuplicates(Columns(c)) && "" !in Columns(c) && i < |Columns(c)|
    requires Columns(c)[i] == key && Cells(item)[i] == TextCell(t)
    ensures OptionalText(Fill(Columns(c), Cells(item)), key) == t <==> Present(t)
  {
    RowHolds(item, c, i);
    TextBack(Fill(Columns(c), Cells(item)), key, t);
  }

  lemma CertificateColumns(item: Item, c: Mapping)
    requires NoDuplicates(Columns(c)) && "" !in Columns(c)
    ensures OptionalText(Fill(Columns(c), Cells(item)), c.connectionGroup) == item.connectionGroup <==> Present(item.connectionGroup)
    ensures OptionalText(Fill(Columns(c), Cells(item)), c.certArn) == item.certArn <==> Present(item.certArn)
  {
    hide Fill, NoDuplicates, OptionalText, Present, TextCell, MapCell;
    TextColumn(item, c, 3, c.connectionGroup, item.connectionGroup);
    TextColumn(item, c, 4, c.certArn, item.certArn);
  }

  lemma RequestColumns(item: Item, c: Mapping)
    requires NoDuplicates(Columns(c)) && "" !in Columns(c)
    ensures OptionalText(Fill(Columns(c), Cells(item)), c.validationTokenHost) == item.validationTokenHost <==> Present(item.validationTokenHost)
    ensures OptionalText(Fill(Columns(c), Cells(item)), c.primaryDomain) == item.primaryDomain <==> Present(item.primaryDomain)
    ensures OptionalText(Fill(Columns(c), Cells(item)), c.ctLogging) == item.ctLogging <==> Present(item.ctLogging)
  {
    hide Fill, NoDuplicates, OptionalText, Present, TextCell, MapCell;
    TextColumn(item, c, 5, c.validationTokenHost, item.validationTokenHost);
    TextColumn(item, c, 6, c.primaryDomain, item.primaryDomain);
    TextColumn(item, c, 7, c.ctLogging, item.ctLogging);
  }

  lemma DnsAndAccessColumns(item: Item, c: Mapping)
    requires NoDuplicates(Columns(c)) && "" !in Columns(c)
    ensures OptionalText(Fill(Columns(c), Cells(item)), c.dnsProvider) == item.dnsProvider <==> Present(item.dnsProvider)
    ensures OptionalText(Fill(Columns(c), Cells(item)), c.hostedZone) == item.hostedZone <==> Present(item.hostedZone)
    ensures OptionalText(Fill(Columns(c), Cells(item)), c.dnsAssumeRole) == item.dnsAssumeRole <==> Present(item.dnsAssumeRole)
    ensures OptionalText(Fill(Columns(c), Cells(item)), c.webAclAction) == item.webAclAction <==> Present(item.webAclAction)
    ensures OptionalText(Fill(Columns(c), Cells(item)), c.webAclArn) == item.webAclArn <==> Present(item.webAclArn)
    ensures OptionalText(Fill(Columns(c), Cells(item)), c.geoType) == item.geoType <==> Present(item.geoType)
  {
    hide Fill, NoDuplicates, OptionalText, Present, TextCell, MapCell;
    TextColumn(item, c, 8, c.dnsProvider, item.dnsProvider);
    TextColumn(item, c, 9, c.hostedZone, item.hostedZone);
    TextColumn(item, c, 11, c.dnsAssumeRole, item.dnsAssumeRole);
    TextColumn(item, c, 12, c.webAclAction, item.webAclAction);
    TextColumn(item, c, 13, c.webAclArn, item.webAclArn);
    TextColumn(item, c, 14, c.geoType, item.geoType);
  }

  lemma OtherColumns(item: Item, c: Mapping)
    requires NoDuplicates(Columns(c)) && "" !in Columns(c)
    ensures var row := Fill(Columns(c), Cells(item));
      && Text(row, c.name) == Some(item.name) && DomainList(row, c.domains) == (if item.domains == [] then None else Some(item.domains))
      && Truth(row, c.enabled) == item.enabled && Number(row, c.dnsTtl) == item.dnsTtl
      && TextSet(row, c.geoLocations) == (if item.geoLocations == Some([]) then None else item.geoLocations)
      && (TextMap(row, c.parameters) == item.parameters <==> item.parameters != Some(map[]))
      && (TextMap(row, c.tags) == item.tags <==> item.tags != Some(map[]))
  {
    hide Fill, NoDuplicates, TextMap, TextCell, MapCell;
    var row := Fill(Columns(c), Cells(item));
    RowHolds(item, c, 0);
    RowHolds(item, c, 1);
    RowHolds(item, c, 2);
    RowHolds(item, c, 10);
    RowHolds(item, c, 15);
    RowHolds(item, c, 16);
    MapBack(row, c.parameters, item.parameters);
    RowHolds(item, c, 17);
    MapBack(row, c.tags, item.tags);
  }

  /** Under a mapping with distinct attribute names, the row written for an item reads back as that
      item exactly when none of its values is empty: every attribute reaches its own field. */
  lemma RowReadsBack(item: Item, c: Mapping)
    requires NoDuplicates(Columns(c)) && "" !in Columns(c)
    ensures var row := Fill(Columns(c), Cells(item));
      Mappable(row, c) && MapRow(row, c) == item <==> Readable(item)
  {
    hide Fill, NoDuplicates, OptionalText, TextMap, Present, Columns, Cells, Text, DomainList, Truth, Number,
      TextSet;
    CertificateColumns(item, c);
    RequestColumns(item, c);
    DnsAndAccessColumns(item, c);
    OtherColumns(item, c);
  }

  // Other spellings of a row.

  predicate SameAt(a: Row, b: Row, key: string)
  {
    if key in a then key in b && a[key] == b[key] else key !in b
  }

  /** The cells read the same, whatever they are read as. */
  predicate ReadAlike(a: Row, b: Row, key: string)
  {
    && DomainList(a, key) == DomainList(b, key) && Text(a, key) == Text(b, key)
    && OptionalText(a, key) == OptionalText(b, key) && Truth(a, key) == Truth(b, key) && Number(a, key) == Number(b, key)
    && TextSet(a, key) == TextSet(b, key) && TextMap(a, key) == TextMap(b, key)
  }

  lemma SameColumn(a: Row, b: Row, c: Mapping, i: nat, j: nat, key: string)
    requires NoDuplicates(Columns(c)) && i < |Columns(c)| && j < |Columns(c)| && Columns(c)[j] == key
    requires forall k | k != Columns(c)[i] :: SameAt(a, b, k)
    ensures i != j ==> ReadAlike(a, b, key)
  {
    if i != j { assert SameAt(a, b, key); }
  }

  lemma FirstColumns(a: Row, b: Row, c: Mapping, i: nat)
    requires NoDuplicates(Columns(c)) && i in {1, 2} && forall k | k != Columns(c)[i] :: SameAt(a, b, k)
    ensures
      && ReadAlike(a, b, c.name)
      && (i != 1 ==> ReadAlike(a, b, c.domains))
      && (i != 2 ==> ReadAlike(a, b, c.enabled))
      && ReadAlike(a, b, c.connectionGroup)
      && ReadAlike(a, b, c.certArn)
      && ReadAlike(a, b, c.validationTokenHost)
  {
    hide NoDuplicates, SameAt, ReadAlike;
    SameColumn(a, b, c, i, 0, c.name);
    SameColumn(a, b, c, i, 1, c.domains);
    SameColumn(a, b, c, i, 2, c.enabled);
    SameColumn(a, b, c, i, 3, c.connectionGroup);
    SameColumn(a, b, c, i, 4, c.certArn);
    SameColumn(a, b, c, i, 5, c.validationTokenHost);
  }

  lemma MiddleColumns(a: Row, b: Row, c: Mapping, i: nat)
    requires NoDuplicates(Columns(c)) && i in {1, 2} && forall k | k != Columns(c)[i] :: SameAt(a, b, k)
    ensures
      && ReadAlike(a, b, c.primaryDomain)
      && ReadAlike(a, b, c.ctLogging)
      && ReadAlike(a, b, c.dnsProvider)
      && ReadAlike(a, b, c.hostedZone)
      && ReadAlike(a, b, c.dnsTtl)
      && ReadAlike(a, b, c.dnsAssumeRole)
  {
    hide NoDuplicates, SameAt, ReadAlike;
    SameColumn(a, b, c, i, 6, c.primaryDomain);
    SameColumn(a, b, c, i, 7, c.ctLogging);
    SameColumn(a, b, c, i, 8, c.dnsProvider);
    SameColumn(a, b, c, i, 9, c.hostedZone);
    SameColumn(a, b, c, i, 10, c.dnsTtl);
    SameColumn(a, b, c, i, 11, c.dnsAssumeRole);
  }

  lemma LastColumns(a: Row, b: Row, c: Mapping, i: nat)
    requires NoDuplicates(Columns(c)) && i in {1, 2} && forall k | k != Columns(c)[i] :: SameAt(a, b, k)
    ensures
      && ReadAlike(a, b, c.webAclAction)
      && ReadAlike(a, b, c.webAclArn)
      && ReadAlike(a, b, c.geoType)
      && ReadAlike(a, b, c.geoLocations)
      && ReadAlike(a, b, c.parameters)
      && ReadAlike(a, b, c.tags)
  {
    hide NoDuplicates, SameAt, ReadAlike;
    SameColumn(a, b, c, i, 12, c.webAclAction);
    SameColumn(a, b, c, i, 13, c.webAclArn);
    SameColumn(a, b, c, i, 14, c.geoType);
    SameColumn(a, b, c, i, 15, c.geoLocations);
    SameColumn(a, b, c, i, 16, c.parameters);
    SameColumn(a, b, c, i, 17, c.tags);
  }

  /** Rows that differ in one cell at most give the same item if that cell reads the same. */
  lemma OneCell(a: Row, b: Row, c: Mapping, i: nat)
    requires NoDuplicates(Columns(c)) && i in {1, 2} && forall k | k != Columns(c)[i] :: SameAt(a, b, k)
    requires if i == 1 then DomainList(a, c.domains) == DomainList(b, c.domains)
             else Truth(a, c.enabled) == Truth(b, c.enabled)
    ensures (Mappable(a, c) <==> Mappable(b, c)) && (Mappable(a, c) ==> MapRow(a, c) == MapRow(b, c))
  {
    hide NoDuplicates, SameAt, Columns, DomainList, Text, OptionalText, Truth, Number, TextSet, TextMap;
    FirstColumns(a, b, c, i);
    MiddleColumns(a, b, c, i);
    LastColumns(a, b, c, i);
  }

  /** One domain may be written as a text or as a set. */
  lemma DomainSpellings(row: Row, c: Mapping, d: string)
    requires d != "" && NoDuplicates(Columns(c))
    ensures var a, b := row[c.domains := S(d)], row[c.domains := SS([d])];
      && (Mappable(a, c) <==> Mappable(b, c))
      && (Mappable(a, c) ==> MapRow(a, c) == MapRow(b, c) && MapRow(a, c).domains == [d])
  {
    assert Columns(c)[1] == c.domains;
    OneCell(row[c.domains := S(d)], row[c.domains := SS([d])], c, 1);
  }

  /** A flag may be written as a text, in any case; any other text is false. */
  lemma FlagSpellings(row: Row, c: Mapping, text: string)
    requires c.enabled != "" && NoDuplicates(Columns(c))
    ensures var a, b := row[c.enabled := S(text)], row[c.enabled := Bool(SameLetters(text, "true"))];
      && (Mappable(a, c) <==> Mappable(b, c))
      && (Mappable(a, c) ==> MapRow(a, c) == MapRow(b, c) && MapRow(a, c).enabled == Some(SameLetters(text, "true")))
  {
    assert Columns(c)[2] == c.enabled;
    SameWhenLowered(text, "true");
    LowerTrue();
    OneCell(row[c.enabled := S(text)], row[c.enabled := Bool(SameLetters(text, "true"))], c, 2);
  }

  lemma LowerTrue()
    ensures Lower("true") == "true"
  {
  }

  /** An attribute of a type the field does not take reads as absent, and so does an empty one. */
  lemma OtherTypesAreAbsent(row: Row, key: string, a: Attribute)
    requires key != ""
    ensures var r, none := row[key := a], row - {key};
      && (!a.S? || a.text == "" ==> OptionalText(r, key) == OptionalText(none, key))
      && ((!a.S? && !a.SS?) || a in {S(""), SS([])} ==> DomainList(r, key) == DomainList(none, key))
      && (!a.S? && !a.Bool? ==> Truth(r, key) == Truth(none, key))
      && (!a.N? || a.number.None? ==> Number(r, key) == Number(none, key))
      && (!a.SS? || a.texts == [] ==> TextSet(r, key) == TextSet(none, key))
      && (!a.M? || (forall k | k in a.entries :: !a.entries[k].S?) ==> TextMap(r, key) == TextMap(none, key))
    ensures var none := row - {key};
      OptionalText(none, key).None? && DomainList(none, key).None? && Truth(none, key).None? && Number(none, key).None?
      && TextSet(none, key).None? && TextMap(none, key).None?
  {
  }

  /** The entries of a map attribute that are no texts are ignored. */
  lemma OtherEntriesAreIgnored(row: Row, key: string, m: map<string, Attribute>, k: string, a: Attribute)
    requires key != "" && !a.S? && k !in m
    ensures TextMap(row[key := M(m[k := a])], key) == TextMap(row[key := M(m)], key)
  {
    var n := m[k := a];
    assert (map x | x in n && n[x].S? :: n[x].text) == map x | x in m && m[x].S? :: m[x].text;
  }
}
