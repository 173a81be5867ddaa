/**
 * The record exporter (`DataSerializer`): stored observations flattened into
 * an `<entries>` tree or into tab-separated lines, one per observation.
 * Every property becomes a column named after its key, suffixed with the
 * observation's category id unless the key is one of the fixed inputs, so
 * that the column names are the `ref`s the compiled form declared.
 */
module DataExport {
  import opened Strings
  import opened Xml
  import Schema
  import EcmlForm

  /**
   * A stored observation as the exporter reads it. The coordinates and both
   * timestamps are the texts the source renders from floats and dates;
   * `properties` lists the property map's entries in iteration order, a
   * value being `None` for Python's `None`.
   */
  datatype Record = Record(
    id: nat,
    lon: string,
    lat: string,
    created: string,
    uploaded: string,
    categoryId: nat,
    properties: seq<(string, Option<string>)>)

  /** The keys of the fixed inputs, exported without a category suffix. */
  const StaticFields: seq<string> :=
    ["unique_id", "DeviceID", "location_acc", "location_provider", "location_alt", "location_bearing"]

  // ---------------------------------------------------------------------------
  // Column names and cell values
  // ---------------------------------------------------------------------------

  /** The column of property `key`: dashes become underscores, then the category suffix unless the key is fixed. */
  function TagName(key: string, categoryId: nat): string {
    var tag := Replace(key, '-', '_');
    if key !in StaticFields then tag + "_" + Str(categoryId) else tag
  }

  /** A column name never holds a dash. */
  lemma TagNameHasNoDash(key: string, categoryId: nat)
    ensures '-' !in TagName(key, categoryId)
  {
    var tag := Replace(key, '-', '_');
    if key !in StaticFields {
      StrHasNo(categoryId, '-');
      assert forall i :: 0 <= i < |tag + "_" + Str(categoryId)| ==>
        (tag + "_" + Str(categoryId))[i] != '-';
    }
  }

  /** The column of a field's property is the `ref` the compiled form gave that field. */
  lemma TagNameIsFormRef(key: string, categoryId: nat)
    requires key !in StaticFields
    ensures TagName(key, categoryId) == EcmlForm.Ref(key, categoryId)
  {
  }

  /** A fixed input's column is its key, unchanged. */
  lemma StaticTagVerbatim(k: nat, categoryId: nat)
    requires k < |StaticFields|
    ensures TagName(StaticFields[k], categoryId) == StaticFields[k]
  {
    var key := StaticFields[k];
    assert '-' !in key;
    assert Replace(key, '-', '_') == key;
  }

  /** The cell of a value: the value itself, or `Null` when it is `None` or empty. */
  function ValueText(value: Option<string>): (r: string)
    ensures r != ""
    ensures value.Some? && value.value != "" ==> r == value.value
    ensures value.None? || value.value == "" ==> r == "Null"
  {
    if value.Some? && |value.value| > 0 then value.value else "Null"
  }

  /** The column name as both serialisers compute it: replace, then suffix unless fixed. */
  method ColumnName(key: string, categoryId: nat) returns (tagName: string)
    ensures tagName == TagName(key, categoryId)
  {
    tagName := Replace(key, '-', '_');
    if key !in StaticFields {
      tagName := tagName + "_" + Str(categoryId);
    }
  }

  // ---------------------------------------------------------------------------
  // The XML form of the export
  // ---------------------------------------------------------------------------

  function PropertyElement(p: (string, Option<string>), categoryId: nat): Element {
    Leaf(TagName(p.0, categoryId), ValueText(p.1))
  }

  /** One element per property, in order. */
  function PropertyElements(props: seq<(string, Option<string>)>, categoryId: nat): (es: seq<Element>)
    ensures |es| == |props|
    decreases |props|
  {
    if props == [] then []
    else PropertyElements(props[..|props| - 1], categoryId) + [PropertyElement(props[|props| - 1], categoryId)]
  }

  lemma {:induction false} PropertyElementsAt(props: seq<(string, Option<string>)>, categoryId: nat, k: nat)
    requires k < |props|
    ensures PropertyElements(props, categoryId)[k] == PropertyElement(props[k], categoryId)
    decreases |props|
  {
    if k < |props| - 1 {
      var pre := props[..|props| - 1];
      PropertyElementsAt(pre, categoryId, k);
      assert pre[k] == props[k];
    }
  }

  lemma PropertyElementsStep(props: seq<(string, Option<string>)>, i: nat, categoryId: nat)
    requires i < |props|
    ensures PropertyElements(props[..i + 1], categoryId) ==
            PropertyElements(props[..i], categoryId) + [PropertyElement(props[i], categoryId)]
  {
    assert props[..i + 1][..i] == props[..i];
  }

  /** The five leaves every entry starts with. */
  function FixedLeaves(r: Record): seq<Element> {
    [Leaf("id", Str(r.id)), Leaf("location_lon", r.lon), Leaf("location_lat", r.lat),
     Leaf("created", r.created), Leaf("uploaded", r.uploaded)]
  }

  /** What `serialize_entry_to_xml` builds for a record. */
  function EntryElement(r: Record): Element {
    Element("entry", map[], None, FixedLeaves(r) + PropertyElements(r.properties, r.categoryId))
  }

  /**
   * An entry: the id, both coordinates and both timestamps, then one child
   * per property, named after its column and holding its cell.
   */
  lemma EntryShape(r: Record)
    ensures var e := EntryElement(r);
            && e.tag == "entry" && e.attrs == map[] && e.text == None && |e.children| == 5 + |r.properties|
            && e.children[..5] ==
                 [Leaf("id", Str(r.id)), Leaf("location_lon", r.lon), Leaf("location_lat", r.lat),
                  Leaf("created", r.created), Leaf("uploaded", r.uploaded)]
            && forall k :: 0 <= k < |r.properties| ==>
                 e.children[5 + k] == Leaf(TagName(r.properties[k].0, r.categoryId), ValueText(r.properties[k].1))
  {
    var e := EntryElement(r);
    var fixed, props := FixedLeaves(r), PropertyElements(r.properties, r.categoryId);
    assert e.children == fixed + props && |fixed| == 5;
    assert e.children[..5] == fixed;
    forall k | 0 <= k < |r.properties|
      ensures e.children[5 + k] == Leaf(TagName(r.properties[k].0, r.categoryId), ValueText(r.properties[k].1))
    {
      PropertyElementsAt(r.properties, r.categoryId, k);
      ConcatAt(fixed, props, k);
    }
  }

  /** Element `k` of the second part of a concatenation. */
  lemma ConcatAt(a: seq<Element>, b: seq<Element>, k: nat)
    requires k < |b|
    ensures (a + b)[|a| + k] == b[k] && |a + b| == |a| + |b|
  {
  }

  /** `serialize_entry_to_xml` */
  method SerializeEntryToXml(r: Record) returns (entry: Element)
    ensures entry == EntryElement(r)
  {
    entry := EntryHeader(r);
    entry := AppendProperties(entry, r.properties, r.categoryId);
  }

  /** The start of `serialize_entry_to_xml`: the entry and its five fixed leaves. */
  method EntryHeader(r: Record) returns (entry: Element)
    ensures entry == Element("entry", map[], None, FixedLeaves(r))
  {
    entry := NewElement("entry", map[]);
    entry := Append(entry, Leaf("id", Str(r.id)));
    entry := Append(entry, Leaf("location_lon", r.lon));
    entry := Append(entry, Leaf("location_lat", r.lat));
    entry := Append(entry, Leaf("created", r.created));
    entry := Append(entry, Leaf("uploaded", r.uploaded));
  }

  /** The property loop of `serialize_entry_to_xml`: one child per property, in order. */
  method AppendProperties(start: Element, props: seq<(string, Option<string>)>, categoryId: nat)
    returns (entry: Element)
    ensures entry == start.(children := start.children + PropertyElements(props, categoryId))
  {
    entry := start;
    var i := 0;
    while i < |props|
      invariant 0 <= i <= |props|
      invariant entry == start.(children := start.children + PropertyElements(props[..i], categoryId))
    {
      var el := SerializeProperty(props[i], categoryId);
      AppendPropertyStep(start, props, i, categoryId, entry);
      entry := Append(entry, el);
      i := i + 1;
    }
    assert props[..i] == props;
  }

  /** Appending property `i`'s element to an entry holding the elements of the first `i` properties. */
  lemma AppendPropertyStep(start: Element, props: seq<(string, Option<string>)>, i: nat, categoryId: nat, entry: Element)
    requires i < |props|
    requires entry == start.(children := start.children + PropertyElements(props[..i], categoryId))
    ensures Append(entry, PropertyElement(props[i], categoryId)) ==
            start.(children := start.children + PropertyElements(props[..i + 1], categoryId))
  {
    var pre, el := PropertyElements(props[..i], categoryId), PropertyElement(props[i], categoryId);
    PropertyElementsStep(props, i, categoryId);
    assert start.children + (pre + [el]) == (start.children + pre) + [el];
  }

  /** The loop body of `serialize_entry_to_xml`: one property's element. */
  method SerializeProperty(p: (string, Option<string>), categoryId: nat) returns (el: Element)
    ensures el == PropertyElement(p, categoryId)
  {
    var tagName := ColumnName(p.0, categoryId);
    el := NewElement(tagName, map[]);
    if p.1.Some? && |p.1.value| > 0 {
      el := el.(text := Some(p.1.value));
    } else {
      el := el.(text := Some("Null"));
    }
  }

  function TableElement(projectName: string): Element {
    Append(NewElement("table", map[]), Leaf("table_name", Replace(projectName, ' ', '_')))
  }

  function EntryElements(records: seq<Record>): (es: seq<Element>)
    ensures |es| == |records|
    ensures forall k :: 0 <= k < |es| ==> es[k] == EntryElement(records[k])
  {
    seq(|records|, k requires 0 <= k < |records| => EntryElement(records[k]))
  }

  /** What `serialize_to_xml` builds for a project's name and its records. */
  function EntriesTree(projectName: string, records: seq<Record>): Element {
    Element("entries", map[], None, [TableElement(projectName)] + EntryElements(records))
  }

  /** The tree holds the table first, then exactly one `entry` per record. */
  lemma EntriesTreeShape(projectName: string, records: seq<Record>)
    ensures var t := EntriesTree(projectName, records);
            && t.tag == "entries" && |t.children| == 1 + |records|
            && t.children[0].tag == "table"
            && t.children[0].children == [Leaf("table_name", Replace(projectName, ' ', '_'))]
            && CountTag(t.children, "entry") == |records|
  {
    EntryCount([TableElement(projectName)] + EntryElements(records), 1);
  }

  /** Counting `entry` tags: none before `from`, all after it. */
  lemma {:induction false} EntryCount(children: seq<Element>, from: nat)
    requires from <= |children|
    requires forall k :: 0 <= k < from ==> children[k].tag != "entry"
    requires forall k :: from <= k < |children| ==> children[k].tag == "entry"
    ensures CountTag(children, "entry") == |children| - from
    decreases |children|
  {
    if children != [] {
      var pre := children[..|children| - 1];
      if |children| - 1 >= from {
        EntryCount(pre, from);
      } else {
        EntryCount(pre, |pre|);
      }
    }
  }

  /** `serialize_to_xml` */
  method SerializeToXml(projectName: string, records: seq<Record>) returns (root: Element)
    ensures root == EntriesTree(projectName, records)
  {
    root := NewElement("entries", map[]);
    var table := NewElement("table", map[]);
    var tableName := Leaf("table_name", Replace(projectName, ' ', '_'));
    table := Append(table, tableName);
    root := Append(root, table);
    var i := 0;
    while i < |records|
      invariant 0 <= i <= |records|
      invariant root == Element("entries", map[], None, [TableElement(projectName)] + EntryElements(records[..i]))
    {
      var entry := SerializeEntryToXml(records[i]);
      assert EntryElements(records[..i + 1]) == EntryElements(records[..i]) + [entry];
      root := Append(root, entry);
      i := i + 1;
    }
    assert records[..i] == records;
  }

  // ---------------------------------------------------------------------------
  // The tab-separated form of the export
  // ---------------------------------------------------------------------------

  /** Every cell followed by a tab. */
  function Terminated(cells: seq<string>): string
    decreases |cells|
  {
    if cells == [] then "" else Terminated(cells[..|cells| - 1]) + cells[|cells| - 1] + "\t"
  }

  lemma TerminatedAppend(cells: seq<string>, x: string)
    ensures Terminated(cells + [x]) == Terminated(cells) + x + "\t"
  {
    assert (cells + [x])[..|cells|] == cells;
  }

  /** A non-empty row of cells, each followed by a tab, is their tab-join with one more tab. */
  lemma {:induction false} TerminatedJoin(cells: seq<string>)
    requires cells != []
    ensures Terminated(cells) == Join("\t", cells) + "\t"
    decreases |cells|
  {
    var pre, x := cells[..|cells| - 1], cells[|cells| - 1];
    assert cells == pre + [x];
    assert Terminated(cells) == Terminated(pre) + x + "\t";
    JoinAppend("\t", pre, x);
    if pre == [] {
      assert Join("\t", cells) == x;
    } else {
      TerminatedJoin(pre);
      var j := Join("\t", pre);
      assert Join("\t", cells) == j + "\t" + x;
      assert Terminated(cells) == (j + "\t") + x + "\t";
    }
  }

  /** The column name and cell of every property, in order. */
  function PropertyCells(props: seq<(string, Option<string>)>, categoryId: nat): (cells: seq<string>)
    ensures |cells| == 2 * |props|
    decreases |props|
  {
    if props == [] then []
    else
      var p := props[|props| - 1];
      PropertyCells(props[..|props| - 1], categoryId) + [TagName(p.0, categoryId), ValueText(p.1)]
  }

  /** The cells of one line: the project name, the fixed columns' names and values, then the properties. */
  function EntryCells(projectName: string, r: Record): seq<string> {
    FixedCells(projectName, r) + PropertyCells(r.properties, r.categoryId)
  }

  function FixedCells(projectName: string, r: Record): seq<string> {
    [Replace(projectName, ' ', '_'), "id", Str(r.id), "location_lon", r.lon, "location_lat", r.lat,
     "created", r.created, "uploaded", r.uploaded]
  }

  /** What `serialize_entry_to_tsv` returns for a record of the named project. */
  function EntryLine(projectName: string, r: Record): string {
    Terminated(EntryCells(projectName, r)) + "\n"
  }

  /** `serialize_entry_to_tsv`, growing the line by concatenation. */
  method SerializeEntryToTsv(projectName: string, r: Record) returns (line: string)
    ensures line == EntryLine(projectName, r)
  {
    line := TsvHeader(projectName, r);
    ghost var fixed := FixedCells(projectName, r);
    assert fixed + PropertyCells(r.properties[..0], r.categoryId) == fixed;
    var props := r.properties;
    var i := 0;
    while i < |props|
      invariant 0 <= i <= |props|
      invariant line == Terminated(fixed + PropertyCells(props[..i], r.categoryId))
    {
      var p := props[i];
      var tagName := ColumnName(p.0, r.categoryId);
      var val := if p.1.None? || |p.1.value| == 0 then "Null" else p.1.value;
      PropertyCellsStep(fixed, props, i, r.categoryId);
      line := line + tagName + "\t" + val + "\t";
      i := i + 1;
    }
    assert props[..i] == props;
    assert fixed + PropertyCells(props, r.categoryId) == EntryCells(projectName, r);
    line := line + "\n";
  }

  /** The first six columns of a line, as `serialize_entry_to_tsv` writes them. */
  method TsvHeader(projectName: string, r: Record) returns (line: string)
    ensures line == Terminated(FixedCells(projectName, r))
  {
    line := Replace(projectName, ' ', '_') + "\t";
    ghost var cells := [Replace(projectName, ' ', '_')];
    TerminatedAppend([], cells[0]);
    assert [] + [cells[0]] == cells;
    line := AppendColumn(line, cells, "id", "id\t", Str(r.id));
    cells := cells + ["id", Str(r.id)];
    line := AppendColumn(line, cells, "location_lon", "location_lon\t", r.lon);
    cells := cells + ["location_lon", r.lon];
    line := AppendColumn(line, cells, "location_lat", "location_lat\t", r.lat);
    cells := cells + ["location_lat", r.lat];
    line := AppendColumn(line, cells, "created", "created\t", r.created);
    cells := cells + ["created", r.created];
    line := AppendColumn(line, cells, "uploaded", "uploaded\t", r.uploaded);
    cells := cells + ["uploaded", r.uploaded];
    assert cells == FixedCells(projectName, r);
  }

  /** One `line = line + '<name>\t' + value + '\t'` of `serialize_entry_to_tsv`. */
  method AppendColumn(line: string, ghost cells: seq<string>, ghost name: string, nameTab: string, value: string)
    returns (line': string)
    requires line == Terminated(cells) && nameTab == name + "\t"
    ensures line' == Terminated(cells + [name, value])
  {
    PairStep(cells, name, nameTab, value);
    line' := line + nameTab + value + "\t";
  }

  /** Appending a column's name and value to the line. */
  lemma PairStep(cells: seq<string>, name: string, nameTab: string, value: string)
    requires nameTab == name + "\t"
    ensures Terminated(cells + [name, value]) == Terminated(cells) + nameTab + value + "\t"
  {
    assert cells + [name, value] == (cells + [name]) + [value];
    TerminatedAppend(cells + [name], value);
    TerminatedAppend(cells, name);
  }

  /** Appending one property's cells to the line. */
  lemma PropertyCellsStep(fixed: seq<string>, props: seq<(string, Option<string>)>, i: nat, categoryId: nat)
    requires i < |props|
    ensures Terminated(fixed + PropertyCells(props[..i + 1], categoryId)) ==
            Terminated(fixed + PropertyCells(props[..i], categoryId))
            + TagName(props[i].0, categoryId) + "\t" + ValueText(props[i].1) + "\t"
  {
    var pre := fixed + PropertyCells(props[..i], categoryId);
    var tag, val := TagName(props[i].0, categoryId), ValueText(props[i].1);
    assert props[..i + 1][..i] == props[..i];
    assert fixed + PropertyCells(props[..i + 1], categoryId) == (pre + [tag]) + [val];
    TerminatedAppend(pre + [tag], val);
    TerminatedAppend(pre, tag);
  }

  // ---------------------------------------------------------------------------
  // Properties of the tab-separated form
  // ---------------------------------------------------------------------------

  /** A line is its cells joined by tabs, then a tab and the newline. */
  lemma EntryLineIsJoin(projectName: string, r: Record)
    ensures EntryLine(projectName, r) == Join("\t", EntryCells(projectName, r)) + "\t" + "\n"
  {
    TerminatedJoin(EntryCells(projectName, r));
  }

  /** Cutting the trailing tab and newline and splitting at tabs gives the cells back, when no cell holds a tab. */
  lemma ColumnsRoundTrip(projectName: string, r: Record)
    requires forall k :: 0 <= k < |EntryCells(projectName, r)| ==> '\t' !in EntryCells(projectName, r)[k]
    ensures var line := EntryLine(projectName, r);
            |line| >= 2 && Split(line[..|line| - 2], '\t') == EntryCells(projectName, r)
  {
    var cells := EntryCells(projectName, r);
    var line := EntryLine(projectName, r);
    EntryLineIsJoin(projectName, r);
    assert line[..|line| - 2] == Join("\t", cells);
    SplitJoin(cells, '\t');
  }

  /** No text the record or the project name contributes holds a newline. */
  predicate SingleLine(projectName: string, r: Record) {
    && '\n' !in projectName && '\n' !in r.lon && '\n' !in r.lat
    && '\n' !in r.created && '\n' !in r.uploaded
    && forall k :: 0 <= k < |r.properties| ==>
         && '\n' !in r.properties[k].0
         && (r.properties[k].1.Some? ==> '\n' !in r.properties[k].1.value)
  }

  lemma ReplaceKeepsAbsent(s: string, a: char, b: char, c: char)
    requires c !in s && c != b
    ensures c !in Replace(s, a, b)
  {
    var t := Replace(s, a, b);
    assert forall i :: 0 <= i < |t| ==> t[i] == s[i] || t[i] == b;
  }

  lemma TagNameSingleLine(key: string, categoryId: nat)
    requires '\n' !in key
    ensures '\n' !in TagName(key, categoryId)
  {
    var tag := Replace(key, '-', '_');
    ReplaceKeepsAbsent(key, '-', '_', '\n');
    StrHasNo(categoryId, '\n');
    if key !in StaticFields {
      var t := tag + "_" + Str(categoryId);
      assert forall i :: 0 <= i < |t| ==> t[i] != '\n' by {
        forall i | 0 <= i < |t|
          ensures t[i] != '\n'
        {
          if i < |tag| { assert t[i] == tag[i]; }
          else if i == |tag| { assert t[i] == '_'; }
          else { assert t[i] == Str(categoryId)[i - |tag| - 1]; }
        }
      }
    }
  }

  lemma {:induction false} PropertyCellsSingleLine(props: seq<(string, Option<string>)>, categoryId: nat)
    requires forall k :: 0 <= k < |props| ==> '\n' !in props[k].0 && (props[k].1.Some? ==> '\n' !in props[k].1.value)
    ensures forall k :: 0 <= k < |PropertyCells(props, categoryId)| ==> '\n' !in PropertyCells(props, categoryId)[k]
    decreases |props|
  {
    if props != [] {
      var pre, p := props[..|props| - 1], props[|props| - 1];
      assert forall k :: 0 <= k < |pre| ==> pre[k] == props[k];
      PropertyCellsSingleLine(pre, categoryId);
      TagNameSingleLine(p.0, categoryId);
      assert '\n' !in ValueText(p.1);
    }
  }

  lemma CellsSingleLine(projectName: string, r: Record)
    requires SingleLine(projectName, r)
    ensures forall k :: 0 <= k < |EntryCells(projectName, r)| ==> '\n' !in EntryCells(projectName, r)[k]
  {
    ReplaceKeepsAbsent(projectName, ' ', '_', '\n');
    StrHasNo(r.id, '\n');
    PropertyCellsSingleLine(r.properties, r.categoryId);
    var fixed, props := FixedCells(projectName, r), PropertyCells(r.properties, r.categoryId);
    forall k | 0 <= k < |fixed + props|
      ensures '\n' !in (fixed + props)[k]
    {
      if k >= |fixed| {
        assert (fixed + props)[k] == props[k - |fixed|];
      }
    }
  }

  lemma {:induction false} TerminatedSingleLine(cells: seq<string>)
    requires forall k :: 0 <= k < |cells| ==> '\n' !in cells[k]
    ensures Count(Terminated(cells), '\n') == 0
    decreases |cells|
  {
    if cells != [] {
      var pre, x := cells[..|cells| - 1], cells[|cells| - 1];
      assert forall k :: 0 <= k < |pre| ==> pre[k] == cells[k];
      TerminatedSingleLine(pre);
      CountConcat(Terminated(pre) + x, "\t", '\n');
      CountConcat(Terminated(pre), x, '\n');
      CountAbsent(x, '\n');
      CountAbsent("\t", '\n');
    }
  }

  /** A record whose texts hold no newline gives a line with exactly one, at its end. */
  lemma EntryLineCount(projectName: string, r: Record)
    requires SingleLine(projectName, r)
    ensures Count(EntryLine(projectName, r), '\n') == 1
    ensures EntryLine(projectName, r)[|EntryLine(projectName, r)| - 1] == '\n'
  {
    CellsSingleLine(projectName, r);
    TerminatedSingleLine(EntryCells(projectName, r));
    CountConcat(Terminated(EntryCells(projectName, r)), "\n", '\n');
  }

  /** What `serialize_to_tsv` returns: the lines of the records, in order. */
  function TsvText(projectName: string, records: seq<Record>): string
    decreases |records|
  {
    if records == [] then ""
    else TsvText(projectName, records[..|records| - 1]) + EntryLine(projectName, records[|records| - 1])
  }

  /** There are exactly as many newlines as records, when no record's texts hold one. */
  lemma {:induction false} TsvLineCount(projectName: string, records: seq<Record>)
    requires forall k :: 0 <= k < |records| ==> SingleLine(projectName, records[k])
    ensures Count(TsvText(projectName, records), '\n') == |records|
    decreases |records|
  {
    if records != [] {
      var pre, last := records[..|records| - 1], records[|records| - 1];
      assert forall k :: 0 <= k < |pre| ==> pre[k] == records[k];
      TsvLineCount(projectName, pre);
      EntryLineCount(projectName, last);
      CountConcat(TsvText(projectName, pre), EntryLine(projectName, last), '\n');
    }
  }

  /** `serialize_to_tsv` */
  method SerializeToTsv(projectName: string, records: seq<Record>) returns (tsv: string)
    ensures tsv == TsvText(projectName, records)
  {
    tsv := "";
    var i := 0;
    while i < |records|
      invariant 0 <= i <= |records|
      invariant tsv == TsvText(projectName, records[..i])
    {
      var line := SerializeEntryToTsv(projectName, records[i]);
      assert records[..i + 1][..i] == records[..i];
      tsv := tsv + line;
      i := i + 1;
    }
    assert records[..i] == records;
  }
}
