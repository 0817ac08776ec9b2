/**
 Old translations name texts by translation ids that stand in the fields themselves; new ones name the field of a
 row, either by the row's record id or by the field's value.  What follows is what the upgrade writes, and what
 the new table says about each field.
 */
module Translations {
  import opened Wrappers

  /** The old translations of each id by language, the feed's language, and the context-dependent names. */
  datatype Dictionary = Dictionary(texts: map<string, map<string, string>>, feedLanguage: string, contextDependent: set<string>)

  ghost predicate HasFeedTexts(texts: map<string, map<string, string>>, feedLanguage: string) {
    forall t :: t in texts ==> feedLanguage in texts[t]
  }

  /** Two translation ids share the name. */
  ghost predicate Ambiguous(texts: map<string, map<string, string>>, feedLanguage: string, name: string)
    requires HasFeedTexts(texts, feedLanguage)
  {
    exists t, u :: t in texts && u in texts && t != u && texts[t][feedLanguage] == name == texts[u][feedLanguage]
  }

  ghost predicate DictionaryOk(d: Dictionary) {
    HasFeedTexts(d.texts, d.feedLanguage) &&
    forall name :: name in d.contextDependent <==> Ambiguous(d.texts, d.feedLanguage, name)
  }

  // ---------- fields ----------

  const TRANSLATABLE_FIELD_NAME_SUFFIXES := [
    "_name", "_desc", "_headsign", "_url", "_text", "_abbreviation", "signposted_as", "instructions"]

  predicate EndsWith(s: string, suffix: string) {
    |suffix| <= |s| && s[|s| - |suffix|..] == suffix
  }

  predicate IsTranslatable(field: string) {
    exists k :: 0 <= k < |TRANSLATABLE_FIELD_NAME_SUFFIXES| && EndsWith(field, TRANSLATABLE_FIELD_NAME_SUFFIXES[k])
  }

  type Row = map<string, string>

  /** The fields that identify a row; an empty string where there is none. */
  datatype RecordIds = RecordIds(id: string, subId: string)

  function FirstId(fields: seq<string>): (r: string)
    ensures r == "" || EndsWith(r, "_id")
  {
    if fields == [] then "" else if EndsWith(fields[0], "_id") then fields[0] else FirstId(fields[1..])
  }

  /** By the name of the table; for a table of another name, the first column that looks like an id. */
  function RecordIdsOf(name: string, fields: seq<string>): RecordIds {
    if name == "agency" then RecordIds("agency_id", "")
    else if name == "stops" then RecordIds("stop_id", "")
    else if name == "routes" then RecordIds("route_id", "")
    else if name == "trips" then RecordIds("trip_id", "")
    else if name == "stop_times" then RecordIds("trip_id", "stop_sequence")
    else if name == "feed_info" then RecordIds("", "")
    else if name == "calendar" then RecordIds("service_id", "")
    else if name == "calendar_dates" then RecordIds("service_id", "date")
    else if name == "fare_attributes" then RecordIds("fare_id", "")
    else if name == "fare_rules" then RecordIds("fare_id", "route_id")
    else if name == "shapes" then RecordIds("shape_id", "shape_pt_sequence")
    else if name == "frequencies" then RecordIds("trip_id", "start_time")
    else if name == "transfers" then RecordIds("from_stop_id", "to_stop_id")
    else if name == "pathways" then RecordIds("pathway_id", "")
    else if name == "levels" then RecordIds("level_id", "")
    else RecordIds(FirstId(fields), "")
  }

  function ValueOf(row: Row, field: string): string {
    if field != "" && field in row then row[field] else ""
  }

  /** A table: its name, its columns and its rows. */
  datatype Table = Table(name: string, fields: seq<string>, rows: seq<Row>)

  ghost predicate TableOk(t: Table) {
    forall i, f :: 0 <= i < |t.rows| && f in t.rows[i] ==> f in t.fields
  }

  /** The record id and the record sub-id of a row. */
  function KeyOf(t: Table, row: Row): (string, string) {
    var ids := RecordIdsOf(t.name, t.fields);
    (ValueOf(row, ids.id), ValueOf(row, ids.subId))
  }

  // ---------- which row a translation by record names ----------

  const TABLE_NAMES := [
    "agency", "stops", "routes", "trips", "stop_times", "feed_info", "calendar", "calendar_dates",
    "fare_attributes", "fare_rules", "shapes", "frequencies", "transfers", "pathways", "levels"]

  /** v is what the row has in the column; a value that is missing is blank. */
  ghost predicate Cell(row: Row, column: string, v: string) {
    if column in row then v == row[column] else v == ""
  }

  ghost predicate HasEnd(s: string, end: string) {
    exists start :: s == start + end
  }

  ghost predicate LooksLikeId(field: string) {
    HasEnd(field, "_id")
  }

  /** The column holds texts for passengers. */
  ghost predicate HoldsText(field: string) {
    || HasEnd(field, "_name") || HasEnd(field, "_desc") || HasEnd(field, "_headsign") || HasEnd(field, "_url")
    || HasEnd(field, "_text") || HasEnd(field, "_abbreviation") || HasEnd(field, "signposted_as")
    || HasEnd(field, "instructions")
  }

  /** id is what the row has in the first column that looks like an id; blank if there is none. */
  ghost predicate FirstIdCell(fields: seq<string>, row: Row, id: string) {
    || (exists k :: 0 <= k < |fields| && LooksLikeId(fields[k]) && (forall j :: 0 <= j < k ==> !LooksLikeId(fields[j]))
                    && Cell(row, fields[k], id))
    || ((forall k :: 0 <= k < |fields| ==> !LooksLikeId(fields[k])) && id == "")
  }

  /** The record id and sub-id by which translations name the row of the table. */
  ghost predicate Identifies(t: Table, row: Row, id: string, subId: string) {
    && (t.name == "agency" ==> Cell(row, "agency_id", id) && subId == "")
    && (t.name == "stops" ==> Cell(row, "stop_id", id) && subId == "")
    && (t.name == "routes" ==> Cell(row, "route_id", id) && subId == "")
    && (t.name == "trips" ==> Cell(row, "trip_id", id) && subId == "")
    && (t.name == "stop_times" ==> Cell(row, "trip_id", id) && Cell(row, "stop_sequence", subId))
    && (t.name == "feed_info" ==> id == "" && subId == "")
    && (t.name == "calendar" ==> Cell(row, "service_id", id) && subId == "")
    && (t.name == "calendar_dates" ==> Cell(row, "service_id", id) && Cell(row, "date", subId))
    && (t.name == "fare_attributes" ==> Cell(row, "fare_id", id) && subId == "")
    && (t.name == "fare_rules" ==> Cell(row, "fare_id", id) && Cell(row, "route_id", subId))
    && (t.name == "shapes" ==> Cell(row, "shape_id", id) && Cell(row, "shape_pt_sequence", subId))
    && (t.name == "frequencies" ==> Cell(row, "trip_id", id) && Cell(row, "start_time", subId))
    && (t.name == "transfers" ==> Cell(row, "from_stop_id", id) && Cell(row, "to_stop_id", subId))
    && (t.name == "pathways" ==> Cell(row, "pathway_id", id) && subId == "")
    && (t.name == "levels" ==> Cell(row, "level_id", id) && subId == "")
    && (t.name !in TABLE_NAMES ==> FirstIdCell(t.fields, row, id) && subId == "")
  }

  lemma EndsWithIff(s: string, end: string)
    ensures EndsWith(s, end) <==> HasEnd(s, end)
  {
    if EndsWith(s, end) {
      assert s == s[..|s| - |end|] + end;
    }
  }

  lemma TranslatableIff(field: string)
    ensures IsTranslatable(field) <==> HoldsText(field)
  {
    hide EndsWith, HasEnd;
    forall k | 0 <= k < |TRANSLATABLE_FIELD_NAME_SUFFIXES|
      ensures EndsWith(field, TRANSLATABLE_FIELD_NAME_SUFFIXES[k]) <==> HasEnd(field, TRANSLATABLE_FIELD_NAME_SUFFIXES[k])
    {
      EndsWithIff(field, TRANSLATABLE_FIELD_NAME_SUFFIXES[k]);
    }
    var s := TRANSLATABLE_FIELD_NAME_SUFFIXES;
    assert HoldsText(field) <==>
           HasEnd(field, s[0]) || HasEnd(field, s[1]) || HasEnd(field, s[2]) || HasEnd(field, s[3]) ||
           HasEnd(field, s[4]) || HasEnd(field, s[5]) || HasEnd(field, s[6]) || HasEnd(field, s[7]);
  }

  lemma {:induction false} FirstIdIs(fields: seq<string>, row: Row, id: string)
    ensures FirstIdCell(fields, row, id) <==> id == ValueOf(row, FirstId(fields))
    decreases |fields|
  {
    if fields != [] {
      EndsWithIff(fields[0], "_id");
      var rest := fields[1..];
      FirstIdIs(rest, row, id);
      assert forall k :: 0 <= k < |rest| ==> fields[k + 1] == rest[k];
      if LooksLikeId(fields[0]) {
        FirstIdHere(fields, row, id);
      } else {
        FirstIdLater(fields, row, id);
      }
    }
  }

  lemma FirstIdHere(fields: seq<string>, row: Row, id: string)
    requires fields != [] && LooksLikeId(fields[0])
    ensures FirstIdCell(fields, row, id) <==> Cell(row, fields[0], id)
  {
    hide LooksLikeId, Cell;
  }

  lemma FirstIdLater(fields: seq<string>, row: Row, id: string)
    requires fields != [] && !LooksLikeId(fields[0])
    ensures FirstIdCell(fields, row, id) <==> FirstIdCell(fields[1..], row, id)
  {
    hide LooksLikeId, Cell;
    var rest := fields[1..];
    if k :| 0 <= k < |rest| && LooksLikeId(rest[k]) && (forall j :: 0 <= j < k ==> !LooksLikeId(rest[j])) && Cell(row, rest[k], id) {
      assert LooksLikeId(fields[k + 1]) && Cell(row, fields[k + 1], id);
      assert forall j :: 0 <= j < k + 1 ==> !LooksLikeId(fields[j]) by {
        assert forall j :: 0 < j < k + 1 ==> fields[j] == rest[j - 1];
      }
    }
    if k :| 0 <= k < |fields| && LooksLikeId(fields[k]) && (forall j :: 0 <= j < k ==> !LooksLikeId(fields[j])) && Cell(row, fields[k], id) {
      assert LooksLikeId(rest[k - 1]) && Cell(row, rest[k - 1], id);
      assert forall j :: 0 <= j < k - 1 ==> rest[j] == fields[j + 1];
    }
    assert forall k :: 0 < k < |fields| ==> fields[k] == rest[k - 1];
    assert forall k :: 0 <= k < |rest| ==> rest[k] == fields[k + 1];
  }

  /** A row is named by exactly one key. */
  lemma KeyIdentifies(t: Table, row: Row, id: string, subId: string)
    ensures Identifies(t, row, id, subId) <==> (id, subId) == KeyOf(t, row)
  {
    if t.name in TABLE_NAMES {
      KnownTable(t, row, id, subId);
    } else {
      UnknownTable(t);
      FirstIdIs(t.fields, row, id);
    }
  }

  lemma KnownTable(t: Table, row: Row, id: string, subId: string)
    requires t.name in TABLE_NAMES
    ensures Identifies(t, row, id, subId) <==> (id, subId) == KeyOf(t, row)
  {
    hide FirstId, FirstIdCell, Cell, ValueOf;
    CellIs(row);
  }

  lemma CellIs(row: Row)
    ensures forall column, v :: column != "" ==> (Cell(row, column, v) <==> v == ValueOf(row, column))
    ensures ValueOf(row, "") == ""
  {
  }

  lemma UnknownTable(t: Table)
    requires t.name !in TABLE_NAMES
    ensures RecordIdsOf(t.name, t.fields) == RecordIds(FirstId(t.fields), "")
  {
    assert forall k :: 0 <= k < |TABLE_NAMES| ==> t.name != TABLE_NAMES[k];
    hide FirstId;
  }

  predicate UsesRecordId(name: string) {
    name != "stop_times" && name != "trips"
  }

  // ---------- what the upgrade writes ----------

  datatype Translation =
    | ByRecord(table: string, field: string, language: string, text: string, recordId: string, recordSubId: string)
    | ByValue(table: string, field: string, language: string, text: string, value: string)

  /** The row with the names of its translation ids put in. */
  function TranslatedRow(d: Dictionary, row: Row): (r: Row)
    requires DictionaryOk(d)
    ensures r.Keys == row.Keys
  {
    map f | f in row :: TranslatedValue(d, f, row[f])
  }

  function TranslatedValue(d: Dictionary, field: string, value: string): string
    requires DictionaryOk(d)
  {
    if IsTranslatable(field) && value in d.texts then d.texts[value][d.feedLanguage] else value
  }

  /** The field of the row has an old translation into the language, which is not the feed's. */
  predicate HasOld(d: Dictionary, row: Row, field: string, language: string) {
    && field in row && IsTranslatable(field) && row[field] in d.texts
    && language in d.texts[row[field]] && language != d.feedLanguage
  }

  /** What is written for it. */
  function Written(d: Dictionary, t: Table, row: Row, field: string, language: string): Translation
    requires DictionaryOk(d) && HasOld(d, row, field, language)
  {
    var texts := d.texts[row[field]];
    var name := texts[d.feedLanguage];
    if UsesRecordId(t.name) || name in d.contextDependent then
      ByRecord(t.name, field, language, texts[language], KeyOf(t, row).0, KeyOf(t, row).1)
    else
      ByValue(t.name, field, language, texts[language], name)
  }

  ghost predicate FromRow(d: Dictionary, t: Table, row: Row, x: Translation)
    requires DictionaryOk(d)
  {
    exists f, l :: HasOld(d, row, f, l) && x == Written(d, t, row, f, l)
  }

  ghost predicate FromRows(d: Dictionary, t: Table, n: nat, x: Translation)
    requires DictionaryOk(d) && n <= |t.rows|
  {
    exists i :: 0 <= i < n && FromRow(d, t, t.rows[i], x)
  }

  ghost predicate FromTable(d: Dictionary, t: Table, x: Translation)
    requires DictionaryOk(d)
  {
    FromRows(d, t, |t.rows|, x)
  }

  // ---------- what a translation says, and what becomes of a row ----------

  /**
   x tells, in another language than the feed's, the text of a field of the row in which a translation id stands:
   by the value that the field gets where that is enough to tell which text is meant, and by the row otherwise.
   */
  ghost predicate Says(d: Dictionary, t: Table, row: Row, x: Translation)
    requires DictionaryOk(d)
  {
    && x.table == t.name && x.field in row && HoldsText(x.field) && row[x.field] in d.texts
    && x.language != d.feedLanguage && x.language in d.texts[row[x.field]] && x.text == d.texts[row[x.field]][x.language]
    && (var name := d.texts[row[x.field]][d.feedLanguage];
        if x.ByValue? then
          (t.name == "stop_times" || t.name == "trips") && !Ambiguous(d.texts, d.feedLanguage, name) && x.value == name
        else
          ((t.name != "stop_times" && t.name != "trips") || Ambiguous(d.texts, d.feedLanguage, name))
          && Identifies(t, row, x.recordId, x.recordSubId))
  }

  /** A translation is written for a row exactly if it says what it should. */
  lemma FromRowIff(d: Dictionary, t: Table, row: Row, x: Translation)
    requires DictionaryOk(d)
    ensures FromRow(d, t, row, x) <==> Says(d, t, row, x)
  {
    hide IsTranslatable, HoldsText, Identifies, KeyOf, Ambiguous;
    TranslatableIff(x.field);
    if x.ByRecord? {
      KeyIdentifies(t, row, x.recordId, x.recordSubId);
    }
    if Says(d, t, row, x) {
      assert x == Written(d, t, row, x.field, x.language);
    }
  }

  /** The translation ids of the row have been replaced by the names that they stand for, and nothing else has been. */
  ghost predicate Upgrades(d: Dictionary, row: Row, row': Row)
    requires DictionaryOk(d)
  {
    && row'.Keys == row.Keys
    && forall f :: f in row ==> row'[f] == if HoldsText(f) && row[f] in d.texts then d.texts[row[f]][d.feedLanguage] else row[f]
  }

  lemma UpgradesIff(d: Dictionary, row: Row, row': Row)
    requires DictionaryOk(d)
    ensures Upgrades(d, row, row') <==> row' == TranslatedRow(d, row)
  {
    hide IsTranslatable, HoldsText;
    forall f
      ensures IsTranslatable(f) <==> HoldsText(f)
    {
      TranslatableIff(f);
    }
    if Upgrades(d, row, row') {
      assert forall f :: f in row ==> row'[f] == TranslatedRow(d, row)[f];
    }
  }

  // ---------- two translations for one value never disagree ----------

  /** A name that is not context-dependent belongs to one translation id. */
  lemma NameHasOneId(d: Dictionary, t: string, u: string)
    requires DictionaryOk(d) && t in d.texts && u in d.texts && d.texts[t][d.feedLanguage] == d.texts[u][d.feedLanguage]
    requires d.texts[t][d.feedLanguage] !in d.contextDependent
    ensures t == u
  {
  }

  lemma ValuesAgree(d: Dictionary, t: Table, x: Translation, y: Translation)
    requires DictionaryOk(d) && FromTable(d, t, x) && FromTable(d, t, y) && x.ByValue? && y.ByValue?
    requires x.field == y.field && x.language == y.language && x.value == y.value
    ensures x == y
  {
    var i :| 0 <= i < |t.rows| && FromRow(d, t, t.rows[i], x);
    var j :| 0 <= j < |t.rows| && FromRow(d, t, t.rows[j], y);
    RowValuesAgree(d, t, t.rows[i], t.rows[j], x, y);
  }

  lemma RowValuesAgree(d: Dictionary, t: Table, row: Row, row': Row, x: Translation, y: Translation)
    requires DictionaryOk(d) && FromRow(d, t, row, x) && FromRow(d, t, row', y) && x.ByValue? && y.ByValue?
    requires x.field == y.field && x.language == y.language && x.value == y.value
    ensures x == y
  {
    NameHasOneId(d, row[x.field], row'[y.field]);
  }

  // ---------- record ids are never translated ----------

  lemma LastThree(s: string, suffix: string)
    requires |s| >= 3 && |suffix| >= 3
    ensures EndsWith(s, suffix) ==> s[|s| - 3..] == suffix[|suffix| - 3..]
  {
    if EndsWith(s, suffix) {
      assert s[|s| - |suffix|..][|suffix| - 3..] == s[|s| - 3..];
    }
  }

  /** The three letters at the end tell all suffixes from those of the identifying fields. */
  lemma SuffixEnds(k: nat)
    requires k < |TRANSLATABLE_FIELD_NAME_SUFFIXES|
    ensures var s := TRANSLATABLE_FIELD_NAME_SUFFIXES[k];
            |s| >= 3 && s[|s| - 3..] in ["ame", "esc", "ign", "url", "ext", "ion", "_as", "ons"]
  {
  }

  predicate IsIdEnd(s: string) {
    |s| >= 3 && s[|s| - 3..] in ["_id", "nce", "ate", "ime"]
  }

  lemma IdFieldsUntranslatable(field: string)
    requires IsIdEnd(field)
    ensures !IsTranslatable(field)
  {
    forall k | 0 <= k < |TRANSLATABLE_FIELD_NAME_SUFFIXES|
      ensures !EndsWith(field, TRANSLATABLE_FIELD_NAME_SUFFIXES[k])
    {
      SuffixEnds(k);
      LastThree(field, TRANSLATABLE_FIELD_NAME_SUFFIXES[k]);
    }
  }

  const ID_FIELDS := [
    "agency_id", "stop_id", "route_id", "trip_id", "service_id", "fare_id", "shape_id", "from_stop_id", "to_stop_id",
    "pathway_id", "level_id"]

  lemma IdsEnd()
    ensures forall s :: s in ID_FIELDS ==> IsIdEnd(s)
  {
    assert "agency_id"[6..] == "_id";
    assert "stop_id"[4..] == "_id";
    assert "route_id"[5..] == "_id";
    assert "trip_id"[4..] == "_id";
    assert "service_id"[7..] == "_id";
    assert "fare_id"[4..] == "_id";
    assert "shape_id"[5..] == "_id";
    assert "from_stop_id"[9..] == "_id";
    assert "to_stop_id"[7..] == "_id";
    assert "pathway_id"[7..] == "_id";
    assert "level_id"[5..] == "_id";
  }

  lemma SubIdsEnd()
    ensures forall s :: s in ["stop_sequence", "date", "shape_pt_sequence", "start_time"] ==> IsIdEnd(s)
  {
    assert "stop_sequence"[10..] == "nce";
    assert "date"[1..] == "ate";
    assert "shape_pt_sequence"[14..] == "nce";
    assert "start_time"[7..] == "ime";
  }

  lemma RecordIdFields(name: string, fields: seq<string>)
    ensures var ids := RecordIdsOf(name, fields);
            (ids.id == "" || IsIdEnd(ids.id)) && (ids.subId == "" || IsIdEnd(ids.subId))
  {
    IdsEnd();
    SubIdsEnd();
    var first := FirstId(fields);
    assert first == "" || IsIdEnd(first);
  }

  /** Whatever translating has changed in a row so far, its record id is the same. */
  lemma KeyStays(t: Table, row: Row, row': Row)
    requires row'.Keys == row.Keys && forall f :: f in row && !IsTranslatable(f) ==> row'[f] == row[f]
    ensures KeyOf(t, row') == KeyOf(t, row)
  {
    var ids := RecordIdsOf(t.name, t.fields);
    RecordIdFields(t.name, t.fields);
    if ids.id != "" {
      IdFieldsUntranslatable(ids.id);
    }
    if ids.subId != "" {
      IdFieldsUntranslatable(ids.subId);
    }
  }

  /** The upgraded row has the record id that its translations were written for. */
  lemma KeyUntranslated(d: Dictionary, t: Table, row: Row)
    requires DictionaryOk(d)
    ensures KeyOf(t, TranslatedRow(d, row)) == KeyOf(t, row)
  {
    KeyStays(t, row, TranslatedRow(d, row));
  }

  // ---------- what the new table says ----------

  /** The translations of the field of a row by its record id. */
  ghost function ByRecordId(out: seq<Translation>, t: Table, row: Row, field: string, language: string): set<string> {
    set x | x in out && x.ByRecord? && x.table == t.name && x.field == field && x.language == language
            && Identifies(t, row, x.recordId, x.recordSubId) :: x.text
  }

  /** Those by its value. */
  ghost function ByFieldValue(out: seq<Translation>, t: Table, row: Row, field: string, language: string): set<string> {
    set x | x in out && x.ByValue? && x.table == t.name && x.field == field && x.language == language
            && field in row && x.value == row[field] :: x.text
  }

  /** A translation by record id takes precedence. */
  ghost function Found(out: seq<Translation>, t: Table, row: Row, field: string, language: string): set<string> {
    var r := ByRecordId(out, t, row, field, language);
    if r != {} then r else ByFieldValue(out, t, row, field, language)
  }

  /** The translations that the tables' rows give rise to, and no others, have been written. */
  ghost predicate IsOutput(d: Dictionary, tables: seq<Table>, out: seq<Translation>)
    requires DictionaryOk(d)
  {
    forall x :: x in out <==> exists k :: 0 <= k < |tables| && FromTable(d, tables[k], x)
  }

  /** Every translation is about some row of a table, and everything to be said about any row is there. */
  ghost predicate SaysAll(d: Dictionary, tables: seq<Table>, out: seq<Translation>)
    requires DictionaryOk(d)
  {
    forall x :: x in out <==> exists k, i :: 0 <= k < |tables| && 0 <= i < |tables[k].rows| && Says(d, tables[k], tables[k].rows[i], x)
  }

  lemma OutputIff(d: Dictionary, tables: seq<Table>, out: seq<Translation>)
    requires DictionaryOk(d)
    ensures IsOutput(d, tables, out) <==> SaysAll(d, tables, out)
  {
    hide FromTable, Says;
    forall x
      ensures (x in out <==> exists k :: 0 <= k < |tables| && FromTable(d, tables[k], x)) <==>
              (x in out <==>
               exists k, i :: 0 <= k < |tables| && 0 <= i < |tables[k].rows| && Says(d, tables[k], tables[k].rows[i], x))
    {
      OneSaid(d, tables, x);
    }
  }

  lemma OneSaid(d: Dictionary, tables: seq<Table>, x: Translation)
    requires DictionaryOk(d)
    ensures (exists k :: 0 <= k < |tables| && FromTable(d, tables[k], x)) <==>
            (exists k, i :: 0 <= k < |tables| && 0 <= i < |tables[k].rows| && Says(d, tables[k], tables[k].rows[i], x))
  {
    hide FromRow, Says;
    forall k, i | 0 <= k < |tables| && 0 <= i < |tables[k].rows|
      ensures FromRow(d, tables[k], tables[k].rows[i], x) <==> Says(d, tables[k], tables[k].rows[i], x)
    {
      FromRowIff(d, tables[k], tables[k].rows[i], x);
    }
  }

  ghost predicate TablesOk(tables: seq<Table>) {
    && (forall k :: 0 <= k < |tables| ==> TableOk(tables[k]))
    && (forall k, l :: 0 <= k < l < |tables| ==> tables[k].name != tables[l].name)
  }

  /** No other row is named by the record id of row i. */
  ghost predicate UniqueKey(t: Table, i: nat)
    requires i < |t.rows|
  {
    forall j, id, subId {:trigger Identifies(t, t.rows[j], id, subId)} ::
      0 <= j < |t.rows| && j != i && Identifies(t, t.rows[i], id, subId) ==> !Identifies(t, t.rows[j], id, subId)
  }

  lemma KeysDiffer(t: Table, i: nat, j: nat)
    requires i < |t.rows| && j < |t.rows| && UniqueKey(t, i) && KeyOf(t, t.rows[j]) == KeyOf(t, t.rows[i])
    ensures j == i
  {
    hide Identifies, KeyOf;
    var (id, subId) := KeyOf(t, t.rows[i]);
    KeyIdentifies(t, t.rows[i], id, subId);
    KeyIdentifies(t, t.rows[j], id, subId);
  }

  lemma OutputOfTable(d: Dictionary, tables: seq<Table>, k: nat, out: seq<Translation>, x: Translation)
    requires DictionaryOk(d) && TablesOk(tables) && k < |tables| && IsOutput(d, tables, out) && x.table == tables[k].name
    ensures x in out <==> FromTable(d, tables[k], x)
  {
    if x in out {
      var l :| 0 <= l < |tables| && FromTable(d, tables[l], x);
      TableOfOutput(d, tables[l], x);
    }
  }

  lemma TableOfOutput(d: Dictionary, t: Table, x: Translation)
    requires DictionaryOk(d) && FromTable(d, t, x)
    ensures x.table == t.name
  {
    var i :| 0 <= i < |t.rows| && FromRow(d, t, t.rows[i], x);
    var f, l :| HasOld(d, t.rows[i], f, l) && x == Written(d, t, t.rows[i], f, l);
  }

  /** By its record id, a row of a unique one finds what was written for itself. */
  lemma RecordIdFinds(d: Dictionary, tables: seq<Table>, k: nat, out: seq<Translation>, i: nat, f: string, l: string, text: string)
    requires DictionaryOk(d) && TablesOk(tables) && k < |tables| && IsOutput(d, tables, out)
    requires i < |tables[k].rows| && UniqueKey(tables[k], i)
    ensures var t, row := tables[k], tables[k].rows[i];
            text in ByRecordId(out, t, TranslatedRow(d, row), f, l) <==>
            HasOld(d, row, f, l) && Written(d, t, row, f, l).ByRecord? && Written(d, t, row, f, l).text == text
  {
    var t, row := tables[k], tables[k].rows[i];
    KeyUntranslated(d, t, row);
    var x := ByRecord(t.name, f, l, text, KeyOf(t, row).0, KeyOf(t, row).1);
    OutputOfTable(d, tables, k, out, x);
    RecordRowOf(d, t, i, x);
    InByRecordId(out, t, TranslatedRow(d, row), f, l, text);
  }

  lemma InByRecordId(out: seq<Translation>, t: Table, row: Row, f: string, l: string, text: string)
    ensures text in ByRecordId(out, t, row, f, l) <==> ByRecord(t.name, f, l, text, KeyOf(t, row).0, KeyOf(t, row).1) in out
  {
    hide Identifies, KeyOf;
    forall id, subId
      ensures Identifies(t, row, id, subId) <==> (id, subId) == KeyOf(t, row)
    {
      KeyIdentifies(t, row, id, subId);
    }
  }

  lemma RecordRowOf(d: Dictionary, t: Table, i: nat, x: Translation)
    requires DictionaryOk(d) && i < |t.rows| && UniqueKey(t, i)
    requires x.ByRecord? && x.table == t.name && (x.recordId, x.recordSubId) == KeyOf(t, t.rows[i])
    ensures FromTable(d, t, x) <==> HasOld(d, t.rows[i], x.field, x.language) && Written(d, t, t.rows[i], x.field, x.language) == x
  {
    if FromTable(d, t, x) {
      var j :| 0 <= j < |t.rows| && FromRow(d, t, t.rows[j], x);
      KeysDiffer(t, i, j);
    }
    if HasOld(d, t.rows[i], x.field, x.language) && Written(d, t, t.rows[i], x.field, x.language) == x {
      assert FromRow(d, t, t.rows[i], x);
    }
  }

  /** By a value, a field finds what was written for any row of the table that has it under that name. */
  lemma ValueFinds(d: Dictionary, tables: seq<Table>, k: nat, out: seq<Translation>, i: nat, f: string, l: string, text: string)
    requires DictionaryOk(d) && TablesOk(tables) && k < |tables| && IsOutput(d, tables, out)
    requires i < |tables[k].rows| && f in tables[k].rows[i]
    ensures var t, row := tables[k], TranslatedRow(d, tables[k].rows[i]);
            text in ByFieldValue(out, t, row, f, l) <==> FromTable(d, t, ByValue(t.name, f, l, text, row[f]))
  {
    var t, row := tables[k], TranslatedRow(d, tables[k].rows[i]);
    OutputOfTable(d, tables, k, out, ByValue(t.name, f, l, text, row[f]));
  }

  /** A row of the table gives the field this name by a translation id that translates it into the language. */
  ghost predicate NamedIn(d: Dictionary, t: Table, j: nat, f: string, l: string, name: string, text: string)
    requires DictionaryOk(d)
  {
    && !UsesRecordId(t.name) && name !in d.contextDependent
    && j < |t.rows| && HasOld(d, t.rows[j], f, l)
    && d.texts[t.rows[j][f]][d.feedLanguage] == name && d.texts[t.rows[j][f]][l] == text
  }

  lemma ValueRowOf(d: Dictionary, t: Table, f: string, l: string, name: string, text: string)
    requires DictionaryOk(d)
    ensures FromTable(d, t, ByValue(t.name, f, l, text, name)) <==> exists j :: NamedIn(d, t, j, f, l, name, text)
  {
    var x := ByValue(t.name, f, l, text, name);
    if FromTable(d, t, x) {
      var j :| 0 <= j < |t.rows| && FromRow(d, t, t.rows[j], x);
      assert NamedIn(d, t, j, f, l, name, text);
    }
    if j: nat :| NamedIn(d, t, j, f, l, name, text) {
      assert x == Written(d, t, t.rows[j], f, l);
      assert FromRow(d, t, t.rows[j], x);
    }
  }

  // ---------- the upgrade preserves what is displayed ----------

  /** What a field with an old translation is displayed as: in the feed's language if there is no other text. */
  function OldText(d: Dictionary, id: string, language: string): string
    requires DictionaryOk(d) && id in d.texts
  {
    if language in d.texts[id] then d.texts[id][language] else d.texts[id][d.feedLanguage]
  }

  /** The new table gives the upgraded field one text, or none, and then its value is displayed. */
  ghost predicate Displays(out: seq<Translation>, t: Table, row: Row, field: string, language: string, text: string) {
    var found := Found(out, t, row, field, language);
    field in row && if found == {} then row[field] == text else found == {text}
  }

  lemma SingleText(s: set<string>, text: string)
    requires forall x :: x in s <==> x == text
    ensures s == {text}
  {
  }

  lemma NoText(s: set<string>)
    requires forall x :: x !in s
    ensures s == {}
  {
  }

  /**
   For every row with a record id of its own, every translatable field with an old translation and every
   language but the feed's, the new table gives exactly the old translation, or none if there was none.
   */
  lemma TranslationPreserved(d: Dictionary, tables: seq<Table>, k: nat, out: seq<Translation>, i: nat, f: string, l: string)
    requires DictionaryOk(d) && TablesOk(tables) && k < |tables| && IsOutput(d, tables, out)
    requires i < |tables[k].rows| && UniqueKey(tables[k], i)
    requires f in tables[k].rows[i] && IsTranslatable(f) && tables[k].rows[i][f] in d.texts && l != d.feedLanguage
    ensures var row := tables[k].rows[i];
            Found(out, tables[k], TranslatedRow(d, row), f, l) ==
            if l in d.texts[row[f]] then {d.texts[row[f]][l]} else {}
  {
    var t, row := tables[k], tables[k].rows[i];
    var r := ByRecordId(out, t, TranslatedRow(d, row), f, l);
    var v := ByFieldValue(out, t, TranslatedRow(d, row), f, l);
    forall text
      ensures text in r <==> HasOld(d, row, f, l) && Written(d, t, row, f, l).ByRecord? && Written(d, t, row, f, l).text == text
      ensures text in v <==> HasOld(d, row, f, l) && Written(d, t, row, f, l).ByValue? && Written(d, t, row, f, l).text == text
    {
      RecordIdFinds(d, tables, k, out, i, f, l, text);
      ValueFinds(d, tables, k, out, i, f, l, text);
      ValueIsOwn(d, t, i, f, l, text);
    }
    if HasOld(d, row, f, l) {
      var text := d.texts[row[f]][l];
      if Written(d, t, row, f, l).ByRecord? {
        SingleText(r, text);
      } else {
        NoText(r);
        SingleText(v, text);
      }
    } else {
      NoText(r);
      NoText(v);
    }
  }

  /** What is found by the value of a field with an old translation is that field's own translation. */
  lemma ValueIsOwn(d: Dictionary, t: Table, i: nat, f: string, l: string, text: string)
    requires DictionaryOk(d) && i < |t.rows|
    requires f in t.rows[i] && IsTranslatable(f) && t.rows[i][f] in d.texts && l != d.feedLanguage
    ensures FromTable(d, t, ByValue(t.name, f, l, text, TranslatedRow(d, t.rows[i])[f])) <==>
            HasOld(d, t.rows[i], f, l) && Written(d, t, t.rows[i], f, l).ByValue? && Written(d, t, t.rows[i], f, l).text == text
  {
    var row := t.rows[i];
    var name := d.texts[row[f]][d.feedLanguage];
    ValueRowOf(d, t, f, l, name, text);
    if j: nat :| NamedIn(d, t, j, f, l, name, text) {
      NameHasOneId(d, t.rows[j][f], row[f]);
    }
    if HasOld(d, row, f, l) && Written(d, t, row, f, l).ByValue? && Written(d, t, row, f, l).text == text {
      assert NamedIn(d, t, i, f, l, name, text);
    }
  }

  /** Nothing is written for the feed's language. */
  lemma FeedLanguageUntouched(d: Dictionary, tables: seq<Table>, k: nat, out: seq<Translation>, row: Row, f: string)
    requires DictionaryOk(d) && TablesOk(tables) && k < |tables| && IsOutput(d, tables, out)
    ensures Found(out, tables[k], row, f, d.feedLanguage) == {}
  {
    forall x | x in out
      ensures x.language != d.feedLanguage
    {
      var l :| 0 <= l < |tables| && FromTable(d, tables[l], x);
      var i :| 0 <= i < |tables[l].rows| && FromRow(d, tables[l], tables[l].rows[i], x);
    }
    NoText(ByRecordId(out, tables[k], row, f, d.feedLanguage));
    NoText(ByFieldValue(out, tables[k], row, f, d.feedLanguage));
  }

  /** In every language, the upgraded field displays what the old one did. */
  lemma MeaningPreserved(d: Dictionary, tables: seq<Table>, k: nat, out: seq<Translation>, i: nat, f: string, l: string)
    requires DictionaryOk(d) && TablesOk(tables) && k < |tables| && IsOutput(d, tables, out)
    requires i < |tables[k].rows| && UniqueKey(tables[k], i)
    requires f in tables[k].rows[i] && IsTranslatable(f) && tables[k].rows[i][f] in d.texts
    ensures Displays(out, tables[k], TranslatedRow(d, tables[k].rows[i]), f, l, OldText(d, tables[k].rows[i][f], l))
  {
    if l == d.feedLanguage {
      FeedLanguageUntouched(d, tables, k, out, TranslatedRow(d, tables[k].rows[i]), f);
    } else {
      TranslationPreserved(d, tables, k, out, i, f, l);
    }
  }

  /**
   A field without an old translation gains one exactly if its table is keyed by values and another row's field of
   the same column has its text as a name that is not context-dependent and is translated into the language.
   */
  lemma PlainTextGains(d: Dictionary, tables: seq<Table>, k: nat, out: seq<Translation>, i: nat, f: string, l: string, text: string)
    requires DictionaryOk(d) && TablesOk(tables) && k < |tables| && IsOutput(d, tables, out)
    requires i < |tables[k].rows| && UniqueKey(tables[k], i)
    requires f in tables[k].rows[i] && !(IsTranslatable(f) && tables[k].rows[i][f] in d.texts)
    ensures var row := tables[k].rows[i];
            TranslatedRow(d, row)[f] == row[f] &&
            (text in Found(out, tables[k], TranslatedRow(d, row), f, l) <==>
             exists j :: NamedIn(d, tables[k], j, f, l, row[f], text))
  {
    var t, row := tables[k], tables[k].rows[i];
    var r := ByRecordId(out, t, TranslatedRow(d, row), f, l);
    forall x
      ensures x !in r
    {
      RecordIdFinds(d, tables, k, out, i, f, l, x);
    }
    NoText(r);
    ValueFinds(d, tables, k, out, i, f, l, text);
    ValueRowOf(d, t, f, l, row[f], text);
  }
}
