/** The upgrade of translations: reading the old ones, and translating table by table. */
module TableTranslators {
  import opened Wrappers
  import opened Sequences
  import opened Translations

  // ---------- the old translations ----------

  /** A line of the old translations: a translation id, a language and a text. */
  datatype OldLine = OldLine(transId: string, lang: string, translation: string)

  /** The last line for the id and the language decides. */
  ghost predicate IsLast(lines: seq<OldLine>, k: nat, t: string, l: string) {
    && k < |lines| && lines[k].transId == t && lines[k].lang == l
    && forall j :: k < j < |lines| ==> !(lines[j].transId == t && lines[j].lang == l)
  }

  ghost predicate LastText(lines: seq<OldLine>, t: string, l: string, text: string) {
    exists k: nat :: IsLast(lines, k, t, l) && lines[k].translation == text
  }

  method ReadTranslations(lines: seq<OldLine>) returns (texts: map<string, map<string, string>>)
    ensures forall t, l :: t in texts && l in texts[t] ==> LastText(lines, t, l, texts[t][l])
    ensures forall k :: 0 <= k < |lines| ==> lines[k].transId in texts && lines[k].lang in texts[lines[k].transId]
  {
    texts := map[];
    for i := 0 to |lines|
      invariant forall t, l :: t in texts && l in texts[t] ==> LastText(lines[..i], t, l, texts[t][l])
      invariant forall k :: 0 <= k < i ==> lines[k].transId in texts && lines[k].lang in texts[lines[k].transId]
    {
      assert lines[..i + 1] == lines[..i] + [lines[i]];
      LastTextStep(lines[..i], lines[i]);
      var before := if lines[i].transId in texts then texts[lines[i].transId] else map[];
      texts := texts[lines[i].transId := before[lines[i].lang := lines[i].translation]];
    }
    assert lines[..|lines|] == lines;
  }

  lemma LastTextStep(lines: seq<OldLine>, line: OldLine)
    ensures LastText(lines + [line], line.transId, line.lang, line.translation)
    ensures forall t, l, text :: LastText(lines, t, l, text) && !(t == line.transId && l == line.lang) ==>
              LastText(lines + [line], t, l, text)
  {
    assert IsLast(lines + [line], |lines|, line.transId, line.lang);
    forall t, l, text | LastText(lines, t, l, text) && !(t == line.transId && l == line.lang)
      ensures LastText(lines + [line], t, l, text)
    {
      var k: nat :| IsLast(lines, k, t, l) && lines[k].translation == text;
      assert IsLast(lines + [line], k, t, l);
    }
  }

  /** The ids among these whose name this is. */
  ghost function IdsNamed(texts: map<string, map<string, string>>, feedLanguage: string, ids: set<string>, name: string): set<string>
    requires HasFeedTexts(texts, feedLanguage) && ids <= texts.Keys
  {
    set t | t in ids && texts[t][feedLanguage] == name
  }

  /** A set has more than one member exactly if it has two different ones. */
  lemma MoreThanOne(s: set<string>)
    ensures |s| > 1 <==> exists x, y :: x in s && y in s && x != y
  {
    if x, y :| x in s && y in s && x != y {
      assert {x, y} <= s;
      SubsetSize({x, y}, s);
    }
    if |s| > 1 {
      var x :| x in s;
      var rest := s - {x};
      assert |rest| == |s| - 1;
      var y :| y in rest;
      assert x in s && y in s && x != y;
    }
  }

  lemma SubsetSize(s: set<string>, t: set<string>)
    requires s <= t
    ensures |s| <= |t|
  {
    assert t == s + (t - s);
  }

  lemma NamedTwice(texts: map<string, map<string, string>>, feedLanguage: string, name: string)
    requires HasFeedTexts(texts, feedLanguage)
    ensures |IdsNamed(texts, feedLanguage, texts.Keys, name)| > 1 <==> Ambiguous(texts, feedLanguage, name)
  {
    var s := IdsNamed(texts, feedLanguage, texts.Keys, name);
    MoreThanOne(s);
    if |s| > 1 {
      var x, y :| x in s && y in s && x != y;
      assert x in texts && y in texts;
    }
    if Ambiguous(texts, feedLanguage, name) {
      var t, u :| t in texts && u in texts && t != u && texts[t][feedLanguage] == name == texts[u][feedLanguage];
      assert t in s && u in s;
    }
  }

  /** Exactly the names of two or more translation ids; none if an id has no text in the feed's language. */
  method FindContextDependentNames(texts: map<string, map<string, string>>, feedLanguage: string)
    returns (names: Option<set<string>>)
    ensures names.None? <==> !HasFeedTexts(texts, feedLanguage)
    ensures names.Some? ==> DictionaryOk(Dictionary(texts, feedLanguage, names.value))
  {
    if t :| t in texts && feedLanguage !in texts[t] {
      return None;
    }
    var counts := CountNames(texts, feedLanguage);
    names := Some(set name | name in counts && counts[name] > 1);
    forall name
      ensures name in names.value <==> Ambiguous(texts, feedLanguage, name)
    {
      NamedTwice(texts, feedLanguage, name);
    }
  }

  /** How often each name has been counted. */
  function CountOf(counts: map<string, nat>, name: string): nat {
    if name in counts then counts[name] else 0
  }

  /** Every name has been counted once for each of the ids seen that it belongs to. */
  ghost predicate Counted(texts: map<string, map<string, string>>, feedLanguage: string, seen: set<string>, counts: map<string, nat>)
    requires HasFeedTexts(texts, feedLanguage) && seen <= texts.Keys
  {
    forall name :: CountOf(counts, name) == |IdsNamed(texts, feedLanguage, seen, name)|
  }

  lemma NoneCounted(texts: map<string, map<string, string>>, feedLanguage: string)
    requires HasFeedTexts(texts, feedLanguage)
    ensures Counted(texts, feedLanguage, {}, map[])
  {
    forall name
      ensures IdsNamed(texts, feedLanguage, {}, name) == {}
    {
    }
  }

  lemma IdsNamedStep(texts: map<string, map<string, string>>, feedLanguage: string, seen: set<string>, t: string)
    requires HasFeedTexts(texts, feedLanguage) && seen <= texts.Keys && t in texts && t !in seen
    ensures forall name :: |IdsNamed(texts, feedLanguage, seen + {t}, name)| ==
              |IdsNamed(texts, feedLanguage, seen, name)| + if name == texts[t][feedLanguage] then 1 else 0
  {
    forall name
      ensures |IdsNamed(texts, feedLanguage, seen + {t}, name)| ==
              |IdsNamed(texts, feedLanguage, seen, name)| + if name == texts[t][feedLanguage] then 1 else 0
    {
      assert IdsNamed(texts, feedLanguage, seen + {t}, name) ==
             IdsNamed(texts, feedLanguage, seen, name) + if name == texts[t][feedLanguage] then {t} else {};
    }
  }

  lemma CountedStep(texts: map<string, map<string, string>>, feedLanguage: string, seen: set<string>, counts: map<string, nat>, t: string)
    requires HasFeedTexts(texts, feedLanguage) && seen <= texts.Keys && t in texts && t !in seen
    requires Counted(texts, feedLanguage, seen, counts)
    ensures var name := texts[t][feedLanguage];
            Counted(texts, feedLanguage, seen + {t}, counts[name := CountOf(counts, name) + 1])
  {
    hide IdsNamed;
    IdsNamedStep(texts, feedLanguage, seen, t);
  }

  method CountNames(texts: map<string, map<string, string>>, feedLanguage: string) returns (counts: map<string, nat>)
    requires HasFeedTexts(texts, feedLanguage)
    ensures Counted(texts, feedLanguage, texts.Keys, counts)
  {
    hide Counted;
    NoneCounted(texts, feedLanguage);
    counts := map[];
    var todo := texts.Keys;
    ghost var seen: set<string> := {};
    while todo != {}
      invariant todo + seen == texts.Keys && todo !! seen
      invariant Counted(texts, feedLanguage, seen, counts)
      decreases todo
    {
      var t :| t in todo;
      var name := texts[t][feedLanguage];
      CountedStep(texts, feedLanguage, seen, counts, t);
      OneMoreSeen(texts.Keys, todo, seen, t);
      counts := counts[name := (if name in counts then counts[name] else 0) + 1];
      todo, seen := todo - {t}, seen + {t};
    }
    assert seen == texts.Keys;
  }

  // ---------- one table ----------

  /** Field, language and value. */
  type ValueKey = (string, string, string)

  function ValueEntry(t: Table, key: ValueKey, text: string): Translation {
    ByValue(t.name, key.0, key.1, text, key.2)
  }

  /** x is written for one of these fields of the row. */
  ghost predicate FromFields(d: Dictionary, t: Table, row: Row, fields: set<string>, x: Translation)
    requires DictionaryOk(d)
  {
    exists f, l :: f in fields && HasOld(d, row, f, l) && x == Written(d, t, row, f, l)
  }

  /** x is written for the field of the row in one of these languages. */
  ghost predicate FromLanguages(d: Dictionary, t: Table, row: Row, f: string, languages: set<string>, x: Translation)
    requires DictionaryOk(d)
  {
    exists l :: l in languages && HasOld(d, row, f, l) && x == Written(d, t, row, f, l)
  }

  lemma FromRowsStep(d: Dictionary, t: Table, n: nat)
    requires DictionaryOk(d) && n < |t.rows|
    ensures forall x :: FromRows(d, t, n + 1, x) <==> FromRows(d, t, n, x) || FromRow(d, t, t.rows[n], x)
    ensures forall x :: FromRow(d, t, t.rows[n], x) <==> FromFields(d, t, t.rows[n], t.rows[n].Keys, x)
    ensures forall x :: FromRows(d, t, n + 1, x) ==> FromTable(d, t, x)
  {
  }

  lemma RowSays(d: Dictionary, t: Table, row: Row)
    requires DictionaryOk(d)
    ensures forall x :: FromRow(d, t, row, x) <==> Says(d, t, row, x)
  {
    hide FromRow, Says;
    forall x
      ensures FromRow(d, t, row, x) <==> Says(d, t, row, x)
    {
      FromRowIff(d, t, row, x);
    }
  }

  class TableTranslator {
    const dictionary: Dictionary
    const table: Table
    var translationsForValues: map<ValueKey, string>
    var written: seq<Translation>
    var totalTranslationRows: nat

    constructor (dictionary: Dictionary, table: Table)
      requires DictionaryOk(dictionary)
      ensures this.dictionary == dictionary && this.table == table && Valid() && Contents() == {} && written == []
    {
      this.dictionary, this.table := dictionary, table;
      translationsForValues, written, totalTranslationRows := map[], [], 0;
    }

    /** What has been written, and what has been kept to be written for values. */
    ghost function Contents(): set<Translation>
      reads this
    {
      (set x | x in written) + (set key | key in translationsForValues :: ValueEntry(table, key, translationsForValues[key]))
    }

    ghost predicate Valid()
      reads this
    {
      && DictionaryOk(dictionary) && totalTranslationRows == |written|
      && (forall x :: x in written ==> x.ByRecord?)
      && (forall x :: x in Contents() ==> FromTable(dictionary, table, x))
    }

    method WriteTranslationRow(x: Translation)
      modifies `written, `totalTranslationRows
      ensures written == old(written) + [x] && totalTranslationRows == old(totalTranslationRows) + 1
    {
      written := written + [x];
      totalTranslationRows := totalTranslationRows + 1;
    }

    /** One translation of a field is written by record id, or kept by value; nothing kept is changed by it. */
    method Translate(row: Row, out: Row, field: string, language: string)
      requires Valid() && HasOld(dictionary, row, field, language) && KeyOf(table, out) == KeyOf(table, row)
      requires FromTable(dictionary, table, Written(dictionary, table, row, field, language))
      modifies this
      ensures Valid() && Contents() == old(Contents()) + {Written(dictionary, table, row, field, language)}
    {
      ghost var x := Written(dictionary, table, row, field, language);
      var texts := dictionary.texts[row[field]];
      var valueInFeedLang := texts[dictionary.feedLanguage];
      var useRecordId := UsesRecordId(table.name) || valueInFeedLang in dictionary.contextDependent;
      var (recordId, recordSubId) := KeyOf(table, out);
      if useRecordId {
        WriteTranslationRow(ByRecord(table.name, field, language, texts[language], recordId, recordSubId));
      } else {
        ghost var before := translationsForValues;
        var key := (field, language, valueInFeedLang);
        translationsForValues := translationsForValues[key := texts[language]];
        forall y | y in old(Contents())
          ensures y in Contents()
        {
          if y !in written {
            var k :| k in before && y == ValueEntry(table, k, before[k]);
            if k == key {
              ValuesAgree(dictionary, table, x, y);
            }
            assert k in translationsForValues && y == ValueEntry(table, k, translationsForValues[k]);
          }
        }
        assert key in translationsForValues && x == ValueEntry(table, key, translationsForValues[key]);
      }
    }

    /** All translations of one field; its value becomes the text in the feed's language. */
    method TranslateField(n: nat, out: Row, field: string) returns (out': Row)
      requires Valid() && n < |table.rows| && field in table.rows[n] && out.Keys == table.rows[n].Keys
      requires forall f :: f in out && !IsTranslatable(f) ==> out[f] == table.rows[n][f]
      modifies this
      ensures Valid() && out' == out[field := TranslatedValue(dictionary, field, table.rows[n][field])]
      ensures forall x :: x in Contents() <==> x in old(Contents()) || FromFields(dictionary, table, table.rows[n], {field}, x)
    {
      hide Written;
      var row := table.rows[n];
      out' := out[field := row[field]];
      if !IsTranslatable(field) || row[field] !in dictionary.texts {
        return;
      }
      var texts := dictionary.texts[row[field]];
      out' := out[field := texts[dictionary.feedLanguage]];
      KeyStays(table, row, out');
      var todo := texts.Keys;
      ghost var seen: set<string> := {};
      while todo != {}
        invariant Valid() && todo + seen == texts.Keys && todo !! seen
        invariant forall x :: x in Contents() <==> x in old(Contents()) || FromLanguages(dictionary, table, row, field, seen, x)
        decreases todo
      {
        var language :| language in todo;
        OneMoreSeen(texts.Keys, todo, seen, language);
        todo, seen := todo - {language}, seen + {language};
        if language != dictionary.feedLanguage {
          assert FromRow(dictionary, table, row, Written(dictionary, table, row, field, language));
          Translate(row, out', field, language);
        }
      }
      assert seen == texts.Keys;
    }

    /** The row with its names put in; all its translations are written or kept. */
    method TranslateRow(n: nat) returns (out: Row)
      requires Valid() && n < |table.rows|
      requires forall x :: x in Contents() <==> FromRows(dictionary, table, n, x)
      modifies this
      ensures Valid() && out == TranslatedRow(dictionary, table.rows[n]) && Upgrades(dictionary, table.rows[n], out)
      ensures forall x :: x in Contents() <==> FromRows(dictionary, table, n + 1, x)
      ensures forall x :: x in Contents() <==> x in old(Contents()) || Says(dictionary, table, table.rows[n], x)
    {
      hide Says, Upgrades;
      var row := table.rows[n];
      out := row;
      var todo := row.Keys;
      ghost var seen: set<string> := {};
      while todo != {}
        invariant Valid() && seen + todo == row.Keys && seen !! todo && out.Keys == row.Keys
        invariant forall f :: f in seen ==> out[f] == TranslatedValue(dictionary, f, row[f])
        invariant forall f :: f in todo ==> out[f] == row[f]
        invariant forall x :: x in Contents() <==> FromRows(dictionary, table, n, x) || FromFields(dictionary, table, row, seen, x)
        decreases todo
      {
        var field :| field in todo;
        todo, seen := todo - {field}, seen + {field};
        out := TranslateField(n, out, field);
      }
      assert seen == row.Keys;
      FromRowsStep(dictionary, table, n);
      RowSays(dictionary, table, row);
      UpgradesIff(dictionary, row, out);
    }

    /** What was kept for values is written, each once. */
    method WriteForFieldValues()
      requires Valid()
      modifies `written, `totalTranslationRows
      ensures (set x | x in written) == old(Contents()) && totalTranslationRows == |written|
    {
      var todo := translationsForValues.Keys;
      ghost var seen: set<ValueKey> := {};
      while todo != {}
        invariant seen + todo == translationsForValues.Keys && totalTranslationRows == |written|
        invariant (set x | x in written) ==
                  (set x | x in old(written)) + set key | key in seen :: ValueEntry(table, key, translationsForValues[key])
        decreases todo
      {
        var key :| key in todo;
        ghost var before := written;
        WriteTranslationRow(ByValue(table.name, key.0, key.1, translationsForValues[key], key.2));
        assert (set x | x in written) == (set x | x in before) + {ValueEntry(table, key, translationsForValues[key])};
        todo, seen := todo - {key}, seen + {key};
      }
      assert seen == translationsForValues.Keys;
    }
  }

  // ---------- all tables ----------

  ghost predicate IsUpgraded(d: Dictionary, t: Table, rows: seq<Row>)
    requires DictionaryOk(d)
  {
    |rows| == |t.rows| && forall i :: 0 <= i < |rows| ==> Upgrades(d, t.rows[i], rows[i])
  }

  /** The upgraded rows of a table, and what has been written for it. */
  method TranslateTable(d: Dictionary, t: Table) returns (rows: seq<Row>, written: seq<Translation>)
    requires DictionaryOk(d) && TableOk(t)
    ensures IsUpgraded(d, t, rows)
    ensures forall x :: x in written <==> FromTable(d, t, x)
  {
    hide Upgrades;
    forall i, row' | 0 <= i < |t.rows|
      ensures Upgrades(d, t.rows[i], row') <==> row' == TranslatedRow(d, t.rows[i])
    {
      UpgradesIff(d, t.rows[i], row');
    }
    if !AnyTranslatable(t.fields) {
      CopiedUnchanged(d, t);
      return t.rows, [];
    }
    var translator := new TableTranslator(d, t);
    rows := [];
    for i := 0 to |t.rows|
      invariant translator.Valid() && translator.dictionary == d && translator.table == t && fresh(translator)
      invariant |rows| == i && forall k :: 0 <= k < i ==> rows[k] == TranslatedRow(d, t.rows[k])
      invariant forall x :: x in translator.Contents() <==> FromRows(d, t, i, x)
    {
      var out := translator.TranslateRow(i);
      rows := rows + [out];
    }
    ghost var contents := translator.Contents();
    translator.WriteForFieldValues();
    written := translator.written;
    assert forall x :: x in written <==> x in contents;
  }

  predicate AnyTranslatable(fields: seq<string>) {
    exists k :: 0 <= k < |fields| && IsTranslatable(fields[k])
  }

  lemma CopiedUnchanged(d: Dictionary, t: Table)
    requires DictionaryOk(d) && TableOk(t) && !AnyTranslatable(t.fields)
    ensures forall i :: 0 <= i < |t.rows| ==> t.rows[i] == TranslatedRow(d, t.rows[i])
    ensures forall x :: !FromTable(d, t, x)
  {
    forall i, f | 0 <= i < |t.rows| && f in t.rows[i]
      ensures !IsTranslatable(f)
    {
      assert f in t.fields;
    }
  }

  /** The new translations, and all tables upgraded. */
  method ConvertTranslations(d: Dictionary, tables: seq<Table>) returns (upgraded: seq<seq<Row>>, out: seq<Translation>)
    requires DictionaryOk(d) && TablesOk(tables)
    ensures IsOutput(d, tables, out) && SaysAll(d, tables, out)
    ensures |upgraded| == |tables| && forall k :: 0 <= k < |tables| ==> IsUpgraded(d, tables[k], upgraded[k])
  {
    upgraded, out := [], [];
    for k := 0 to |tables|
      invariant |upgraded| == k && forall l :: 0 <= l < k ==> IsUpgraded(d, tables[l], upgraded[l])
      invariant forall x :: x in out <==> exists l :: 0 <= l < k && FromTable(d, tables[l], x)
    {
      var rows, written := TranslateTable(d, tables[k]);
      upgraded, out := upgraded + [rows], out + written;
    }
    OutputIff(d, tables, out);
  }
}
