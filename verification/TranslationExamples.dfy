/** A trip without a translated headsign that gains a translation, because another trip has its headsign as a name. */
module TranslationExamples {
  import opened Wrappers
  import opened Translations

  const TEXTS := map["T" := map["en" := "Market", "fr" := "Halle"]]

  const DICTIONARY := Dictionary(TEXTS, "en", {})

  const TRANSLATED: Row := map["trip_id" := "1", "trip_headsign" := "T"]

  const PLAIN: Row := map["trip_id" := "2", "trip_headsign" := "Market"]

  const TRIPS := Table("trips", ["trip_id", "trip_headsign"], [TRANSLATED, PLAIN])

  const FRENCH := ByValue("trips", "trip_headsign", "fr", "Halle", "Market")

  lemma DictionaryIsOk()
    ensures DictionaryOk(DICTIONARY)
  {
  }

  lemma HeadsignIsTranslatable()
    ensures IsTranslatable("trip_headsign") && !IsTranslatable("trip_id")
  {
    assert EndsWith("trip_headsign", TRANSLATABLE_FIELD_NAME_SUFFIXES[2]);
  }

  /** The only old translation is the first trip's headsign, into French. */
  lemma OnlyOldTranslation(row: Row, f: string, l: string)
    requires row == TRANSLATED || row == PLAIN
    ensures HasOld(DICTIONARY, row, f, l) <==> row == TRANSLATED && f == "trip_headsign" && l == "fr"
  {
    HeadsignIsTranslatable();
  }

  lemma FrenchIsWritten()
    ensures DictionaryOk(DICTIONARY) && HasOld(DICTIONARY, TRANSLATED, "trip_headsign", "fr")
    ensures Written(DICTIONARY, TRIPS, TRANSLATED, "trip_headsign", "fr") == FRENCH
  {
    DictionaryIsOk();
    OnlyOldTranslation(TRANSLATED, "trip_headsign", "fr");
  }

  lemma FromTrips(x: Translation)
    ensures DictionaryOk(DICTIONARY) && (FromTable(DICTIONARY, TRIPS, x) <==> x == FRENCH)
  {
    hide HasOld, Written, DictionaryOk;
    FrenchIsWritten();
    if FromTable(DICTIONARY, TRIPS, x) {
      var i :| 0 <= i < |TRIPS.rows| && FromRow(DICTIONARY, TRIPS, TRIPS.rows[i], x);
      var f, l :| HasOld(DICTIONARY, TRIPS.rows[i], f, l) && x == Written(DICTIONARY, TRIPS, TRIPS.rows[i], f, l);
      OnlyOldTranslation(TRIPS.rows[i], f, l);
    }
    assert FromRow(DICTIONARY, TRIPS, TRIPS.rows[0], FRENCH);
  }

  lemma OutputOfTrips()
    ensures DictionaryOk(DICTIONARY) && IsOutput(DICTIONARY, [TRIPS], [FRENCH])
  {
    DictionaryIsOk();
    forall x
      ensures x in [FRENCH] <==> exists k :: 0 <= k < |[TRIPS]| && FromTable(DICTIONARY, [TRIPS][k], x)
    {
      FromTrips(x);
      assert FromTable(DICTIONARY, TRIPS, x) ==> FromTable(DICTIONARY, [TRIPS][0], x);
    }
  }

  /** The upgrade writes one translation; the second trip, which had none, finds it by its value. */
  lemma PlainTextCanGain()
    ensures DictionaryOk(DICTIONARY) && TablesOk([TRIPS]) && UniqueKey(TRIPS, 1) && TRIPS.rows[1] == PLAIN
    ensures IsOutput(DICTIONARY, [TRIPS], [FRENCH])
    ensures PLAIN["trip_headsign"] !in TEXTS
    ensures "Halle" in Found([FRENCH], TRIPS, TranslatedRow(DICTIONARY, PLAIN), "trip_headsign", "fr")
  {
    OutputOfTrips();
    OnlyOldTranslation(TRANSLATED, "trip_headsign", "fr");
    assert NamedIn(DICTIONARY, TRIPS, 0, "trip_headsign", "fr", "Market", "Halle");
    PlainTextGains(DICTIONARY, [TRIPS], 0, [FRENCH], 1, "trip_headsign", "fr", "Halle");
  }
}
