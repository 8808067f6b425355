/**
 The route schema of the OpenFlights application: the ordered list of typed,
 nullable fields that the CSV route rows are read with, and its streaming
 variant, in which the last field (`Equipment`) is replaced by a timestamp
 field named `datetime`.
 */
module Schema {

  datatype DataType = StringType | IntegerType | TimestampType

  /** One column of the schema: its name, its type and whether it may be null. */
  datatype StructField = StructField(name: string, dataType: DataType, nullable: bool)

  const EQUIPMENT_FIELD := StructField("Equipment", StringType, true)
  const DATETIME_FIELD := StructField("datetime", TimestampType, true)

  /** The nine route fields, in file order, as the application object is built with them. */
  function HistoricalFields(): (fields: seq<StructField>)
    ensures |fields| == 9 && fields[8] == EQUIPMENT_FIELD
  {
    [ StructField("Airline", StringType, true),
      StructField("Airline_ID", IntegerType, true),
      StructField("Source_airport", StringType, true),
      StructField("Source_airport_ID", IntegerType, true),
      StructField("Destination_airport", StringType, true),
      StructField("Destination_airport_ID", IntegerType, true),
      StructField("Codeshare", StringType, true),
      StructField("Stops", IntegerType, true),
      EQUIPMENT_FIELD ]
  }

  /** The column names of a field list, in order. */
  function Names(fields: seq<StructField>): (names: seq<string>)
    ensures |names| == |fields|
    ensures forall i :: 0 <= i < |fields| ==> names[i] == fields[i].name
  {
    if fields == [] then [] else [fields[0].name] + Names(fields[1..])
  }

  /** Whether a column of that name exists, which is what resolving a column reference needs. */
  predicate HasField(fields: seq<StructField>, name: string)
  {
    name in Names(fields)
  }

  /**
   The shapes the application's schema can take: the eight shared route
   fields followed by either `Equipment` (as built) or `datetime` (after the
   streaming rewrite).
   */
  ghost predicate IsRoutesSchema(fields: seq<StructField>)
  {
    && |fields| == 9
    && fields[..8] == HistoricalFields()[..8]
    && (fields[8] == EQUIPMENT_FIELD || fields[8] == DATETIME_FIELD)
  }

  /** The field list after dropping the last field and appending `datetime`. */
  function StreamingVariant(fields: seq<StructField>): seq<StructField>
    requires |fields| > 0
  {
    fields[..|fields| - 1] + [DATETIME_FIELD]
  }

  /** The rewrite keeps the number of fields and every field but the last, which becomes `datetime`. */
  lemma StreamingVariantShape(fields: seq<StructField>)
    requires |fields| > 0
    ensures |StreamingVariant(fields)| == |fields|
    ensures forall i :: 0 <= i < |fields| - 1 ==> StreamingVariant(fields)[i] == fields[i]
    ensures StreamingVariant(fields)[|fields| - 1] == DATETIME_FIELD
  {
  }

  /** A second rewrite gives the same field list as the first. */
  lemma StreamingVariantIdempotent(fields: seq<StructField>)
    requires |fields| > 0
    ensures StreamingVariant(StreamingVariant(fields)) == StreamingVariant(fields)
  {
    var once := StreamingVariant(fields);
    assert once[..|once| - 1] == fields[..|fields| - 1];
  }

  /** The rewrite maps every routes schema to the streaming one. */
  lemma StreamingVariantOfRoutesSchema(fields: seq<StructField>)
    requires IsRoutesSchema(fields)
    ensures IsRoutesSchema(StreamingVariant(fields))
    ensures StreamingVariant(fields) == StreamingVariant(HistoricalFields())
  {
    assert StreamingVariant(fields)[..8] == fields[..8];
  }

  /** The column names the stream is read with after the rewrite. */
  lemma StreamingNames()
    ensures Names(StreamingVariant(HistoricalFields()))
         == ["Airline", "Airline_ID", "Source_airport", "Source_airport_ID", "Destination_airport",
             "Destination_airport_ID", "Codeshare", "Stops", "datetime"]
  {
    var streaming :=
      [ StructField("Airline", StringType, true),
        StructField("Airline_ID", IntegerType, true),
        StructField("Source_airport", StringType, true),
        StructField("Source_airport_ID", IntegerType, true),
        StructField("Destination_airport", StringType, true),
        StructField("Destination_airport_ID", IntegerType, true),
        StructField("Codeshare", StringType, true),
        StructField("Stops", IntegerType, true),
        DATETIME_FIELD ];
    assert StreamingVariant(HistoricalFields()) == streaming;
    assert Names(streaming)
        == ["Airline", "Airline_ID", "Source_airport", "Source_airport_ID", "Destination_airport",
            "Destination_airport_ID", "Codeshare", "Stops", "datetime"];
  }

  /**
   The windowed query's time column `datetime` resolves only in the streaming
   variant, while the grouping column `Source_airport` resolves in both.
   */
  lemma DatetimeOnlyAfterRewrite(fields: seq<StructField>)
    requires IsRoutesSchema(fields)
    ensures HasField(fields, "Source_airport")
    ensures HasField(fields, "datetime") <==> fields[8] == DATETIME_FIELD
  {
    var names := Names(fields);
    assert names[2] == "Source_airport";
    forall i | 0 <= i < 8
      ensures names[i] != "datetime"
    {
      assert fields[i] == HistoricalFields()[..8][i];
    }
    if fields[8] == DATETIME_FIELD {
      assert names[8] == "datetime";
    } else {
      assert names[8] == "Equipment";
    }
  }
}
