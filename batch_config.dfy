/**
 * The reader configuration of the import step: which file is read, how many
 * header lines are skipped, how a delimited line is bound to named columns and
 * how the named columns become a `TrafficDensity`; and the step's chunk size.
 */
module Config {
  import opened Wrappers
  import opened Text
  import opened Records

  /** Items per chunk of the import step. */
  const ChunkSize: nat := 10_000

  /** The file read when the job has no `filePath` parameter. */
  const DefaultPath: string := "traffic_density_202412.csv"

  /** Lines discarded at the top of the file (the header row). */
  const LinesToSkip: nat := 1

  /** The reader's column names, in file order. */
  const ColumnNames: seq<string> := ["DATE_TIME", "LATITUDE", "LONGITUDE", "GEOHASH",
    "MINIMUM_SPEED", "MAXIMUM_SPEED", "AVERAGE_SPEED", "NUMBER_OF_VEHICLES"]


  /** The resource the reader opens: the job's `filePath` parameter, or the default file. */
  function ResourcePath(path: Option<string>): (r: string)
    ensures path.Some? ==> r == path.value
    ensures path.None? ==> r == DefaultPath
  {
    match path
    case Some(p) => p
    case None => DefaultPath
  }

  /** Why one data line could not be turned into a record. */
  datatype ReadError =
    | IncorrectTokenCount(expected: nat, actual: nat)
    | NotAnInteger(column: string, token: string)

  /** The tokens of one line bound to the column names (a `FieldSet`). */
  datatype FieldSet = FieldSet(names: seq<string>, tokens: seq<string>)

  /** Position of the first column called `name`. */
  function IndexOf(names: seq<string>, name: string): (k: nat)
    requires name in names
    ensures k < |names| && names[k] == name
    ensures forall j :: 0 <= j < k ==> names[j] != name
  {
    if names[0] == name then 0 else 1 + IndexOf(names[1..], name)
  }

  /** No two columns share a name. */
  lemma ColumnNamesDistinct()
    ensures forall i, j :: 0 <= i < j < |ColumnNames| ==> ColumnNames[i] != ColumnNames[j]
  {
    var c := ColumnNames;
    forall i, j | 0 <= i < j < |c| ensures c[i] != c[j] {
      assert c[i][0] != c[j][0] || |c[i]| != |c[j]| || c[i][1] != c[j][1];
    }
  }

  /** Each column name reads the token at its position in the line. */
  lemma ColumnPositions()
    ensures IndexOf(ColumnNames, "DATE_TIME") == 0
    ensures IndexOf(ColumnNames, "LATITUDE") == 1
    ensures IndexOf(ColumnNames, "LONGITUDE") == 2
    ensures IndexOf(ColumnNames, "GEOHASH") == 3
    ensures IndexOf(ColumnNames, "MINIMUM_SPEED") == 4
    ensures IndexOf(ColumnNames, "MAXIMUM_SPEED") == 5
    ensures IndexOf(ColumnNames, "AVERAGE_SPEED") == 6
    ensures IndexOf(ColumnNames, "NUMBER_OF_VEHICLES") == 7
  {
    ColumnNamesDistinct();
  }

  /** Tokenizes one line: split on commas, bound to the column names; a wrong token count fails. */
  function Tokenize(line: string): (r: Result<FieldSet, ReadError>)
    ensures r.Success? <==> |Split(line)| == |ColumnNames|
    ensures r.Success? ==> r.value == FieldSet(ColumnNames, Split(line))
  {
    var tokens := Split(line);
    if |tokens| == |ColumnNames| then Success(FieldSet(ColumnNames, tokens))
    else Failure(IncorrectTokenCount(|ColumnNames|, |tokens|))
  }

  /** `readString(name)`: the token in the first column called `name`, as it stands. */
  function ReadString(fs: FieldSet, name: string): (r: string)
    requires |fs.names| == |fs.tokens| && name in fs.names
    ensures r in fs.tokens
    ensures forall k :: 0 <= k < |fs.names| && fs.names[k] == name && name !in fs.names[..k] ==> r == fs.tokens[k]
  {
    fs.tokens[IndexOf(fs.names, name)]
  }

  /** `readInt(name)`: the token in the named column parsed as a 32-bit integer, or the failure. */
  function ReadInt(fs: FieldSet, name: string): (r: Result<int, ReadError>)
    requires |fs.names| == |fs.tokens| && name in fs.names
    ensures r.Success? <==> ParseInt32(ReadString(fs, name)).Some?
    ensures r.Success? ==> Some(r.value) == ParseInt32(ReadString(fs, name))
  {
    var token := ReadString(fs, name);
    match ParseInt32(token)
    case Some(n) => Success(n)
    case None => Failure(NotAnInteger(name, token))
  }

  /** Reading a column by name gives the token at that column's position in the line. */
  lemma ColumnReads(fs: FieldSet)
    requires fs.names == ColumnNames && |fs.tokens| == |ColumnNames|
    ensures ReadString(fs, "DATE_TIME") == fs.tokens[0]
    ensures ReadString(fs, "LATITUDE") == fs.tokens[1]
    ensures ReadString(fs, "LONGITUDE") == fs.tokens[2]
    ensures ReadString(fs, "GEOHASH") == fs.tokens[3]
    ensures ReadString(fs, "MINIMUM_SPEED") == fs.tokens[4]
    ensures ReadString(fs, "MAXIMUM_SPEED") == fs.tokens[5]
    ensures ReadString(fs, "AVERAGE_SPEED") == fs.tokens[6]
    ensures ReadString(fs, "NUMBER_OF_VEHICLES") == fs.tokens[7]
  {
    ColumnPositions();
  }

  /** The field-set mapper: builds a record from the eight named columns; the id is left absent. */
  function MapFieldSet(fs: FieldSet): (r: Result<TrafficDensity, ReadError>)
    requires fs.names == ColumnNames && |fs.tokens| == |ColumnNames|
    ensures r.Success? <==> IntegerColumnsParse(fs.tokens)
    ensures r.Success? ==> RecordFromTokens(r.value, fs.tokens)
  {
    ColumnReads(fs);
    var minimum := ReadInt(fs, "MINIMUM_SPEED");
    var maximum := ReadInt(fs, "MAXIMUM_SPEED");
    var average := ReadInt(fs, "AVERAGE_SPEED");
    var vehicles := ReadInt(fs, "NUMBER_OF_VEHICLES");
    if minimum.Failure? then Failure(minimum.error)
    else if maximum.Failure? then Failure(maximum.error)
    else if average.Failure? then Failure(average.error)
    else if vehicles.Failure? then Failure(vehicles.error)
    else Success(TrafficDensity(
      None,
      ReadString(fs, "DATE_TIME"),
      ReadString(fs, "LATITUDE"),
      ReadString(fs, "LONGITUDE"),
      ReadString(fs, "GEOHASH"),
      minimum.value, maximum.value, average.value, vehicles.value))
  }

  /** True when the tokens in columns 5 to 8 all parse as 32-bit integers. */
  predicate IntegerColumnsParse(tokens: seq<string>)
    requires |tokens| == |ColumnNames|
  {
    && ParseInt32(tokens[4]).Some? && ParseInt32(tokens[5]).Some?
    && ParseInt32(tokens[6]).Some? && ParseInt32(tokens[7]).Some?
  }

  /** `t` holds the eight tokens in column order, with no id. */
  predicate RecordFromTokens(t: TrafficDensity, tokens: seq<string>)
    requires |tokens| == |ColumnNames|
  {
    && t.id == None
    && t.dateTime == tokens[0]
    && t.latitude == tokens[1]
    && t.longitude == tokens[2]
    && t.geohash == tokens[3]
    && ParseInt32(tokens[4]) == Some(t.minimumSpeed)
    && ParseInt32(tokens[5]) == Some(t.maximumSpeed)
    && ParseInt32(tokens[6]) == Some(t.averageSpeed)
    && ParseInt32(tokens[7]) == Some(t.numberOfVehicles)
  }

  /**
   * One data line to one record. The line maps exactly when it has eight
   * comma-separated tokens whose last four are 32-bit integers; the tokens bind
   * in column order DATE_TIME, LATITUDE, LONGITUDE, GEOHASH, MINIMUM_SPEED,
   * MAXIMUM_SPEED, AVERAGE_SPEED, NUMBER_OF_VEHICLES, and the id is absent.
   */
  function MapLine(line: string): (r: Result<TrafficDensity, ReadError>)
    ensures var tokens := Split(line);
      r.Success? <==> |tokens| == 8 && IntegerColumnsParse(tokens)
    ensures r.Success? ==> RecordFromTokens(r.value, Split(line))
  {
    match Tokenize(line)
    case Failure(e) => Failure(e)
    case Success(fs) =>
      MapFieldSet(fs)
  }

  /** Maps every line, one result per line, in order. */
  function MapLines(lines: seq<string>): (r: seq<Result<TrafficDensity, ReadError>>)
    ensures |r| == |lines|
    ensures forall k :: 0 <= k < |lines| ==> r[k] == MapLine(lines[k])
  {
    if lines == [] then [] else [MapLine(lines[0])] + MapLines(lines[1..])
  }

  /**
   * What the reader yields for a whole file: the first line is discarded as the
   * header and every later line is mapped, one result per line, in file order.
   */
  function ReadItems(lines: seq<string>): (r: seq<Result<TrafficDensity, ReadError>>)
    ensures |lines| <= LinesToSkip ==> r == []
    ensures |lines| > LinesToSkip ==> |r| == |lines| - LinesToSkip
    ensures forall k :: 0 <= k < |r| ==> r[k] == MapLine(lines[k + LinesToSkip])
  {
    if |lines| <= LinesToSkip then [] else MapLines(lines[LinesToSkip..])
  }

  /** A delimited line for a record, in column order (the inverse of `MapLine`). */
  function FormatLine(t: TrafficDensity): string
  {
    Join([t.dateTime, t.latitude, t.longitude, t.geohash,
          FormatInt(t.minimumSpeed), FormatInt(t.maximumSpeed),
          FormatInt(t.averageSpeed), FormatInt(t.numberOfVehicles)])
  }

  /** A record whose text fields hold no comma and whose integers fit an `Int` can be written as a line. */
  predicate Writable(t: TrafficDensity)
  {
    && Comma !in t.dateTime && Comma !in t.latitude
    && Comma !in t.longitude && Comma !in t.geohash
    && InInt32(t.minimumSpeed) && InInt32(t.maximumSpeed)
    && InInt32(t.averageSpeed) && InInt32(t.numberOfVehicles)
  }

  /** Reading a formatted line gives back the record, with its id dropped. */
  lemma MapLineFormatLine(t: TrafficDensity)
    requires Writable(t)
    ensures MapLine(FormatLine(t)) == Success(t.(id := None))
  {
    var parts := [t.dateTime, t.latitude, t.longitude, t.geohash,
                  FormatInt(t.minimumSpeed), FormatInt(t.maximumSpeed),
                  FormatInt(t.averageSpeed), FormatInt(t.numberOfVehicles)];
    SplitJoin(parts);
    ParseInt32FormatInt(t.minimumSpeed);
    ParseInt32FormatInt(t.maximumSpeed);
    ParseInt32FormatInt(t.averageSpeed);
    ParseInt32FormatInt(t.numberOfVehicles);
  }

  /** The header line of a file in this schema: the column names joined by commas. */
  function HeaderLine(): string
  {
    Join(ColumnNames)
  }

  /** The header line splits back into exactly the reader's eight column names, in order. */
  lemma HeaderSplitsIntoColumns()
    ensures Split(HeaderLine()) == ColumnNames
  {
    ColumnNamesCommaFree();
    SplitJoin(ColumnNames);
  }

  lemma ColumnNamesCommaFree()
    ensures forall k :: 0 <= k < |ColumnNames| ==> Comma !in ColumnNames[k]
  {
    var c := ColumnNames;
    forall k | 0 <= k < |c| ensures Comma !in c[k] {
      forall j | 0 <= j < |c[k]| ensures c[k][j] != Comma {
        assert 'A' <= c[k][j] <= 'Z' || c[k][j] == '_';
      }
    }
  }
}
