// The helpers of `utils.py` around the key pattern: JSON decoding of a stored
// value, renaming the keys of a decoded dict, and the batch loop that turns
// stored rows into records.
module Utils {
  import opened Wrappers
  import opened Json
  import opened KeyPattern
  import opened Naming

  // ----- decode_json_value -----

  /** The text behind a stored value: TEXT as is, a BLOB through UTF-8, NULL has none. */
  function CellText(value: Cell, dec: Decoder): Option<string>
  {
    match value
    case CellNull => None
    case CellText(t) => Some(t)
    case CellBytes(b) => dec.utf8(b)
  }

  /** `decode_json_value`: the parsed value, or None when there is nothing to parse or parsing fails. */
  function DecodeJsonValue(value: Cell, dec: Decoder): (r: Json)
    ensures value.CellNull? ==> r == JNull
    ensures CellText(value, dec).None? ==> r == JNull
    ensures r != JNull ==> CellText(value, dec).Some? && dec.loads(CellText(value, dec).value) == Some(r)
    ensures CellText(value, dec).Some? && dec.loads(CellText(value, dec).value).Some? ==>
              r == dec.loads(CellText(value, dec).value).value
  {
    if value.CellNull? then JNull
    else
      match if value.CellBytes? then dec.utf8(value.bytes) else Some(value.text)
      case None => JNull
      case Some(t) => dec.loads(t).GetOr(JNull)
  }

  // ----- map_dict_to_model -----

  /** The dict `map_dict_to_model(data, mapping)` builds: `result[dst] = data[src]` for each present `src`, in order. */
  function Renamed(data: seq<(string, Json)>, mapping: seq<(string, string)>): seq<(string, Json)>
    decreases |mapping|
  {
    if mapping == [] then []
    else
      var r := Renamed(data, mapping[..|mapping| - 1]);
      var (src, dst) := mapping[|mapping| - 1];
      match Find(data, src)
      case Some(v) => Put(r, dst, v)
      case None => r
  }

  method MapDictToModel(data: seq<(string, Json)>, mapping: seq<(string, string)>) returns (result: seq<(string, Json)>)
    ensures result == Renamed(data, mapping)
  {
    result := [];
    var i := 0;
    while i < |mapping|
      invariant 0 <= i <= |mapping|
      invariant result == Renamed(data, mapping[..i])
    {
      assert mapping[..i + 1][..i] == mapping[..i];
      var (src, dst) := mapping[i];
      var found := Find(data, src);
      if found.Some? {
        result := Put(result, dst, found.value);
      }
      i := i + 1;
    }
    assert mapping[..i] == mapping;
  }

  /**
   * A target key is present exactly when some mapping entry sends a present
   * source key to it, and its value is that source's value.
   */
  lemma {:induction false} RenamedFind(data: seq<(string, Json)>, mapping: seq<(string, string)>, t: string)
    ensures Find(Renamed(data, mapping), t).Some? <==>
            exists i :: 0 <= i < |mapping| && mapping[i].1 == t && mapping[i].0 in Keys(data)
    ensures Find(Renamed(data, mapping), t).Some? ==>
            exists i :: 0 <= i < |mapping| && mapping[i].1 == t && Find(data, mapping[i].0) == Find(Renamed(data, mapping), t)
    decreases |mapping|
  {
    if mapping != [] {
      var n := |mapping| - 1;
      var init := mapping[..n];
      RenamedFind(data, init, t);
      var (src, dst) := mapping[n];
      assert forall i :: 0 <= i < n ==> init[i] == mapping[i];
      var r := Renamed(data, init);
      match Find(data, src)
      case Some(v) =>
        assert Renamed(data, mapping) == Put(r, dst, v);
        PutFind(r, dst, v, t);
        if dst == t {
          assert mapping[n].1 == t && Find(data, mapping[n].0) == Find(Renamed(data, mapping), t);
        }
      case None =>
        assert Renamed(data, mapping) == r;
        assert mapping[n].0 !in Keys(data);
    }
  }

  /** With distinct targets, every present source's value arrives under its own target. */
  lemma {:induction false} RenamedValue(data: seq<(string, Json)>, mapping: seq<(string, string)>, i: nat)
    requires i < |mapping|
    requires forall a, b :: 0 <= a < b < |mapping| ==> mapping[a].1 != mapping[b].1
    ensures Find(Renamed(data, mapping), mapping[i].1) == Find(data, mapping[i].0)
  {
    RenamedFind(data, mapping, mapping[i].1);
    if Find(data, mapping[i].0).Some? {
      var j :| 0 <= j < |mapping| && mapping[j].1 == mapping[i].1
            && Find(data, mapping[j].0) == Find(Renamed(data, mapping), mapping[i].1);
      assert j == i;
    }
  }

  // ----- auto_map_camel_to_snake -----

  /** The key a data key is written under: its known name, else its snake-case form. */
  function Target(known: seq<(string, string)>, k: string): string
  {
    match Find(known, k)
    case Some(t) => t
    case None => CamelToSnake(k)
  }

  /** `start` with `mapped[camel_to_snake(k)] = v` applied for each data entry whose key is not known. */
  function Converted(data: seq<(string, Json)>, known: seq<(string, string)>, start: seq<(string, Json)>): seq<(string, Json)>
    decreases |data|
  {
    if data == [] then start
    else
      var r := Converted(data[..|data| - 1], known, start);
      var (k, v) := data[|data| - 1];
      if k in Keys(known) then r else Put(r, CamelToSnake(k), v)
  }

  /** The first result of `auto_map_camel_to_snake(data, known)`. */
  function AutoMapped(data: seq<(string, Json)>, known: seq<(string, string)>): seq<(string, Json)>
  {
    Converted(data, known, if known != [] then Renamed(data, known) else [])
  }

  /** Both results of `auto_map_camel_to_snake`; the second, `unknown`, is never filled. */
  method AutoMapCamelToSnake(data: seq<(string, Json)>, known: seq<(string, string)>)
    returns (mapped: seq<(string, Json)>, unknown: seq<(string, Json)>)
    ensures mapped == AutoMapped(data, known)
    ensures unknown == []
  {
    hide *;
    AutoMappedIs(data, known);
    mapped, unknown := [], [];
    var start := [];
    if known != [] {
      mapped := MapDictToModel(data, known);
      start := mapped;
    }
    var i := 0;
    assert data[..0] == [];
    ConvertedUnfold([], known, start);
    while i < |data|
      invariant 0 <= i <= |data|
      invariant mapped == Converted(data[..i], known, start)
    {
      ConvertedUnfold(data[..i + 1], known, start);
      assert data[..i + 1][..i] == data[..i] && data[..i + 1][i] == data[i];
      var (key, value) := data[i];
      if key !in Keys(known) {
        mapped := Put(mapped, CamelToSnake(key), value);
      }
      i := i + 1;
    }
    assert data[..i] == data;
  }

  /** A data key that is not known and whose snake-case form is `t`: the loop writes it under `t`. */
  predicate ConvertsTo(known: seq<(string, string)>, k: string, t: string)
  {
    k !in Keys(known) && CamelToSnake(k) == t
  }

  lemma {:induction false} ConvertedFind(data: seq<(string, Json)>, known: seq<(string, string)>, start: seq<(string, Json)>, t: string)
    ensures Find(Converted(data, known, start), t).Some? <==>
            Find(start, t).Some? || exists i :: 0 <= i < |data| && ConvertsTo(known, data[i].0, t)
    ensures Find(Converted(data, known, start), t).Some? ==>
            Find(start, t) == Find(Converted(data, known, start), t) ||
            exists i :: 0 <= i < |data| && ConvertsTo(known, data[i].0, t) && Some(data[i].1) == Find(Converted(data, known, start), t)
    decreases |data|
  {
    hide *;
    ConvertedUnfold(data, known, start);
    if data != [] {
      var n := |data| - 1;
      var init := data[..n];
      ConvertedFind(init, known, start, t);
      var r := Converted(init, known, start);
      var c := Converted(data, known, start);
      var (k, v) := data[n];
      ConvertsToIs(known, k, t);
      if k !in Keys(known) {
        PutFind(r, CamelToSnake(k), v, t);
        if CamelToSnake(k) == t {
          assert ConvertsTo(known, data[n].0, t) && Some(data[n].1) == Find(c, t);
          return;
        }
      }
      assert Find(c, t) == Find(r, t) && !ConvertsTo(known, data[n].0, t);
      if exists i :: 0 <= i < |data| && ConvertsTo(known, data[i].0, t) {
        var i :| 0 <= i < |data| && ConvertsTo(known, data[i].0, t);
        assert i < n && init[i] == data[i];
      }
      if Find(c, t).Some? && Find(start, t) != Find(c, t) {
        var i :| 0 <= i < n && ConvertsTo(known, init[i].0, t) && Some(init[i].1) == Find(r, t);
        assert init[i] == data[i];
      }
    }
  }

  /** When several keys convert to `t`, the value of the last of them is the one kept: a later assignment overwrites. */
  lemma {:induction false} ConvertedLast(data: seq<(string, Json)>, known: seq<(string, string)>, start: seq<(string, Json)>, t: string)
    requires exists i :: 0 <= i < |data| && ConvertsTo(known, data[i].0, t)
    ensures exists j :: 0 <= j < |data| && ConvertsTo(known, data[j].0, t)
                     && Find(Converted(data, known, start), t) == Some(data[j].1)
                     && forall k :: j < k < |data| ==> !ConvertsTo(known, data[k].0, t)
    decreases |data|
  {
    hide *;
    ConvertedUnfold(data, known, start);
    var n := |data| - 1;
    var init := data[..n];
    var r := Converted(init, known, start);
    var (k, v) := data[n];
    ConvertsToIs(known, k, t);
    if ConvertsTo(known, k, t) {
      PutFind(r, CamelToSnake(k), v, t);
      assert Find(Converted(data, known, start), t) == Some(data[n].1);
    } else {
      var i :| 0 <= i < |data| && ConvertsTo(known, data[i].0, t);
      assert i < n && init[i] == data[i];
      ConvertedLast(init, known, start, t);
      var j :| 0 <= j < n && ConvertsTo(known, init[j].0, t) && Find(r, t) == Some(init[j].1)
               && forall q :: j < q < n ==> !ConvertsTo(known, init[q].0, t);
      if k !in Keys(known) {
        PutFind(r, CamelToSnake(k), v, t);
      }
      assert Find(Converted(data, known, start), t) == Find(r, t);
      assert init[j] == data[j];
      forall q | j < q < |data| ensures !ConvertsTo(known, data[q].0, t) {
        if q < n { assert init[q] == data[q]; }
      }
    }
  }

  /** Some key of `data` has `t` as its snake-case form. */
  predicate SnakeKeyIn(data: seq<(string, Json)>, t: string)
  {
    exists i :: 0 <= i < |data| && CamelToSnake(data[i].0) == t
  }

  /** `j` is the last position of `data` whose key has `t` as its snake-case form. */
  predicate LastSnakeKey(data: seq<(string, Json)>, t: string, j: int)
  {
    0 <= j < |data| && CamelToSnake(data[j].0) == t && forall k :: j < k < |data| ==> CamelToSnake(data[k].0) != t
  }

  /** Without a known mapping, the value under `t` is that of the last key whose snake-case form is `t`. */
  lemma SnakeMappedLast(data: seq<(string, Json)>, t: string)
    requires SnakeKeyIn(data, t)
    ensures exists j :: LastSnakeKey(data, t, j) && Find(AutoMapped(data, []), t) == Some(data[j].1)
  {
    AutoMappedIs(data, []);
    forall k ensures ConvertsTo([], k, t) <==> CamelToSnake(k) == t { ConvertsToIs([], k, t); }
    ConvertedLast(data, [], [], t);
  }

  lemma ConvertedUnfold(data: seq<(string, Json)>, known: seq<(string, string)>, start: seq<(string, Json)>)
    ensures data == [] ==> Converted(data, known, start) == start
    ensures data != [] ==>
      Converted(data, known, start) ==
        (var r := Converted(data[..|data| - 1], known, start);
         var (k, v) := data[|data| - 1];
         if k in Keys(known) then r else Put(r, CamelToSnake(k), v))
  {
  }

  lemma AutoMappedIs(data: seq<(string, Json)>, known: seq<(string, string)>)
    ensures AutoMapped(data, known) == Converted(data, known, if known != [] then Renamed(data, known) else [])
  {
  }

  lemma TargetIs(known: seq<(string, string)>, k: string)
    ensures Target(known, k) == match Find(known, k) case Some(t) => t case None => CamelToSnake(k)
  {
  }

  lemma ConvertsToIs(known: seq<(string, string)>, k: string, t: string)
    ensures ConvertsTo(known, k, t) <==> k !in Keys(known) && CamelToSnake(k) == t
  {
  }

  lemma {:induction false} FindDistinct<V>(fs: seq<(string, V)>, j: nat)
    requires DistinctKeys(fs) && j < |fs|
    ensures Find(fs, fs[j].0) == Some(fs[j].1)
  {
    if j > 0 {
      assert DistinctKeys(fs[1..]) by {
        forall a, b | 0 <= a < b < |fs[1..]| ensures fs[1..][a].0 != fs[1..][b].0 {
          assert fs[1..][a] == fs[a + 1] && fs[1..][b] == fs[b + 1];
        }
      }
      assert fs[1..][j - 1] == fs[j];
      FindDistinct(fs[1..], j - 1);
    }
  }

  /**
   * The mapped dict has exactly the targets of the data keys (`known[k]` for a
   * known `k`, `camel_to_snake(k)` otherwise), whichever branch is taken.
   */
  lemma AutoMappedKeys(data: seq<(string, Json)>, known: seq<(string, string)>, t: string)
    requires DistinctKeys(known)
    ensures Find(AutoMapped(data, known), t).Some? <==> exists i :: 0 <= i < |data| && Target(known, data[i].0) == t
  {
    hide *;
    AutoMappedIs(data, known);
    var start := if known != [] then Renamed(data, known) else [];
    ConvertedFind(data, known, start, t);
    if known != [] {
      RenamedFind(data, known, t);
    }
    if Find(AutoMapped(data, known), t).Some? {
      if Find(start, t).Some? {
        var j :| 0 <= j < |known| && known[j].1 == t && known[j].0 in Keys(data);
        var i :| 0 <= i < |data| && data[i].0 == known[j].0;
        FindDistinct(known, j);
        TargetIs(known, data[i].0);
      } else {
        var i :| 0 <= i < |data| && ConvertsTo(known, data[i].0, t);
        ConvertsToIs(known, data[i].0, t);
        TargetIs(known, data[i].0);
      }
    }
    if exists i :: 0 <= i < |data| && Target(known, data[i].0) == t {
      var i :| 0 <= i < |data| && Target(known, data[i].0) == t;
      TargetIs(known, data[i].0);
      ConvertsToIs(known, data[i].0, t);
      if data[i].0 in Keys(known) {
        var j :| 0 <= j < |known| && known[j].0 == data[i].0;
        FindDistinct(known, j);
        assert known[j].0 in Keys(data);
      }
    }
  }

  /** Every value in the mapped dict is the value of a data key whose target it is written under. */
  lemma AutoMappedValues(data: seq<(string, Json)>, known: seq<(string, string)>, t: string)
    requires DistinctKeys(known)
    requires Find(AutoMapped(data, known), t).Some?
    ensures exists i :: 0 <= i < |data| && Target(known, data[i].0) == t && Some(data[i].1) == Find(AutoMapped(data, known), t)
  {
    hide *;
    AutoMappedIs(data, known);
    var start := if known != [] then Renamed(data, known) else [];
    var r := Find(AutoMapped(data, known), t);
    ConvertedFind(data, known, start, t);
    if known != [] {
      RenamedFind(data, known, t);
    }
    if Find(start, t) == r {
      var j :| 0 <= j < |known| && known[j].1 == t && Find(data, known[j].0) == r;
      assert (known[j].0, r.value) in data;
      var i :| 0 <= i < |data| && data[i] == (known[j].0, r.value);
      FindDistinct(known, j);
      TargetIs(known, data[i].0);
    } else {
      var i :| 0 <= i < |data| && ConvertsTo(known, data[i].0, t) && Some(data[i].1) == r;
      ConvertsToIs(known, data[i].0, t);
      TargetIs(known, data[i].0);
    }
  }

  // ----- parse_cursordiskkv_rows -----

  type KeyMap = map<string, string>

  /** A stored row: its key and its value cell. */
  datatype Row = Row(key: string, value: Cell)

  /** The record constructor a batch is parsed with: the decoded dict and the key parts, if any. */
  type Factory<T> = (seq<(string, Json)>, Option<KeyMap>) -> Result<Option<T>>

  /** The parts of a row's key: the `key_parser` when one is given, else the `key_pattern` when it is non-empty. */
  function RowKeyParts(key: string, keyParser: Option<string -> Result<Option<KeyMap>>>, keyPattern: Option<string>)
    : Result<Option<KeyMap>>
  {
    if keyParser.Some? then keyParser.value(key)
    else if keyPattern.Some? && keyPattern.value != "" then KeyParts(key, keyPattern.value)
    else Ok(None)
  }

  /** The parts handed to the factory: only a non-empty dict counts. */
  function Given(parts: Option<KeyMap>): Option<KeyMap>
  {
    if parts.Some? && parts.value != map[] then parts else None
  }

  /** What one row adds to the batch: the factory's record, or nothing when the row is skipped. */
  function RowRecord<T>(row: Row, dec: Decoder, factory: Factory<T>,
                        keyParser: Option<string -> Result<Option<KeyMap>>>, keyPattern: Option<string>): Option<T>
  {
    match DecodeJsonValue(row.value, dec)
    case JObj(data) =>
      (match RowKeyParts(row.key, keyParser, keyPattern)
       case Err(_) => None
       case Ok(parts) =>
         match factory(data, Given(parts))
         case Ok(Some(x)) => Some(x)
         case _ => None)
    case _ => None
  }

  /** The records `parse_cursordiskkv_rows` returns, in row order. */
  function Parsed<T>(rows: seq<Row>, dec: Decoder, factory: Factory<T>,
                     keyParser: Option<string -> Result<Option<KeyMap>>>, keyPattern: Option<string>): seq<T>
    decreases |rows|
  {
    if rows == [] then []
    else
      Parsed(rows[..|rows| - 1], dec, factory, keyParser, keyPattern)
      + match RowRecord(rows[|rows| - 1], dec, factory, keyParser, keyPattern)
        case Some(x) => [x]
        case None => []
  }

  /** The batch loop: a row that fails to decode, is not a dict, or whose processing raises is skipped. */
  method ParseRows<T>(rows: seq<Row>, dec: Decoder, factory: Factory<T>,
                      keyParser: Option<string -> Result<Option<KeyMap>>>, keyPattern: Option<string>)
    returns (results: seq<T>)
    ensures results == Parsed(rows, dec, factory, keyParser, keyPattern)
  {
    hide Parsed;
    ParsedUnfold([], dec, factory, keyParser, keyPattern);
    assert rows[..0] == [];
    results := [];
    for i := 0 to |rows|
      invariant results == Parsed(rows[..i], dec, factory, keyParser, keyPattern)
    {
      ParsedUnfold(rows[..i + 1], dec, factory, keyParser, keyPattern);
      assert rows[..i + 1][..i] == rows[..i] && rows[..i + 1][i] == rows[i];
      var row := rows[i];
      var data := DecodeJsonValue(row.value, dec);
      if data.JNull? {
        continue;
      }
      if !data.JObj? {
        continue;
      }
      var keyParts: Result<Option<KeyMap>> := Ok(None);
      if keyParser.Some? {
        keyParts := keyParser.value(row.key);
      } else if keyPattern.Some? && keyPattern.value != "" {
        keyParts := ParseKeyPattern(row.key, keyPattern.value);
      }
      if keyParts.Err? {
        continue;
      }
      var instance;
      if keyParts.value.Some? && keyParts.value.value != map[] {
        instance := factory(data.fields, keyParts.value);
      } else {
        instance := factory(data.fields, None);
      }
      if instance.Err? {
        continue;
      }
      if instance.value.Some? {
        results := results + [instance.value.value];
      }
    }
    assert rows[..|rows|] == rows;
  }

  /** Parsing a batch is parsing its parts: records keep the order of their rows. */
  lemma {:induction false} ParsedAppend<T>(a: seq<Row>, b: seq<Row>, dec: Decoder, factory: Factory<T>,
                                           keyParser: Option<string -> Result<Option<KeyMap>>>, keyPattern: Option<string>)
    ensures Parsed(a + b, dec, factory, keyParser, keyPattern)
         == Parsed(a, dec, factory, keyParser, keyPattern) + Parsed(b, dec, factory, keyParser, keyPattern)
    decreases |b|
  {
    hide *;
    ParsedUnfold(a + b, dec, factory, keyParser, keyPattern);
    ParsedUnfold(b, dec, factory, keyParser, keyPattern);
    if b == [] {
      assert a + b == a;
    } else {
      var n := |b| - 1;
      assert (a + b)[..|a + b| - 1] == a + b[..n];
      assert (a + b)[|a + b| - 1] == b[n];
      ParsedAppend(a, b[..n], dec, factory, keyParser, keyPattern);
    }
  }

  lemma ParsedUnfold<T>(rows: seq<Row>, dec: Decoder, factory: Factory<T>,
                        keyParser: Option<string -> Result<Option<KeyMap>>>, keyPattern: Option<string>)
    ensures rows == [] ==> Parsed(rows, dec, factory, keyParser, keyPattern) == []
    ensures rows != [] ==>
      Parsed(rows, dec, factory, keyParser, keyPattern) ==
        Parsed(rows[..|rows| - 1], dec, factory, keyParser, keyPattern)
        + match RowRecord(rows[|rows| - 1], dec, factory, keyParser, keyPattern)
          case Some(x) => [x]
          case None => []
  {
  }

  /** A batch of one row holds that row's record, if any. */
  lemma ParsedOne<T>(row: Row, dec: Decoder, factory: Factory<T>,
                     keyParser: Option<string -> Result<Option<KeyMap>>>, keyPattern: Option<string>)
    ensures Parsed([row], dec, factory, keyParser, keyPattern)
         == match RowRecord(row, dec, factory, keyParser, keyPattern) case Some(x) => [x] case None => []
  {
    assert [row][..0] == [];
  }

  /** At most one record per row, and every record comes from some row. */
  lemma {:induction false} ParsedFromRows<T>(rows: seq<Row>, dec: Decoder, factory: Factory<T>,
                                             keyParser: Option<string -> Result<Option<KeyMap>>>, keyPattern: Option<string>)
    ensures |Parsed(rows, dec, factory, keyParser, keyPattern)| <= |rows|
    ensures forall x :: x in Parsed(rows, dec, factory, keyParser, keyPattern) ==>
              exists i :: 0 <= i < |rows| && RowRecord(rows[i], dec, factory, keyParser, keyPattern) == Some(x)
    decreases |rows|
  {
    hide *;
    ParsedUnfold(rows, dec, factory, keyParser, keyPattern);
    if rows != [] {
      var n := |rows| - 1;
      ParsedFromRows(rows[..n], dec, factory, keyParser, keyPattern);
      assert forall i :: 0 <= i < n ==> rows[..n][i] == rows[i];
    }
  }

  /** The reasons a row is skipped: no dict to build from, a key that cannot be parsed, a factory that fails or gives nothing. */
  lemma RowSkipped<T>(row: Row, dec: Decoder, factory: Factory<T>,
                      keyParser: Option<string -> Result<Option<KeyMap>>>, keyPattern: Option<string>)
    ensures !DecodeJsonValue(row.value, dec).JObj? ==> RowRecord(row, dec, factory, keyParser, keyPattern).None?
    ensures RowKeyParts(row.key, keyParser, keyPattern).Err? ==> RowRecord(row, dec, factory, keyParser, keyPattern).None?
    ensures RowRecord(row, dec, factory, keyParser, keyPattern).Some? <==>
              DecodeJsonValue(row.value, dec).JObj? && RowKeyParts(row.key, keyParser, keyPattern).Ok? &&
              factory(DecodeJsonValue(row.value, dec).fields, Given(RowKeyParts(row.key, keyParser, keyPattern).value)).Ok? &&
              factory(DecodeJsonValue(row.value, dec).fields, Given(RowKeyParts(row.key, keyParser, keyPattern).value)).value.Some?
  {
  }

  /** With a `key_parser` given, the `key_pattern` plays no part. */
  lemma {:induction false} KeyParserWins<T>(rows: seq<Row>, dec: Decoder, factory: Factory<T>,
                                            keyParser: string -> Result<Option<KeyMap>>, p: Option<string>, q: Option<string>)
    ensures Parsed(rows, dec, factory, Some(keyParser), p) == Parsed(rows, dec, factory, Some(keyParser), q)
    decreases |rows|
  {
    if rows != [] {
      KeyParserWins(rows[..|rows| - 1], dec, factory, keyParser, p, q);
    }
  }

  /** Empty parts (no match, or a match without groups) make the factory run without parts. */
  lemma EmptyPartsLikeNone<T>(row: Row, dec: Decoder, factory: Factory<T>,
                              keyParser: Option<string -> Result<Option<KeyMap>>>, keyPattern: Option<string>)
    requires RowKeyParts(row.key, keyParser, keyPattern) == Ok(None)
          || RowKeyParts(row.key, keyParser, keyPattern) == Ok(Some(map[]))
    ensures RowRecord(row, dec, factory, keyParser, keyPattern) == RowRecord(row, dec, factory, None, None)
  {
  }

  lemma {:induction false} RenamedDistinct(data: seq<(string, Json)>, mapping: seq<(string, string)>)
    ensures DistinctKeys(Renamed(data, mapping))
    decreases |mapping|
  {
    if mapping != [] {
      var init := mapping[..|mapping| - 1];
      RenamedDistinct(data, init);
      var (src, dst) := mapping[|mapping| - 1];
      if Find(data, src).Some? {
        PutDistinct(Renamed(data, init), dst, Find(data, src).value);
      }
    }
  }

  lemma {:induction false} ConvertedDistinct(data: seq<(string, Json)>, known: seq<(string, string)>, start: seq<(string, Json)>)
    requires DistinctKeys(start)
    ensures DistinctKeys(Converted(data, known, start))
    decreases |data|
  {
    if data != [] {
      var init := data[..|data| - 1];
      ConvertedDistinct(init, known, start);
      var (k, v) := data[|data| - 1];
      if k !in Keys(known) {
        PutDistinct(Converted(init, known, start), CamelToSnake(k), v);
      }
    }
  }

  /** The mapped dict is a dict: no key occurs twice. */
  lemma AutoMappedDistinct(data: seq<(string, Json)>, known: seq<(string, string)>)
    ensures DistinctKeys(AutoMapped(data, known))
  {
    RenamedDistinct(data, known);
    ConvertedDistinct(data, known, if known != [] then Renamed(data, known) else []);
  }
}
