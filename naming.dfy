/**
 * The text the job renders: the range query of each window, the local CSV name, the
 * object key of a window's artifact and the key of the final count file.
 */
module Naming {
  import opened Wrappers
  import opened Text
  import opened Dates
  import opened Settings

  /** `SELECT * FROM <table>`, the part before the optional query fragment. */
  function QueryHead(table: string): string {
    "SELECT * FROM " + table
  }

  /** ` WHERE <col> >= '<start>' AND <col> < '<end>'`, the half-open date predicate. */
  function QueryTail(column: string, start: string, end: string): string {
    " WHERE " + column + " >= '" + start + "' AND " + column + " < '" + end + "'"
  }

  /** `get_sql_query`: the fragment, when set, goes between the table and the predicate. */
  function SqlQuery(table: string, column: string, start: string, end: string, queryParam: string): (q: string)
    ensures var head, tail := QueryHead(table), QueryTail(column, start, end);
      |q| == |head| + |tail| + (if IsUnset(queryParam) then 0 else 1 + |queryParam|) &&
      q[..|head|] == head && q[|q| - |tail|..] == tail
  {
    if queryParam == "None" || queryParam == "" then
      QueryHead(table) + QueryTail(column, start, end)
    else
      QueryHead(table) + " " + queryParam + QueryTail(column, start, end)
  }

  /**
   * A set query fragment is inserted verbatim, after one space, at the end of the table
   * reference of the plain query; the text before and after it is that of the plain query.
   */
  lemma QueryParamInserted(table: string, column: string, start: string, end: string, queryParam: string)
    requires !IsUnset(queryParam)
    ensures var plain, k := SqlQuery(table, column, start, end, ""), |QueryHead(table)|;
      k <= |plain| &&
      SqlQuery(table, column, start, end, queryParam) == plain[..k] + " " + queryParam + plain[k..]
  {
    var plain := SqlQuery(table, column, start, end, "");
    var k := |QueryHead(table)|;
    assert plain[..k] == QueryHead(table);
    assert plain[k..] == QueryTail(column, start, end);
  }

  /** Both spellings of "no fragment" give the same query. */
  lemma UnsetQueryParams(table: string, column: string, start: string, end: string)
    ensures SqlQuery(table, column, start, end, "None") == SqlQuery(table, column, start, end, "")
  {
  }

  /** `get_s3_file_name`: `<path><start>_<end>_<epoch>_<count>.csv`. */
  function ObjectKey(path: string, start: string, end: string, epoch: nat, count: nat): (k: string)
    ensures |k| >= |path| + 4 && k[..|path|] == path && k[|k| - 4..] == ".csv"
  {
    path + start + "_" + end + "_" + Decimal(epoch) + "_" + Decimal(count) + ".csv"
  }

  /** The local CSV a window is staged to: `<start>_<end>_<epoch>.csv`. */
  function LocalFileName(start: string, end: string, epoch: nat): (f: string)
    ensures |f| >= 4 && f[|f| - 4..] == ".csv"
  {
    start + "_" + end + "_" + Decimal(epoch) + ".csv"
  }

  /** The object key of the final count file: the path prefix followed by the file name. */
  function CountKey(path: string, countFileName: string): (k: string)
    ensures |k| == |path| + |countFileName| && k[..|path|] == path && k[|path|..] == countFileName
  {
    path + countFileName
  }

  /**
   * A window's object key is its local file name, with the row count inserted before the
   * extension, under the path.
   */
  lemma KeyExtendsFileName(path: string, start: string, end: string, epoch: nat, count: nat)
    ensures var f := LocalFileName(start, end, epoch);
      ObjectKey(path, start, end, epoch, count) == path + f[..|f| - 4] + "_" + Decimal(count) + ".csv"
  {
    var stem := start + "_" + end + "_" + Decimal(epoch);
    var f := LocalFileName(start, end, epoch);
    assert f == stem + ".csv";
    assert f[..|f| - 4] == stem;
  }

  /** What a window's object key records. */
  datatype KeyFields = KeyFields(start: Date, end: Date, epoch: nat, count: nat)

  /** Reads the fields back out of an object key written under `path`. */
  function ParseObjectKey(path: string, key: string): Option<KeyFields>
  {
    if |key| < |path| + 4 || key[..|path|] != path || key[|key| - 4..] != ".csv" then None
    else ParseKeyFields(key[|path|..|key| - 4])
  }

  /** Reads `<start>_<end>_<epoch>_<count>`. */
  function ParseKeyFields(body: string): Option<KeyFields>
  {
    var parts := Split(body, '_');
    if |parts| != 4 || parts[2] == [] || parts[3] == [] || !AllDigits(parts[2]) || !AllDigits(parts[3]) then None
    else
      match (ParseDate(parts[0]), ParseDate(parts[1]))
      case (Some(s), Some(e)) => Some(KeyFields(s, e, ValueOf(parts[2]), ValueOf(parts[3])))
      case _ => None
  }

  lemma SplitTwo(c: string, d: string)
    requires '_' !in c && '_' !in d
    ensures Split(c + "_" + d, '_') == [c, d]
  {
    SplitWithoutSep(d, '_');
    SplitAt(c, '_', d);
  }

  lemma Associate(x: string, y: string, z: string)
    ensures x + y + z == x + (y + z)
  {
  }

  /** `x + "_" + c + "_" + d` regrouped as `x + "_"` followed by `c + "_" + d`. */
  lemma RegroupTail(x: string, c: string, d: string)
    ensures x + "_" + c + "_" + d == x + "_" + (c + "_" + d)
  {
    Associate(x + "_" + c, "_", d);
    Associate(x + "_", c, "_" + d);
    Associate(c, "_", d);
  }

  lemma SplitThree(b: string, c: string, d: string)
    requires '_' !in b && '_' !in c && '_' !in d
    ensures Split(b + "_" + c + "_" + d, '_') == [b, c, d]
  {
    SplitTwo(c, d);
    SplitAt(b, '_', c + "_" + d);
    RegroupTail(b, c, d);
  }

  lemma SplitFour(a: string, b: string, c: string, d: string)
    requires '_' !in a && '_' !in b && '_' !in c && '_' !in d
    ensures Split(a + "_" + b + "_" + c + "_" + d, '_') == [a, b, c, d]
  {
    SplitThree(b, c, d);
    SplitAt(a, '_', b + "_" + c + "_" + d);
    RegroupTail(a, b + "_" + c, d);
    RegroupTail(a, b, c);
    Associate(a + "_", b + "_" + c, "_" + d);
    Associate(b + "_" + c, "_", d);
  }

  lemma ParseKeyFieldsRoundTrip(start: Date, end: Date, epoch: nat, count: nat)
    requires Valid(start) && Valid(end)
    ensures ParseKeyFields(Format(start) + "_" + Format(end) + "_" + Decimal(epoch) + "_" + Decimal(count)) ==
      Some(KeyFields(start, end, epoch, count))
  {
    FormatHasNoUnderscore(start);
    FormatHasNoUnderscore(end);
    assert '_' !in Decimal(epoch) && '_' !in Decimal(count) by {
      assert !IsDigit('_');
    }
    SplitFour(Format(start), Format(end), Decimal(epoch), Decimal(count));
    ParseFormat(start);
    ParseFormat(end);
  }

  /** A key under `path` ending in `.csv` is read by reading what lies between the two. */
  lemma ParseObjectKeyParts(path: string, body: string)
    ensures ParseObjectKey(path, path + body + ".csv") == ParseKeyFields(body)
  {
    var key := path + body + ".csv";
    assert key[..|path|] == path;
    assert key[|key| - 4..] == ".csv";
    assert key[|path|..|key| - 4] == body;
  }

  lemma KeyShape(path: string, start: string, end: string, epoch: string, count: string)
    ensures path + start + "_" + end + "_" + epoch + "_" + count + ".csv" ==
      path + (start + "_" + end + "_" + epoch + "_" + count) + ".csv"
  {
  }

  /** Every field of a rendered window key can be read back from it. */
  lemma ParseObjectKeyRoundTrip(path: string, start: Date, end: Date, epoch: nat, count: nat)
    requires Valid(start) && Valid(end)
    ensures ParseObjectKey(path, ObjectKey(path, Format(start), Format(end), epoch, count)) ==
      Some(KeyFields(start, end, epoch, count))
  {
    KeyShape(path, Format(start), Format(end), Decimal(epoch), Decimal(count));
    ParseObjectKeyParts(path, Format(start) + "_" + Format(end) + "_" + Decimal(epoch) + "_" + Decimal(count));
    ParseKeyFieldsRoundTrip(start, end, epoch, count);
  }

  /** Two windows' keys under one path coincide only when all their fields do. */
  lemma ObjectKeyInjective(path: string, a: KeyFields, b: KeyFields)
    requires Valid(a.start) && Valid(a.end) && Valid(b.start) && Valid(b.end)
    requires ObjectKey(path, Format(a.start), Format(a.end), a.epoch, a.count) ==
             ObjectKey(path, Format(b.start), Format(b.end), b.epoch, b.count)
    ensures a == b
  {
    ParseObjectKeyRoundTrip(path, a.start, a.end, a.epoch, a.count);
    ParseObjectKeyRoundTrip(path, b.start, b.end, b.epoch, b.count);
  }
}
