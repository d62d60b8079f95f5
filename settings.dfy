/**
 * How the job reads its settings: the `'None'` / empty sentinels, the batch unit and size
 * defaults, the count-file switch, and which of the three credential strategies
 * `get_s3_client` uses.
 */
module Settings {
  import opened Wrappers
  import opened Text
  import opened Windowing

  /** The configuration's spelling of "not set". */
  predicate IsUnset(v: string) {
    v == "None" || v == ""
  }

  /** Fatal configuration errors, raised before any window is processed. */
  datatype ConfigError =
    | BadBatchSize(raw: string)   // `int(...)` raised ValueError
    | BadDate(raw: string)        // `pd.to_datetime(...)` raised

  /** `batch_type`: "days" only when spelled exactly so; everything else means months. */
  function BatchUnit(raw: string): (u: Unit)
    ensures u == Days <==> raw == "days"
    ensures IsUnset(raw) ==> u == Months
  {
    if IsUnset(raw) then Months
    else if raw != "months" && raw != "days" then Months
    else if raw == "days" then Days
    else Months
  }

  /** Python's `int(s)` for an optionally signed run of decimal digits. */
  function ParseInt(s: string): (r: Option<int>)
  {
    if |s| > 0 && (s[0] == '-' || s[0] == '+') then
      var digits := s[1..];
      if |digits| > 0 && AllDigits(digits) then
        var n: int := ValueOf(digits);
        Some(if s[0] == '-' then -n else n)
      else None
    else if |s| > 0 && AllDigits(s) then Some(ValueOf(s))
    else None
  }

  /** `str(n)`. */
  function IntToString(n: int): string
  {
    if n < 0 then "-" + Decimal(-n) else Decimal(n)
  }

  /** `int(str(n)) == n`. */
  lemma ParseIntToString(n: int)
    ensures ParseInt(IntToString(n)) == Some(n)
  {
    if n < 0 {
      var s := "-" + Decimal(-n);
      assert s[1..] == Decimal(-n);
    }
  }

  /** `batch_days_months`: 1 when unset, otherwise the integer it spells. */
  function BatchSize(raw: string): (r: Result<int, ConfigError>)
    ensures IsUnset(raw) ==> r == Ok(1)
    ensures !IsUnset(raw) ==> (r.Ok? <==> ParseInt(raw).Some?)
    ensures !IsUnset(raw) && r.Ok? ==> r.value == ParseInt(raw).value
    ensures r.Err? ==> r.error == BadBatchSize(raw)
  {
    if IsUnset(raw) then Ok(1)
    else
      match ParseInt(raw)
      case Some(n) => Ok(n)
      case None => Err(BadBatchSize(raw))
  }

  /** A configured size that is written out as a number is that number. */
  lemma BatchSizeOfNumber(n: int)
    ensures BatchSize(IntToString(n)) == Ok(n)
  {
    ParseIntToString(n);
  }

  /**
   * `is_count_file_required.lower() == 'true'`: count tracking is on exactly for the four
   * letters of "true" in any mix of cases.
   */
  function CountTracking(raw: string): (on: bool)
    ensures on <==> |raw| == 4 && forall i :: 0 <= i < 4 ==> raw[i] == "true"[i] || raw[i] == "TRUE"[i]
  {
    var lowered := Lower(raw);
    assert lowered == "true" <==> |raw| == 4 && forall i :: 0 <= i < 4 ==> lowered[i] == "true"[i];
    lowered == "true"
  }

  /** The three ways of obtaining upload credentials. */
  datatype Credentials =
    | AssumeRole(roleArn: string)
    | StaticKeys(accessKeyId: string, secretAccessKey: string)
    | DefaultChain

  /**
   * The branch `get_s3_client` takes: a configured role wins, then a complete static key
   * pair, then the environment's default chain.
   */
  function SelectCredentials(iamRole: string, accessKey: string, secretKey: string): (c: Credentials)
    ensures c.AssumeRole? <==> iamRole != "None"
    ensures c.AssumeRole? ==> c.roleArn == iamRole
    ensures c.StaticKeys? <==> iamRole == "None" && accessKey != "None" && secretKey != "None"
    ensures c.StaticKeys? ==> c.accessKeyId == accessKey && c.secretAccessKey == secretKey
    ensures c.DefaultChain? <==> iamRole == "None" && (accessKey == "None" || secretKey == "None")
  {
    if iamRole != "None" then AssumeRole(iamRole)
    else if accessKey != "None" && secretKey != "None" then StaticKeys(accessKey, secretKey)
    else DefaultChain
  }

  /** An empty role is not the sentinel: it still selects the assume-role branch. */
  lemma EmptyRoleIsAssumed(accessKey: string, secretKey: string)
    ensures SelectCredentials("", accessKey, secretKey) == AssumeRole("")
  {
  }
}
