/** The snowflake health check: generate an id, parse it, and report a failure of either step. */
module SnowflakeHealth {
  import opened Wrappers
  import opened Text

  /** `SnowflakeData`: the parsed fields of an id; their layout belongs to the id generator. */
  datatype SnowflakeData = SnowflakeData(fields: string)

  /** A thrown `Exception` and its nullable message. */
  datatype CheckFailure = CheckFailure(message: Option<string>)

  /** The three results of `init`. */
  datatype SnowflakeState = SnowflakeState(errors: seq<string>, testId: Option<string>, testResult: Option<SnowflakeData>)

  function FailureMessage(failure: CheckFailure, timestampEpoch: int, nanoTimeStart: int): string {
    "SnowflakeCheck: " + failure.message.GetOr("null") + " - timestampEpoch: " + IntToString(timestampEpoch)
      + ", nanoTimeStart: " + IntToString(nanoTimeStart) + "."
  }

  /**
   * `init`: `generated` is what `nextId()` returned or threw, `parse` what parsing an id returns
   * or throws. On success both fields are set and the errors are untouched; on any failure one
   * message is appended and both fields are null, whether or not the id had been assigned.
   */
  function SnowflakeInit(errors: seq<string>, generated: Result<string, CheckFailure>,
                         parse: string -> Result<SnowflakeData, CheckFailure>,
                         timestampEpoch: int, nanoTimeStart: int): (s: SnowflakeState)
    ensures s.testId.None? <==> s.testResult.None?
    ensures s.testId.Some? <==> generated.Ok? && parse(generated.value).Ok?
    ensures s.testId.Some? ==> s.testId.value == generated.value && s.testResult == Some(parse(generated.value).value)
                               && s.errors == errors
    ensures s.testId.None? ==> |s.errors| == |errors| + 1 && s.errors[..|errors|] == errors
    ensures generated.Err? ==> s.errors == errors + [FailureMessage(generated.error, timestampEpoch, nanoTimeStart)]
    ensures generated.Ok? && parse(generated.value).Err? ==>
      s.errors == errors + [FailureMessage(parse(generated.value).error, timestampEpoch, nanoTimeStart)]
  {
    match generated
    case Err(failure) =>
      SnowflakeState(errors + [FailureMessage(failure, timestampEpoch, nanoTimeStart)], None, None)
    case Ok(id) =>
      match parse(id)
      case Err(failure) =>
        SnowflakeState(errors + [FailureMessage(failure, timestampEpoch, nanoTimeStart)], None, None)
      case Ok(data) => SnowflakeState(errors, Some(id), Some(data))
  }

  /** The failure message carries the generator's epoch and start time. */
  lemma FailureMessageNamesClock(failure: CheckFailure, timestampEpoch: int, nanoTimeStart: int)
    ensures var line := FailureMessage(failure, timestampEpoch, nanoTimeStart);
            Contains(line, IntToString(timestampEpoch)) && Contains(line, IntToString(nanoTimeStart))
  {
    var epoch, start := IntToString(timestampEpoch), IntToString(nanoTimeStart);
    var before := "SnowflakeCheck: " + failure.message.GetOr("null") + " - timestampEpoch: ";
    var middle := ", nanoTimeStart: ";
    var line := FailureMessage(failure, timestampEpoch, nanoTimeStart);
    assert line == before + epoch + (middle + start + ".");
    OccursBetween(before, epoch, middle + start + ".");
    assert line == (before + epoch + middle) + start + ".";
    OccursBetween(before + epoch + middle, start, ".");
  }

  lemma OccursBetween(x: string, s: string, y: string)
    ensures OccursAt(x + s + y, s, |x|)
  {
    assert (x + s + y)[|x|..|x| + |s|] == s;
  }

  class SnowflakeCheck {
    var errors: seq<string>
    var testId: Option<string>
    var testResult: Option<SnowflakeData>
    const timestampEpoch: int
    const nanoTimeStart: int

    /** The constructor followed by `init`'s try/catch. */
    constructor (errors: seq<string>, testId: Option<string>, testResult: Option<SnowflakeData>,
                 timestampEpoch: int, nanoTimeStart: int,
                 generated: Result<string, CheckFailure>, parse: string -> Result<SnowflakeData, CheckFailure>)
      ensures SnowflakeState(this.errors, this.testId, this.testResult)
                == SnowflakeInit(errors, generated, parse, timestampEpoch, nanoTimeStart)
      ensures this.timestampEpoch == timestampEpoch && this.nanoTimeStart == nanoTimeStart
    {
      this.errors := errors;
      this.testId := testId;
      this.testResult := testResult;
      this.timestampEpoch := timestampEpoch;
      this.nanoTimeStart := nanoTimeStart;
      new;
      var failure: Option<CheckFailure> := None;
      if generated.Err? {
        failure := Some(generated.error);
      } else {
        this.testId := Some(generated.value);
        var parsed := parse(generated.value);
        if parsed.Err? {
          failure := Some(parsed.error);
        } else {
          this.testResult := Some(parsed.value);
        }
      }
      if failure.Some? {
        this.errors := this.errors + [FailureMessage(failure.value, timestampEpoch, nanoTimeStart)];
        this.testId := None;
        this.testResult := None;
      }
    }
  }
}
