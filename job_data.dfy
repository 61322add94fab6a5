/**
 * The Quartz JobDataMap as the task consumers see it: a java.util.Map whose keys and
 * values may be of any class, and the string-keyed property bundle built from it.
 */
module JobData {

  /** A Kotlin `Int`: a 32-bit signed integer. */
  type Int32 = i: int | -0x8000_0000 <= i < 0x8000_0000

  /** The canonical text of a `kotlin.uuid.Uuid`. */
  type Uuid = string

  /** A value stored in a job data map, tagged with its runtime class. */
  datatype Value =
    | StrVal(s: string)
    | IntVal(i: Int32)
    | LongVal(l: int)
    | UuidVal(u: Uuid)
    | StrListVal(items: seq<string>)
    | NullVal
    | OtherVal(tag: nat)

  /** A key of a job data map: Quartz stores any object as a key, not only strings. */
  datatype Key = StrKey(name: string) | OtherKey(tag: nat)

  type DataMap = map<Key, Value>

  /** The property bundle handed to `start`: Kotlin's `Map<String, Any>`. */
  type Properties = map<string, Value>

  /**
   * `jobDataMap.toMap().filterKeys { it is String }.mapKeys { it.key as String }`:
   * exactly the entries whose key is a String, with their values.
   */
  function StringProperties(data: DataMap): (props: Properties)
    ensures forall name :: name in props <==> StrKey(name) in data
    ensures forall name :: name in props ==> props[name] == data[StrKey(name)]
  {
    map key | key in data && key.StrKey? :: key.name := data[key]
  }

  /** Entries stored under non-String keys never reach the properties. */
  lemma NonStringKeysIgnored(data: DataMap, tag: nat, v: Value)
    ensures StringProperties(data[OtherKey(tag) := v]) == StringProperties(data)
  {
    var a, b := StringProperties(data[OtherKey(tag) := v]), StringProperties(data);
    assert forall name :: name in a <==> name in b;
    assert a.Keys == b.Keys;
  }

  /** `jobDataMap[COUNT_KEY] as? Int ?: 0`: the stored count when it is an Int, 0 otherwise. */
  function RetryCount(data: DataMap, countKey: string): (n: Int32)
    ensures n != 0 ==> StrKey(countKey) in data && data[StrKey(countKey)] == IntVal(n)
    ensures StrKey(countKey) in data && data[StrKey(countKey)].IntVal? ==> n == data[StrKey(countKey)].i
    ensures (StrKey(countKey) !in data || !data[StrKey(countKey)].IntVal?) ==> n == 0
  {
    if StrKey(countKey) in data && data[StrKey(countKey)].IntVal? then data[StrKey(countKey)].i else 0
  }

  /** A count stored as an Int is read back as stored; one stored as a Long reads as 0. */
  lemma RetryCountRoundTrip(data: DataMap, countKey: string, k: Int32, l: int)
    ensures RetryCount(data[StrKey(countKey) := IntVal(k)], countKey) == k
    ensures RetryCount(data[StrKey(countKey) := LongVal(l)], countKey) == 0
  {
  }

  /**
   * The job being executed, as `context.jobDetail.key` names it; it stands for the scheduler
   * and job detail that the retry handler and the re-scheduler receive.
   */
  datatype JobRef = JobRef(name: string, group: string)
}
