/**
 * Values exchanged between the framework and its listeners: the debug-printable
 * PHP values an assertion may carry, the throwables a test body may raise, and
 * the assertion record of the test-interop package (its class is not part of this
 * model, only the fields the framework sets and reads).
 */
module TestInterop {

  /** Optional value; `None` stands for PHP's null or "not supplied". */
  datatype Option<+T> = None | Some(value: T) {
    function GetOr(default: T): T {
      match this
      case Some(v) => v
      case None => default
    }
  }

  /** Concatenation regrouped, for proofs that build strings and call logs piece by piece. */
  lemma ConcatAssoc<T>(a: seq<T>, b: seq<T>, c: seq<T>)
    ensures (a + b) + c == a + (b + c)
  {
  }

  /** A prefix one element longer is the shorter prefix and that element, for loops that collect in order. */
  lemma PrefixGrows<T>(s: seq<T>, k: nat)
    requires k < |s|
    ensures s[..k + 1] == s[..k] + [s[k]]
  {
  }

  /** Identity of a PHP object, as compared by `===` and `in_array(..., true)`. */
  type ObjectId = nat

  /** A PHP array key: integer keys print bare, string keys quoted. */
  datatype Key = IntKey(i: int) | StringKey(s: string)

  /** A caught exception or error: its class, its message and its rendered trace. */
  datatype Throwable = Throwable(className: string, message: string, trace: string)

  /**
   * The PHP values the formatter distinguishes. Floats, resources and callables
   * are not part of this model; `Other` is the fallback for any other type name.
   * An object carries its identity, its class, whether it is an instance of
   * `stdClass` (that class or one extending it), and its properties in order (what
   * the array cast or reflection would list).
   */
  datatype Value =
    | Null
    | Bool(b: bool)
    | Int(i: int)
    | Str(s: string)
    | Array(entries: seq<Entry>)
    | Object(id: ObjectId, className: string, isStdClass: bool, fields: seq<Field>)
    | Thrown(error: Throwable)
    | Other(typeName: string)

  /** One key/value pair of a PHP array, in the array's order. */
  datatype Entry = Entry(key: Key, value: Value)

  /** One property of an object, in the order reflection reports it. */
  datatype Field = Field(name: string, value: Value)

  /**
   * One assertion outcome. `value` and `expected` carry present-flags: `None`
   * means the caller did not supply the argument, `Some(Null)` that it passed null.
   */
  datatype AssertionResult = AssertionResult(
    passed: bool,
    kind: string,
    context: seq<Entry>,
    message: Option<string>,
    value: Option<Value>,
    expected: Option<Value>,
    file: Option<string>,
    line: Option<int>)

  /** The calls a test-case listener receives for one case. */
  datatype CaseEvent =
    | ResultAdded(result: AssertionResult)
    | ErrorAdded(error: Throwable)
    | Skipped(reason: string)
    | Disabled(reason: string)

  /**
   * The calls a test listener receives, in the order they are made: the suite
   * and case brackets, and the calls made on the case handle in between.
   */
  datatype ListenerEvent =
    | SuiteBegun(name: string, properties: seq<Entry>)
    | CaseBegun(caseName: string, className: Option<string>)
    | OnCase(call: CaseEvent)
    | CaseEnded
    | SuiteEnded
}
