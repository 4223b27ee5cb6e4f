/** Values and PHP-level notions shared by every part of the model. */
module Common {

  datatype Option<+T> = None | Some(value: T) {
    /** The wrapped value, or `default` when absent. */
    function GetOr(default: T): T {
      match this
      case Some(v) => v
      case None => default
    }
  }

  /** A PHP value as it appears in visitor contexts, flag values, targeting
      rules and request bodies. Floating-point numbers are not modelled. */
  datatype Value =
    | VNull
    | VBool(b: bool)
    | VInt(i: int)
    | VStr(s: string)
    | VList(items: seq<Value>)

  /** What PHP's `gettype` reports for a value. */
  datatype TypeTag = NullType | BoolType | IntType | StringType | ArrayType

  function TypeOf(v: Value): TypeTag {
    match v
    case VNull => NullType
    case VBool(_) => BoolType
    case VInt(_) => IntType
    case VStr(_) => StringType
    case VList(_) => ArrayType
  }

  /** PHP `empty()` on a string: both "" and "0" are empty. */
  predicate IsEmptyString(s: string) {
    s == "" || s == "0"
  }

  /** PHP truthiness of a nullable string (null, "" and "0" are falsy). */
  predicate Truthy(s: Option<string>) {
    s.Some? && !IsEmptyString(s.value)
  }

  /** The nullable string as a value: null or the string itself. */
  function NullableStr(s: Option<string>): Value {
    match s
    case None => VNull
    case Some(x) => VStr(x)
  }

  /** A context or flag key is a non-empty string. */
  predicate IsKeyValid(key: Value) {
    key.VStr? && key.s != ""
  }

  /** A context value is a string, a number or a boolean. */
  predicate IsValueValid(v: Value) {
    v.VStr? || v.VInt? || v.VBool?
  }

  /** The status the SDK reports through its status-changed callback. */
  datatype SdkStatus = NotInitialized | Ready | ReadyPanicOn

  /** How flags are decided: by the remote decision API or by local bucketing. */
  datatype DecisionMode = DecisionApi | BucketingMode

  const SDK_LANGUAGE: string := "PHP"
  const SDK_APP: string := "APP"
  const SDK_VERSION: string := "SDK_VERSION"
  const FS_CONSENT: string := "fs_consent"
  const USER_ENGAGEMENT: string := "User Engagement"
  const ACTION_TRACKING: string := "Action Tracking"
}
