/**
 * The slice of PHP's value model that the submission storage handler relies on:
 * the values a configuration array, a decoded YAML mapping or a generated id can
 * hold, PHP's truthiness (what `empty()` and `if ($x)` test), and thrown objects.
 */
module Php {

  datatype Option<+T> = None | Some(value: T)

  /** A PHP value. Arrays are keyed by strings (an integer key such as a YAML list
      index is held as its decimal string, as PHP property names would be). */
  datatype Value =
    | VNull
    | VBool(b: bool)
    | VInt(i: int)
    | VStr(s: string)
    | VArray(entries: map<string, Value>)

  /** PHP's conversion to boolean: `if ($v)` takes the branch exactly when this
      holds, and `empty($v)` is its negation. The string "0" is falsy. */
  predicate Truthy(v: Value)
  {
    match v
    case VNull => false
    case VBool(b) => b
    case VInt(i) => i != 0
    case VStr(s) => s != "" && s != "0"
    case VArray(m) => |m| > 0
  }

  /** `empty($s)` for a string configuration entry. */
  predicate EmptyString(s: string)
  {
    !Truthy(VStr(s))
  }

  /** A thrown object: the fully qualified names of every class and interface it
      is an instance of, and its message. */
  datatype Throwable = Throwable(classes: set<string>, message: string)

  /** `catch (C $e)` catches `t` exactly when `t` is an instance of `C`. */
  predicate InstanceOf(t: Throwable, className: string)
  {
    className in t.classes
  }

  const EntityStorageExceptionClass := "Drupal\\Core\\Entity\\EntityStorageException"

  /** The class an unqualified `catch (Exception $e)` names inside the namespace
      Drupal\webform_submission_storage: PHP resolves it relative to that
      namespace, not to the global \Exception. */
  const ModuleExceptionClass := "Drupal\\webform_submission_storage\\Exception"

  /** What a call to the undefined function `info()` throws. */
  const UndefinedInfoCall := Throwable({"Error", "Throwable"},
    "Call to undefined function Drupal\\webform_submission_storage\\info()")

  /** What PHP throws when a non-array reaches a parameter declared `array`. */
  const ArrayArgumentTypeError := Throwable({"TypeError", "Error", "Throwable"},
    "Argument 2 must be of type array")

  /** How a PHP call ends: it returns a value or throws. */
  datatype Completion<+T> = Normal(value: T) | Abrupt(thrown: Throwable)
}
