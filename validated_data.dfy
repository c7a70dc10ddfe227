/**
 * The entries of a serializer's `validated_data` dictionary. A key is either
 * absent or present with a value; `dict.get(key, default)` and `dict.get(key)`
 * are the two ways the serializers read it.
 */
module ValidatedData {
  import opened Wrappers

  datatype Field<+T> = Absent | Given(value: T) {

    /** `validated_data.get(key, default)`. */
    function GetOr(default: T): T {
      match this
      case Absent => default
      case Given(v) => v
    }

    /** `validated_data.get(key)` for a non-null value: `None` when the key is absent. */
    function GetNullable(): Option<T> {
      match this
      case Absent => None
      case Given(v) => Some(v)
    }

    /** `data.pop(key, default)` into a nullable column whose current value is `default`. */
    function PopOr(default: Option<T>): Option<T> {
      match this
      case Absent => default
      case Given(v) => Some(v)
    }
  }
}
