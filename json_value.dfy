/**
 * The values Python's `json.loads` produces, and Python's `in` operator on
 * them (`key in value`, with `key` a str), which behaves differently per type:
 * key membership for a dict, element equality for a list, substring search
 * for a str, and a TypeError for int, float, bool and None.
 */
module JsonValues {
  import opened Wrappers

  /** One entry of a decoded JSON object, in document order. */
  datatype Member = Member(key: string, value: JsonValue)

  datatype JsonValue =
    | Null                                  // None
    | Bool(b: bool)                         // True / False
    | Int(i: int)                           // int
    | Float(f: real)                        // float
    | Str(s: string)                        // str
    | Arr(items: seq<JsonValue>)            // list
    | Obj(members: seq<Member>)             // dict

  /** The name Python gives the value's type (`type(v).__name__`). */
  function TypeName(v: JsonValue): string {
    match v
    case Null => "NoneType"
    case Bool(_) => "bool"
    case Int(_) => "int"
    case Float(_) => "float"
    case Str(_) => "str"
    case Arr(_) => "list"
    case Obj(_) => "dict"
  }

  /** An exception raised inside the request handler's `try` block. */
  datatype PyError =
    | DecodeError(message: string)   // json.JSONDecodeError / UnicodeDecodeError
    | TypeError(message: string)
    | ValueError(message: string)

  /** `str(e)` for the exception. */
  function Message(e: PyError): string {
    e.message
  }

  /** The message CPython gives when `in` is applied to a non-container. */
  function NotIterable(v: JsonValue): string {
    "argument of type '" + TypeName(v) + "' is not iterable"
  }

  /** The JSON types on which `in` is defined. */
  predicate IsContainer(v: JsonValue) {
    v.Obj? || v.Arr? || v.Str?
  }

  /** Python's `needle in hay` for two strings, scanning hay from the left. */
  predicate IsSubstring(needle: string, hay: string)
    decreases |hay|
  {
    |needle| <= |hay| && (hay[..|needle|] == needle || (|hay| > 0 && IsSubstring(needle, hay[1..])))
  }

  /** Reference definition: needle occurs at some offset of hay. */
  ghost predicate OccursAt(needle: string, hay: string, i: int) {
    0 <= i && i + |needle| <= |hay| && hay[i..i + |needle|] == needle
  }

  lemma {:induction false} SubstringIffOccurs(needle: string, hay: string)
    ensures IsSubstring(needle, hay) <==> exists i :: OccursAt(needle, hay, i)
    decreases |hay|
  {
    if IsSubstring(needle, hay) {
      if hay[..|needle|] == needle {
        assert OccursAt(needle, hay, 0);
      } else {
        SubstringIffOccurs(needle, hay[1..]);
        var j :| OccursAt(needle, hay[1..], j);
        assert hay[1..][j..j + |needle|] == hay[j + 1..j + 1 + |needle|];
        assert OccursAt(needle, hay, j + 1);
      }
    }
    if exists i :: OccursAt(needle, hay, i) {
      var i :| OccursAt(needle, hay, i);
      if i > 0 {
        assert hay[1..][i - 1..i - 1 + |needle|] == hay[i..i + |needle|];
        assert OccursAt(needle, hay[1..], i - 1);
        SubstringIffOccurs(needle, hay[1..]);
      }
    }
  }

  /**
   * `key in v` for a container, as the type's `__contains__` answers it: some
   * member of a dict has the key, some element of a list is the string, or
   * the key occurs somewhere in a string.
   */
  predicate Contains(v: JsonValue, key: string): (r: bool)
    requires IsContainer(v)
    ensures v.Obj? ==> (r <==> exists i :: 0 <= i < |v.members| && v.members[i].key == key)
    ensures v.Arr? ==> (r <==> exists i :: 0 <= i < |v.items| && v.items[i] == Str(key))
    ensures v.Str? ==> (r <==> exists i :: OccursAt(key, v.s, i))
  {
    match v
    case Obj(members) =>
      assert (exists m :: m in members && m.key == key)
        <==> (exists i :: 0 <= i < |members| && members[i].key == key);
      exists m :: m in members && m.key == key
    case Arr(items) => Str(key) in items
    case Str(s) => SubstringIffOccurs(key, s); IsSubstring(key, s)
  }

  /** Python's `key in v`: an answer for containers, a TypeError otherwise. */
  function In(key: string, v: JsonValue): (r: Result<bool, PyError>)
    ensures !IsContainer(v) ==> r == Failure(TypeError(NotIterable(v)))
    ensures v.Obj? ==> r == Success(exists i :: 0 <= i < |v.members| && v.members[i].key == key)
    ensures v.Arr? ==> r == Success(exists i :: 0 <= i < |v.items| && v.items[i] == Str(key))
    ensures v.Str? ==> r == Success(exists i :: OccursAt(key, v.s, i))
  {
    if IsContainer(v) then Success(Contains(v, key)) else Failure(TypeError(NotIterable(v)))
  }

  /**
   * `all(k in v for k in keys)`: stops at the first key that is absent, and
   * propagates the first exception raised by `in`.  On a container it
   * answers whether every key is contained; on anything else it raises the
   * TypeError of the first `in`, if there are keys at all.
   */
  function AllIn(keys: seq<string>, v: JsonValue): (r: Result<bool, PyError>)
    ensures IsContainer(v) ==> r == Success(forall i :: 0 <= i < |keys| ==> Contains(v, keys[i]))
    ensures !IsContainer(v) && keys != [] ==> r == Failure(TypeError(NotIterable(v)))
    ensures !IsContainer(v) && keys == [] ==> r == Success(true)
  {
    if keys == [] then Success(true)
    else match In(keys[0], v)
      case Failure(e) => Failure(e)
      case Success(false) => Success(false)
      case Success(true) =>
        var rest := AllIn(keys[1..], v);
        assert (forall i :: 0 <= i < |keys| ==> Contains(v, keys[i]))
          <==> (forall i :: 0 <= i < |keys[1..]| ==> Contains(v, keys[1..][i]));
        rest
  }
}
