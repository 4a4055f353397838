/** Shared helper types. */
module Base {
  datatype Option<+T> = None | Some(value: T) {
    function GetOr(default: T): T {
      match this
      case Some(v) => v
      case None => default
    }
  }

  /** The longest suffix of s with at most n elements. */
  function Last<T>(s: seq<T>, n: nat): (r: seq<T>)
    ensures |r| == if |s| <= n then |s| else n
    ensures forall i :: 0 <= i < |r| ==> r[i] == s[|s| - |r| + i]
  {
    if |s| <= n then s else s[|s| - n..]
  }

  ghost predicate Distinct<T>(s: seq<T>) {
    forall i, j :: 0 <= i < j < |s| ==> s[i] != s[j]
  }
}

/** JSON values as trees. Numbers that are not integers are opaque leaves. */
module Json {
  import opened Base

  datatype Json =
    | Null
    | Bool(b: bool)
    | Int(n: int)
    | Frac(text: string)
    | Str(s: string)
    | Arr(items: seq<Json>)
    | Obj(fields: map<string, Json>)
  {
    /** The member `key` of an object; nothing for an absent key or a non-object. */
    function Get(key: string): Option<Json> {
      if Obj? && key in fields then Some(fields[key]) else None
    }

    /** The discriminant that every wire message carries. */
    function Tag(): Option<string> {
      match Get("t")
      case Some(Str(t)) => Some(t)
      case _ => None
    }
  }

  /** An object member that is left out when its value is absent. */
  function Opt(key: string, value: Option<Json>): map<string, Json> {
    if value.Some? then map[key := value.value] else map[]
  }
}
