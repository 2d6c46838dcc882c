/** JSON values at the object level, with the accessors the server uses on them.
    An object is a map: the order of its members carries no meaning here. */
module Json {
  datatype Option<+T> = None | Some(value: T) {
    function GetOr(default: T): T { if Some? then value else default }
  }

  type Object = map<string, Value>

  datatype Value =
    | Null
    | Bool(b: bool)
    | Num(n: int)
    | Str(s: string)
    | Arr(items: seq<Value>)
    | Obj(fields: Object)
  {
    /** The member `key`; none on a missing member or on a value that is not an object. */
    function Get(key: string): Option<Value> {
      if Obj? && key in fields then Some(fields[key]) else None
    }

    function AsStr(): Option<string> {
      if Str? then Some(s) else None
    }

    function AsObj(): Option<Object> {
      if Obj? then Some(fields) else None
    }

    function AsArr(): Option<seq<Value>> {
      if Arr? then Some(items) else None
    }

    /** `get(key).and_then(as_str)` */
    function GetStr(key: string): Option<string> {
      match Get(key)
      case Some(v) => v.AsStr()
      case None => None
    }

    /** `get(key).and_then(as_object)` */
    function GetObj(key: string): Option<Object> {
      match Get(key)
      case Some(v) => v.AsObj()
      case None => None
    }

    /** `get(key).cloned().unwrap_or(default)` */
    function GetOr(key: string, default: Value): Value {
      Get(key).GetOr(default)
    }
  }

  const EMPTY_OBJ := Obj(map[])

  function Strs(ids: seq<string>): (items: seq<Value>)
    ensures |items| == |ids|
    ensures forall i :: 0 <= i < |ids| ==> items[i] == Str(ids[i])
  {
    seq(|ids|, i requires 0 <= i < |ids| => Str(ids[i]))
  }

  /** The strings among the items, in order: `filter_map(as_str)`. */
  function OnlyStrs(items: seq<Value>): seq<string> {
    if items == [] then []
    else (if items[0].Str? then [items[0].s] else []) + OnlyStrs(items[1..])
  }

  lemma {:induction false} OnlyStrsOfStrs(ids: seq<string>)
    ensures OnlyStrs(Strs(ids)) == ids
  {
    if ids != [] {
      assert Strs(ids)[1..] == Strs(ids[1..]);
      OnlyStrsOfStrs(ids[1..]);
    }
  }
}
