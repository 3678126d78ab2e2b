/** Values read from the configuration files (YAML in main.py, calcule.py and
    cook-recipes.py, JSON in prod.py), the errors that abort a run, and a
    failure-compatible result type. */
module Data {

  type Name = string

  datatype Option<T> = None | Some(value: T)

  /** A parsed configuration value. An `Obj` holds the items of a mapping in
      the order they were declared; lists, booleans and null are `Other`. */
  datatype Json = Num(n: real) | Str(s: string) | Obj(members: seq<(string, Json)>) | Other

  /** The conditions that end a run. */
  datatype Error =
    | NotFound(name: Name)                // a file that does not exist
    | MissingKey(owner: Name, key: string) // indexing a mapping with an absent key
    | WrongType(owner: Name)               // a value of the wrong kind (not a mapping, not a number)
    | BadKey(key: string)                  // a component key that splits into more than two names
    | DivisionByZero(owner: Name)          // a zero divisor

  datatype Result<T> = Ok(value: T) | Err(error: Error) {
    predicate IsFailure() { Err? }

    function PropagateFailure<U>(): Result<U>
      requires Err?
    {
      Err(error)
    }

    function Extract(): T
      requires Ok?
    {
      value
    }
  }

  /** The value stored under `key` in a list of mapping items, if any. */
  function Lookup(members: seq<(string, Json)>, key: string): (r: Option<Json>)
    ensures r.Some? <==> exists i :: 0 <= i < |members| && members[i].0 == key
    ensures r.Some? ==> exists i :: 0 <= i < |members| && members[i] == (key, r.value)
  {
    if |members| == 0 then None
    else if members[0].0 == key then Some(members[0].1)
    else
      var r := Lookup(members[1..], key);
      assert forall i :: 0 < i < |members| ==> members[i] == members[1..][i - 1];
      r
  }

  /** Python's `key in j` for a mapping. */
  predicate HasKey(j: Json, key: string) {
    j.Obj? && Lookup(j.members, key).Some?
  }

  /** Python's `j[key]` where the value must be a number. */
  function NumberAt(j: Json, owner: Name, key: string): (r: Result<real>)
    ensures r.Ok? <==> j.Obj? && Lookup(j.members, key).Some? && Lookup(j.members, key).value.Num?
    ensures r.Ok? ==> Lookup(j.members, key) == Some(Num(r.value))
    ensures j.Obj? && !HasKey(j, key) ==> r == Err(MissingKey(owner, key))
  {
    if !j.Obj? then Err(WrongType(owner))
    else match Lookup(j.members, key)
      case None => Err(MissingKey(owner, key))
      case Some(v) => if v.Num? then Ok(v.n) else Err(WrongType(owner))
  }

  /** Python's `j.get(key, default)` where the value must be a number. */
  function NumberOr(j: Json, owner: Name, key: string, default: real): (r: Result<real>)
    ensures j.Obj? && !HasKey(j, key) ==> r == Ok(default)
    ensures HasKey(j, key) ==> r == NumberAt(j, owner, key)
  {
    if !j.Obj? then Err(WrongType(owner))
    else match Lookup(j.members, key)
      case None => Ok(default)
      case Some(v) => if v.Num? then Ok(v.n) else Err(WrongType(owner))
  }

  /** Python's `j[key]` where the value must be a string. */
  function StringAt(j: Json, owner: Name, key: string): (r: Result<string>)
    ensures r.Ok? <==> j.Obj? && Lookup(j.members, key).Some? && Lookup(j.members, key).value.Str?
    ensures r.Ok? ==> Lookup(j.members, key) == Some(Str(r.value))
  {
    if !j.Obj? then Err(WrongType(owner))
    else match Lookup(j.members, key)
      case None => Err(MissingKey(owner, key))
      case Some(v) => if v.Str? then Ok(v.s) else Err(WrongType(owner))
  }
}
