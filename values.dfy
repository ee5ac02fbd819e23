/**
 * Values shared by the whole model: optional values, results with a schema
 * error, and a JSON value that stands for the decoded API responses.
 */
module Values {

  datatype Option<+T> = None | Some(value: T)

  /** Why a required part of a raw record could not be read. */
  datatype SchemaError =
    | MissingKey(key: string)   // a dictionary lookup of an absent key
    | NotAnObject(key: string)  // a string key applied to something that is not a dictionary
    | NoElement(index: nat)     // a list index past the end, or applied to a non-list
    | NotAList(key: string)     // iteration over a value that is not a list of records
    | NotAString(key: string)   // a time stamp that is not a string

  /** The outcome of reading a record: a value, or the schema error that stops the read. */
  datatype Result<+T> = Ok(value: T) | Err(error: SchemaError) {
    predicate IsFailure() { Err? }

    function PropagateFailure<U>(): Result<U>
      requires Err?
    {
      Err(error)
    }

    function Extract(): T
      requires Ok?
    {
      value
    }
  }

  /** A decoded JSON value; `Null` also stands for Python's `None`. */
  datatype Json =
    | Null
    | Bool(b: bool)
    | Num(n: int)
    | Str(s: string)
    | Arr(items: seq<Json>)
    | Obj(fields: map<string, Json>)

  /** `key in j` for a dictionary `j`. */
  predicate Has(j: Json, key: string) {
    j.Obj? && key in j.fields
  }

  /** `j[key]`. */
  function Field(j: Json, key: string): (r: Result<Json>)
    ensures r.Ok? <==> Has(j, key)
    ensures r.Ok? ==> r.value == j.fields[key]
  {
    if !j.Obj? then Err(NotAnObject(key))
    else if key !in j.fields then Err(MissingKey(key))
    else Ok(j.fields[key])
  }

  /** `j[k0][k1]...`, the lookups done left to right. */
  function At(j: Json, path: seq<string>): (r: Result<Json>)
    decreases |path|
  {
    if path == [] then Ok(j)
    else
      var next :- Field(j, path[0]);
      At(next, path[1..])
  }

  /** `j[i]` for a list `j`. */
  function Item(j: Json, i: nat): (r: Result<Json>)
    ensures r.Ok? <==> j.Arr? && i < |j.items|
    ensures r.Ok? ==> r.value == j.items[i]
  {
    if j.Arr? && i < |j.items| then Ok(j.items[i]) else Err(NoElement(i))
  }

  /**
   * The elements iterated by `for x in j[key]`.  A list gives its elements and
   * an empty dictionary or string gives none; any other value is a schema
   * error (a number, boolean or None is not iterable, and the first key or
   * character of a non-empty dictionary or string cannot be read as a record).
   */
  function Items(j: Json, key: string): (r: Result<seq<Json>>)
    ensures r.Ok? <==> Has(j, key) && Iterable(j.fields[key])
    ensures r.Ok? && j.fields[key].Arr? ==> r.value == j.fields[key].items
    ensures r.Ok? && !j.fields[key].Arr? ==> r.value == []
  {
    var v :- Field(j, key);
    if v.Arr? then Ok(v.items)
    else if v == Obj(map[]) || v == Str("") then Ok([])
    else Err(NotAList(key))
  }

  /** A value the record loops can run over: a list, or an empty dictionary or string. */
  predicate Iterable(v: Json) {
    v.Arr? || v == Obj(map[]) || v == Str("")
  }

  lemma {:induction false} AtTwo(j: Json, k0: string, k1: string)
    ensures At(j, [k0, k1]).Ok? <==> Has(j, k0) && Has(j.fields[k0], k1)
    ensures At(j, [k0, k1]).Ok? ==> At(j, [k0, k1]).value == j.fields[k0].fields[k1]
  {
    assert [k0, k1][1..] == [k1];
    if Has(j, k0) {
      AtOne(j.fields[k0], k1);
    }
  }

  lemma {:induction false} AtOne(j: Json, k: string)
    ensures At(j, [k]) == Field(j, k)
  {
    assert [k][1..] == [];
  }

  // ---------------------------------------------------------------------
  // Sequence facts, stated once for every element type.

  lemma AppendAssociative<T>(a: seq<T>, b: seq<T>, c: seq<T>)
    ensures (a + b) + c == a + (b + c)
  {
  }

  /** A prefix grown by the next element is the next prefix. */
  lemma TakeSnoc<T>(s: seq<T>, i: nat)
    requires i < |s|
    ensures s[..i] + [s[i]] == s[..i + 1]
  {
  }

  /** A sequence is its prefix followed by the rest. */
  lemma TakeDrop<T>(s: seq<T>, i: nat)
    requires i <= |s|
    ensures s[..i] + s[i..] == s
  {
  }

  /** Dropping the head of a concatenation with a non-empty left part. */
  lemma DropAppend<T>(a: seq<T>, b: seq<T>)
    requires a != []
    ensures (a + b)[0] == a[0] && (a + b)[1..] == a[1..] + b
  {
  }
}
