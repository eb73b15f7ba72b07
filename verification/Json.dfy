/** JSON values as the runtime holds them (`serde_json::Value`). Numbers keep the
    distinction between integers and floating-point literals, which the tool schema subset
    observes. Objects are lists of fields sorted by key, as the runtime's ordered maps keep them,
    so that equal objects are equal lists. */
module Json {
  import opened Common

  datatype Number = Integer(i: int) | Float(r: real)

  datatype Field = Field(key: string, value: Value)

  datatype Value =
    | Null
    | Bool(b: bool)
    | Num(n: Number)
    | Str(s: string)
    | Arr(items: seq<Value>)
    | Obj(fields: seq<Field>)

  /** Look a key up in an object's fields. */
  function Get(fields: seq<Field>, key: string): (r: Option<Value>)
    ensures r.Some? <==> exists i :: 0 <= i < |fields| && fields[i].key == key
    ensures r.Some? ==> Field(key, r.value) in fields
  {
    if fields == [] then
      None
    else if fields[0].key == key then
      assert fields[0] == Field(key, fields[0].value);
      Some(fields[0].value)
    else
      var rest := Get(fields[1..], key);
      assert rest.Some? ==> Field(key, rest.value) in fields[1..];
      assert forall i :: 1 <= i < |fields| ==> fields[i] == fields[1..][i - 1];
      rest
  }

  /** The order of keys: by code point, shorter first. */
  predicate Before(a: string, b: string) {
    b != "" && (a == "" || a[0] < b[0] || (a[0] == b[0] && Before(a[1..], b[1..])))
  }

  lemma {:induction false} BeforeAsymmetric(a: string, b: string)
    ensures !(Before(a, b) && Before(b, a))
  {
    if a != "" && b != "" {
      BeforeAsymmetric(a[1..], b[1..]);
    }
  }

  /** The fields of an object, as the runtime holds them. */
  predicate Sorted(fields: seq<Field>) {
    forall i, j :: 0 <= i < j < |fields| ==> Before(fields[i].key, fields[j].key)
  }

  /** A sorted list is determined by what it maps its keys to, so comparing lists is comparing
      objects. */
  lemma {:induction false} SortedUnique(a: seq<Field>, b: seq<Field>)
    requires Sorted(a) && Sorted(b) && forall key :: Get(a, key) == Get(b, key)
    ensures a == b
  {
    hide Before;
    if a == [] || b == [] {
      assert a != [] ==> Get(a, a[0].key).Some?;
      assert b != [] ==> Get(b, b[0].key).Some?;
    } else {
      FirstKeys(a, b);
      assert Get(a, a[0].key) == Some(a[0].value) && Get(b, b[0].key) == Some(b[0].value);
      forall key
        ensures Get(a[1..], key) == Get(b[1..], key)
      {
        GetRest(a, key);
        GetRest(b, key);
        assert Get(a, key) == Get(b, key);
      }
      SortedUnique(a[1..], b[1..]);
      assert a == [a[0]] + a[1..] && b == [b[0]] + b[1..];
    }
  }

  lemma FirstKeys(a: seq<Field>, b: seq<Field>)
    requires a != [] && b != [] && Sorted(a) && Sorted(b) && forall key :: Get(a, key) == Get(b, key)
    ensures a[0].key == b[0].key
  {
    hide Before;
    var x, y := a[0].key, b[0].key;
    assert Get(a, x).Some? && Get(b, y).Some?;
    assert Get(b, x).Some? && Get(a, y).Some?;
    BeforeAsymmetric(x, y);
  }

  lemma GetRest(fields: seq<Field>, key: string)
    requires fields != [] && Sorted(fields)
    ensures Get(fields[1..], key) == if key == fields[0].key then None else Get(fields, key)
  {
    hide Before;
    if key == fields[0].key && Get(fields[1..], key).Some? {
      BeforeAsymmetric(key, key);
      assert false;
    }
  }
}
