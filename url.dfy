/** The slice of the WHATWG URL standard the wallet hand-off relies on: a URL
    as its part before the query plus the ordered name-value list behind
    `URLSearchParams`, with `get`, `getAll`, `set`, `append` and `delete`.
    The operations are plain functions; what each does to `getAll` is stated
    by a lemma per operation, one for the name it is given and one for every
    other name, so that long chains of updates stay cheap to reason about. */
module Urls {
  import opened Wrappers
  import Text

  /** The name-value pairs of a query, in order; names may repeat. */
  type Query = seq<(string, string)>

  /** A URL: everything before the `?` (scheme, host, path) and its query. */
  datatype Url = Url(base: string, query: Query)

  /** Some pair of `q` is named `name`. */
  predicate Has(q: Query, name: string)
    decreases |q|
  {
    q != [] && (q[0].0 == name || Has(q[1..], name))
  }

  /** `searchParams.get(name)`: the value of the first pair named `name`. */
  function Get(q: Query, name: string): (r: Option<string>)
    ensures r.None? <==> !Has(q, name)
    decreases |q|
  {
    if q == [] then None
    else if q[0].0 == name then Some(q[0].1)
    else Get(q[1..], name)
  }

  /** `searchParams.getAll(name)`: the values of every pair named `name`, in
      order; `get` sees the first of them. */
  function GetAll(q: Query, name: string): (r: seq<string>)
    ensures |r| == 0 <==> !Has(q, name)
    ensures |r| > 0 ==> Get(q, name) == Some(r[0])
    decreases |q|
  {
    if q == [] then []
    else
      var rest := GetAll(q[1..], name);
      if q[0].0 == name then [q[0].1] + rest else rest
  }

  /** `getAll` decides `get`: two queries with the same values under a name
      answer `get` for it alike. */
  lemma GetFollowsGetAll(a: Query, b: Query, name: string)
    requires GetAll(a, name) == GetAll(b, name)
    ensures Get(a, name) == Get(b, name)
  {
    if |GetAll(a, name)| == 0 {
      assert !Has(a, name) && !Has(b, name);
    }
  }

  /** `getAll` distributes over concatenation. */
  lemma {:induction false} GetAllConcat(a: Query, b: Query, name: string)
    ensures GetAll(a + b, name) == GetAll(a, name) + GetAll(b, name)
    decreases |a|
  {
    if a != [] {
      GetAllConcat(a[1..], b, name);
      assert (a + b)[1..] == a[1..] + b;
    } else {
      assert a + b == b;
    }
  }

  /** `searchParams.delete(name)`: every pair named `name` goes, the rest stay in order. */
  function Delete(q: Query, name: string): (r: Query)
    ensures !Has(r, name)
    decreases |q|
  {
    if q == [] then []
    else
      var rest := Delete(q[1..], name);
      if q[0].0 == name then rest
      else
        var r := [q[0]] + rest;
        assert r[1..] == rest;
        r
  }

  /** `delete` leaves every other name's values, and so its `get`, as they were. */
  lemma {:induction false} DeleteOther(q: Query, name: string, other: string)
    requires other != name
    ensures GetAll(Delete(q, name), other) == GetAll(q, other)
    ensures Get(Delete(q, name), other) == Get(q, other)
    decreases |q|
  {
    if q != [] {
      DeleteOther(q[1..], name, other);
      var rest := Delete(q[1..], name);
      if q[0].0 != name {
        assert ([q[0]] + rest)[1..] == rest;
      }
    }
    GetFollowsGetAll(Delete(q, name), q, other);
  }

  /** `searchParams.append(name, value)`: the pair goes at the end. */
  function Append(q: Query, name: string, value: string): Query {
    q + [(name, value)]
  }

  /** `append` adds its value last among the values of its name. */
  lemma AppendSame(q: Query, name: string, value: string)
    ensures GetAll(Append(q, name, value), name) == GetAll(q, name) + [value]
  {
    GetAllConcat(q, [(name, value)], name);
  }

  /** `append` leaves every other name's values as they were. */
  lemma AppendOther(q: Query, name: string, value: string, other: string)
    requires other != name
    ensures GetAll(Append(q, name, value), other) == GetAll(q, other)
  {
    GetAllConcat(q, [(name, value)], other);
  }

  /** `values.forEach(v => searchParams.append(name, v))` */
  function AppendAll(q: Query, name: string, values: seq<string>): Query
    decreases |values|
  {
    if values == [] then q
    else Append(AppendAll(q, name, values[..|values| - 1]), name, values[|values| - 1])
  }

  /** Appending one more value is one more `append`. */
  lemma AppendAllSnoc(q: Query, name: string, values: seq<string>, value: string)
    ensures AppendAll(q, name, values + [value]) == Append(AppendAll(q, name, values), name, value)
  {
    assert (values + [value])[..|values|] == values;
  }

  /** After the `forEach`, the name's values end with exactly the given ones, in order. */
  lemma {:induction false} AppendAllSame(q: Query, name: string, values: seq<string>)
    ensures GetAll(AppendAll(q, name, values), name) == GetAll(q, name) + values
    decreases |values|
  {
    if values != [] {
      var init := values[..|values| - 1];
      AppendAllSame(q, name, init);
      AppendSame(AppendAll(q, name, init), name, values[|values| - 1]);
      assert values == init + [values[|values| - 1]];
    }
  }

  /** The `forEach` leaves every other name's values as they were. */
  lemma {:induction false} AppendAllOther(q: Query, name: string, values: seq<string>, other: string)
    requires other != name
    ensures GetAll(AppendAll(q, name, values), other) == GetAll(q, other)
    decreases |values|
  {
    if values != [] {
      var init := values[..|values| - 1];
      AppendAllOther(q, name, init, other);
      AppendOther(AppendAll(q, name, init), name, values[|values| - 1], other);
    }
  }

  /** The `forEach`, as the loop it is. */
  method AppendEach(q: Query, name: string, values: seq<string>) returns (r: Query)
    ensures r == AppendAll(q, name, values)
  {
    r := q;
    var i := 0;
    while i < |values|
      invariant 0 <= i <= |values|
      invariant r == AppendAll(q, name, values[..i])
    {
      AppendAllSnoc(q, name, values[..i], values[i]);
      assert values[..i + 1] == values[..i] + [values[i]];
      r := Append(r, name, values[i]);
      i := i + 1;
    }
    assert values[..i] == values;
  }

  /** `searchParams.set(name, value)`: the first pair named `name` takes the
      value and the others named `name` go; with no such pair, it is appended. */
  function SetParam(q: Query, name: string, value: string): Query
    decreases |q|
  {
    if q == [] then [(name, value)]
    else if q[0].0 == name then [(name, value)] + Delete(q[1..], name)
    else [q[0]] + SetParam(q[1..], name, value)
  }

  /** After `set`, the name has exactly the one value set. */
  lemma {:induction false} SetParamSame(q: Query, name: string, value: string)
    ensures GetAll(SetParam(q, name, value), name) == [value]
    ensures Get(SetParam(q, name, value), name) == Some(value)
    decreases |q|
  {
    if q == [] {
    } else if q[0].0 == name {
      var r := [(name, value)] + Delete(q[1..], name);
      assert r[1..] == Delete(q[1..], name);
      assert GetAll(Delete(q[1..], name), name) == [];
    } else {
      SetParamSame(q[1..], name, value);
      var r := [q[0]] + SetParam(q[1..], name, value);
      assert r[1..] == SetParam(q[1..], name, value);
    }
  }

  /** `set` leaves every other name's values, and so its `get`, as they were. */
  lemma {:induction false} SetParamOther(q: Query, name: string, value: string, other: string)
    requires other != name
    ensures GetAll(SetParam(q, name, value), other) == GetAll(q, other)
    ensures Get(SetParam(q, name, value), other) == Get(q, other)
    decreases |q|
  {
    if q == [] {
    } else if q[0].0 == name {
      DeleteOther(q[1..], name, other);
      var r := [(name, value)] + Delete(q[1..], name);
      assert r[1..] == Delete(q[1..], name);
    } else {
      SetParamOther(q[1..], name, value, other);
      var r := [q[0]] + SetParam(q[1..], name, value);
      assert r[1..] == SetParam(q[1..], name, value);
    }
    GetFollowsGetAll(SetParam(q, name, value), q, other);
  }

  /** `url.href`: the base, then `?` and the `name=value` pairs joined by `&`
      when the query is not empty. */
  function Href(u: Url): string {
    if u.query == [] then u.base
    else u.base + "?" + Text.Join(seq(|u.query|, i requires 0 <= i < |u.query| => u.query[i].0 + "=" + u.query[i].1), '&')
  }
}
