/** `URLSearchParams` as the pages use it: an ordered list of name/value
    pairs where a name may repeat. */
module SearchParams {
  import opened Strings

  type Pairs = seq<(string, string)>

  /** All values of `key`, in order. */
  function ValuesOf(ps: Pairs, key: string): seq<string> {
    if |ps| == 0 then []
    else (if ps[0].0 == key then [ps[0].1] else []) + ValuesOf(ps[1..], key)
  }

  /** `get(key)`: the first value of `key`, or null. */
  function GetParam(ps: Pairs, key: string): (r: Option<string>)
    ensures r.None? <==> ValuesOf(ps, key) == []
    ensures r.Some? ==> r.value == ValuesOf(ps, key)[0]
  {
    if |ps| == 0 then None
    else if ps[0].0 == key then Some(ps[0].1)
    else GetParam(ps[1..], key)
  }

  /** `delete(key)`: every pair named `key` removed, the others kept in order. */
  function Delete(ps: Pairs, key: string): Pairs {
    if |ps| == 0 then []
    else if ps[0].0 == key then Delete(ps[1..], key)
    else [ps[0]] + Delete(ps[1..], key)
  }

  /** `set(key, value)`: the first pair named `key` takes the value and the
      later ones are removed; without such a pair, one is appended. */
  function Set(ps: Pairs, key: string, value: string): Pairs {
    if |ps| == 0 then [(key, value)]
    else if ps[0].0 == key then [(key, value)] + Delete(ps[1..], key)
    else [ps[0]] + Set(ps[1..], key, value)
  }

  /** After `delete(key)` the key has no value and every other key keeps its values. */
  lemma {:induction false} DeleteValues(ps: Pairs, key: string, other: string)
    ensures ValuesOf(Delete(ps, key), key) == []
    ensures other != key ==> ValuesOf(Delete(ps, key), other) == ValuesOf(ps, other)
  {
    if |ps| > 0 {
      DeleteValues(ps[1..], key, other);
      if ps[0].0 != key {
        assert ([ps[0]] + Delete(ps[1..], key))[1..] == Delete(ps[1..], key);
      }
    }
  }

  /** After `set(key, value)` the key has exactly that one value and every
      other key keeps its values. */
  lemma {:induction false} SetValues(ps: Pairs, key: string, value: string, other: string)
    ensures ValuesOf(Set(ps, key, value), key) == [value]
    ensures other != key ==> ValuesOf(Set(ps, key, value), other) == ValuesOf(ps, other)
  {
    if |ps| == 0 {
      assert ValuesOf([(key, value)], key) == [value] + ValuesOf([], key);
      assert ValuesOf([(key, value)], other) == (if other == key then [value] else []) + ValuesOf([], other);
    } else if ps[0].0 == key {
      DeleteValues(ps[1..], key, other);
      var r := [(key, value)] + Delete(ps[1..], key);
      assert r[1..] == Delete(ps[1..], key);
    } else {
      SetValues(ps[1..], key, value, other);
      var r := [ps[0]] + Set(ps[1..], key, value);
      assert r[1..] == Set(ps[1..], key, value);
    }
  }
}
