/**
 * `URLSearchParams` as the list of name/value pairs it holds, in order:
 * `get` reads the first pair with the name, `has` asks whether there is
 * one, and `set` overwrites the first such pair and drops the others, or
 * appends a pair when there is none (section 6.2 of the URL Standard).
 * Parsing a query string into this list is not part of the model.
 */
module UrlParams {
  import opened Text

  type ParamList = seq<(string, string)>

  /** `params.has(name)`. */
  predicate Has(ps: ParamList, name: string) {
    exists i :: 0 <= i < |ps| && ps[i].0 == name
  }

  /** `params.get(name)`: the first value under `name`, or null. */
  function Get(ps: ParamList, name: string): (r: Option<string>)
    ensures r.Some? <==> Has(ps, name)
  {
    if ps == [] then None
    else if ps[0].0 == name then Some(ps[0].1)
    else
      assert Has(ps, name) ==> Has(ps[1..], name) by {
        if Has(ps, name) {
          var i :| 0 <= i < |ps| && ps[i].0 == name;
          assert ps[1..][i - 1].0 == name;
        }
      }
      Get(ps[1..], name)
  }

  /** `params.get(name) || ''`: the first value, or '' when there is none. */
  function GetOr(ps: ParamList, name: string): string {
    match Get(ps, name)
    case Some(v) => v
    case None => ""
  }

  /** Every pair named `name` removed. */
  function Drop(ps: ParamList, name: string): (r: ParamList)
    ensures !Has(r, name)
    ensures forall n :: n != name ==> Get(r, n) == Get(ps, n)
  {
    if ps == [] then []
    else if ps[0].0 == name then Drop(ps[1..], name)
    else
      var r := [ps[0]] + Drop(ps[1..], name);
      assert r[1..] == Drop(ps[1..], name);
      r
  }

  /** `params.set(name, value)`. */
  function Set(ps: ParamList, name: string, value: string): (r: ParamList)
    ensures Get(r, name) == Some(value)
    ensures forall n :: n != name ==> Get(r, n) == Get(ps, n)
  {
    if ps == [] then [(name, value)]
    else if ps[0].0 == name then
      var r := [(name, value)] + Drop(ps[1..], name);
      assert r[1..] == Drop(ps[1..], name);
      r
    else
      var r := [ps[0]] + Set(ps[1..], name, value);
      assert r[1..] == Set(ps[1..], name, value);
      r
  }

  /** A name that is absent is set by appending one pair. */
  lemma {:induction false} SetAbsentAppends(ps: ParamList, name: string, value: string)
    requires !Has(ps, name)
    ensures Set(ps, name, value) == ps + [(name, value)]
  {
    if ps != [] {
      assert ps[0].0 != name;
      SetAbsentAppends(ps[1..], name, value);
      assert ps == [ps[0]] + ps[1..];
    }
  }
}
