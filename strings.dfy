/** The Python string operations the client builds its URLs and messages with. */
module Strings {

  /** `sep.join(parts)`. */
  function Join(sep: string, parts: seq<string>): string
  {
    if parts == [] then ""
    else if |parts| == 1 then parts[0]
    else parts[0] + sep + Join(sep, parts[1..])
  }

  lemma JoinFour(sep: string, a: string, b: string, d: string, e: string)
    ensures Join(sep, [a, b, d, e]) == a + sep + b + sep + d + sep + e
  {
    assert [a, b, d, e][1..] == [b, d, e];
    assert [b, d, e][1..] == [d, e];
    assert [d, e][1..] == [e];
    assert Join(sep, [e]) == e;
    assert Join(sep, [d, e]) == d + sep + e;
    assert Join(sep, [b, d, e]) == b + sep + (d + sep + e);
  }

  /** `s.rfind(c)`: the index of the last occurrence of `c`, or -1. */
  function RFind(s: string, c: char): (r: int)
    ensures -1 <= r < |s|
    ensures r >= 0 ==> s[r] == c
    ensures forall j :: r < j < |s| ==> s[j] != c
  {
    if s == [] then -1
    else if s[|s| - 1] == c then |s| - 1
    else RFind(s[..|s| - 1], c)
  }

  /** `'{}={}'.format(k, v)` for each pair, in order. */
  function PairTexts(pairs: seq<(string, string)>): (r: seq<string>)
    ensures |r| == |pairs|
  {
    if pairs == [] then [] else [pairs[0].0 + "=" + pairs[0].1] + PairTexts(pairs[1..])
  }

  /** A URL query: `'&'.join('{}={}'.format(*kv) for kv in pairs)`, nothing escaped. */
  function QueryString(pairs: seq<(string, string)>): string
  {
    Join("&", PairTexts(pairs))
  }

  /** The pairs (key, v) for each v of vals, in order. */
  function Repeated(key: string, vals: seq<string>): (r: seq<(string, string)>)
    ensures |r| == |vals|
    ensures forall i :: 0 <= i < |vals| ==> r[i] == (key, vals[i])
  {
    if vals == [] then [] else [(key, vals[0])] + Repeated(key, vals[1..])
  }

  /** Writing `key=` and then joining the values with `&key=` gives the query that repeats
      the pair (key, v) once per value, in order. */
  lemma {:induction false} RepeatedQuery(key: string, vals: seq<string>)
    requires vals != []
    ensures key + "=" + Join("&" + key + "=", vals) == QueryString(Repeated(key, vals))
  {
    if |vals| > 1 {
      RepeatedQuery(key, vals[1..]);
      var rest := PairTexts(Repeated(key, vals[1..]));
      assert PairTexts(Repeated(key, vals)) == [key + "=" + vals[0]] + rest;
      assert ([key + "=" + vals[0]] + rest)[1..] == rest;
    }
  }
}
