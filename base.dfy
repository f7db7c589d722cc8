/** Values shared by every screen: optional values (a JavaScript `null` or
    `undefined`) and the JavaScript truthiness of an optional string. */
module Base {

  datatype Option<+T> = None | Some(value: T)

  /** A point on the map, in degrees. */
  datatype Location = Location(latitude: real, longitude: real)

  /** `if (s)` on a `string | null | undefined`: the falsy values of such
      a variable are `null`, `undefined` and `''`. */
  function Truthy(o: Option<string>): (r: bool)
    ensures r <==> o !in {None, Some("")}
  {
    o.Some? && o.value != ""
  }

  /** The value of `o1 || o2 || ... || ''` over optional strings: the first
      truthy operand, or the empty string when none is. */
  function FirstTruthy(opts: seq<Option<string>>): (r: string)
    ensures r == "" <==> forall i :: 0 <= i < |opts| ==> !Truthy(opts[i])
    ensures r != "" ==> exists i :: 0 <= i < |opts| && opts[i] == Some(r)
                                    && forall j :: 0 <= j < i ==> !Truthy(opts[j])
  {
    if opts == [] then ""
    else if Truthy(opts[0]) then opts[0].value
    else FirstTruthy(opts[1..])
  }

  /** `x || y || z || ''` unfolds to the expected cascade. */
  lemma FirstTruthyOfThree(x: Option<string>, y: Option<string>, z: Option<string>)
    ensures FirstTruthy([x, y, z]) ==
            if Truthy(x) then x.value else if Truthy(y) then y.value
            else if Truthy(z) then z.value else ""
  {
    assert [x, y, z][1..] == [y, z];
    assert [y, z][1..] == [z];
    assert [z][1..] == [];
    assert FirstTruthy([z]) == if Truthy(z) then z.value else FirstTruthy([]);
    assert FirstTruthy([y, z]) == if Truthy(y) then y.value else FirstTruthy([z]);
  }

  /** `s.filter(keep)`: the elements that pass, in their order. */
  function Filter<T>(s: seq<T>, keep: T -> bool): (r: seq<T>)
    ensures |r| <= |s|
    ensures forall i :: 0 <= i < |r| ==> keep(r[i])
  {
    if s == [] then []
    else (if keep(s[0]) then [s[0]] else []) + Filter(s[1..], keep)
  }

  /** A filter keeps every occurrence of a passing element and no
      occurrence of any other. */
  lemma {:induction false} FilterCounts<T>(s: seq<T>, keep: T -> bool, x: T)
    ensures multiset(Filter(s, keep))[x] == if keep(x) then multiset(s)[x] else 0
  {
    if s != [] {
      FilterCounts(s[1..], keep, x);
      assert s == [s[0]] + s[1..];
    }
  }

  /** `r` is `s` with some elements left out, the rest in their order. */
  ghost predicate IsSubsequence<T>(r: seq<T>, s: seq<T>)
    decreases |s|
  {
    if r == [] then true
    else if s == [] then false
    else (r[0] == s[0] && IsSubsequence(r[1..], s[1..])) || IsSubsequence(r, s[1..])
  }

  lemma {:induction false} FilterIsSubsequence<T>(s: seq<T>, keep: T -> bool)
    ensures IsSubsequence(Filter(s, keep), s)
  {
    if s != [] {
      FilterIsSubsequence(s[1..], keep);
      var rest := Filter(s[1..], keep);
      if keep(s[0]) {
        assert Filter(s, keep) == [s[0]] + rest;
        assert ([s[0]] + rest)[1..] == rest;
      } else {
        assert Filter(s, keep) == rest;
      }
    }
  }
}
