/**
 * Values shared by the client modules: optional values, the JavaScript
 * `x || fallback` rule on strings, JSON fields that may hold an array, the
 * forms' error-clearing rule, and the `reduce((sum, x) => sum + x, 0)` sum.
 */
module Common {

  datatype Option<+T> = None | Some(value: T)

  /**
   * A JSON field that the client expects to hold an array. `Absent` covers
   * every falsy value (undefined, null, 0, ''), so `field || []` is `[]`;
   * `NotArray` is any truthy value that is not an array.
   */
  datatype Listed<+T> = Absent | NotArray | Items(items: seq<T>)

  /** `s || fallback` for a string that may be undefined: empty counts as missing. */
  function OrElse(s: Option<string>, fallback: string): (r: string)
    ensures s.Some? && s.value != "" ==> r == s.value
    ensures r != fallback ==> s == Some(r) && r != ""
  {
    match s
    case Some(v) => if v != "" then v else fallback
    case None => fallback
  }

  /** `value ?? fallback`: only a missing value is replaced. */
  function Default(x: Option<real>, fallback: real): (r: real)
    ensures x.Some? ==> r == x.value
    ensures x.None? ==> r == fallback
  {
    if x.Some? then x.value else fallback
  }

  /** `n?.toString() || ''`, with `show` standing for `Number.prototype.toString`. */
  function NumberText(n: Option<real>, show: real -> string): (t: string)
    ensures n.None? ==> t == ""
    ensures n.Some? ==> t == show(n.value)
  {
    if n.Some? then OrElse(Some(show(n.value)), "") else ""
  }

  /**
   * `if (errors[field]) setErrors(prev => ({...prev, [field]: ''}))`: an entry
   * that holds a message is replaced by the empty one; nothing else changes.
   */
  function ClearError<K, M(==)>(errors: map<K, M>, key: K, cleared: M): (r: map<K, M>)
    ensures r.Keys == errors.Keys
    ensures forall k :: k in errors && k != key ==> r[k] == errors[k]
    ensures key in r ==> r[key] == cleared
  {
    if key in errors && errors[key] != cleared then errors[key := cleared] else errors
  }

  /** The reference sum, element by element from the front. */
  function Sum(xs: seq<real>): real
  {
    if xs == [] then 0.0 else xs[0] + Sum(xs[1..])
  }

  /** `xs.reduce((sum, x) => sum + x, acc)`: a left fold from `acc`. */
  function SumFrom(acc: real, xs: seq<real>): real
    decreases |xs|
  {
    if xs == [] then acc else SumFrom(acc + xs[0], xs[1..])
  }

  /** The left fold that the client runs computes the reference sum. */
  lemma {:induction false} SumFromIsSum(acc: real, xs: seq<real>)
    ensures SumFrom(acc, xs) == acc + Sum(xs)
    decreases |xs|
  {
    if xs != [] {
      SumFromIsSum(acc + xs[0], xs[1..]);
    }
  }

  lemma {:induction false} SumAppend(xs: seq<real>, ys: seq<real>)
    ensures Sum(xs + ys) == Sum(xs) + Sum(ys)
  {
    if xs == [] {
      assert xs + ys == ys;
    } else {
      assert (xs + ys)[1..] == xs[1..] + ys;
      SumAppend(xs[1..], ys);
    }
  }
}
