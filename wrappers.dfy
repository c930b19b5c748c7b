/** Error-carrying results: the model's stand-in for the panics (`expect`, `panic!`,
    `unwrap`) and `Result` values of the puzzle solutions. */
module Wrappers {

  datatype Option<+T> = None | Some(value: T)

  /** `Err` carries the message the source would panic with. */
  datatype Result<+T> = Ok(value: T) | Err(message: string)

  /** `f` applied to every element in order, the first error ending the whole, as
      `collect::<Result<Vec<_>, _>>()` does with an iterator of results. */
  function MapAll<T, U>(xs: seq<T>, f: T -> Result<U>): (r: Result<seq<U>>)
    ensures r.Ok? <==> forall k :: 0 <= k < |xs| ==> f(xs[k]).Ok?
    ensures r.Ok? ==> |r.value| == |xs| && forall k :: 0 <= k < |xs| ==> f(xs[k]) == Ok(r.value[k])
    ensures r.Err? ==> exists k :: 0 <= k < |xs| && f(xs[k]) == Err(r.message)
                                   && forall j :: 0 <= j < k ==> f(xs[j]).Ok?
  {
    if xs == [] then Ok([])
    else
      match f(xs[0])
      case Err(e) => Err(e)
      case Ok(first) =>
        match MapAll(xs[1..], f)
        case Err(e) =>
          ghost var k :| 0 <= k < |xs[1..]| && f(xs[1..][k]) == Err(e) && forall j :: 0 <= j < k ==> f(xs[1..][j]).Ok?;
          assert forall j :: 0 <= j < k + 1 ==> f(xs[j]).Ok? by {
            forall j | 0 <= j < k + 1 ensures f(xs[j]).Ok? {
              if j > 0 {
                assert xs[j] == xs[1..][j - 1];
              }
            }
          }
          assert xs[k + 1] == xs[1..][k];
          Err(e)
        case Ok(rest) =>
          assert forall k | 1 <= k < |xs| :: xs[k] == xs[1..][k - 1];
          Ok([first] + rest)
  }

  /** Elements each mapped to `Ok` of the matching value make exactly that sequence. */
  lemma MapAllOfResults<T, U>(xs: seq<T>, f: T -> Result<U>, ys: seq<U>)
    requires |ys| == |xs| && forall k :: 0 <= k < |xs| ==> f(xs[k]) == Ok(ys[k])
    ensures MapAll(xs, f) == Ok(ys)
  {
    var r := MapAll(xs, f);
    assert r.value == ys;
  }
}
