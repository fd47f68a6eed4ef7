/** Option and Result values shared by every module of the model. */
module Wrappers {

  /** A value that may be absent: TypeScript's `T | null` and `T | undefined`. */
  datatype Option<+T> = None | Some(value: T) {
    function GetOr(default: T): T {
      match this
      case Some(v) => v
      case None => default
    }
  }

  /** The outcome of an operation that may throw: `Ok(value)` or `Err(thrown)`. */
  datatype Result<+R, +E> = Ok(value: R) | Err(error: E)

  /** The values of the present entries, in order. */
  function Values<T>(opts: seq<Option<T>>): seq<T> {
    if opts == [] then []
    else Values(opts[..|opts| - 1]) + (match opts[|opts| - 1] case None => [] case Some(v) => [v])
  }

  /** A value is kept exactly when some entry holds it. */
  lemma {:induction false} ValuesMembers<T>(opts: seq<Option<T>>, x: T)
    ensures x in Values(opts) <==> exists i | 0 <= i < |opts| :: opts[i] == Some(x)
  {
    if opts != [] {
      var n := |opts| - 1;
      var init := opts[..n];
      var last: seq<T> := match opts[n] case None => [] case Some(v) => [v];
      assert Values(opts) == Values(init) + last;
      ValuesMembers(init, x);
      if x in Values(opts) {
        if x in Values(init) {
          var i :| 0 <= i < |init| && init[i] == Some(x);
          assert opts[i] == Some(x);
        } else {
          assert opts[n] == Some(x);
        }
      }
      if exists i | 0 <= i < |opts| :: opts[i] == Some(x) {
        var i :| 0 <= i < |opts| && opts[i] == Some(x);
        if i < n {
          assert init[i] == Some(x);
        } else {
          assert x in last;
        }
      }
    }
  }

  /** One more entry adds its value, if present, at the end. */
  lemma ValuesSnoc<T>(opts: seq<Option<T>>, o: Option<T>)
    ensures Values(opts + [o]) == Values(opts) + (match o case None => [] case Some(v) => [v])
  {
    assert (opts + [o])[..|opts|] == opts;
  }

  /** No entry present, no value. */
  lemma {:induction false} ValuesNone<T>(opts: seq<Option<T>>)
    requires forall j | 0 <= j < |opts| :: opts[j].None?
    ensures Values(opts) == []
  {
    if opts != [] {
      ValuesNone(opts[..|opts| - 1]);
    }
  }

  /** A single entry present, a single value. */
  lemma {:induction false} ValuesSingle<T>(opts: seq<Option<T>>, k: nat, x: T)
    requires k < |opts| && opts[k] == Some(x)
    requires forall j | 0 <= j < |opts| && j != k :: opts[j].None?
    ensures Values(opts) == [x]
  {
    var n := |opts| - 1;
    var init := opts[..n];
    if k == n {
      ValuesNone(init);
    } else {
      ValuesSingle(init, k, x);
    }
  }
}
