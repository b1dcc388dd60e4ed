/**
 * Small value types shared by every module of the quiz model: Rust's
 * `Option` and `Result`, and the count of `true` entries in a flag vector.
 */
module Common {

  /** Rust's `Option<T>`. */
  datatype Option<+T> = None | Some(value: T)

  /** Rust's `Result<T, E>`. */
  datatype Result<+T, +E> = Ok(value: T) | Err(error: E)

  /** The number of `true` entries of `s`, as `iter().filter(|&&x| x).count()` computes it. */
  function CountTrue(s: seq<bool>): (n: nat)
    ensures n <= |s|
    ensures n == |s| <==> forall i :: 0 <= i < |s| ==> s[i]
  {
    if s == [] then 0 else (if s[0] then 1 else 0) + CountTrue(s[1..])
  }

  /** No entry of `s` is `true`. */
  ghost predicate NoneChecked(s: seq<bool>)
  {
    forall i :: 0 <= i < |s| ==> !s[i]
  }

  /** At most one entry of `s` is `true`. */
  ghost predicate AtMostOneChecked(s: seq<bool>)
  {
    forall i, j :: 0 <= i < |s| && 0 <= j < |s| && s[i] && s[j] ==> i == j
  }

  /** The count is zero exactly when no entry is checked. */
  lemma {:induction false} CountTrueZero(s: seq<bool>)
    ensures CountTrue(s) == 0 <==> NoneChecked(s)
  {
    if s != [] {
      CountTrueZero(s[1..]);
      assert forall i :: 1 <= i < |s| ==> s[i] == s[1..][i - 1];
    }
  }

  /** The count is at most one exactly when at most one entry is checked. */
  lemma {:induction false} CountTrueAtMostOne(s: seq<bool>)
    ensures CountTrue(s) <= 1 <==> AtMostOneChecked(s)
  {
    if s != [] {
      var t := s[1..];
      assert forall i :: 1 <= i < |s| ==> s[i] == t[i - 1];
      CountTrueAtMostOne(t);
      CountTrueZero(t);
      if s[0] {
        if CountTrue(s) <= 1 {
          assert NoneChecked(t);
        } else {
          assert !NoneChecked(t);
          var k :| 0 <= k < |t| && t[k];
          assert s[0] && s[k + 1];
        }
      } else {
        if AtMostOneChecked(s) {
          forall i, j | 0 <= i < |t| && 0 <= j < |t| && t[i] && t[j]
            ensures i == j
          {
            assert s[i + 1] && s[j + 1];
          }
        }
        if AtMostOneChecked(t) {
          forall i, j | 0 <= i < |s| && 0 <= j < |s| && s[i] && s[j]
            ensures i == j
          {
            assert t[i - 1] && t[j - 1];
          }
        }
      }
    }
  }
}
