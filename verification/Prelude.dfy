module Prelude {

  datatype Option<+T> = None | Some(value: T)

  function Min(a: int, b: int): int {
    if a <= b then a else b
  }

  function Max(a: int, b: int): int {
    if a >= b then a else b
  }

  lemma Around<T>(s: seq<T>, i: nat)
    requires i < |s|
    ensures s == s[..i] + [s[i]] + s[i + 1..]
  {
  }

  lemma Exchanged<T>(s: seq<T>, i: nat, x: T)
    requires i < |s|
    ensures s[i := x] == s[..i] + [x] + s[i + 1..]
  {
  }

  lemma Assoc<T>(a: seq<T>, b: seq<T>, c: seq<T>)
    ensures (a + b) + c == a + (b + c)
  {
  }

  /** f applied n times. */
  function Iterated<T>(f: T -> T, x: T, n: nat): T
    decreases n
  {
    if n == 0 then x else Iterated(f, f(x), n - 1)
  }

  lemma {:induction false} IteratedSnoc<T>(f: T -> T, x: T, n: nat)
    ensures Iterated(f, x, n + 1) == f(Iterated(f, x, n))
    decreases n
  {
    if n > 0 {
      IteratedSnoc(f, f(x), n - 1);
    }
  }

  /** Going on while there is more, at most `left` times, keeps what every round keeps. */
  lemma {:induction false} IteratedKeeps<T(!new)>(f: T -> T, more: T -> bool, keeps: (T, nat) -> bool, x: T, left: nat)
    returns (n: nat)
    requires forall y: T, k: nat | k > 0 && more(y) && keeps(y, k) :: keeps(f(y), k - 1)
    requires keeps(x, left)
    ensures n <= left && keeps(Iterated(f, x, n), left - n)
    ensures (forall k: nat | k < n :: more(Iterated(f, x, k))) && (n < left ==> !more(Iterated(f, x, n)))
    decreases left
  {
    if left == 0 || !more(x) {
      return 0;
    }
    n := IteratedKeeps(f, more, keeps, f(x), left - 1);
    n := n + 1;
    forall k: nat | k < n ensures more(Iterated(f, x, k)) {
      if k > 0 {
        assert Iterated(f, x, k) == Iterated(f, f(x), k - 1);
      }
    }
  }
}
