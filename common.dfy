/** Shared vocabulary of the model: Go's `error` values, optional values,
    32-bit integer conversions and string joining. */
module Common {

  /** A Go `error`, identified by its message. */
  datatype Error = Error(msg: string)

  datatype Option<+T> = None | Some(value: T)

  /** A value or the error that replaced it (Go's `(T, error)` where the
      value is meaningless once the error is set). */
  datatype Result<+T> = Ok(value: T) | Fail(err: Error)

  const MaxInt32: int := 0x7FFF_FFFF
  const MinInt32: int := -0x8000_0000
  const TwoTo32: int := 0x1_0000_0000

  type int32 = x: int | MinInt32 <= x <= MaxInt32

  /** Go's conversion `int32(x)` from a wider integer: keeps the low 32 bits,
      read as two's complement. */
  function ToInt32(x: int): (r: int32)
    ensures MinInt32 <= x <= MaxInt32 ==> r == x
    ensures (r - x) % TwoTo32 == 0
  {
    var m := x % TwoTo32;
    if m <= MaxInt32 then m else m - TwoTo32
  }

  /** Go's `a + b` on two `int32` values, wrapping around on overflow. */
  function AddInt32(a: int32, b: int32): (r: int32)
    ensures MinInt32 <= a + b <= MaxInt32 ==> r == a + b
    ensures a + b > MaxInt32 ==> r == a + b - TwoTo32
    ensures a + b < MinInt32 ==> r == a + b + TwoTo32
  {
    ToInt32(a + b)
  }

  /** Go's `strings.Join(parts, sep)`, on text or on bytes. */
  function Join<T>(parts: seq<seq<T>>, sep: seq<T>): (r: seq<T>)
    ensures parts == [] ==> r == []
    ensures |parts| == 1 ==> r == parts[0]
    decreases |parts|
  {
    if parts == [] then []
    else if |parts| == 1 then parts[0]
    else Join(parts[..|parts| - 1], sep) + sep + parts[|parts| - 1]
  }

  /** Go's `strings.Split(s, sep)` for a one-element separator: the
      pieces between separators, an empty piece where two separators meet or
      at an end. */
  function Split<T(==)>(s: seq<T>, sep: T): (parts: seq<seq<T>>)
    ensures parts != []
    ensures forall i | 0 <= i < |parts| :: sep !in parts[i]
  {
    if s == [] then [[]]
    else
      var init := Split(s[..|s| - 1], sep);
      var c := s[|s| - 1];
      if c == sep then init + [[]]
      else
        var lastPiece := init[|init| - 1] + [c];
        assert sep !in lastPiece;
        init[..|init| - 1] + [lastPiece]
  }

  /** Text without the separator is a single piece. */
  lemma {:induction false} SplitWithoutSep<T>(p: seq<T>, sep: T)
    requires sep !in p
    ensures Split(p, sep) == [p]
    decreases |p|
  {
    if p != [] {
      var q := p[..|p| - 1];
      assert sep !in q by {
        forall k | 0 <= k < |q| ensures q[k] != sep {
          assert q[k] == p[k];
        }
      }
      SplitWithoutSep(q, sep);
      assert q + [p[|p| - 1]] == p;
    }
  }

  /** A separator followed by separator-free text adds that text as one
      more piece. */
  lemma {:induction false} SplitAfterSep<T>(front: seq<T>, sep: T, p: seq<T>)
    requires sep !in p
    ensures Split(front + [sep] + p, sep) == Split(front, sep) + [p]
    decreases |p|
  {
    var s := front + [sep] + p;
    if p == [] {
      assert s == front + [sep];
      assert s[..|s| - 1] == front;
    } else {
      var q := p[..|p| - 1];
      assert sep !in q by {
        forall k | 0 <= k < |q| ensures q[k] != sep {
          assert q[k] == p[k];
        }
      }
      assert s[..|s| - 1] == front + [sep] + q;
      assert s[|s| - 1] == p[|p| - 1];
      SplitAfterSep(front, sep, q);
      assert q + [p[|p| - 1]] == p;
    }
  }

  /** Splitting what Join produced at the same one-character separator
      gives back the parts, when no part contains the separator. */
  lemma {:induction false} SplitJoin<T>(parts: seq<seq<T>>, sep: T)
    requires parts != []
    requires forall i | 0 <= i < |parts| :: sep !in parts[i]
    ensures Split(Join(parts, [sep]), sep) == parts
    decreases |parts|
  {
    if |parts| == 1 {
      SplitWithoutSep(parts[0], sep);
    } else {
      var init := parts[..|parts| - 1];
      SplitJoin(init, sep);
      SplitAfterSep(Join(init, [sep]), sep, parts[|parts| - 1]);
      assert init + [parts[|parts| - 1]] == parts;
    }
  }

  /** A member of a non-empty set, so that a later `:|` over the set has a
      witness in scope. The case split makes the solver compare `s` with
      the empty set, which `s != {}` alone does not prompt. */
  lemma Pick<T>(s: set<T>) returns (x: T)
    requires s != {}
    ensures x in s
  {
    if forall y :: y !in s {
      ghost var empty := s == {};
    }
    x :| x in s;
  }
}
