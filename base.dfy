/** Option and Result datatypes, and small facts about sequences, shared by the other modules. */
module Base {

  datatype Option<+T> = None | Some(value: T)

  /** The outcome of an operation that may raise: a value, or the exception it raised. */
  datatype Result<+T, +E> = Ok(value: T) | Err(error: E)

  /** Appending to a log in two steps appends the two parts in order. */
  lemma AppendTwice<T>(log: seq<T>, a: seq<T>, b: seq<T>)
    ensures log + a + b == log + (a + b)
  {
  }

  /** A slice that lies within the first part of a concatenation lies in that part. */
  lemma SliceOfFirst<T>(h: seq<T>, x: seq<T>, a: int, b: int)
    requires 0 <= a <= b <= |h|
    ensures (h + x)[a..b] == h[a..b]
  {
  }

  /** The slice of a concatenation past its first part is its second part. */
  lemma SliceOfSecond<T>(h: seq<T>, x: seq<T>)
    ensures (h + x)[|h|..|h| + |x|] == x
  {
  }

  /** Appending two parts that make up ab appends ab. */
  lemma AppendMerged<T>(log: seq<T>, a: seq<T>, b: seq<T>, ab: seq<T>)
    requires a + b == ab
    ensures log + a + b == log + ab
  {
    AppendTwice(log, a, b);
  }

  /** Appending a, then b followed by y, appends a and b together, then y. */
  lemma AppendRegrouped<T>(log: seq<T>, a: seq<T>, b: seq<T>, y: seq<T>)
    ensures log + a + (b + y) == log + (a + b) + y
  {
    AppendTwice(log, a, b + y);
    AppendTwice(a, b, y);
    AppendTwice(log, a + b, y);
  }
}
