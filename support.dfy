// Small shared vocabulary: an optional value (Python's `None`), a list
// comprehension, and Python's open-ended slice `s[start:]`, which both the chat memory and
// the world event log use with a computed, possibly negative, start.
module Support {

  datatype Option<T> = None | Some(value: T)

  /** A list comprehension `[f(x) for x in xs]`: one image per element,
      in order. */
  function MapSeq<T, U>(xs: seq<T>, f: T -> U): (ys: seq<U>)
    ensures |ys| == |xs|
    ensures forall k :: 0 <= k < |xs| ==> ys[k] == f(xs[k])
  {
    if xs == [] then [] else [f(xs[0])] + MapSeq(xs[1..], f)
  }

  /** Python's `s[start:]`: a negative start counts from the end, and a
      start outside the sequence is clamped to its bounds. */
  function TailSlice<T>(s: seq<T>, start: int): (r: seq<T>)
    ensures |r| <= |s| && r == s[|s| - |r|..]
    ensures 0 <= start ==> |r| == (if start < |s| then |s| - start else 0)
    ensures start < 0 ==> |r| == (if -start < |s| then -start else |s|)
  {
    var from :=
      if start < 0 then (if start + |s| < 0 then 0 else start + |s|)
      else if start > |s| then |s|
      else start;
    s[from..]
  }

  /** `s[-k:]` for k >= 1 is the last min(k, |s|) elements, and `s[-0:]`
      is the whole sequence, because -0 is 0. */
  lemma LastElements<T>(s: seq<T>, k: int)
    requires k >= 0
    ensures k == 0 ==> TailSlice(s, -k) == s
    ensures k >= 1 ==> TailSlice(s, -k) == s[if k < |s| then |s| - k else 0..]
  {
  }
}
