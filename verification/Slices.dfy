/** Go slices that start at the beginning of their backing array: appending to one, and taking an element
    off in place, as `append(s[:i], s[i+1:]...)` does it. */
module Slices {

  /** The first `len` elements of the array; the rest of the array is spare capacity. */
  datatype Slice<T> = Slice(arr: array<T>, len: nat)

  /** The elements of the slice are `xs`. */
  ghost predicate Holds<T>(s: Slice<T>, xs: seq<T>)
    reads s.arr
  {
    |xs| == s.len <= s.arr.Length && forall i :: 0 <= i < s.len ==> s.arr[i] == xs[i]
  }

  /** Appends within the spare capacity if there is any, and otherwise to a copy in a larger array. */
  method Append<T>(s: Slice<T>, x: T) returns (r: Slice<T>)
    requires s.len <= s.arr.Length
    modifies s.arr
    ensures Holds(r, old(s.arr[..s.len]) + [x])
    ensures if s.len < s.arr.Length then r.arr == s.arr else fresh(r.arr) && s.arr[..] == old(s.arr[..])
    ensures s.len < s.arr.Length ==> s.arr[s.len + 1..] == old(s.arr[s.len + 1..])
  {
    if s.len < s.arr.Length {
      s.arr[s.len] := x;
      return Slice(s.arr, s.len + 1);
    }
    var arr := new T[2 * s.len + 1](_ => x);
    for i := 0 to s.len
      invariant arr[..i] == s.arr[..i] && arr[s.len] == x
      invariant s.arr[..] == old(s.arr[..])
    {
      arr[i] := s.arr[i];
    }
    r := Slice(arr, s.len + 1);
  }

  /** `rest` is `xs` without the first occurrence of `x`, if there is one. */
  ghost predicate CutOut<T>(xs: seq<T>, x: T, rest: seq<T>) {
    if x in xs then
      exists i :: 0 <= i < |xs| && xs[i] == x && x !in xs[..i] && rest == xs[..i] + xs[i + 1..]
    else rest == xs
  }

  /** Moves the elements behind position `i` one place forward within the backing array. */
  method ShiftDown<T>(s: Slice<T>, i: nat)
    requires i < s.len <= s.arr.Length
    modifies s.arr
    ensures s.arr[..s.len - 1] == old(s.arr[..i] + s.arr[i + 1..s.len])
    ensures s.arr[s.len - 1..] == old(s.arr[s.len - 1..])
  {
    for j := i to s.len - 1
      invariant s.arr[..i] == old(s.arr[..i])
      invariant forall k :: i <= k < j ==> s.arr[k] == old(s.arr[k + 1])
      invariant forall k :: j <= k < s.arr.Length ==> s.arr[k] == old(s.arr[k])
    {
      s.arr[j] := s.arr[j + 1];
    }
  }

  /** The removal loop: the slice loses the first occurrence of `x`, the others keep their order, and the
      array beyond the new slice is as it was, so its last old element is still there. */
  method TakeOff<T(==)>(s: Slice<T>, x: T) returns (r: Slice<T>)
    requires s.len <= s.arr.Length
    modifies s.arr
    ensures r.arr == s.arr && r.len <= s.len
    ensures CutOut(old(s.arr[..s.len]), x, r.arr[..r.len])
    ensures s.arr[r.len..] == old(s.arr[r.len..])
  {
    ghost var before := s.arr[..s.len];
    for i := 0 to s.len
      invariant s.arr[..] == old(s.arr[..]) && x !in before[..i]
    {
      if s.arr[i] == x {
        assert before[i] == x;
        ShiftDown(s, i);
        assert s.arr[..s.len - 1] == before[..i] + before[i + 1..];
        return Slice(s.arr, s.len - 1);
      }
    }
    assert before[..s.len] == before;
    return s;
  }
}
