/** Buffers that hold a key: copied for whoever asks, and wiped in place when what they served is over. */
module KeyBuffers {
  type Byte = bv8

  ghost predicate Wiped(a: array<Byte>)
    reads a
  {
    forall i :: 0 <= i < a.Length ==> a[i] == 0
  }

  method Wipe(a: array<Byte>)
    modifies a
    ensures Wiped(a)
  {
    var i := 0;
    while i < a.Length
      invariant 0 <= i <= a.Length && forall j :: 0 <= j < i ==> a[j] == 0
    {
      a[i] := 0;
      i := i + 1;
    }
  }

  method CopyOf(a: array<Byte>) returns (out: array<Byte>)
    ensures fresh(out) && out[..] == a[..]
  {
    out := new Byte[a.Length];
    var i := 0;
    while i < a.Length
      invariant 0 <= i <= a.Length && out[..i] == a[..i]
    {
      out[i] := a[i];
      i := i + 1;
    }
  }
}
