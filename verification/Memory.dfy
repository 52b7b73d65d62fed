// Copying between fixed-size buffers.
module Memory {
  // A buffer after x has been written over it from an offset on.
  function Overlaid<T>(target: seq<T>, at: nat, x: seq<T>): seq<T>
    requires at + |x| <= |target|
  {
    target[..at] + x + target[at + |x|..]
  }

  method Memcpy<T>(target: array<T>, at: nat, source: array<T>, from: nat, count: nat)
    requires at + count <= target.Length && from + count <= source.Length && target != source
    modifies target
    ensures target[..] == Overlaid(old(target[..]), at, source[from..from + count])
  {
    var i := 0;
    while i < count
      invariant i <= count
      invariant target[..] == old(target[..at]) + source[from..from + i] + old(target[at + i..])
    {
      target[at + i] := source[from + i];
      i := i + 1;
    }
  }
}
