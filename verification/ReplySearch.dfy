// Looking for strings in a reply that arrives in segments.
module ReplySearch {
  const NUL: char := '\0'

  predicate NulFree(s: string) { NUL !in s }

  predicate At(s: string, i: nat, needle: string) { i + |needle| <= |s| && s[i..i + |needle|] == needle }

  predicate Occurs(s: string, needle: string) { exists i :: 0 <= i <= |s| && At(s, i, needle) }

  // What a C string function sees of a buffer: the bytes before the first NUL.
  function CString(buffer: string): (s: string)
    ensures NulFree(s)
  {
    if buffer == [] || buffer[0] == NUL then [] else [buffer[0]] + CString(buffer[1..])
  }

  lemma {:induction false} CStringOf(s: string, buffer: string)
    requires NulFree(s) && s <= buffer && (|s| < |buffer| ==> buffer[|s|] == NUL)
    ensures CString(buffer) == s
  {
    if s != [] {
      assert s[0] in s && s == [s[0]] + s[1..];
      CStringOf(s[1..], buffer[1..]);
    }
  }

  // The last n characters.
  function Tail(s: string, n: nat): string
    requires n <= |s|
  {
    s[|s| - n..]
  }

  // A string that has not occurred yet occurs once a segment is added exactly when it occurs in the
  // segment with as many characters before it as the string is long, or more, carried over.
  lemma CarryIsEnough(seen: string, segment: string, needle: string, n: nat)
    requires n <= |seen| && |needle| <= n && !Occurs(seen, needle)
    ensures Occurs(seen + segment, needle) <==> Occurs(Tail(seen, n) + segment, needle)
  {
    var d, whole, part := |seen| - n, seen + segment, Tail(seen, n) + segment;
    assert part == whole[d..];
    if Occurs(whole, needle) {
      var i :| 0 <= i <= |whole| && At(whole, i, needle);
      if i + |needle| <= |seen| {
        assert whole[i..i + |needle|] == seen[i..i + |needle|];
        assert At(seen, i, needle);
      } else {
        assert part[i - d..i - d + |needle|] == whole[i..i + |needle|];
        assert At(part, i - d, needle);
      }
    }
    PartOccurs(whole, d, needle);
  }

  // What occurs in the end of a string occurs in the string.
  lemma PartOccurs(whole: string, d: nat, needle: string)
    requires d <= |whole|
    ensures Occurs(whole[d..], needle) ==> Occurs(whole, needle)
  {
    if Occurs(whole[d..], needle) {
      var i :| 0 <= i <= |whole| - d && At(whole[d..], i, needle);
      assert whole[d + i..d + i + |needle|] == whole[d..][i..i + |needle|];
      assert At(whole, d + i, needle);
    }
  }

  lemma GrowsOccurs(seen: string, segment: string, needle: string)
    ensures Occurs(seen, needle) ==> Occurs(seen + segment, needle)
    ensures Occurs(segment, needle) ==> Occurs(seen + segment, needle)
  {
    if Occurs(seen, needle) {
      var i :| 0 <= i <= |seen| && At(seen, i, needle);
      assert (seen + segment)[i..i + |needle|] == seen[i..i + |needle|];
      assert At(seen + segment, i, needle);
    }
    assert (seen + segment)[|seen|..] == segment;
    PartOccurs(seen + segment, |seen|, needle);
  }
}
