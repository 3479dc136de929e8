/** C strings in fixed buffers, as strcpy and printf see them, and what the echo server
    therefore sends back. */
module CStrings {
  import opened Kernels

  /** Position of the first NUL, or the length when there is none. */
  function CLength(s: seq<byte>): (n: nat)
    ensures n <= |s|
    ensures forall i :: 0 <= i < n ==> s[i] != 0
    ensures n < |s| ==> s[n] == 0
  {
    if s == [] || s[0] == 0 then 0 else 1 + CLength(s[1..])
  }

  /** A buffer after strcpy: the source up to and including its NUL, then what was there. */
  function Copied(dst: seq<byte>, src: seq<byte>): seq<byte>
    requires 0 in src && |src| <= |dst|
  {
    src[..CLength(src) + 1] + dst[CLength(src) + 1..]
  }

  lemma CLengthUnique(s: seq<byte>, n: nat)
    requires n < |s| && s[n] == 0 && forall i :: 0 <= i < n ==> s[i] != 0
    ensures CLength(s) == n
  {
  }

  /** Every byte of the buffer after strcpy: the source's up to and including its first NUL,
      and behind it the ones that were there. */
  lemma CopiedBytes(dst: seq<byte>, src: seq<byte>)
    requires 0 in src && |src| <= |dst|
    ensures |Copied(dst, src)| == |dst|
    ensures forall i :: 0 <= i <= CLength(src) < |src| ==> Copied(dst, src)[i] == src[i]
    ensures forall i :: CLength(src) < i < |dst| ==> Copied(dst, src)[i] == dst[i]
  {
    assert CLength(src) < |src|;
  }

  method StrCpy(dst: array<byte>, src: array<byte>)
    requires dst != src && 0 in src[..] && src.Length <= dst.Length
    modifies dst
    ensures dst[..] == Copied(old(dst[..]), src[..])
    ensures forall i :: 0 <= i <= CLength(src[..]) < src.Length ==> dst[i] == src[i]
    ensures forall i :: CLength(src[..]) < i < dst.Length ==> dst[i] == old(dst[i])
  {
    ghost var n := CLength(src[..]);
    var i := 0;
    while src[i] != 0
      invariant 0 <= i <= n < src.Length
      invariant dst[..i] == src[..i] && dst[i..] == old(dst[i..])
      decreases n - i
    {
      dst[i] := src[i];
      i := i + 1;
    }
    dst[i] := 0;
    assert dst[..i + 1] == src[..i + 1];
    assert dst[i + 1..] == old(dst[..])[i + 1..];
  }

  function Zeros(n: nat): seq<byte> {
    seq(n, _ => 0)
  }

  /** The receive buffer after a drain that delivered `input`: the bytes, then zeros. */
  function Filled(input: seq<byte>, size: nat): seq<byte>
    requires |input| <= size
  {
    input + Zeros(size - |input|)
  }

  /** What sendCallback hands to write when `input` was received and the send buffer held
      `before`. */
  function Echo(input: seq<byte>, before: seq<byte>): seq<byte>
    requires |input| <= |before| && 0 in Filled(input, |before|)
  {
    Copied(before, Filled(input, |before|))[..|input|]
  }

  /** The part of a message that the echo always gets right: up to and including the first
      NUL, and all of it when there is none. */
  function Certain(input: seq<byte>): seq<byte> {
    input[..if CLength(input) < |input| then CLength(input) + 1 else |input|]
  }

  /** printf and strcpy stop inside the receive buffer unless the message filled it and has
      no NUL. */
  lemma TerminatedIff(input: seq<byte>, size: nat)
    requires |input| <= size
    ensures 0 in Filled(input, size) <==> |input| < size || 0 in input
  {
    if |input| < size {
      assert Filled(input, size)[|input|] == 0;
    } else {
      assert Filled(input, size) == input;
    }
  }

  lemma FilledLength(input: seq<byte>, size: nat)
    requires |input| <= size && 0 in Filled(input, size)
    ensures CLength(Filled(input, size)) == CLength(input)
  {
    TerminatedIff(input, size);
    var filled := Filled(input, size);
    var n := CLength(input);
    if n < |input| {
      assert filled[n] == 0;
    } else if |input| < size {
      assert filled[n] == 0;
    }
    CLengthUnique(filled, n);
  }

  /** Every echo has the length of the message and the certain part of it in front. */
  lemma EchoKeepsCertain(input: seq<byte>, before: seq<byte>)
    requires |input| <= |before| && 0 in Filled(input, |before|)
    ensures |Echo(input, before)| == |input|
    ensures Certain(input) <= Echo(input, before)
  {
  }

  /** Behind the first NUL every echo has what the send buffer held. */
  lemma EchoTail(input: seq<byte>, before: seq<byte>)
    requires |input| <= |before| && 0 in Filled(input, |before|)
    ensures forall i :: CLength(input) < i < |input| ==> Echo(input, before)[i] == before[i]
  {
    FilledLength(input, |before|);
    CopiedBytes(before, Filled(input, |before|));
  }

  /** A message with no NUL comes back byte for byte. */
  lemma NulFreeEcho(input: seq<byte>, before: seq<byte>)
    requires |input| < |before| && 0 !in input
    ensures 0 in Filled(input, |before|) && Echo(input, before) == input
  {
    TerminatedIff(input, |before|);
    EchoKeepsCertain(input, before);
  }

  /** Exactly when the echo is the message whatever the send buffer held before: no NUL
      anywhere before the last byte. */
  lemma ExactEchoIff(input: seq<byte>, size: nat)
    requires |input| <= size && 0 in Filled(input, size)
    ensures (forall before :: |before| == size ==> Echo(input, before) == input)
            <==> (forall i :: 0 <= i < |input| - 1 ==> input[i] != 0)
  {
    var n := CLength(input);
    if forall i :: 0 <= i < |input| - 1 ==> input[i] != 0 {
      assert Certain(input) == input;
      forall before | |before| == size
        ensures Echo(input, before) == input
      {
        EchoKeepsCertain(input, before);
      }
    } else {
      var before := seq(size, i requires 0 <= i < size => if i < |input| && input[i] == 0 then 1 else 0);
      FilledLength(input, size);
      assert n + 1 < |input|;
      assert Echo(input, before)[n + 1] == before[n + 1];
      assert Echo(input, before) != input;
    }
  }

  /** A message the echo can get wrong: the byte after its NUL is not copied. */
  lemma EchoLosesTail(before: seq<byte>)
    requires |before| >= 2
    ensures 0 in Filled([0, 7], |before|)
    ensures Echo([0, 7], before) == [0, before[1]]
  {
    var input: seq<byte> := [0, 7];
    TerminatedIff(input, |before|);
    FilledLength(input, |before|);
    assert CLength(input) == 0;
  }
}
