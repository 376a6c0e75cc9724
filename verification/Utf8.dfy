/** Well-formed UTF-8 as in section 4 of RFC 3629, and the longest well-formed prefix
    within a given length. */
module Utf8 {
  newtype byte = b: int | 0 <= b < 0x100

  type Bytes = seq<byte>

  predicate Tail(t: Bytes, i: nat, low: byte, high: byte) {
    i < |t| && low <= t[i] <= high
  }

  predicate Follow(t: Bytes, i: nat) {
    Tail(t, i, 0x80, 0xBF)
  }

  // The number of octets of the character a text starts with, or 0 when it starts with
  // no well-formed character.
  function CharLength(t: Bytes): (n: nat)
    ensures n <= 4 && n <= |t|
  {
    if t == [] then 0
    else
      var b := t[0];
      if b <= 0x7F then 1
      else if 0xC2 <= b <= 0xDF then if Follow(t, 1) then 2 else 0
      else if 0xE0 <= b <= 0xEF then
        var low: byte := if b == 0xE0 then 0xA0 else 0x80;
        var high: byte := if b == 0xED then 0x9F else 0xBF;
        if Tail(t, 1, low, high) && Follow(t, 2) then 3 else 0
      else if 0xF0 <= b <= 0xF4 then
        var low: byte := if b == 0xF0 then 0x90 else 0x80;
        var high: byte := if b == 0xF4 then 0x8F else 0xBF;
        if Tail(t, 1, low, high) && Follow(t, 2) && Follow(t, 3) then 4 else 0
      else 0
  }

  // The length of the longest prefix that is a sequence of well-formed characters.
  function SoundLength(t: Bytes): (n: nat)
    ensures n <= |t|
    decreases |t|
  {
    if CharLength(t) == 0 then 0 else CharLength(t) + SoundLength(t[CharLength(t)..])
  }

  predicate Valid(t: Bytes) {
    SoundLength(t) == |t|
  }

  // The longest valid prefix of length at most n.
  function Cut(t: Bytes, n: nat): (k: nat)
    requires n <= |t|
    ensures k <= n
  {
    if n == 0 || Valid(t[..n]) then n else Cut(t, n - 1)
  }

  // A character in a prefix is one in the whole text.
  lemma PrefixCharacter(t: Bytes, n: nat)
    requires n <= |t|
    ensures CharLength(t[..n]) == if CharLength(t) <= n then CharLength(t) else 0
  {}

  // Cutting a valid prefix off takes just that much off the well-formed part.
  lemma {:induction false} SoundAfterPrefix(t: Bytes, n: nat)
    requires n <= |t| && Valid(t[..n])
    ensures n <= SoundLength(t) && SoundLength(t[n..]) == SoundLength(t) - n
    decreases n
  {
    if n == 0 {
      assert t[0..] == t;
    } else {
      PrefixCharacter(t, n);
      var m := CharLength(t);
      assert t[..n][m..] == t[m..][..n - m];
      SoundAfterPrefix(t[m..], n - m);
      assert t[m..][n - m..] == t[n..];
    }
  }

  lemma {:induction false} CutIsValid(t: Bytes, n: nat)
    requires n <= |t|
    ensures Valid(t[..Cut(t, n)])
  {
    if n != 0 && !Valid(t[..n]) {
      CutIsValid(t, n - 1);
    }
  }

  lemma {:induction false} CutIsLongest(t: Bytes, n: nat, k: nat)
    requires k <= n <= |t| && Valid(t[..k])
    ensures k <= Cut(t, n)
  {
    if k < n {
      CutIsLongest(t, n - 1, k);
    }
  }

  // A cut of four octets or more keeps something just when the text starts with a
  // well-formed character.
  lemma CutProgress(t: Bytes, n: nat)
    requires 4 <= n <= |t|
    ensures Cut(t, n) > 0 <==> SoundLength(t) > 0
  {
    CutIsValid(t, n);
    SoundAfterPrefix(t, Cut(t, n));
    var m := CharLength(t);
    if m > 0 {
      PrefixCharacter(t, m);
      assert t[..m][m..] == [];
      CutIsLongest(t, n, m);
    }
  }

  // Inside the well-formed part a cut gives up three octets at most.
  lemma {:induction false} CutLosesLittle(t: Bytes, n: nat)
    requires n <= SoundLength(t)
    ensures n < Cut(t, n) + 4
    decreases n
  {
    var m := CharLength(t);
    if m <= n && n > 0 {
      CutLosesLittle(t[m..], n - m);
      var k := Cut(t[m..], n - m);
      CutIsValid(t[m..], n - m);
      PrefixCharacter(t, m + k);
      assert t[..m + k][m..] == t[m..][..k];
      CutIsLongest(t, n, m + k);
    }
  }
}
