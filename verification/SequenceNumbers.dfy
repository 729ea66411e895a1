/**
 The sequence numbers of the alarm transport.  On the wire the first DATA frame of
 an activation carries 0xffff and the numbers then run modulo 0x8000; the number
 "before the first" is 0xfffe.  `Unbounded` is the reference numbering 0, 1, 2, ...
 in which no two frames ever share a number.
 */
module SequenceNumbers {

  datatype Numbering = Wire15 | Unbounded

  /** The number an activation starts with. */
  function Start(m: Numbering): int {
    match m
    case Wire15 => 0xffff
    case Unbounded => 0
  }

  /** The number an activation takes as the one before the first. */
  function BeforeStart(m: Numbering): int {
    match m
    case Wire15 => 0xfffe
    case Unbounded => -1
  }

  /** The successor: `(w + 1) & 0x7fff` on the wire. */
  function Next(m: Numbering, w: int): int {
    match m
    case Wire15 => (w + 1) % 0x8000
    case Unbounded => w + 1
  }

  /** The wire number of DATA frame `i` of an activation; `-1` names the one before the first. */
  function WireOf(i: int): int {
    if i == -1 then 0xfffe
    else if i == 0 then 0xffff
    else (i - 1) % 0x8000
  }

  /** The number of DATA frame `i` in either numbering. */
  function Number(m: Numbering, i: int): int {
    match m
    case Wire15 => WireOf(i)
    case Unbounded => i
  }

  /** Counting with `Next` from `Start` enumerates the numbers of frames 0, 1, 2, ... */
  lemma NumberStep(m: Numbering, i: int)
    requires 0 <= i
    ensures Number(m, 0) == Start(m) && Number(m, -1) == BeforeStart(m)
    ensures Next(m, Number(m, i)) == Number(m, i + 1)
  {
    if m == Wire15 && i >= 1 {
      ModStep(i - 1);
    }
  }

  lemma ModStep(k: nat)
    ensures (k % 0x8000 + 1) % 0x8000 == (k + 1) % 0x8000
  {
    var q, r := k / 0x8000, k % 0x8000;
    assert k == q * 0x8000 + r;
    if r + 1 < 0x8000 {
      assert (k + 1) / 0x8000 == q;
    } else {
      assert k + 1 == (q + 1) * 0x8000;
    }
  }

  /** Two frames less than 0x8000 apart never share a wire number, also across a wrap. */
  lemma WireOfInjective(i: int, j: int)
    requires -1 <= i && -1 <= j && -0x8000 < i - j < 0x8000
    ensures WireOf(i) == WireOf(j) <==> i == j
  {
    if 1 <= i && 1 <= j && WireOf(i) == WireOf(j) {
      var a, b := i - 1, j - 1;
      assert a == a / 0x8000 * 0x8000 + a % 0x8000;
      assert b == b / 0x8000 * 0x8000 + b % 0x8000;
      assert i - j == (a / 0x8000 - b / 0x8000) * 0x8000;
    }
  }
}
