/**
 The session hash: ten characters drawn from rand's `Alphanumeric`
 distribution. Randomness is an input: each draw is the top six bits of one
 random 32-bit word, and draws of 62 or more are rejected and redrawn.
 */
module SessionHash {
  import opened Text

  const Length: nat := 10
  const CharsetSize: nat := 62

  /** Six random bits. */
  type Draw = x: nat | x < 64

  /** The character rand's charset `A-Z a-z 0-9` holds at position `k`. */
  function CharsetAt(k: nat): (c: char)
    requires k < CharsetSize
    ensures IsAsciiAlphanumeric(c)
  {
    if k < 26 then ('A' as int + k) as char
    else if k < 52 then ('a' as int + (k - 26)) as char
    else ('0' as int + (k - 52)) as char
  }

  /** Every ASCII letter and digit, and nothing else, can be drawn. */
  lemma CharsetIsAlphanumeric(c: char)
    ensures IsAsciiAlphanumeric(c) <==> exists k :: 0 <= k < CharsetSize && CharsetAt(k) == c
  {
    if 'A' <= c <= 'Z' {
      assert CharsetAt(c as int - 'A' as int) == c;
    } else if 'a' <= c <= 'z' {
      assert CharsetAt(c as int - 'a' as int + 26) == c;
    } else if '0' <= c <= '9' {
      assert CharsetAt(c as int - '0' as int + 52) == c;
    }
  }

  /** The characters the draws yield, rejected draws skipped. */
  function Sampled(draws: seq<Draw>): (r: string)
    ensures |r| <= |draws|
    ensures forall i :: 0 <= i < |r| ==> IsAsciiAlphanumeric(r[i])
  {
    if |draws| == 0 then []
    else if draws[0] < CharsetSize then [CharsetAt(draws[0])] + Sampled(draws[1..])
    else Sampled(draws[1..])
  }

  /** The first ten sampled characters. */
  function Generate(draws: seq<Draw>): (hash: string)
    requires |Sampled(draws)| >= Length
    ensures |hash| == Length
    ensures forall i :: 0 <= i < |hash| ==> IsAsciiAlphanumeric(hash[i])
  {
    Sampled(draws)[..Length]
  }
}
