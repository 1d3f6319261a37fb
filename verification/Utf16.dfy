/** JavaScript strings are sequences of UTF-16 code units: their length and their order are those
    of the code units, not of the characters. */
module Utf16 {
  function CodeUnits(c: char): seq<int> {
    var v := c as int;
    if v < 0x10000 then [v] else [0xD800 + (v - 0x10000) / 0x400, 0xDC00 + (v - 0x10000) % 0x400]
  }

  function Encode(s: string): seq<int> {
    if s == "" then [] else CodeUnits(s[0]) + Encode(s[1..])
  }

  /** The characters that code units stand for; pairs of surrogates are put together again. */
  function Decode(units: seq<int>): seq<int>
    decreases |units|
  {
    if units == [] then []
    else if 0xD800 <= units[0] < 0xDC00 && |units| > 1
    then [0x10000 + (units[0] - 0xD800) * 0x400 + (units[1] - 0xDC00)] + Decode(units[2..])
    else [units[0]] + Decode(units[1..])
  }

  function Scalars(s: string): seq<int> {
    if s == "" then [] else [s[0] as int] + Scalars(s[1..])
  }

  lemma DecodeFirst(c: char, rest: seq<int>)
    ensures Decode(CodeUnits(c) + rest) == [c as int] + Decode(rest)
  {
    var units := CodeUnits(c) + rest;
    if c as int < 0x10000 {
      assert units[1..] == rest;
    } else {
      assert units[2..] == rest;
    }
  }

  /** Encoding loses nothing. */
  lemma {:induction false} DecodeEncode(s: string)
    ensures Decode(Encode(s)) == Scalars(s)
  {
    if s != "" {
      DecodeFirst(s[0], Encode(s[1..]));
      DecodeEncode(s[1..]);
    }
  }
}
