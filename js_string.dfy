/** The one string operation the typewriters use: `s.substring(0, n)` and
    `s.slice(0, n)`, which agree for n >= 0 and clamp n to the length of s.
    Strings are sequences of Dafny characters (Unicode scalar values). */
module JsString {

  /** The first n characters of the text, or the whole text when it is shorter. */
  function Slice(text: string, n: nat): (r: string)
    ensures r <= text
    ensures |r| == if n <= |text| then n else |text|
  {
    if n <= |text| then text[..n] else text
  }
}
