/** Text primitives the core borrows from the .NET runtime. */
module Text {

  /** A syntactic JSON recognizer. The model fixes only two facts that
      `System.Text.Json` guarantees: the empty object `{}` parses and the
      empty text does not. Every property proved about the core holds for
      every recognizer of this type. */
  type JsonRecognizer = f: string -> bool | f("{}") && !f("") witness (s: string) => s == "{}"

  /** The recognizer behind `JsonDocument.Parse`; deliberately unspecified. */
  const IsJson: JsonRecognizer

  predicate IsLowerAscii(c: char) {
    'a' <= c <= 'z'
  }

  function UpperChar(c: char): char {
    if IsLowerAscii(c) then (c as int - 32) as char else c
  }

  /** `string.ToUpper()`, restricted to ASCII letters. */
  function ToUpper(s: string): (r: string)
    ensures |r| == |s|
    ensures forall i :: 0 <= i < |s| && !IsLowerAscii(s[i]) ==> r[i] == s[i]
    ensures forall i :: 0 <= i < |s| && IsLowerAscii(s[i]) ==> r[i] as int == s[i] as int - 32
    ensures forall i :: 0 <= i < |r| ==> !IsLowerAscii(r[i])
    decreases |s|
  {
    if |s| == 0 then [] else [UpperChar(s[0])] + ToUpper(s[1..])
  }

  /** Upper-casing twice is upper-casing once. */
  lemma ToUpperIdempotent(s: string)
    ensures ToUpper(ToUpper(s)) == ToUpper(s)
  {
  }
}
