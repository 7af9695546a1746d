/** The few pieces of `java.lang` behaviour the glue code depends on. */
module JavaLang {
  import opened Wrappers

  /** `String.startsWith`: the empty prefix matches every string. */
  predicate StartsWith(s: string, prefix: string)
  {
    |prefix| <= |s| && forall i :: 0 <= i < |prefix| ==> s[i] == prefix[i]
  }

  /** A string that starts with `prefix` agrees with it at position `i`. */
  lemma PrefixChar(s: string, prefix: string, i: nat)
    ensures StartsWith(s, prefix) && i < |prefix| ==> i < |s| && s[i] == prefix[i]
  {
  }

  /** How a possibly-null string is rendered by string concatenation or
      `StringBuilder.append`: a null reference becomes the text "null". */
  function Show(s: Option<string>): (r: string)
    ensures s.Some? ==> r == s.value
    ensures s.None? ==> r == "null"
  {
    match s
    case Some(v) => v
    case None => "null"
  }

  /** The two console streams. */
  datatype Console = Stdout | Stderr

  /** One `println` call: the stream and the text printed before the line break. */
  datatype Println = Println(stream: Console, text: string)
}
