/** JavaScript value semantics the recipe composables and the guest middleware
    rely on: nullable numbers, truthiness, and `String.prototype.trim`. */
module JsValues {

  /** A value that may be absent: `null`/`undefined` in JavaScript. */
  datatype Option<+T> = None | Some(value: T)

  /** JavaScript truthiness of a `number | null`: `null` and `0` are falsy.
      (NaN is not a value of this model.) */
  predicate TruthyNumber(x: Option<int>)
  {
    x.Some? && x.value != 0
  }

  /** JavaScript truthiness of a string: only the empty string is falsy,
      so `"0"` and `" "` are truthy. */
  predicate TruthyString(s: string)
  {
    s != ""
  }

  /** The characters `trim` removes: ECMAScript WhiteSpace and LineTerminator
      (TAB, LF, VT, FF, CR, SPACE, NBSP, ZWNBSP and the Unicode space
      separators, LS and PS). */
  predicate IsWhiteSpace(c: char)
  {
    || c == '\t' || c == '\n' || c == '\U{000B}' || c == '\U{000C}' || c == '\r'
    || c == ' ' || c == '\U{00A0}' || c == '\U{1680}'
    || ('\U{2000}' <= c <= '\U{200A}')
    || c == '\U{2028}' || c == '\U{2029}' || c == '\U{202F}' || c == '\U{205F}'
    || c == '\U{3000}' || c == '\U{FEFF}'
  }

  predicate AllWhiteSpace(s: string)
  {
    forall i :: 0 <= i < |s| ==> IsWhiteSpace(s[i])
  }

  /** `s` without its leading white space. */
  function TrimStart(s: string): string
    decreases |s|
  {
    if s != [] && IsWhiteSpace(s[0]) then TrimStart(s[1..]) else s
  }

  /** `s` without its trailing white space. */
  function TrimEnd(s: string): string
    decreases |s|
  {
    if s != [] && IsWhiteSpace(s[|s| - 1]) then TrimEnd(s[..|s| - 1]) else s
  }

  /** `String.prototype.trim`: `s` without leading and trailing white space. */
  function Trim(s: string): string
  {
    TrimEnd(TrimStart(s))
  }

  /** TrimStart drops a white-space prefix and keeps the rest, which does
      not start with white space. */
  lemma {:induction false} TrimStartDropsWhiteSpacePrefix(s: string)
    ensures var r := TrimStart(s);
            && |r| <= |s| && r == s[|s| - |r|..]
            && AllWhiteSpace(s[..|s| - |r|])
            && (r == [] || !IsWhiteSpace(r[0]))
    decreases |s|
  {
    if s != [] && IsWhiteSpace(s[0]) {
      TrimStartDropsWhiteSpacePrefix(s[1..]);
      var r := TrimStart(s[1..]);
      assert s[..|s| - |r|] == [s[0]] + s[1..][..|s| - 1 - |r|];
    }
  }

  /** TrimEnd drops a white-space suffix and keeps the rest, which does not
      end with white space. */
  lemma {:induction false} TrimEndDropsWhiteSpaceSuffix(s: string)
    ensures var r := TrimEnd(s);
            && |r| <= |s| && r == s[..|r|]
            && AllWhiteSpace(s[|r|..])
            && (r == [] || !IsWhiteSpace(r[|r| - 1]))
    decreases |s|
  {
    if s != [] && IsWhiteSpace(s[|s| - 1]) {
      TrimEndDropsWhiteSpaceSuffix(s[..|s| - 1]);
      var r := TrimEnd(s[..|s| - 1]);
      assert s[|r|..] == s[..|s| - 1][|r|..] + [s[|s| - 1]];
    }
  }

  /** Trim keeps a contiguous slice of its input, bordered by white space on
      both sides, and the slice neither starts nor ends with white space. */
  lemma TrimIsInnerSlice(s: string)
    ensures exists a, b :: 0 <= a <= b <= |s| && Trim(s) == s[a..b]
                          && AllWhiteSpace(s[..a]) && AllWhiteSpace(s[b..])
    ensures Trim(s) == [] || (!IsWhiteSpace(Trim(s)[0]) && !IsWhiteSpace(Trim(s)[|Trim(s)| - 1]))
  {
    TrimStartDropsWhiteSpacePrefix(s);
    TrimEndDropsWhiteSpaceSuffix(TrimStart(s));
    var t := TrimStart(s);
    var a := |s| - |t|;
    var b := a + |Trim(s)|;
    assert t == s[a..];
    assert Trim(s) == s[a..b];
    assert s[b..] == t[|Trim(s)|..];
  }

  /** A string trims to the empty (falsy) string exactly when all of it is
      white space. */
  lemma {:induction false} TrimEmptyIffBlank(s: string)
    ensures Trim(s) == [] <==> AllWhiteSpace(s)
  {
    TrimStartDropsWhiteSpacePrefix(s);
    TrimEndDropsWhiteSpaceSuffix(TrimStart(s));
    var t := TrimStart(s);
    var a := |s| - |t|;
    assert forall j :: 0 <= j < |t| ==> t[j] == s[a + j];
    assert forall j :: 0 <= j < a ==> s[..a][j] == s[j];
    if Trim(s) == [] {
      assert t[|Trim(s)|..] == t;
    }
  }
}
