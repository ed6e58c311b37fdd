/** `String.prototype.trim` as the application uses it: only to ask whether
    a string has any character that is not white space. */
module JsStrings {

  /** The characters `trim` removes: the WhiteSpace and LineTerminator code
      points of the ECMAScript grammar (section 12.2 and 12.3 of ECMA-262). */
  predicate IsWhiteSpace(c: char) {
    var n := c as int;
    n == 0x09 || n == 0x0A || n == 0x0B || n == 0x0C || n == 0x0D || n == 0x20
    || n == 0xA0 || n == 0x1680 || (0x2000 <= n <= 0x200A)
    || n == 0x2028 || n == 0x2029 || n == 0x202F || n == 0x205F
    || n == 0x3000 || n == 0xFEFF
  }

  /** Every character of `s` is white space (the empty string included). */
  predicate IsBlank(s: string) {
    forall i :: 0 <= i < |s| ==> IsWhiteSpace(s[i])
  }

  /** `s` without its leading white space. */
  function TrimStart(s: string): (r: string)
    ensures |r| <= |s| && r == s[|s| - |r|..]
    ensures r == [] || !IsWhiteSpace(r[0])
    ensures IsBlank(s[..|s| - |r|])
  {
    if s == [] then s
    else if IsWhiteSpace(s[0]) then TrimStart(s[1..])
    else s
  }

  /** `s` without its trailing white space. */
  function TrimEnd(s: string): (r: string)
    ensures |r| <= |s| && r == s[..|r|]
    ensures r == [] || !IsWhiteSpace(r[|r| - 1])
    ensures IsBlank(s[|r|..])
  {
    if s == [] then s
    else if IsWhiteSpace(s[|s| - 1]) then TrimEnd(s[..|s| - 1])
    else s
  }

  /** `s.trim()`. */
  function Trim(s: string): string {
    TrimStart(TrimEnd(s))
  }

  /** `s.trim().length === 0` holds exactly when `s` holds only white space. */
  lemma TrimEmptyIffBlank(s: string)
    ensures |Trim(s)| == 0 <==> IsBlank(s)
  {
    var e := TrimEnd(s);
    if |Trim(s)| == 0 {
      // All of e is leading white space, and e cannot end in white space, so e is empty.
      assert e[..|e| - |Trim(s)|] == e;
      assert e == [];
      assert s[|e|..] == s;
    } else {
      var t := Trim(s);
      assert t[0] == s[|e| - |t|];
    }
  }
}
