/**
 * String helpers with the meaning JavaScript gives them: `trim`, `startsWith`,
 * `indexOf` of one character, ASCII case mapping and the "s" plural suffix used
 * by the count labels.
 */
module Text {
  import opened Wrappers

  /**
   * The characters `String.prototype.trim` removes: the ECMAScript WhiteSpace
   * and LineTerminator code points.
   */
  predicate IsSpace(c: char) {
    || '\U{0009}' <= c <= '\U{000D}'
    || c == '\U{0020}' || c == '\U{00A0}' || c == '\U{1680}'
    || '\U{2000}' <= c <= '\U{200A}'
    || c == '\U{2028}' || c == '\U{2029}' || c == '\U{202F}' || c == '\U{205F}' || c == '\U{3000}'
    || c == '\U{FEFF}'
  }

  /** `s` with its leading white space removed. */
  function TrimStart(s: string): (r: string)
    ensures |r| <= |s| && r == s[|s| - |r|..]
    ensures r == [] || !IsSpace(r[0])
    ensures forall i :: 0 <= i < |s| - |r| ==> IsSpace(s[i])
  {
    if s != [] && IsSpace(s[0]) then TrimStart(s[1..]) else s
  }

  /** `s` with its trailing white space removed. */
  function TrimEnd(s: string): (r: string)
    ensures |r| <= |s| && r == s[..|r|]
    ensures r == [] || !IsSpace(r[|r| - 1])
    ensures forall i :: |r| <= i < |s| ==> IsSpace(s[i])
  {
    if s != [] && IsSpace(s[|s| - 1]) then TrimEnd(s[..|s| - 1]) else s
  }

  /** JavaScript's `s.trim()`. */
  function Trim(s: string): string {
    TrimEnd(TrimStart(s))
  }

  /** Taking the first `n` of a suffix is slicing the whole. */
  lemma SliceOfSuffix(s: string, lo: nat, n: nat)
    requires lo + n <= |s|
    ensures s[lo..][..n] == s[lo..lo + n]
  {
  }

  /** A trimmed string is a contiguous piece of the input with no white space at either end. */
  lemma {:induction false} TrimShape(s: string)
    ensures var lo := |s| - |TrimStart(s)|;
      lo + |Trim(s)| <= |s| && Trim(s) == s[lo..lo + |Trim(s)|]
    ensures Trim(s) == [] || (!IsSpace(Trim(s)[0]) && !IsSpace(Trim(s)[|Trim(s)| - 1]))
  {
    TrimIsSlice(s);
    TrimEnds(s);
  }

  lemma {:induction false} TrimIsSlice(s: string)
    ensures var lo := |s| - |TrimStart(s)|;
      lo + |Trim(s)| <= |s| && Trim(s) == s[lo..lo + |Trim(s)|]
  {
    var a := TrimStart(s);
    var t := TrimEnd(a);
    SliceOfSuffix(s, |s| - |a|, |t|);
  }

  lemma {:induction false} TrimEnds(s: string)
    ensures Trim(s) == [] || (!IsSpace(Trim(s)[0]) && !IsSpace(Trim(s)[|Trim(s)| - 1]))
  {
    var a := TrimStart(s);
    var t := TrimEnd(a);
    if t != [] {
      assert t[0] == a[0];
    }
  }

  /** A string trims to "" exactly when it consists of white space only. */
  lemma {:induction false} TrimEmptyIff(s: string)
    ensures Trim(s) == [] <==> forall i :: 0 <= i < |s| ==> IsSpace(s[i])
  {
    var a := TrimStart(s);
    var lo := |s| - |a|;
    if Trim(s) == [] {
      assert a == [];
    } else {
      TrimShape(s);
      assert s[lo] == Trim(s)[0];
    }
  }

  /** A string without white space at either end is its own trim. */
  lemma TrimNoOp(s: string)
    requires s == [] || (!IsSpace(s[0]) && !IsSpace(s[|s| - 1]))
    ensures Trim(s) == s
  {
  }

  /** Trimming twice is trimming once. */
  lemma {:induction false} TrimIdempotent(s: string)
    ensures Trim(Trim(s)) == Trim(s)
  {
    TrimShape(s);
    TrimNoOp(Trim(s));
  }

  /** JavaScript's `s.startsWith(prefix)`. */
  predicate StartsWith(s: string, prefix: string) {
    |prefix| <= |s| && s[..|prefix|] == prefix
  }

  /** JavaScript's `s.indexOf(c)` for a one-character needle; `None` stands for -1. */
  function IndexOf(s: string, c: char): (r: Option<nat>)
    ensures r.Some? ==> r.value < |s| && s[r.value] == c && c !in s[..r.value]
    ensures r.None? <==> c !in s
  {
    if s == [] then None
    else if s[0] == c then Some(0)
    else match IndexOf(s[1..], c)
      case None => None
      case Some(i) => Some(i + 1)
  }

  /** Lower-case mapping of the ASCII letters; every other character is kept. */
  function LowerAscii(c: char): char {
    if 'A' <= c <= 'Z' then (c as int + 32) as char else c
  }

  /** Upper-case mapping of the ASCII letters; every other character is kept. */
  function UpperAscii(c: char): char {
    if 'a' <= c <= 'z' then (c as int - 32) as char else c
  }

  function LowerAsciiString(s: string): (r: string)
    ensures |r| == |s|
    ensures forall i :: 0 <= i < |s| ==> r[i] == LowerAscii(s[i])
  {
    seq(|s|, i requires 0 <= i < |s| => LowerAscii(s[i]))
  }

  /** The plural suffix of the count labels: `s` unless the count is exactly one. */
  function PluralSuffix(n: int): (r: string)
    ensures r == "" <==> n == 1
  {
    if n != 1 then "s" else ""
  }

  /**
   * The check both workspace forms run before submitting: each field trimmed,
   * and `Some` of the trimmed pair only when neither trims to "".
   */
  function TrimmedFields(name: string, clientName: string): (r: Option<(string, string)>)
    ensures r.Some? <==> Trim(name) != "" && Trim(clientName) != ""
    ensures r.Some? ==> r.value == (Trim(name), Trim(clientName))
  {
    if Trim(name) == "" || Trim(clientName) == "" then None
    else Some((Trim(name), Trim(clientName)))
  }

  /** Accepted fields carry no white space at either end and are non-empty. */
  lemma TrimmedFieldsAreTrimmed(name: string, clientName: string)
    requires TrimmedFields(name, clientName).Some?
    ensures var (n, c) := TrimmedFields(name, clientName).value;
      n != "" && c != "" && Trim(n) == n && Trim(c) == c
  {
    TrimIdempotent(name);
    TrimIdempotent(clientName);
  }
}
