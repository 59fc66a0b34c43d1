/** Character classes and the two string operations the order builders rely on:
    `str.upper()` and the substring test `t in s`, both restricted to ASCII letters. */
module Text {

  predicate IsLowerAscii(c: char) { 'a' <= c <= 'z' }

  predicate IsUpperAscii(c: char) { 'A' <= c <= 'Z' }

  predicate IsCased(c: char) { IsLowerAscii(c) || IsUpperAscii(c) }

  function UpperChar(c: char): char
  {
    if IsLowerAscii(c) then (c as int - 32) as char else c
  }

  /** `s.upper()` */
  function Upper(s: string): (u: string)
    ensures |u| == |s|
    ensures forall i | 0 <= i < |s| :: !IsLowerAscii(u[i])
    ensures forall i | 0 <= i < |s| :: IsUpperAscii(s[i]) ==> u[i] == s[i]
    // a lower-case letter becomes its own capital; every other character is kept
    ensures forall i | 0 <= i < |s| :: IsLowerAscii(s[i]) ==> u[i] as int == s[i] as int - 32
    ensures forall i | 0 <= i < |s| :: !IsLowerAscii(s[i]) ==> u[i] == s[i]
  {
    seq(|s|, i requires 0 <= i < |s| => UpperChar(s[i]))
  }

  /** Upper-casing twice changes nothing more. */
  lemma UpperIdempotent(s: string)
    ensures Upper(Upper(s)) == Upper(s)
  {
    var u := Upper(s);
    forall i | 0 <= i < |u| ensures Upper(u)[i] == u[i] {
      assert !IsLowerAscii(u[i]);
    }
  }

  /** `s.isupper()`: at least one cased character and no lower-case one. */
  predicate IsUpperString(s: string)
  {
    (exists i | 0 <= i < |s| :: IsCased(s[i])) && NoLowercase(s)
  }

  predicate NoLowercase(s: string)
  {
    forall i | 0 <= i < |s| :: !IsLowerAscii(s[i])
  }

  /** `t in s` for strings */
  predicate ContainsSub(s: string, t: string)
  {
    exists i | 0 <= i <= |s| :: OccursAt(s, t, i)
  }

  predicate OccursAt(s: string, t: string, i: int)
  {
    0 <= i && i + |t| <= |s| && s[i..i + |t|] == t
  }
}
