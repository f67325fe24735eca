/** Trimming and upper-casing of ASCII text, as rule lines, tags and target names use them. */
module Text {
  predicate Blank(c: char) { c == ' ' || '\t' <= c <= '\r' }

  function TrimStart(s: string): string {
    if s != [] && Blank(s[0]) then TrimStart(s[1..]) else s
  }

  function TrimEnd(s: string): string {
    if s != [] && Blank(s[|s| - 1]) then TrimEnd(s[..|s| - 1]) else s
  }

  function Trim(s: string): string { TrimEnd(TrimStart(s)) }

  function Upper(s: string): string {
    seq(|s|, i requires 0 <= i < |s| => if 'a' <= s[i] <= 'z' then s[i] - 'a' + 'A' else s[i])
  }

  // ------------------------------------------------- what they leave

  /** Space, tab, line feed, vertical tab, form feed or carriage return. */
  predicate IsBlank(c: char) { c as int == 32 || 9 <= c as int <= 13 }

  predicate AllBlank(s: string) { forall i :: 0 <= i < |s| ==> IsBlank(s[i]) }

  predicate Bare(s: string) { s != [] ==> !IsBlank(s[0]) && !IsBlank(s[|s| - 1]) }

  lemma {:induction false} TrimStartLaw(s: string) returns (k: nat)
    ensures k <= |s| && TrimStart(s) == s[k..] && AllBlank(s[..k]) && (k < |s| ==> !IsBlank(s[k]))
  {
    k := 0;
    if s != [] && Blank(s[0]) {
      var j := TrimStartLaw(s[1..]);
      k := j + 1;
      assert s[..k] == [s[0]] + s[1..][..j] && s[k..] == s[1..][j..];
    }
  }

  lemma {:induction false} TrimEndLaw(s: string) returns (k: nat)
    ensures k <= |s| && TrimEnd(s) == s[..k] && AllBlank(s[k..]) && (k > 0 ==> !IsBlank(s[k - 1]))
  {
    k := |s|;
    if s != [] && Blank(s[|s| - 1]) {
      var j := TrimEndLaw(s[..|s| - 1]);
      k := j;
      assert s[k..] == s[..|s| - 1][j..] + [s[|s| - 1]] && s[..k] == s[..|s| - 1][..j];
    }
  }

  /** Trimming takes off blanks at both ends, and all of them. */
  lemma TrimLaw(s: string) returns (front: string, back: string)
    ensures s == front + Trim(s) + back && AllBlank(front) && AllBlank(back) && Bare(Trim(s))
  {
    var i := TrimStartLaw(s);
    var j := TrimEndLaw(s[i..]);
    front, back := s[..i], s[i..][j..];
    assert s == s[..i] + (s[i..][..j] + s[i..][j..]);
  }

  /** Equal but for the case of ASCII letters. */
  predicate EqFold(s: string, t: string) {
    |s| == |t| && forall i :: 0 <= i < |s| ==> Fold(s[i]) == Fold(t[i])
  }

  /** ASCII letters as small ones. */
  function Fold(c: char): char { if 'A' <= c <= 'Z' then (c as int + 32) as char else c }

  lemma UpperLaw(s: string, t: string)
    ensures Upper(s) == Upper(t) <==> EqFold(s, t)
  {
    if EqFold(s, t) {
      forall i | 0 <= i < |s| ensures Upper(s)[i] == Upper(t)[i] {
      }
    }
    if Upper(s) == Upper(t) {
      forall i | 0 <= i < |s| ensures Fold(s[i]) == Fold(t[i]) {
        assert Upper(s)[i] == Upper(t)[i];
      }
    }
  }

  /** For a text without small letters. */
  lemma UpperIs(word: string, s: string)
    requires forall i :: 0 <= i < |word| ==> !('a' <= word[i] <= 'z')
    ensures Upper(s) == word <==> EqFold(s, word)
  {
    assert Upper(word) == word;
    UpperLaw(s, word);
  }
}
