/** The string helpers the services share, over sequences of runes. */
module Text {

  /** Go's unicode.IsSpace, rune by rune. */
  predicate IsSpace(c: char) {
    '\t' <= c <= '\r' || c == ' ' || c == '\U{0085}' || c == '\U{00A0}' || c == '\U{1680}'
    || '\U{2000}' <= c <= '\U{200A}' || c == '\U{2028}' || c == '\U{2029}' || c == '\U{202F}'
    || c == '\U{205F}' || c == '\U{3000}'
  }

  function TrimLeft(s: string): string {
    if s != [] && IsSpace(s[0]) then TrimLeft(s[1..]) else s
  }

  function TrimRight(s: string): string {
    if s != [] && IsSpace(s[|s| - 1]) then TrimRight(s[..|s| - 1]) else s
  }

  /** strings.TrimSpace. */
  function TrimSpace(s: string): string {
    TrimRight(TrimLeft(s))
  }

  lemma {:induction false} TrimLeftSplits(s: string) returns (n: nat)
    ensures n <= |s| && TrimLeft(s) == s[n..]
    ensures n < |s| ==> !IsSpace(s[n])
    ensures forall i :: 0 <= i < n ==> IsSpace(s[i])
  {
    if s != [] && IsSpace(s[0]) {
      var m := TrimLeftSplits(s[1..]);
      n := m + 1;
      assert s[1..][m..] == s[n..];
      forall i | 0 <= i < n ensures IsSpace(s[i]) {
        if i > 0 {
          assert s[i] == s[1..][i - 1];
        }
      }
    } else {
      n := 0;
    }
  }

  lemma {:induction false} TrimRightSplits(s: string) returns (n: nat)
    ensures n <= |s| && TrimRight(s) == s[..n]
    ensures n > 0 ==> !IsSpace(s[n - 1])
    ensures forall i :: n <= i < |s| ==> IsSpace(s[i])
  {
    if s != [] && IsSpace(s[|s| - 1]) {
      n := TrimRightSplits(s[..|s| - 1]);
    } else {
      n := |s|;
    }
  }

  predicate Trimmed(s: string) {
    s == [] || (!IsSpace(s[0]) && !IsSpace(s[|s| - 1]))
  }

  /** Trimming leaves no blank at either end, and changes nothing when there was none. */
  lemma TrimSpaceTrims(s: string)
    ensures Trimmed(TrimSpace(s))
    ensures Trimmed(s) ==> TrimSpace(s) == s
  {
    var n := TrimLeftSplits(s);
    var l := TrimLeft(s);
    var m := TrimRightSplits(l);
  }

  ghost predicate Blank(s: string) {
    forall i :: 0 <= i < |s| ==> IsSpace(s[i])
  }

  /** Nothing is left exactly of blanks. */
  lemma TrimmedAway(s: string)
    ensures TrimSpace(s) == "" <==> Blank(s)
  {
    var n := TrimLeftSplits(s);
    var m := TrimRightSplits(TrimLeft(s));
    if Blank(s) {
      assert n == |s|;
    }
  }

  /** Trimming finds the text between the blanks. */
  lemma {:induction false} TrimSpaceFinds(before: string, text: string, behind: string)
    requires Blank(before) && Blank(behind) && Trimmed(text)
    ensures TrimSpace(before + text + behind) == text
  {
    var s := before + text + behind;
    var n := TrimLeftSplits(s);
    var m := TrimRightSplits(TrimLeft(s));
    if text != "" {
      assert s[|before|] == text[0] && s[|before| + |text| - 1] == text[|text| - 1];
      assert n == |before|;
      assert m == |text|;
    } else {
      assert n == |s|;
    }
  }

  /** Rune-wise mapping, as strings.ToUpper does with its Unicode table. */
  function MapRunes(up: char -> char, s: string): (t: string)
    ensures |t| == |s| && forall i :: 0 <= i < |s| ==> t[i] == up(s[i])
  {
    seq(|s|, i requires 0 <= i < |s| => up(s[i]))
  }
}
