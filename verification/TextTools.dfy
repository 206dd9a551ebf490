/** The Python string operations the modelled code relies on. */
module TextTools {

  /** Characters that `str.strip` removes. */
  predicate IsSpace(c: char) {
    || '\t' <= c <= '\r'
    || '\U{1C}' <= c <= ' '
    || c in {'\U{85}', '\U{A0}', '\U{1680}', '\U{2028}', '\U{2029}', '\U{202F}', '\U{205F}', '\U{3000}'}
    || '\U{2000}' <= c <= '\U{200A}'
  }

  /** The 29 characters of white space, one by one. */
  lemma {:induction false} IsSpaceIff(c: char)
    ensures IsSpace(c) <==>
            || c == '\t' || c == '\n' || c == '\U{0B}' || c == '\U{0C}' || c == '\r' || c == ' '
            || c == '\U{1C}' || c == '\U{1D}' || c == '\U{1E}' || c == '\U{1F}'
            || c == '\U{85}' || c == '\U{A0}' || c == '\U{1680}'
            || c == '\U{2000}' || c == '\U{2001}' || c == '\U{2002}' || c == '\U{2003}' || c == '\U{2004}'
            || c == '\U{2005}' || c == '\U{2006}' || c == '\U{2007}' || c == '\U{2008}' || c == '\U{2009}'
            || c == '\U{200A}' || c == '\U{2028}' || c == '\U{2029}' || c == '\U{202F}' || c == '\U{205F}'
            || c == '\U{3000}'
  {
  }

  function TrimLeft(s: string): (r: string)
    ensures |r| <= |s|
    ensures r == "" || !IsSpace(r[0])
  {
    if s != "" && IsSpace(s[0]) then TrimLeft(s[1..]) else s
  }

  function TrimRight(s: string): (r: string)
    ensures r <= s
    ensures r == "" || !IsSpace(r[|r| - 1])
  {
    if s != "" && IsSpace(s[|s| - 1]) then TrimRight(s[..|s| - 1]) else s
  }

  /** Nothing left for `str.strip` to remove. */
  predicate Trimmed(s: string) {
    s == "" || (!IsSpace(s[0]) && !IsSpace(s[|s| - 1]))
  }

  function Strip(s: string): (r: string)
    ensures Trimmed(r)
    ensures |r| <= |s|
    ensures Trimmed(s) <==> r == s
  {
    TrimRight(TrimLeft(s))
  }

  ghost predicate AllSpace(s: string) { forall k :: 0 <= k < |s| ==> IsSpace(s[k]) }

  lemma {:induction false} TrimLeftDropsSpace(s: string)
    ensures AllSpace(s[..|s| - |TrimLeft(s)|]) && s[|s| - |TrimLeft(s)|..] == TrimLeft(s)
  {
    if s != "" && IsSpace(s[0]) {
      TrimLeftDropsSpace(s[1..]);
      var n := |s| - |TrimLeft(s)|;
      assert s[..n] == [s[0]] + s[1..][..n - 1] && s[n..] == s[1..][n - 1..];
    }
  }

  lemma {:induction false} TrimRightDropsSpace(s: string)
    ensures AllSpace(s[|TrimRight(s)|..])
  {
    if s != "" && IsSpace(s[|s| - 1]) {
      TrimRightDropsSpace(s[..|s| - 1]);
      assert s[|TrimRight(s)|..] == s[..|s| - 1][|TrimRight(s)|..] + [s[|s| - 1]];
    }
  }

  /** What is stripped is space, at either end. */
  lemma {:induction false} StripDropsOnlySpace(s: string)
    ensures exists i: nat, j: nat :: i <= j <= |s| && s[i..j] == Strip(s) && AllSpace(s[..i]) && AllSpace(s[j..])
  {
    TrimLeftDropsSpace(s);
    TrimRightDropsSpace(TrimLeft(s));
    var i := |s| - |TrimLeft(s)|;
    var j := i + |Strip(s)|;
    assert s[i..j] == s[i..][..j - i] && s[j..] == s[i..][j - i..];
  }

  lemma {:induction false} StripsToNothingIff(s: string)
    ensures Strip(s) == "" <==> AllSpace(s)
  {
    StripDropsOnlySpace(s);
    var i: nat, j: nat :| i <= j <= |s| && s[i..j] == Strip(s) && AllSpace(s[..i]) && AllSpace(s[j..]);
    if i < j {
      assert s[i..j][0] == s[i];
    } else {
      assert s == s[..i] + s[j..];
    }
  }

  function LowerChar(c: char): char {
    if 'A' <= c <= 'Z' then c - 'A' + 'a' else c
  }

  /** ASCII lower-casing. */
  function Lower(s: string): (r: string)
    ensures |r| == |s|
  {
    seq(|s|, k requires 0 <= k < |s| => LowerChar(s[k]))
  }

  /** Every letter of the alphabet has its lower case; nothing else is touched. */
  lemma {:induction false} LowerMeans(s: string, k: nat, n: nat)
    requires k < |s| && n < 26
    ensures s[k] == "ABCDEFGHIJKLMNOPQRSTUVWXYZ"[n] ==> Lower(s)[k] == "abcdefghijklmnopqrstuvwxyz"[n]
    ensures !('A' <= s[k] <= 'Z') ==> Lower(s)[k] == s[k]
  {
  }

  predicate StartsWith(s: string, prefix: string) { prefix <= s }

  predicate EndsWith(s: string, suffix: string) {
    |suffix| <= |s| && s[|s| - |suffix|..] == suffix
  }

  /** Python's `part in s`. */
  predicate Contains(s: string, part: string) {
    if StartsWith(s, part) then true else s != "" && Contains(s[1..], part)
  }

  ghost predicate StandsAt(s: string, part: string, i: nat) {
    i + |part| <= |s| && s[i..i + |part|] == part
  }

  /** That is: the part stands somewhere in the text. */
  lemma {:induction false} ContainsIff(s: string, part: string)
    ensures Contains(s, part) <==> exists i: nat :: StandsAt(s, part, i)
  {
    if StartsWith(s, part) {
      assert StandsAt(s, part, 0);
    } else if s != "" {
      ContainsIff(s[1..], part);
      if i: nat :| StandsAt(s[1..], part, i) {
        assert s[1..][i..i + |part|] == s[i + 1..i + 1 + |part|];
        assert StandsAt(s, part, i + 1);
      }
      if i: nat :| StandsAt(s, part, i) {
        assert i > 0;
        assert s[1..][i - 1..i - 1 + |part|] == s[i..i + |part|];
        assert StandsAt(s[1..], part, i - 1);
      }
    }
  }

  lemma {:induction false} ContainsWhole(before: string, part: string, after: string)
    ensures Contains(before + part + after, part)
  {
    var s := before + part + after;
    assert s[|before|..|before| + |part|] == part;
    assert StandsAt(s, part, |before|);
    ContainsIff(s, part);
  }

  lemma {:induction false} StandsInside(before: string, s: string, after: string, part: string, i: nat)
    requires StandsAt(s, part, i)
    ensures StandsAt(before + s + after, part, |before| + i)
  {
    var all := before + s + after;
    assert all[|before| + i..|before| + i + |part|] == s[i..i + |part|];
  }

  lemma {:induction false} StandsOnOneSide(before: string, part: string, after: string, i: nat)
    requires '/' !in part && part != "" && StandsAt(before + "/" + after, part, i)
    ensures StandsAt(before, part, i) || (i > |before| && StandsAt(after, part, i - |before| - 1))
  {
    var s := before + "/" + after;
    assert s[|before|] == '/';
    if i + |part| <= |before| {
      assert s[i..i + |part|] == before[i..i + |part|];
    } else {
      var n := i - |before| - 1;
      assert s[i..i + |part|] == after[n..n + |part|];
    }
  }

  /** A part without a slash stands before one or after it. */
  lemma {:induction false} NotAcrossASlash(before: string, part: string, after: string)
    requires '/' !in part && part != ""
    ensures Contains(before + "/" + after, part) <==> Contains(before, part) || Contains(after, part)
  {
    ContainsIff(before + "/" + after, part);
    ContainsIff(before, part);
    ContainsIff(after, part);
    if i: nat :| StandsAt(before, part, i) {
      assert "" + before + ("/" + after) == before + "/" + after;
      StandsInside("", before, "/" + after, part, i);
    }
    if i: nat :| StandsAt(after, part, i) {
      assert before + "/" + after + "" == before + "/" + after;
      StandsInside(before + "/", after, "", part, i);
    }
    if i: nat :| StandsAt(before + "/" + after, part, i) {
      StandsOnOneSide(before, part, after, i);
    }
  }

  lemma {:induction false} TooShort(s: string, part: string)
    requires |s| < |part|
    ensures !Contains(s, part)
  {
    ContainsIff(s, part);
  }

  /** A text that lacks one character of `part` cannot contain `part`. */
  lemma {:induction false} LacksCharacter(s: string, part: string, c: char)
    requires c in part && c !in s
    ensures !Contains(s, part)
  {
    if s != "" { LacksCharacter(s[1..], part, c); }
  }
}
