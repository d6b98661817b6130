/** The few text operations the rest needs: trimming, and case mapping of ASCII letters. */
module Text {
  const SPACES: set<char> := {' ', '\t', '\n', '\r', '\U{0B}', '\U{0C}', '\U{1C}', '\U{1D}', '\U{1E}', '\U{1F}',
                              '\U{85}', '\U{A0}', '\U{1680}', '\U{2028}', '\U{2029}', '\U{202F}', '\U{205F}',
                              '\U{3000}'}

  // The characters that Python counts as white space.
  predicate Space(c: char) {
    c in SPACES || '\U{2000}' <= c <= '\U{200A}'
  }

  function TrimLeft(s: string): string {
    if s != "" && Space(s[0]) then TrimLeft(s[1..]) else s
  }

  function TrimRight(s: string): string {
    if s != "" && Space(s[|s| - 1]) then TrimRight(s[..|s| - 1]) else s
  }

  function Strip(s: string): string {
    TrimRight(TrimLeft(s))
  }

  predicate Trimmed(s: string) {
    s == "" || (!Space(s[0]) && !Space(s[|s| - 1]))
  }

  lemma {:induction false} TrimLeftPart(s: string)
    ensures TrimLeft(s) == "" || !Space(TrimLeft(s)[0])
    ensures forall c :: c in TrimLeft(s) ==> c in s
  {
    if s == "" {
    } else if Space(s[0]) {
      TrimLeftPart(s[1..]);
    }
  }

  lemma {:induction false} TrimRightPart(s: string)
    ensures TrimRight(s) == "" || !Space(TrimRight(s)[|TrimRight(s)| - 1])
    ensures TrimRight(s) <= s
  {
    if s == "" {
    } else if Space(s[|s| - 1]) {
      TrimRightPart(s[..|s| - 1]);
    }
  }

  // Stripping leaves trimmed text, made of the same characters, and leaves trimmed text alone.
  lemma StripTrims(s: string)
    ensures Trimmed(Strip(s))
    ensures forall c :: c in Strip(s) ==> c in s
    ensures Trimmed(s) ==> Strip(s) == s
  {
    TrimLeftPart(s);
    TrimRightPart(TrimLeft(s));
  }

  predicate Blank(s: string) {
    forall c :: c in s ==> Space(c)
  }

  lemma {:induction false} TrimLeftPadded(l: string, t: string)
    requires Blank(l) && (t == "" || !Space(t[0]))
    ensures TrimLeft(l + t) == t
  {
    if l == "" {
      assert l + t == t;
    } else {
      assert (l + t)[0] == l[0] && (l + t)[1..] == l[1..] + t;
      TrimLeftPadded(l[1..], t);
    }
  }

  lemma {:induction false} TrimRightPadded(t: string, r: string)
    requires Blank(r) && (t == "" || !Space(t[|t| - 1]))
    ensures TrimRight(t + r) == t
  {
    if r == "" {
      assert t + r == t;
    } else {
      assert (t + r)[..|t + r| - 1] == t + r[..|r| - 1] && (t + r)[|t + r| - 1] == r[|r| - 1];
      TrimRightPadded(t, r[..|r| - 1]);
    }
  }

  // Stripping takes off exactly the white space around a text.
  lemma StripPadded(l: string, t: string, r: string)
    requires Blank(l) && Blank(r) && Trimmed(t)
    ensures Strip(l + t + r) == t
  {
    if t == "" {
      TrimLeftPadded(l + r, "");
      assert l + t + r == l + r + "";
    } else {
      assert l + t + r == l + (t + r);
      TrimLeftPadded(l, t + r);
      TrimRightPadded(t, r);
    }
  }

  // Every text is one with white space around it.
  lemma {:induction false} Padding(s: string) returns (l: string, t: string, r: string)
    ensures s == l + t + r && Blank(l) && Blank(r) && Trimmed(t) && t == Strip(s)
    decreases |s|
  {
    if s == "" || Trimmed(s) {
      l, t, r := "", s, "";
    } else if Space(s[0]) {
      l, t, r := Padding(s[1..]);
      l := [s[0]] + l;
      assert s == [s[0]] + s[1..];
    } else {
      l, t, r := Padding(s[..|s| - 1]);
      r := r + [s[|s| - 1]];
      assert s == s[..|s| - 1] + [s[|s| - 1]];
    }
    StripPadded(l, t, r);
  }

  function Upper(c: char): char {
    if 'a' <= c <= 'z' then (c as int - 32) as char else c
  }

  function Lower(c: char): char {
    if 'A' <= c <= 'Z' then (c as int + 32) as char else c
  }

  function UpperAll(s: string): string {
    seq(|s|, i requires 0 <= i < |s| => Upper(s[i]))
  }

  function LowerAll(s: string): string {
    seq(|s|, i requires 0 <= i < |s| => Lower(s[i]))
  }

  // Letter for letter; everything else stays.
  lemma CaseMaps(s: string, i: nat)
    requires i < |s|
    ensures |UpperAll(s)| == |s| && |LowerAll(s)| == |s|
    ensures 'a' <= s[i] <= 'z' ==> 'A' <= UpperAll(s)[i] <= 'Z' && LowerAll(s)[i] == s[i]
                                   && UpperAll(s)[i] as int - 'A' as int == s[i] as int - 'a' as int
    ensures 'A' <= s[i] <= 'Z' ==> 'a' <= LowerAll(s)[i] <= 'z' && UpperAll(s)[i] == s[i]
                                   && LowerAll(s)[i] as int - 'a' as int == s[i] as int - 'A' as int
    ensures !('a' <= s[i] <= 'z') && !('A' <= s[i] <= 'Z') ==> UpperAll(s)[i] == s[i] == LowerAll(s)[i]
  {
  }
}
