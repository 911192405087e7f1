/** String operations as JavaScript defines them, on sequences of UTF-16 code units. */
module Text {

  predicate Blank(c: char) {
    c in " \t\n\r" || c in ['\U{000B}', '\U{000C}', '\U{00A0}', '\U{FEFF}', '\U{2028}', '\U{2029}',
                            '\U{1680}', '\U{202F}', '\U{205F}', '\U{3000}'] || '\U{2000}' <= c <= '\U{200A}'
  }

  /** White space by code point: the control blanks, the spaces, the line separators and the byte-order mark. */
  lemma BlankExactly(c: char)
    ensures Blank(c) <==>
      var k := c as int;
      || 9 <= k <= 13 || k == 32 || k == 160 || k == 5760 || 8192 <= k <= 8202
      || k == 8232 || k == 8233 || k == 8239 || k == 8287 || k == 12288 || k == 65279
  {
  }

  function TrimStart(s: string): string {
    if s != [] && Blank(s[0]) then TrimStart(s[1..]) else s
  }

  function TrimEnd(s: string): string {
    if s != [] && Blank(s[|s| - 1]) then TrimEnd(s[..|s| - 1]) else s
  }

  function Trim(s: string): string {
    TrimEnd(TrimStart(s))
  }

  function Take(s: string, n: nat): string {
    if |s| <= n then s else s[..n]
  }

  lemma {:induction false} TrimStartEdge(s: string)
    ensures TrimStart(s) != [] ==> !Blank(TrimStart(s)[0])
  {
    if s != [] && Blank(s[0]) {
      TrimStartEdge(s[1..]);
    }
  }

  lemma {:induction false} TrimEndKeepsHead(s: string)
    requires s != [] && !Blank(s[0])
    ensures TrimEnd(s) != [] && TrimEnd(s)[0] == s[0]
    decreases |s|
  {
    if Blank(s[|s| - 1]) {
      TrimEndKeepsHead(s[..|s| - 1]);
    }
  }

  lemma {:induction false} TrimStartExactly(s: string) returns (i: nat)
    ensures i <= |s| && TrimStart(s) == s[i..]
    ensures forall k :: 0 <= k < i ==> Blank(s[k])
    ensures i < |s| ==> !Blank(s[i])
  {
    i := 0;
    if s != "" && Blank(s[0]) {
      i := TrimStartExactly(s[1..]);
      i := i + 1;
    }
  }

  lemma {:induction false} TrimEndExactly(s: string) returns (j: nat)
    ensures j <= |s| && TrimEnd(s) == s[..j]
    ensures forall k :: j <= k < |s| ==> Blank(s[k])
    ensures j > 0 ==> !Blank(s[j - 1])
    decreases |s|
  {
    j := |s|;
    if s != "" && Blank(s[|s| - 1]) {
      j := TrimEndExactly(s[..|s| - 1]);
    } else {
      assert s[..|s|] == s;
    }
  }

  /** Trimming cuts off blanks at both ends, and nothing but all of them. */
  lemma TrimExactly(s: string) returns (i: nat, j: nat)
    ensures i <= j <= |s| && Trim(s) == s[i..j]
    ensures forall k :: 0 <= k < i || j <= k < |s| ==> Blank(s[k])
    ensures i < j ==> !Blank(s[i]) && !Blank(s[j - 1])
  {
    i := TrimStartExactly(s);
    var rest := s[i..];
    var n := TrimEndExactly(rest);
    j := i + n;
    assert rest[..n] == s[i..j];
    forall k | j <= k < |s| ensures Blank(s[k]) {
      assert s[k] == rest[k - i];
    }
    assert n > 0 ==> rest[n - 1] == s[j - 1];
  }

  lemma TrimTwice(s: string)
    ensures Trim(Trim(s)) == Trim(s)
  {
    var i, j := TrimExactly(s);
  }

  lemma TrimKeepsText(s: string)
    requires s != "" && !Blank(s[0])
    ensures Trim(s) != ""
  {
    TrimEndKeepsHead(s);
  }

  lemma {:induction false} TrimIsStable(text: string)
    ensures Trim(text) != "" ==> Trim(Trim(text)) != ""
  {
    TrimStartEdge(text);
    if Trim(text) != "" {
      TrimEndKeepsHead(TrimStart(text));
      assert TrimStart(Trim(text)) == Trim(text);
      TrimEndKeepsHead(Trim(text));
    }
  }

  // ------------------------------------------------------------------
  // Searching
  // ------------------------------------------------------------------

  predicate At(s: string, i: nat, pattern: string) {
    i + |pattern| <= |s| && s[i..i + |pattern|] == pattern
  }

  /** First occurrence of a pattern, or -1. */
  function IndexOf(s: string, pattern: string): (i: int)
    ensures i == -1 || (0 <= i && i + |pattern| <= |s|)
  {
    if At(s, 0, pattern) then 0
    else if s == [] then -1
    else
      var i := IndexOf(s[1..], pattern);
      if i == -1 then -1 else i + 1
  }

  lemma AtShift(s: string, j: nat, pattern: string)
    requires s != ""
    ensures At(s, j + 1, pattern) <==> At(s[1..], j, pattern)
  {
  }

  /** The pattern is there, and nowhere before. */
  lemma {:induction false} IndexOfIsFirst(s: string, pattern: string, j: nat)
    requires |pattern| > 0
    ensures IndexOf(s, pattern) != -1 ==> At(s, IndexOf(s, pattern), pattern)
    ensures At(s, j, pattern) ==> 0 <= IndexOf(s, pattern) <= j
  {
    if s != "" {
      var i := IndexOf(s[1..], pattern);
      var k := if j == 0 then 0 else j - 1;
      IndexOfIsFirst(s[1..], pattern, k);
      AtShift(s, k, pattern);
      if i != -1 {
        AtShift(s, i, pattern);
      }
    }
  }

  /** Text that arrives later does not move a first occurrence. */
  lemma {:induction false} IndexOfStable(s: string, more: string, pattern: string)
    requires |pattern| > 0 && IndexOf(s, pattern) != -1
    ensures IndexOf(s + more, pattern) == IndexOf(s, pattern)
  {
    var n := |pattern|;
    assert |s| >= n;
    assert (s + more)[0..n] == s[0..n];
    if !At(s, 0, pattern) {
      IndexOfStable(s[1..], more, pattern);
      assert (s + more)[1..] == s[1..] + more;
    }
  }
}
