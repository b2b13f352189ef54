/** White space as Go's strings package sees it. */
module Text {
  predicate IsSpace(c: char) {
    c in [' ', '\t', '\n', '\r', '\U{000B}', '\U{000C}', '\U{0085}', '\U{00A0}', '\U{1680}', '\U{2028}', '\U{2029}',
      '\U{202F}', '\U{205F}', '\U{3000}']
    || '\U{2000}' <= c <= '\U{200A}'
  }

  function TrimLeft(s: string): string {
    if s != "" && IsSpace(s[0]) then TrimLeft(s[1..]) else s
  }

  function TrimRight(s: string): string {
    if s != "" && IsSpace(s[|s| - 1]) then TrimRight(s[..|s| - 1]) else s
  }

  function Trim(s: string): string {
    TrimRight(TrimLeft(s))
  }

  lemma {:induction false} TrimLeftStarts(s: string)
    ensures TrimLeft(s) != "" ==> !IsSpace(TrimLeft(s)[0])
  {
    if s != "" && IsSpace(s[0]) { TrimLeftStarts(s[1..]); }
  }

  lemma {:induction false} TrimRightShape(s: string)
    ensures TrimRight(s) != "" ==> !IsSpace(TrimRight(s)[|TrimRight(s)| - 1])
    ensures TrimRight(s) <= s
  {
    if s != "" && IsSpace(s[|s| - 1]) { TrimRightShape(s[..|s| - 1]); }
  }

  /** White space is what Unicode calls so. */
  lemma SpaceChars(c: char)
    ensures IsSpace(c) <==>
      || 9 <= c as int <= 13 || c as int in {0x20, 0x85, 0xA0, 0x1680, 0x2028, 0x2029, 0x202F, 0x205F, 0x3000}
      || 0x2000 <= c as int <= 0x200A
  {
  }

  lemma {:induction false} TrimLeftIs(s: string) returns (i: nat)
    ensures i <= |s| && TrimLeft(s) == s[i..] && forall k | 0 <= k < i :: IsSpace(s[k])
  {
    i := 0;
    if s != "" && IsSpace(s[0]) {
      var j := TrimLeftIs(s[1..]);
      i := j + 1;
    }
  }

  lemma {:induction false} TrimRightIs(s: string) returns (j: nat)
    ensures j <= |s| && TrimRight(s) == s[..j] && forall k | j <= k < |s| :: IsSpace(s[k])
  {
    j := |s|;
    if s != "" && IsSpace(s[|s| - 1]) {
      j := TrimRightIs(s[..|s| - 1]);
    } else {
      assert s[..|s|] == s;
    }
  }

  /** Trimming removes the white space at both ends, and only that. */
  lemma TrimIs(s: string) returns (i: nat, j: nat)
    ensures i <= j <= |s| && Trim(s) == s[i..j]
    ensures (forall k | 0 <= k < i || j <= k < |s| :: IsSpace(s[k]))
    ensures Trim(s) != "" ==> !IsSpace(s[i]) && !IsSpace(s[j - 1])
  {
    hide IsSpace;
    i := TrimLeftIs(s);
    TrimLeftStarts(s);
    TrimRightShape(TrimLeft(s));
    var n := TrimRightIs(TrimLeft(s));
    j := i + n;
    assert forall k | j <= k < |s| :: s[k] == TrimLeft(s)[k - i];
  }

  lemma TrimTwice(s: string)
    ensures Trim(Trim(s)) == Trim(s)
  {
    hide IsSpace;
    TrimLeftStarts(s);
    TrimRightShape(TrimLeft(s));
  }

  /** The length of the text in UTF-8. */
  function Utf8Length(s: string): nat {
    if s == "" then 0
    else (if s[0] < '\U{0080}' then 1 else if s[0] < '\U{0800}' then 2 else if s[0] < '\U{10000}' then 3 else 4)
         + Utf8Length(s[1..])
  }

  /** The width of one character in UTF-8. */
  lemma Utf8Width(c: char)
    ensures Utf8Length("") == 0
    ensures Utf8Length([c]) ==
      if c as int < 0x80 then 1 else if c as int < 0x800 then 2 else if c as int < 0x1_0000 then 3 else 4
  {
  }

  predicate Ascii(s: string) {
    forall c | c in s :: c < '\U{0080}'
  }

  lemma {:induction false} AsciiLength(s: string)
    ensures |s| <= Utf8Length(s)
    ensures Ascii(s) ==> Utf8Length(s) == |s|
  {
    if s != "" {
      assert s[0] in s && forall c | c in s[1..] :: c in s;
      AsciiLength(s[1..]);
    }
  }

  lemma {:induction false} Utf8Concat(a: string, b: string)
    ensures Utf8Length(a + b) == Utf8Length(a) + Utf8Length(b)
  {
    if a != "" {
      assert (a + b)[1..] == a[1..] + b;
      Utf8Concat(a[1..], b);
    } else {
      assert a + b == b;
    }
  }

  predicate Word(s: string) {
    s != "" && forall c | c in s :: !IsSpace(c)
  }

  /** The length of the first word. */
  function WordLength(s: string): (n: nat)
    ensures n <= |s| && (s != "" && !IsSpace(s[0]) ==> n > 0)
  {
    if s == "" || IsSpace(s[0]) then 0 else 1 + WordLength(s[1..])
  }

  lemma {:induction false} TrimLeftShorter(s: string)
    ensures |TrimLeft(s)| <= |s|
  {
    if s != "" && IsSpace(s[0]) { TrimLeftShorter(s[1..]); }
  }

  /** The words of a text. */
  function Fields(s: string): seq<string>
    decreases |s|
  {
    TrimLeftStarts(s);
    TrimLeftShorter(s);
    var t := TrimLeft(s);
    var n := WordLength(t);
    if t == "" then [] else [t[..n]] + Fields(t[n..])
  }

  lemma {:induction false} WordFirst(w: string, rest: string)
    requires (forall c | c in w :: !IsSpace(c)) && (rest == "" || IsSpace(rest[0]))
    ensures WordLength(w + rest) == |w|
  {
    if w != "" {
      assert w[0] in w && (w + rest)[1..] == w[1..] + rest;
      WordFirst(w[1..], rest);
    } else {
      assert w + rest == rest;
    }
  }

  lemma TrimWord(w: string)
    requires Word(w)
    ensures Trim(w) == w && TrimLeft(w) == w
  {
    assert w[0] in w && w[|w| - 1] in w;
  }

  /** A word, then white space, is the first of the words. */
  lemma FirstField(w: string, rest: string)
    requires Word(w) && (rest == "" || IsSpace(rest[0]))
    ensures Fields(w + rest) == [w] + Fields(rest)
  {
    var s := w + rest;
    assert s[0] == w[0] && w[0] in w;
    WordFirst(w, rest);
    assert s[..|w|] == w && s[|w|..] == rest;
    assert TrimLeft(s) == s;
  }

  lemma SkipBlank(s: string)
    ensures Fields(" " + s) == Fields(s)
  {
    assert (" " + s)[1..] == s;
    assert TrimLeft(" " + s) == TrimLeft(s);
  }

  /** Three words with blanks between them. */
  lemma ThreeWords(a: string, b: string, c: string)
    requires Word(a) && Word(b) && Word(c)
    ensures var line := a + " " + b + " " + c; Fields(line) == [a, b, c] && Trim(line) == line
  {
    hide IsSpace, Fields, Word, TrimLeft, TrimRight, Trim;
    var line := a + " " + b + " " + c;
    assert line == a + (" " + (b + (" " + c)));
    Blank();
    FirstField(a, " " + (b + (" " + c)));
    SkipBlank(b + (" " + c));
    FirstField(b, " " + c);
    SkipBlank(c);
    FirstField(c, "");
    assert c + "" == c;
    NotTrimmed(a, " " + b + " ", c);
    assert a + (" " + b + " ") + c == line;
  }

  lemma Blank()
    ensures IsSpace(' ') && Fields("") == []
  {
  }

  lemma NotTrimmed(a: string, between: string, c: string)
    requires Word(a) && Word(c)
    ensures Trim(a + between + c) == a + between + c
  {
    var s := a + between + c;
    assert s[0] == a[0] && a[0] in a && s[|s| - 1] == c[|c| - 1] && c[|c| - 1] in c;
  }

  /** Two words with one blank between them. */
  lemma TwoWords(a: string, b: string)
    requires Word(a) && Word(b)
    ensures var line := a + " " + b; Fields(line) == [a, b] && Trim(line) == line
  {
    hide IsSpace, Fields, Word, TrimLeft, TrimRight, Trim;
    assert a + " " + b == a + (" " + b);
    Blank();
    FirstField(a, " " + b);
    SkipBlank(b);
    FirstField(b, "");
    assert b + "" == b;
    NotTrimmed(a, " ", b);
  }
}
