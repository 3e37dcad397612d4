// The markdown detector (src/utils/markdown.ts): a string counts as markdown
// when any of seven regular expressions finds a match somewhere in it. Each
// pattern is stated here as the set of strings it matches under JavaScript's
// regular-expression rules: `.` stops at line terminators, `\s` is
// JavaScript's white-space class, and `^` under the `m` flag matches at the
// start of the text and after every line terminator.

module Markdown {

  /** The characters `.` does not match and after which `^` matches under `m`. */
  predicate IsLineTerminator(c: char) {
    c == '\n' || c == '\r' || c == '\U{2028}' || c == '\U{2029}'
  }

  /** `\s`: JavaScript's white space and line terminators. */
  predicate IsSpace(c: char) {
    || c == '\t' || c == '\n' || c == '\U{000B}' || c == '\U{000C}' || c == '\r' || c == ' '
    || c == '\U{00A0}' || c == '\U{1680}' || '\U{2000}' <= c <= '\U{200A}'
    || c == '\U{2028}' || c == '\U{2029}' || c == '\U{202F}' || c == '\U{205F}'
    || c == '\U{3000}' || c == '\U{FEFF}'
  }

  /** `\d`. */
  predicate IsDigit(c: char) {
    '0' <= c <= '9'
  }

  /** `s[lo..hi]` is matched by `.*`: it stays on one line. */
  predicate OneLine(s: string, lo: int, hi: int)
    requires 0 <= lo <= hi <= |s|
  {
    forall k :: lo <= k < hi ==> !IsLineTerminator(s[k])
  }

  /** Every character of `s[lo..hi]` satisfies `\s`. */
  predicate Spaces(s: string, lo: int, hi: int)
    requires 0 <= lo <= hi <= |s|
  {
    forall k :: lo <= k < hi ==> IsSpace(s[k])
  }

  /** `^` under the `m` flag matches at position `p`. */
  predicate LineStart(s: string, p: int)
    requires 0 <= p <= |s|
  {
    p == 0 || IsLineTerminator(s[p - 1])
  }

  /** `\*\*.*\*\*` matching at `i` and ending at `j + 2`. */
  predicate BoldAt(s: string, i: int, j: int) {
    && 0 <= i && i + 2 <= j && j + 2 <= |s|
    && s[i] == '*' && s[i + 1] == '*' && s[j] == '*' && s[j + 1] == '*'
    && OneLine(s, i + 2, j)
  }

  /** `\*\*.*\*\*` (bold). */
  predicate Bold(s: string)
    ensures Bold(s) ==> |s| >= 4
  {
    exists i, j :: 0 <= i < j < |s| && BoldAt(s, i, j)
  }

  /** An `open` at `i` and a `close` at `j` on the same line. */
  predicate DelimitedAt(s: string, open: char, close: char, i: int, j: int) {
    0 <= i < j < |s| && s[i] == open && s[j] == close && OneLine(s, i + 1, j)
  }

  /** `\*.*\*` (italic). */
  predicate Italic(s: string)
    ensures Italic(s) ==> |s| >= 2
  {
    exists i, j :: 0 <= i < j < |s| && DelimitedAt(s, '*', '*', i, j)
  }

  /** `` `.*` `` (inline code). */
  predicate Code(s: string)
    ensures Code(s) ==> |s| >= 2
  {
    exists i, j :: 0 <= i < j < |s| && DelimitedAt(s, '`', '`', i, j)
  }

  /** Every character of `s[lo..hi]` is `#`. */
  predicate Hashes(s: string, lo: int, hi: int)
    requires 0 <= lo <= hi <= |s|
  {
    forall k :: lo <= k < hi ==> s[k] == '#'
  }

  /** `#{1,6}\s` matching at `i` with `n` hashes. */
  predicate HeaderAt(s: string, i: int, n: int) {
    0 <= i && 1 <= n <= 6 && i + n < |s| && Hashes(s, i, i + n) && IsSpace(s[i + n])
  }

  /** `#{1,6}\s` (headers): one to six `#` and a white-space character. */
  predicate Header(s: string)
    ensures Header(s) ==> |s| >= 2
  {
    exists i, n :: 0 <= i < |s| && 1 <= n <= 6 && HeaderAt(s, i, n)
  }

  /** `^\s*[\*\-\+]\s` matching from the line start `p`, the bullet at `q`. */
  predicate ListAt(s: string, p: int, q: int) {
    && 0 <= p <= q && q + 1 < |s| && LineStart(s, p) && Spaces(s, p, q)
    && s[q] in "*-+" && IsSpace(s[q + 1])
  }

  /** `^\s*[\*\-\+]\s` under `m` (bullet lists): a line start, white space,
      a bullet and a white-space character. */
  predicate ListItem(s: string)
    ensures ListItem(s) ==> |s| >= 2
  {
    exists p, q :: 0 <= p <= q < |s| && ListAt(s, p, q)
  }

  /** Every character of `s[lo..hi]` is a decimal digit. */
  predicate Digits(s: string, lo: int, hi: int)
    requires 0 <= lo <= hi <= |s|
  {
    forall k :: lo <= k < hi ==> IsDigit(s[k])
  }

  /** `^\s*\d+\.\s` matching from the line start `p`, digits from `q`, the dot at `r`. */
  predicate NumberedAt(s: string, p: int, q: int, r: int) {
    && 0 <= p <= q < r && r + 1 < |s| && LineStart(s, p) && Spaces(s, p, q)
    && Digits(s, q, r) && s[r] == '.' && IsSpace(s[r + 1])
  }

  /** `^\s*\d+\.\s` under `m` (numbered lists). */
  predicate NumberedItem(s: string)
    ensures NumberedItem(s) ==> |s| >= 3
  {
    exists p, q, r :: 0 <= p <= q < r < |s| && NumberedAt(s, p, q, r)
  }

  /** `\[.*\]\(.*\)` matching with `[` at `i`, `]` at `j` and `)` at `l`. */
  predicate LinkAt(s: string, i: int, j: int, l: int) {
    && 0 <= i < j && j + 1 < l < |s|
    && s[i] == '[' && s[j] == ']' && s[j + 1] == '(' && s[l] == ')'
    && OneLine(s, i + 1, j) && OneLine(s, j + 2, l)
  }

  /** `\[.*\]\(.*\)` (links): brackets and then parentheses, each pair on one line. */
  predicate Link(s: string)
    ensures Link(s) ==> |s| >= 4
  {
    exists i, j, l :: 0 <= i < j < l < |s| && LinkAt(s, i, j, l)
  }

  /** `isMarkdown`: some of the seven patterns matches. */
  predicate IsMarkdown(content: string)
    ensures IsMarkdown(content) ==> |content| >= 2
  {
    || Bold(content) || Italic(content) || Code(content) || Header(content)
    || ListItem(content) || NumberedItem(content) || Link(content)
  }

  /** Every bold match holds an italic match: its first and last `*`. */
  lemma BoldIsItalic(s: string)
    ensures Bold(s) ==> Italic(s)
  {
    if Bold(s) {
      var i, j :| 0 <= i < j < |s| && BoldAt(s, i, j);
      assert DelimitedAt(s, '*', '*', i, j + 1);
    }
  }

  /** The detector is unchanged without the bold pattern. */
  lemma BoldRedundant(s: string)
    ensures IsMarkdown(s) <==>
              || Italic(s) || Code(s) || Header(s) || ListItem(s) || NumberedItem(s) || Link(s)
  {
    BoldIsItalic(s);
  }

  /** Two `*`, or two backticks, on one line make the text markdown. */
  lemma PairOnOneLine(s: string, c: char, i: nat, j: nat)
    requires c == '*' || c == '`'
    requires i < j < |s| && s[i] == c && s[j] == c
    requires forall k :: i < k < j ==> !IsLineTerminator(s[k])
    ensures IsMarkdown(s)
  {
    assert DelimitedAt(s, c, c, i, j);
  }

  /** The header pattern matches exactly where a `#` is followed by white
      space, anywhere in the text: the count bound and line starts play no part. */
  lemma HeaderIffHashSpace(s: string)
    ensures Header(s) <==> exists i :: 0 <= i < |s| - 1 && s[i] == '#' && IsSpace(s[i + 1])
  {
    if Header(s) {
      var i, n :| 0 <= i < |s| && 1 <= n <= 6 && HeaderAt(s, i, n);
      assert s[i + n - 1] == '#';
    }
    if exists i :: 0 <= i < |s| - 1 && s[i] == '#' && IsSpace(s[i + 1]) {
      var i :| 0 <= i < |s| - 1 && s[i] == '#' && IsSpace(s[i + 1]);
      assert HeaderAt(s, i, 1);
    }
  }

  /** A line whose first non-white-space character is a bullet followed by
      white space makes the text markdown. */
  lemma BulletLine(s: string, p: nat, q: nat)
    requires p <= q && q + 1 < |s| && LineStart(s, p)
    requires forall k :: p <= k < q ==> IsSpace(s[k])
    requires s[q] in "*-+" && IsSpace(s[q + 1])
    ensures IsMarkdown(s)
  {
    assert ListAt(s, p, q);
  }

  /** A line whose first non-white-space characters are digits, `.` and
      white space makes the text markdown. */
  lemma NumberedLine(s: string, p: nat, q: nat, r: nat)
    requires p <= q < r && r + 1 < |s| && LineStart(s, p)
    requires forall k :: p <= k < q ==> IsSpace(s[k])
    requires forall k :: q <= k < r ==> IsDigit(s[k])
    requires s[r] == '.' && IsSpace(s[r + 1])
    ensures IsMarkdown(s)
  {
    assert NumberedAt(s, p, q, r);
  }

  /** `[text](target)` with each part on one line makes the text markdown. */
  lemma LinkOnOneLine(s: string, i: nat, j: nat, l: nat)
    requires i < j && j + 1 < l < |s|
    requires s[i] == '[' && s[j] == ']' && s[j + 1] == '(' && s[l] == ')'
    requires forall k :: i < k < l ==> !IsLineTerminator(s[k])
    ensures IsMarkdown(s)
  {
    assert LinkAt(s, i, j, l);
  }

  /** Text without any of the marker characters is not markdown. */
  lemma PlainText(s: string)
    requires forall k :: 0 <= k < |s| ==> s[k] !in "*`#[-+."
    ensures !IsMarkdown(s)
  {
    forall i, j ensures !BoldAt(s, i, j) && !DelimitedAt(s, '*', '*', i, j) && !DelimitedAt(s, '`', '`', i, j) {
    }
    forall i, h | 0 <= i < h <= |s| ensures !Hashes(s, i, h) {
      assert s[i] != '#';
    }
    forall p, q ensures !ListAt(s, p, q) {
    }
    forall p, q, r ensures !NumberedAt(s, p, q, r) {
    }
    forall i, j, l ensures !LinkAt(s, i, j, l) {
    }
  }

  /** A dash in the middle of a line is no bullet. */
  lemma MidLineDashIgnored()
    ensures !IsMarkdown("a - b")
  {
    var s := "a - b";
    forall i, j ensures !BoldAt(s, i, j) && !DelimitedAt(s, '*', '*', i, j) && !DelimitedAt(s, '`', '`', i, j) {
    }
    forall i, h | 0 <= i < h <= |s| ensures !Hashes(s, i, h) {
      assert s[i] != '#';
    }
    forall p, q ensures !ListAt(s, p, q) {
      if 0 <= p <= q && q + 1 < |s| && LineStart(s, p) && Spaces(s, p, q) {
        assert p == 0 && !IsSpace(s[0]);
      }
    }
    forall p, q, r ensures !NumberedAt(s, p, q, r) {
    }
    forall i, j, l ensures !LinkAt(s, i, j, l) {
    }
  }

  /** Stars on different lines are no emphasis. */
  lemma StarsAcrossLinesIgnored()
    ensures !Italic("a *\nb *") && !Bold("a *\nb *")
  {
    var s := "a *\nb *";
    forall i, j ensures !DelimitedAt(s, '*', '*', i, j) {
      if 0 <= i < j < |s| && s[i] == '*' && s[j] == '*' {
        assert i == 2 && j == 6 && IsLineTerminator(s[3]);
      }
    }
    BoldIsItalic(s);
  }

  /** Headers are found anywhere and past six `#`: both texts are markdown. */
  lemma HashesAnywhere()
    ensures IsMarkdown("see # notes")
    ensures IsMarkdown("####### seven")
  {
    assert HeaderAt("see # notes", 4, 1);
    assert HeaderAt("####### seven", 1, 6);
  }
}
