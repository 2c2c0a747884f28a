/** The Option type used for "a value or nothing" (Python's None). */
module Wrappers {
  datatype Option<+T> = None | Some(value: T)
}

/** The handful of Python string operations that the page readers apply to
    the text of the rendered page: `split('\n')`, `strip()`, `replace(c, '')`,
    `isdigit()` and `int(...)`. */
module PageText {

  /** Python's `str.isspace()` set, the characters `strip()` removes. */
  predicate IsSpace(c: char) {
    c == ' ' || ('\t' <= c <= '\r') || ('\U{1C}' <= c <= '\U{1F}') ||
    c == '\U{85}' || c == '\U{A0}' || c == '\U{1680}' ||
    ('\U{2000}' <= c <= '\U{200A}') || c == '\U{2028}' || c == '\U{2029}' ||
    c == '\U{202F}' || c == '\U{205F}' || c == '\U{3000}'
  }

  /** Python's `s.split('\n')`: the pieces between newlines, always at least one. */
  function Split(s: string): (parts: seq<string>)
    ensures |parts| >= 1
    ensures forall k :: 0 <= k < |parts| ==> '\n' !in parts[k]
  {
    if |s| == 0 then [""]
    else
      var rest := Split(s[1..]);
      if s[0] == '\n' then [""] + rest
      else [[s[0]] + rest[0]] + rest[1..]
  }

  /** Python's `'\n'.join(parts)`, the inverse of `Split`. */
  function Join(parts: seq<string>): string {
    if |parts| == 0 then ""
    else if |parts| == 1 then parts[0]
    else parts[0] + "\n" + Join(parts[1..])
  }

  lemma {:induction false} JoinSplit(s: string)
    ensures Join(Split(s)) == s
  {
    if |s| > 0 {
      var rest := Split(s[1..]);
      JoinSplit(s[1..]);
      if s[0] == '\n' {
        assert ([""] + rest)[1..] == rest;
      } else if |rest| > 1 {
        assert ([[s[0]] + rest[0]] + rest[1..])[1..] == rest[1..];
        assert s == [s[0]] + s[1..];
      } else {
        assert s == [s[0]] + s[1..];
      }
    }
  }

  lemma {:induction false} SplitNoNewline(s: string)
    requires '\n' !in s
    ensures Split(s) == [s]
  {
    if |s| > 0 {
      SplitNoNewline(s[1..]);
      assert s == [s[0]] + s[1..];
    }
  }

  lemma {:induction false} SplitPrefix(a: string, rest: string)
    requires '\n' !in a
    ensures Split(a + "\n" + rest) == [a] + Split(rest)
  {
    if |a| == 0 {
      assert a + "\n" + rest == ['\n'] + rest;
      assert (a + "\n" + rest)[1..] == rest;
    } else {
      var tail := a[1..];
      SplitPrefix(tail, rest);
      assert (a + "\n" + rest)[1..] == tail + "\n" + rest;
      assert [a[0]] + tail == a;
    }
  }

  lemma {:induction false} SplitJoin(parts: seq<string>)
    requires |parts| >= 1
    requires forall k :: 0 <= k < |parts| ==> '\n' !in parts[k]
    ensures Split(Join(parts)) == parts
  {
    if |parts| == 1 {
      SplitNoNewline(parts[0]);
    } else {
      SplitJoin(parts[1..]);
      SplitPrefix(parts[0], Join(parts[1..]));
      assert [parts[0]] + parts[1..] == parts;
    }
  }

  /** Python's `s.lstrip()`: the longest suffix that does not start with whitespace. */
  function StripLeft(s: string): (r: string)
    ensures |r| <= |s|
    ensures r != [] ==> !IsSpace(r[0])
  {
    if |s| > 0 && IsSpace(s[0]) then StripLeft(s[1..]) else s
  }

  /** Python's `s.rstrip()`: the longest prefix that does not end with whitespace. */
  function StripRight(s: string): (r: string)
    ensures |r| <= |s|
    ensures r != [] ==> r[0] == s[0]
    ensures r != [] ==> !IsSpace(r[|r| - 1])
  {
    if |s| > 0 && IsSpace(s[|s| - 1]) then StripRight(s[..|s| - 1]) else s
  }

  /** Python's `s.strip()`. */
  function Strip(s: string): string {
    StripRight(StripLeft(s))
  }

  /** A string with no whitespace at either end, which `Strip` leaves alone. */
  predicate IsStripped(s: string) {
    s != [] ==> !IsSpace(s[0]) && !IsSpace(s[|s| - 1])
  }

  lemma StripIsStripped(s: string)
    ensures IsStripped(Strip(s))
  {
    var l := StripLeft(s);
    var r := StripRight(l);
    if r != [] {
      assert r[0] == l[0];
    }
  }

  lemma StripIdentity(s: string)
    requires IsStripped(s)
    ensures Strip(s) == s
  {
  }

  /** Python's `s.replace(c, '')`: `s` with every occurrence of `c` deleted. */
  function Remove(s: string, c: char): (r: string)
    ensures |r| <= |s|
    ensures c !in r
    ensures c !in s ==> r == s
  {
    if |s| == 0 then ""
    else if s[0] == c then Remove(s[1..], c)
    else [s[0]] + Remove(s[1..], c)
  }

  /** Every character other than `c` is kept, as many times as it occurs. */
  lemma {:induction false} RemoveKeeps(s: string, c: char)
    ensures multiset(Remove(s, c)) == multiset(s)[c := 0]
  {
    if |s| > 0 {
      RemoveKeeps(s[1..], c);
      assert s == [s[0]] + s[1..];
    }
  }

  /** Removal works piece by piece, so the kept characters stay in their order. */
  lemma {:induction false} RemoveAppend(a: string, b: string, c: char)
    ensures Remove(a + b, c) == Remove(a, c) + Remove(b, c)
  {
    if |a| > 0 {
      RemoveAppend(a[1..], b, c);
      assert (a + b)[0] == a[0];
      assert (a + b)[1..] == a[1..] + b;
    } else {
      assert a + b == b;
    }
  }

  predicate IsDigit(c: char) { '0' <= c <= '9' }

  /** Python's `s.isdigit()`, on ASCII digits: non-empty and digits only. */
  predicate IsDigits(s: string) {
    |s| > 0 && forall k :: 0 <= k < |s| ==> IsDigit(s[k])
  }

  /** Python's `int(s)` on a digit string (leading zeros allowed). */
  function DigitsValue(s: string): (v: nat)
    requires forall k :: 0 <= k < |s| ==> IsDigit(s[k])
  {
    if |s| == 0 then 0
    else
      assert IsDigit(s[|s| - 1]);
      10 * DigitsValue(s[..|s| - 1]) + (s[|s| - 1] as int - '0' as int)
  }

  /** The decimal digit character of a value 0..9. */
  function DigitChar(d: nat): (c: char)
    requires d <= 9
    ensures IsDigit(c) && DigitsValue([c]) == d
  {
    ('0' as int + d) as char
  }

  /** A digit string is worth at most 9 exactly when all its digits but the last are zeros. */
  lemma {:induction false} DigitsValueAtMostNine(s: string)
    requires IsDigits(s)
    ensures DigitsValue(s) <= 9 <==> forall k :: 0 <= k < |s| - 1 ==> s[k] == '0'
  {
    if |s| > 1 {
      var front := s[..|s| - 1];
      DigitsValueAtMostNine(front);
      assert forall k :: 0 <= k < |s| - 1 ==> front[k] == s[k];
      DigitsValueZero(front);
    }
  }

  lemma {:induction false} DigitsValueZero(s: string)
    requires forall k :: 0 <= k < |s| ==> IsDigit(s[k])
    ensures DigitsValue(s) == 0 <==> forall k :: 0 <= k < |s| ==> s[k] == '0'
  {
    if |s| > 0 {
      var front := s[..|s| - 1];
      DigitsValueZero(front);
      assert forall k :: 0 <= k < |s| - 1 ==> front[k] == s[k];
    }
  }

  /** The page's lines as the extractor reads them:
      `[line.strip() for line in text.split('\n') if line.strip()]`. */
  function PageLines(text: string): seq<string> {
    KeepNonEmpty(Split(text))
  }

  function KeepNonEmpty(parts: seq<string>): (lines: seq<string>)
    ensures |lines| <= |parts|
  {
    if |parts| == 0 then []
    else
      var line := Strip(parts[0]);
      if line != "" then [line] + KeepNonEmpty(parts[1..]) else KeepNonEmpty(parts[1..])
  }

  /** The comprehension works piece by piece: the lines of two runs of pieces
      are the lines of the first run followed by those of the second. */
  lemma {:induction false} KeepNonEmptyAppend(a: seq<string>, b: seq<string>)
    ensures KeepNonEmpty(a + b) == KeepNonEmpty(a) + KeepNonEmpty(b)
  {
    if |a| > 0 {
      KeepNonEmptyAppend(a[1..], b);
      assert (a + b)[0] == a[0];
      assert (a + b)[1..] == a[1..] + b;
    } else {
      assert a + b == b;
    }
  }

  /** A single piece contributes its stripped text exactly when that is non-empty. */
  lemma KeepNonEmptyOne(p: string)
    ensures KeepNonEmpty([p]) == if Strip(p) != "" then [Strip(p)] else []
  {
  }

  /** Every line the extractor sees is non-empty and has no whitespace at either end. */
  lemma PageLinesStripped(text: string)
    ensures forall k :: 0 <= k < |PageLines(text)| ==>
      PageLines(text)[k] != "" && IsStripped(PageLines(text)[k])
  {
    KeepNonEmptyStripped(Split(text));
  }

  lemma {:induction false} KeepNonEmptyStripped(parts: seq<string>)
    ensures forall k :: 0 <= k < |KeepNonEmpty(parts)| ==>
      KeepNonEmpty(parts)[k] != "" && IsStripped(KeepNonEmpty(parts)[k])
  {
    if |parts| > 0 {
      StripIsStripped(parts[0]);
      KeepNonEmptyStripped(parts[1..]);
      var line := Strip(parts[0]);
      var rest := KeepNonEmpty(parts[1..]);
      if line != "" {
        assert KeepNonEmpty(parts) == [line] + rest;
        forall k | 0 < k < |rest| + 1
          ensures KeepNonEmpty(parts)[k] != "" && IsStripped(KeepNonEmpty(parts)[k])
        {
          assert KeepNonEmpty(parts)[k] == rest[k - 1];
        }
      }
    }
  }

  /** Lines that are already non-empty, stripped and newline-free come back
      unchanged when joined into a page and read again. */
  lemma {:induction false} PageLinesJoin(lines: seq<string>)
    requires forall k :: 0 <= k < |lines| ==> lines[k] != "" && IsStripped(lines[k]) && '\n' !in lines[k]
    ensures PageLines(Join(lines)) == lines
  {
    if |lines| == 0 {
      assert Split(Join(lines)) == [""];
      assert Strip("") == "";
    } else {
      SplitJoin(lines);
      KeepNonEmptyIdentity(lines);
    }
  }

  lemma {:induction false} KeepNonEmptyIdentity(lines: seq<string>)
    requires forall k :: 0 <= k < |lines| ==> lines[k] != "" && IsStripped(lines[k])
    ensures KeepNonEmpty(lines) == lines
  {
    if |lines| > 0 {
      StripIdentity(lines[0]);
      KeepNonEmptyIdentity(lines[1..]);
      assert [lines[0]] + lines[1..] == lines;
    }
  }
}
