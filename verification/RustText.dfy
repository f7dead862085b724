/** The operations on Rust strings that several modules of the model share. */
module RustText {

  /** Rust's `char::is_whitespace`: the Unicode property White_Space. */
  predicate IsWhitespace(c: char) {
    var n := c as int;
    0x09 <= n <= 0x0d || n == 0x20 || n == 0x85 || n == 0xa0 || n == 0x1680
    || 0x2000 <= n <= 0x200a || n == 0x2028 || n == 0x2029 || n == 0x202f || n == 0x205f || n == 0x3000
  }

  /** `line.trim() == line`. */
  predicate Trimmed(line: string) {
    line == [] || (!IsWhitespace(line[0]) && !IsWhitespace(line[|line| - 1]))
  }

  /** The pieces of `text.split(separator)`; there is always at least one. */
  function Split(text: string, separator: char): (pieces: seq<string>)
    ensures |pieces| >= 1
  {
    if text == [] then [[]]
    else if text[0] == separator then [[]] + Split(text[1..], separator)
    else
      var rest := Split(text[1..], separator);
      [[text[0]] + rest[0]] + rest[1..]
  }

  predicate EndsWith(text: string, suffix: string) {
    |suffix| <= |text| && text[|text| - |suffix|..] == suffix
  }

  /** `str::trim_start_matches`. */
  function TrimStart(blank: char -> bool, text: string): (r: string)
    ensures |r| <= |text|
  {
    if text != [] && blank(text[0]) then TrimStart(blank, text[1..]) else text
  }

  /** `str::trim_end_matches`. */
  function TrimEnd(blank: char -> bool, text: string): (r: string)
    ensures |r| <= |text|
  {
    if text != [] && blank(text[|text| - 1]) then TrimEnd(blank, text[..|text| - 1]) else text
  }

  /** `str::trim`, for a given notion of white space. */
  function TrimBoth(blank: char -> bool, text: string): string {
    TrimEnd(blank, TrimStart(blank, text))
  }

  function Trim(text: string): string {
    TrimBoth(IsWhitespace, text)
  }

  /** What is left is a suffix, and a character that is not blank is never cut off. */
  lemma {:induction false} TrimStartStops(blank: char -> bool, text: string, k: nat)
    requires k < |text| && !blank(text[k])
    ensures |text| - k <= |TrimStart(blank, text)| <= |text|
    ensures TrimStart(blank, text) == text[|text| - |TrimStart(blank, text)|..]
  {
    if blank(text[0]) {
      var rest := text[1..];
      assert rest[k - 1] == text[k];
      TrimStartStops(blank, rest, k - 1);
    }
  }

  /** Trimming only cuts off the front when the text does not end in white space. */
  lemma TrimKeepsEnd(blank: char -> bool, text: string)
    requires text != [] && !blank(text[|text| - 1])
    ensures TrimBoth(blank, text) == TrimStart(blank, text) != []
    ensures TrimBoth(blank, text) == text[|text| - |TrimBoth(blank, text)|..]
  {
    TrimStartStops(blank, text, |text| - 1);
    var front := TrimStart(blank, text);
    assert front[|front| - 1] == text[|text| - 1];
  }

  /** The order of `str::cmp`, on code points as on the bytes of their UTF-8 form. */
  predicate LexLeq(a: string, b: string) {
    a == [] || (b != [] && (a[0] < b[0] || (a[0] == b[0] && LexLeq(a[1..], b[1..]))))
  }

  lemma {:induction false} LexAntisymmetric(a: string, b: string)
    requires LexLeq(a, b) && LexLeq(b, a)
    ensures a == b
  {
    if a != [] && b != [] {
      LexAntisymmetric(a[1..], b[1..]);
      assert a == [a[0]] + a[1..] && b == [b[0]] + b[1..];
    }
  }

  lemma {:induction false} LexTotal(a: string, b: string)
    ensures LexLeq(a, b) || LexLeq(b, a)
  {
    if a != [] && b != [] && a[0] == b[0] {
      LexTotal(a[1..], b[1..]);
    }
  }

  lemma {:induction false} LexTransitive(a: string, b: string, c: string)
    requires LexLeq(a, b) && LexLeq(b, c)
    ensures LexLeq(a, c)
  {
    if a != [] && a[0] == b[0] && b[0] == c[0] {
      LexTransitive(a[1..], b[1..], c[1..]);
    }
  }

  /** The texts first differ at this place, where the first is smaller. */
  predicate SmallerAt(a: string, b: string, i: nat) {
    i < |a| && i < |b| && a[..i] == b[..i] && a[i] < b[i]
  }

  /** The first text is a prefix of the second, or smaller where they first differ. */
  ghost predicate Before(a: string, b: string) {
    a <= b || exists i: nat :: SmallerAt(a, b, i)
  }

  lemma {:induction false} LexMeans(a: string, b: string)
    ensures LexLeq(a, b) <==> Before(a, b)
  {
    if a != [] && b != [] {
      assert a == [a[0]] + a[1..] && b == [b[0]] + b[1..];
      LexMeans(a[1..], b[1..]);
      if a[0] == b[0] {
        BeforeCons(a, b);
      } else if a[0] < b[0] {
        assert SmallerAt(a, b, 0);
      }
    }
  }

  lemma SmallerCons(a: string, b: string, i: nat)
    requires a != [] && b != [] && a[0] == b[0]
    ensures SmallerAt(a[1..], b[1..], i) <==> SmallerAt(a, b, i + 1)
  {
    if i < |a[1..]| && i < |b[1..]| {
      assert a[..i + 1] == [a[0]] + a[1..][..i] && b[..i + 1] == [b[0]] + b[1..][..i];
      assert a[1..][..i] == a[..i + 1][1..] && b[1..][..i] == b[..i + 1][1..];
    }
  }

  lemma BeforeCons(a: string, b: string)
    requires a != [] && b != [] && a[0] == b[0]
    ensures Before(a, b) <==> Before(a[1..], b[1..])
  {
    if i: nat :| SmallerAt(a, b, i) {
      assert i > 0;
      SmallerCons(a, b, i - 1);
    }
    if i: nat :| SmallerAt(a[1..], b[1..], i) {
      SmallerCons(a, b, i);
    }
    assert a == [a[0]] + a[1..] && b == [b[0]] + b[1..];
  }

  predicate AllBlank(blank: char -> bool, text: string) {
    forall c :: c in text ==> blank(c)
  }

  /** What is cut off is blank, and what is left does not begin or end with a blank. */
  lemma TrimMeans(blank: char -> bool, text: string) returns (front: nat, back: nat)
    ensures front + |TrimBoth(blank, text)| + back == |text|
    ensures TrimBoth(blank, text) == text[front..|text| - back]
    ensures AllBlank(blank, text[..front]) && AllBlank(blank, text[|text| - back..])
    ensures var t := TrimBoth(blank, text); t != [] ==> !blank(t[0]) && !blank(t[|t| - 1])
  {
    front := StartIsBlank(blank, text);
    back := EndIsBlank(blank, TrimStart(blank, text));
    assert text[front..][..|text| - front - back] == text[front..|text| - back];
    assert text[front..][|text| - front - back..] == text[|text| - back..];
  }

  lemma {:induction false} StartIsBlank(blank: char -> bool, text: string) returns (front: nat)
    ensures front <= |text| && TrimStart(blank, text) == text[front..] && AllBlank(blank, text[..front])
    ensures front < |text| ==> !blank(text[front])
  {
    if text != [] && blank(text[0]) {
      front := StartIsBlank(blank, text[1..]);
      assert text[..front + 1] == [text[0]] + text[1..][..front];
      front := front + 1;
    } else {
      front := 0;
    }
  }

  lemma BlankMore(blank: char -> bool, front: string, last: char, back: nat)
    requires back <= |front| && AllBlank(blank, front[|front| - back..]) && blank(last)
    ensures AllBlank(blank, (front + [last])[|front| - back..])
  {
    assert (front + [last])[|front| - back..] == front[|front| - back..] + [last];
  }

  lemma {:induction false} EndIsBlank(blank: char -> bool, text: string) returns (back: nat)
    ensures back <= |text| && TrimEnd(blank, text) == text[..|text| - back]
    ensures AllBlank(blank, text[|text| - back..])
    ensures back < |text| ==> !blank(text[|text| - back - 1])
  {
    if text != [] && blank(text[|text| - 1]) {
      var front, last := text[..|text| - 1], text[|text| - 1];
      assert text == front + [last];
      back := EndIsBlank(blank, front);
      BlankMore(blank, front, last, back);
      assert text[..|front| - back] == front[..|front| - back];
      back := back + 1;
    } else {
      back := 0;
    }
  }
}
