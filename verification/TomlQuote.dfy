/**
 The TOML text that `src/codex_command.rs` writes into `-c key=value` overrides, and a reader for it.

 The reader follows TOML v1.0.0 (sections "String", "Array", "Inline Table", "Keys") for the forms that
 the writer can produce or nearly produce: basic strings with every escape, booleans, arrays of any length
 with blanks and a trailing comma, and inline tables with bare or quoted keys and no repeated key.
 */
module TomlQuote {
  import opened Wrappers

  // ---------------------------------------------------------------- the writer

  /** Rust's `char::is_control`: the Unicode general category Cc. */
  predicate IsControl(c: char) {
    (c as int) < 0x20 || 0x7f <= (c as int) <= 0x9f
  }

  function HexDigit(n: nat): char
    requires n < 16
  {
    if n < 10 then ('0' as int + n) as char else ('a' as int + (n - 10)) as char
  }

  function LowerHex(n: nat): (digits: string)
    ensures |digits| >= 1
  {
    if n < 16 then [HexDigit(n)] else LowerHex(n / 16) + [HexDigit(n % 16)]
  }

  /** The format directive `{:04x}`: at least four digits, more when the number needs them. */
  function PadHex4(n: nat): string {
    var digits := LowerHex(n);
    if |digits| >= 4 then digits else seq(4 - |digits|, _ => '0') + digits
  }

  /** What one character contributes to the quoted text: the arms of the match in `toml_quote`. */
  function EscapeChar(c: char): (text: string)
    ensures |text| >= 1
  {
    if c == '\\' then "\\\\"
    else if c == '"' then "\\\""
    else if c == '\n' then "\\n"
    else if c == '\r' then "\\r"
    else if c == '\t' then "\\t"
    else if IsControl(c) then "\\u" + PadHex4(c as int)
    else [c]
  }

  function FlatMap(piece: char -> string, value: string): string {
    if value == [] then [] else piece(value[0]) + FlatMap(piece, value[1..])
  }

  function EscapeAll(value: string): string {
    FlatMap(EscapeChar, value)
  }

  function Quoted(value: string): string {
    "\"" + EscapeAll(value) + "\""
  }

  // ---------------------------------------------------------------- the reader

  datatype Toml =
    | Text(text: string)
    | Flag(flag: bool)
    | List(items: seq<Toml>)
    | Table(pairs: seq<(string, Toml)>)

  type Parse<T> = Option<(T, string)>

  function HexValue(c: char): Option<nat> {
    if '0' <= c <= '9' then Some(c as int - '0' as int)
    else if 'a' <= c <= 'f' then Some(c as int - 'a' as int + 10)
    else if 'A' <= c <= 'F' then Some(c as int - 'A' as int + 10)
    else None
  }

  function HexNumber(digits: string): Option<nat> {
    if digits == [] then Some(0)
    else
      var front, last := HexNumber(digits[..|digits| - 1]), HexValue(digits[|digits| - 1]);
      if front.Some? && last.Some? then Some(front.value * 16 + last.value) else None
  }

  /** `\uXXXX` and `\UXXXXXXXX` must name a Unicode scalar value. */
  function ReadUnicode(s: string, width: nat): (r: Parse<char>)
    ensures r.Some? ==> |r.value.1| <= |s|
  {
    if |s| < width then None
    else
      match HexNumber(s[..width])
      case None => None
      case Some(n) =>
        if n < 0xD800 || 0xE000 <= n < 0x11_0000 then Some((n as char, s[width..])) else None
  }

  /** The text after a backslash. */
  function ReadEscape(s: string): (r: Parse<char>)
    ensures r.Some? ==> |r.value.1| < |s|
  {
    if s == [] then None
    else match s[0]
      case 'b' => Some((8 as char, s[1..]))
      case 't' => Some(('\t', s[1..]))
      case 'n' => Some(('\n', s[1..]))
      case 'f' => Some((12 as char, s[1..]))
      case 'r' => Some(('\r', s[1..]))
      case '"' => Some(('"', s[1..]))
      case '\\' => Some(('\\', s[1..]))
      case 'u' => ReadUnicode(s[1..], 4)
      case 'U' => ReadUnicode(s[1..], 8)
      case _ => None
  }

  /** `basic-unescaped`: a tab, or anything from U+0020 on except the quote, the backslash and U+007F. */
  predicate MayStandRaw(c: char) {
    c == '\t' || ((c as int) >= 0x20 && c != '"' && c != '\\' && (c as int) != 0x7f)
  }

  /** The text after the opening quote. */
  function ReadBody(s: string): (r: Parse<string>)
    ensures r.Some? ==> |r.value.1| < |s|
  {
    if s == [] then None
    else if s[0] == '"' then Some(("", s[1..]))
    else if s[0] == '\\' then
      match ReadEscape(s[1..])
      case None => None
      case Some((c, rest)) =>
        (match ReadBody(rest)
         case None => None
         case Some((tail, after)) => Some(([c] + tail, after)))
    else if MayStandRaw(s[0]) then
      match ReadBody(s[1..])
      case None => None
      case Some((tail, after)) => Some(([s[0]] + tail, after))
    else None
  }

  /** Three quotes open a multi-line string, which is another form. */
  function ReadBasicString(s: string): (r: Parse<string>)
    ensures r.Some? ==> |r.value.1| < |s|
  {
    if s == [] || s[0] != '"' || "\"\"\"" <= s then None else ReadBody(s[1..])
  }

  function SkipBlank(s: string): (r: string)
    ensures |r| <= |s|
  {
    if s != [] && (s[0] == ' ' || s[0] == '\t') then SkipBlank(s[1..]) else s
  }

  /** Inside an array, line ends are blank too. */
  function SkipSpace(s: string): (r: string)
    ensures |r| <= |s|
  {
    if s != [] && s[0] in " \t\r\n" then SkipSpace(s[1..]) else s
  }

  predicate BareKeyChar(c: char) {
    'a' <= c <= 'z' || 'A' <= c <= 'Z' || '0' <= c <= '9' || c == '_' || c == '-'
  }

  function ReadBare(s: string): (r: (string, string))
    ensures |r.1| == |s| - |r.0|
  {
    if s != [] && BareKeyChar(s[0]) then
      var (more, rest) := ReadBare(s[1..]);
      ([s[0]] + more, rest)
    else ([], s)
  }

  function ReadKey(s: string): (r: Parse<string>)
    ensures r.Some? ==> |r.value.1| < |s|
  {
    if s != [] && s[0] == '"' then ReadBasicString(s)
    else
      var (key, rest) := ReadBare(s);
      if key == [] then None else Some((key, rest))
  }

  predicate DistinctKeys(pairs: seq<(string, Toml)>) {
    forall i, j :: 0 <= i < j < |pairs| ==> pairs[i].0 != pairs[j].0
  }

  function ReadValue(s: string): (r: Parse<Toml>)
    ensures r.Some? ==> |r.value.1| < |s|
    decreases |s|, 1
  {
    if s == [] then None
    else if s[0] == '"' then
      match ReadBasicString(s)
      case None => None
      case Some((text, rest)) => Some((Text(text), rest))
    else if s[0] == '[' then
      match ReadItems(s[1..])
      case None => None
      case Some((items, rest)) => Some((List(items), rest))
    else if s[0] == '{' then
      var t := SkipBlank(s[1..]);
      if t != [] && t[0] == '}' then Some((Table([]), t[1..]))
      else
        match ReadPairs(t)
        case None => None
        case Some((pairs, rest)) => if DistinctKeys(pairs) then Some((Table(pairs), rest)) else None
    else if "true" <= s then Some((Flag(true), s[4..]))
    else if "false" <= s then Some((Flag(false), s[5..]))
    else None
  }

  /** The text after `[` or after a comma of an array. */
  function ReadItems(s: string): (r: Parse<seq<Toml>>)
    ensures r.Some? ==> |r.value.1| < |s|
    decreases |s|, 2
  {
    var t := SkipSpace(s);
    if t == [] then None
    else if t[0] == ']' then Some(([], t[1..]))
    else
      match ReadValue(t)
      case None => None
      case Some((item, rest)) =>
        var u := SkipSpace(rest);
        if u == [] then None
        else if u[0] == ']' then Some(([item], u[1..]))
        else if u[0] == ',' then
          (match ReadItems(u[1..])
           case None => None
           case Some((items, after)) => Some(([item] + items, after)))
        else None
  }

  /** A key, its equals sign and its value. */
  function ReadPair(s: string): (r: Parse<(string, Toml)>)
    ensures r.Some? ==> |r.value.1| < |s|
    decreases |s|, 2
  {
    match ReadKey(SkipBlank(s))
    case None => None
    case Some((key, rest)) =>
      var t := SkipBlank(rest);
      if t == [] || t[0] != '=' then None
      else
        match ReadValue(SkipBlank(t[1..]))
        case None => None
        case Some((value, more)) => Some(((key, value), more))
  }

  /** The text after `{` or after a comma of an inline table, which allows no trailing comma. */
  function ReadPairs(s: string): (r: Parse<seq<(string, Toml)>>)
    ensures r.Some? ==> |r.value.1| < |s|
    decreases |s|, 3
  {
    match ReadPair(s)
    case None => None
    case Some((pair, more)) =>
      var u := SkipBlank(more);
      if u == [] then None
      else if u[0] == '}' then Some(([pair], u[1..]))
      else if u[0] == ',' then
        (match ReadPairs(u[1..])
         case None => None
         case Some((pairs, after)) => Some(([pair] + pairs, after)))
      else None
  }

  /** A command line override: the text before the first `=`, and a value that uses up the rest. */
  function ReadOverride(s: string): Option<(string, Toml)> {
    var (key, rest) := ReadDotted(s);
    if rest == [] || rest[0] != '=' then None
    else
      match ReadValue(rest[1..])
      case None => None
      case Some((value, after)) => if after == [] then Some((key, value)) else None
  }

  function ReadDotted(s: string): (r: (string, string)) {
    if s != [] && s[0] != '=' then
      var (more, rest) := ReadDotted(s[1..]);
      ([s[0]] + more, rest)
    else ([], s)
  }

  // ---------------------------------------------------------------- quoting is undone by reading

  lemma HexPush(front: string, high: nat, low: nat)
    requires HexNumber(front) == Some(high) && low < 16
    ensures HexNumber(front + [HexDigit(low)]) == Some(high * 16 + low)
  {
    var digits := front + [HexDigit(low)];
    assert digits[..|digits| - 1] == front;
    assert HexValue(HexDigit(low)) == Some(low);
  }

  function TwoDigits(high: nat, low: nat): string
    requires high < 16 && low < 16
  {
    [HexDigit(0)] + [HexDigit(0)] + [HexDigit(high)] + [HexDigit(low)]
  }

  lemma TwoDigitsDenote(high: nat, low: nat)
    requires high < 16 && low < 16
    ensures HexNumber(TwoDigits(high, low)) == Some(high * 16 + low)
  {
    HexPush([], 0, 0);
    assert [] + [HexDigit(0)] == [HexDigit(0)];
    HexPush([HexDigit(0)], 0, 0);
    HexPush([HexDigit(0)] + [HexDigit(0)], 0, high);
    HexPush([HexDigit(0)] + [HexDigit(0)] + [HexDigit(high)], high, low);
  }

  lemma PaddedIsTwoDigits(n: nat)
    requires n < 256
    ensures PadHex4(n) == TwoDigits(n / 16, n % 16)
  {
    var high, low := n / 16, n % 16;
    assert LowerHex(high) == [HexDigit(high)];
    if n < 16 {
      assert LowerHex(n) == [HexDigit(low)];
    } else {
      assert LowerHex(n) == [HexDigit(high)] + [HexDigit(low)];
    }
  }

  /** Four hexadecimal digits always suffice, and they denote the character. */
  lemma PaddedHexDenotes(c: char)
    requires IsControl(c)
    ensures |PadHex4(c as int)| == 4
    ensures HexNumber(PadHex4(c as int)) == Some(c as int)
  {
    var n := c as int;
    PaddedIsTwoDigits(n);
    TwoDigitsDenote(n / 16, n % 16);
  }

  lemma ShortEscapeIsRead(c: char, rest: string)
    requires c in "\\\"\n\r\t"
    ensures ReadEscape((EscapeChar(c) + rest)[1..]) == Some((c, rest))
  {
    assert (EscapeChar(c) + rest)[1..] == [EscapeChar(c)[1]] + rest;
  }

  lemma UnicodeEscapeIsRead(c: char, rest: string)
    requires IsControl(c)
    ensures ReadEscape("u" + (PadHex4(c as int) + rest)) == Some((c, rest))
  {
    PaddedHexDenotes(c);
    var digits := PadHex4(c as int);
    assert ("u" + (digits + rest))[1..] == digits + rest;
    assert (digits + rest)[..4] == digits;
  }

  lemma EscapeIsRead(c: char, rest: string)
    requires EscapeChar(c)[0] == '\\'
    ensures ReadEscape((EscapeChar(c) + rest)[1..]) == Some((c, rest))
  {
    if c in "\\\"\n\r\t" {
      ShortEscapeIsRead(c, rest);
    } else {
      UnicodeEscapeIsRead(c, rest);
      assert (EscapeChar(c) + rest)[1..] == "u" + (PadHex4(c as int) + rest);
    }
  }

  lemma {:induction false} EscapedIsRead(value: string, rest: string)
    ensures ReadBody(EscapeAll(value) + "\"" + rest) == Some((value, rest))
  {
    if value == [] {
      assert EscapeAll(value) + "\"" + rest == "\"" + rest;
    } else {
      var c := value[0];
      var tail := EscapeAll(value[1..]) + "\"" + rest;
      EscapedIsRead(value[1..], rest);
      assert EscapeAll(value) + "\"" + rest == EscapeChar(c) + tail;
      if EscapeChar(c)[0] == '\\' {
        EscapeIsRead(c, tail);
      } else {
        assert EscapeChar(c) + tail == [c] + tail;
      }
      assert value == [c] + value[1..];
    }
  }

  /**
   The round trip for every Unicode string, with the one context in which it breaks: an empty string that is
   followed by a third quote would be read as the opening of a multi-line string.
   */
  lemma QuotedReadsBack(value: string, rest: string)
    ensures ReadBasicString(Quoted(value) + rest) == Some((value, rest))
       <==> !(value == "" && "\"" <= rest)
  {
    var s := Quoted(value) + rest;
    assert s[1..] == EscapeAll(value) + "\"" + rest;
    EscapedIsRead(value, rest);
    if value == "" {
      assert s == "\"\"" + rest;
    } else {
      assert s[1] == EscapeChar(value[0])[0];
    }
  }

  /** No quoted string is a prefix of the quoted form of another string. */
  lemma QuotedIsPrefixFree(a: string, b: string)
    requires Quoted(a) <= Quoted(b)
    ensures a == b
  {
    var rest := Quoted(b)[|Quoted(a)|..];
    SplitQuoted(a, rest);
    SplitQuoted(b, "");
    EscapedIsRead(a, rest);
    EscapedIsRead(b, "");
    assert Quoted(a) + rest == Quoted(b) + "";
  }

  lemma SplitQuoted(value: string, rest: string)
    ensures (Quoted(value) + rest)[1..] == EscapeAll(value) + "\"" + rest
  {
  }

  predicate NoControl(text: string) {
    forall c :: c in text ==> !IsControl(c)
  }

  lemma {:induction false} HexNumbersHaveNoControl(digits: string)
    requires HexNumber(digits).Some?
    ensures NoControl(digits)
  {
    if digits != [] {
      HexNumbersHaveNoControl(digits[..|digits| - 1]);
      assert digits == digits[..|digits| - 1] + [digits[|digits| - 1]];
    }
  }

  lemma {:induction false} EscapedHasNoControl(value: string)
    ensures NoControl(EscapeAll(value))
  {
    if value != [] {
      EscapedHasNoControl(value[1..]);
      var c := value[0];
      if IsControl(c) && c !in "\n\r\t" {
        PaddedHexDenotes(c);
        HexNumbersHaveNoControl(PadHex4(c as int));
      }
    }
  }

  /** Reads back where any value is expected, followed by anything but a quote. */
  lemma QuotedValueReadsBack(value: string, rest: string)
    requires !("\"" <= rest)
    ensures ReadValue(Quoted(value) + rest) == Some((Text(value), rest))
  {
    QuotedReadsBack(value, rest);
    assert (Quoted(value) + rest)[0] == '"';
  }

  // ---------------------------------------------------------------- the override writers

  lemma {:induction false} FlatMapSnoc(piece: char -> string, value: string, c: char)
    ensures FlatMap(piece, value + [c]) == FlatMap(piece, value) + piece(c)
  {
    if value == [] {
      assert value + [c] == [c];
    } else {
      FlatMapSnoc(piece, value[1..], c);
      assert (value + [c])[1..] == value[1..] + [c];
    }
  }

  lemma WholeQuoteReads(value: string)
    ensures ReadBasicString(Quoted(value)) == Some((value, ""))
    ensures NoControl(Quoted(value))
  {
    QuotedReadsBack(value, "");
    assert Quoted(value) + "" == Quoted(value);
    EscapedHasNoControl(value);
  }

  /** What the loop has written before it comes to `i`. */
  function QuotedUpTo(value: string, i: nat): string
    requires i <= |value|
  {
    "\"" + EscapeAll(value[..i])
  }

  lemma QuoteOpens(value: string)
    ensures QuotedUpTo(value, 0) == "\""
  {
  }

  lemma EscapedSnoc(value: string, i: nat)
    requires i < |value|
    ensures EscapeAll(value[..i + 1]) == EscapeAll(value[..i]) + EscapeChar(value[i])
  {
    FlatMapSnoc(EscapeChar, value[..i], value[i]);
    assert value[..i + 1] == value[..i] + [value[i]];
  }

  lemma QuoteGrows(value: string, i: nat)
    requires i < |value|
    ensures QuotedUpTo(value, i + 1) == QuotedUpTo(value, i) + EscapeChar(value[i])
  {
    EscapedSnoc(value, i);
  }

  lemma QuoteCloses(value: string)
    ensures QuotedUpTo(value, |value|) + "\"" == Quoted(value)
  {
    assert value[..|value|] == value;
  }

  /** `toml_quote`. */
  method QuoteToml(value: string) returns (escaped: string)
    ensures escaped == Quoted(value)
    ensures ReadBasicString(escaped) == Some((value, ""))
    ensures NoControl(escaped)
  {
    QuoteOpens(value);
    escaped := "\"";
    for i := 0 to |value|
      invariant escaped == QuotedUpTo(value, i)
    {
      QuoteGrows(value, i);
      escaped := escaped + EscapeChar(value[i]);
    }
    QuoteCloses(value);
    escaped := escaped + "\"";
    WholeQuoteReads(value);
  }

  lemma {:induction false} DottedStops(key: string, rest: string)
    requires '=' !in key
    ensures ReadDotted(key + "=" + rest) == (key, "=" + rest)
  {
    var s := key + "=" + rest;
    if key == [] {
      assert s == "=" + rest;
    } else {
      DottedStops(key[1..], rest);
      assert s[1..] == key[1..] + "=" + rest;
      assert key == [key[0]] + key[1..];
    }
  }

  lemma OverrideReads(key: string, text: string, value: Toml)
    requires '=' !in key
    requires ReadValue(text) == Some((value, ""))
    ensures ReadOverride(key + "=" + text) == Some((key, value))
  {
    DottedStops(key, text);
    assert ("=" + text)[1..] == text;
  }

  const ROOTS_KEY := "sandbox_workspace_write.writable_roots"

  lemma LastItemIsRead(value: string, rest: string)
    requires rest != [] && rest[0] == ']'
    ensures ReadItems(Quoted(value) + rest) == Some(([Text(value)], rest[1..]))
  {
    QuotedValueReadsBack(value, rest);
    assert (Quoted(value) + rest)[0] == '"';
  }

  lemma ItemIsRead(value: string, rest: string, more: seq<Toml>, after: string)
    requires ReadItems(rest) == Some((more, after))
    ensures ReadItems(Quoted(value) + ("," + rest)) == Some(([Text(value)] + more, after))
  {
    var tail := "," + rest;
    assert tail[1..] == rest && tail[0] == ',';
    QuotedValueReadsBack(value, tail);
    assert (Quoted(value) + tail)[0] == '"';
  }

  lemma ListIsRead(s: string, items: seq<Toml>)
    requires ReadItems(s) == Some((items, ""))
    ensures ReadValue("[" + s) == Some((List(items), ""))
  {
    assert ("[" + s)[1..] == s;
  }

  lemma TwoItemsRead(a: string, b: string)
    ensures ReadValue("[" + (Quoted(a) + ("," + (Quoted(b) + "]")))) == Some((List([Text(a), Text(b)]), ""))
  {
    LastItemIsRead(b, "]");
    assert "]"[1..] == "";
    ItemIsRead(a, Quoted(b) + "]", [Text(b)], "");
    assert [Text(a)] + [Text(b)] == [Text(a), Text(b)];
    ListIsRead(Quoted(a) + ("," + (Quoted(b) + "]")), [Text(a), Text(b)]);
  }

  lemma KeyHasNoEquals()
    ensures '=' !in ROOTS_KEY && '=' !in "projects"
  {
  }

  /** The `writable_roots` override of a run that may write the project names its root and the private temp. */
  method WritableRoots(root: string, privateTmp: string) returns (text: string)
    ensures ReadOverride(text) == Some((ROOTS_KEY, List([Text(root), Text(privateTmp)])))
  {
    var first := QuoteToml(root);
    var second := QuoteToml(privateTmp);
    var list := "[" + (first + ("," + (second + "]")));
    text := ROOTS_KEY + "=" + list;
    TwoItemsRead(root, privateTmp);
    KeyHasNoEquals();
    OverrideReads(ROOTS_KEY, list, List([Text(root), Text(privateTmp)]));
  }

  /** A run that may not write the project root lists the private temp alone. */
  method PrivateWritableRoot(privateTmp: string) returns (text: string)
    ensures ReadOverride(text) == Some((ROOTS_KEY, List([Text(privateTmp)])))
  {
    var quoted := QuoteToml(privateTmp);
    var list := "[" + (quoted + "]");
    text := ROOTS_KEY + "=" + list;
    LastItemIsRead(privateTmp, "]");
    assert "]"[1..] == "";
    ListIsRead(quoted + "]", [Text(privateTmp)]);
    KeyHasNoEquals();
    OverrideReads(ROOTS_KEY, list, List([Text(privateTmp)]));
  }

  lemma {:induction false} BareKeyStops(key: string, rest: string)
    requires forall c :: c in key ==> BareKeyChar(c)
    requires rest != [] && !BareKeyChar(rest[0])
    ensures ReadBare(key + rest) == (key, rest)
  {
    if key == [] {
      assert key + rest == rest;
    } else {
      BareKeyStops(key[1..], rest);
      assert (key + rest)[1..] == key[1..] + rest;
      assert key == [key[0]] + key[1..];
    }
  }

  /** A key and its equals sign at the head of a text, with no blanks around them. */
  predicate KeyStarts(s: string, key: string, valueText: string) {
    SkipBlank(s) == s && s != [] && s[0] != '}' && ReadKey(s) == Some((key, "=" + valueText))
  }

  /** A value at the head of a text, with no blanks before it. */
  predicate ValueStarts(valueText: string, value: Toml, rest: string) {
    SkipBlank(valueText) == valueText && ReadValue(valueText) == Some((value, rest))
  }

  predicate IsBareKey(key: string) {
    key != [] && forall c :: c in key ==> BareKeyChar(c)
  }

  lemma BareKeyStarts(key: string, valueText: string)
    requires IsBareKey(key)
    ensures KeyStarts(key + ("=" + valueText), key, valueText)
  {
    BareKeyStops(key, "=" + valueText);
    assert (key + ("=" + valueText))[0] == key[0] && key[0] in key;
  }

  lemma QuotedKeyStarts(key: string, valueText: string)
    ensures KeyStarts(Quoted(key) + ("=" + valueText), key, valueText)
  {
    QuotedReadsBack(key, "=" + valueText);
    assert (Quoted(key) + ("=" + valueText))[0] == '"';
  }

  lemma TextStarts(word: string, rest: string)
    requires rest != [] && rest[0] != '"'
    ensures ValueStarts(Quoted(word) + rest, Text(word), rest)
  {
    assert !("\"" <= rest);
    QuotedValueReadsBack(word, rest);
    assert (Quoted(word) + rest)[0] == '"';
  }

  lemma OnePairIsRead(s: string, key: string, valueText: string, value: Toml, rest: string)
    requires KeyStarts(s, key, valueText) && ValueStarts(valueText, value, rest)
    ensures ReadPair(s) == Some(((key, value), rest))
  {
    assert ("=" + valueText)[1..] == valueText;
  }

  /** The last pair of an inline table. */
  lemma LastPairIsRead(s: string, key: string, valueText: string, value: Toml, rest: string)
    requires KeyStarts(s, key, valueText) && ValueStarts(valueText, value, "}" + rest)
    ensures ReadPairs(s) == Some(([(key, value)], rest))
  {
    OnePairIsRead(s, key, valueText, value, "}" + rest);
    assert ("}" + rest)[1..] == rest;
  }

  /** A pair before others. */
  lemma PairIsRead(s: string, key: string, valueText: string, value: Toml, more: string,
                   pairs: seq<(string, Toml)>, rest: string)
    requires KeyStarts(s, key, valueText) && ValueStarts(valueText, value, "," + more)
    requires ReadPairs(more) == Some((pairs, rest))
    ensures ReadPairs(s) == Some(([(key, value)] + pairs, rest))
  {
    OnePairIsRead(s, key, valueText, value, "," + more);
    assert ("," + more)[1..] == more;
  }

  lemma TableIsRead(s: string, pairs: seq<(string, Toml)>, rest: string)
    requires s != [] && SkipBlank(s) == s && s[0] != '}'
    requires ReadPairs(s) == Some((pairs, rest)) && DistinctKeys(pairs)
    ensures ValueStarts("{" + s, Table(pairs), rest)
  {
    assert ("{" + s)[1..] == s;
  }

  /** A table whose one bare key holds one word, as in `{trust_level="untrusted"}`. */
  lemma WordTableIsRead(key: string, word: string, rest: string)
    requires IsBareKey(key)
    ensures ValueStarts("{" + (key + ("=" + (Quoted(word) + ("}" + rest)))), Table([(key, Text(word))]), rest)
  {
    var valueText := Quoted(word) + ("}" + rest);
    BareKeyStarts(key, valueText);
    TextStarts(word, "}" + rest);
    LastPairIsRead(key + ("=" + valueText), key, valueText, Text(word), rest);
    TableIsRead(key + ("=" + valueText), [(key, Text(word))], rest);
  }

  /** A table whose one quoted key is an arbitrary path. */
  lemma PathTableIsRead(path: string, valueText: string, value: Toml)
    requires ValueStarts(valueText, value, "}" + "")
    ensures ReadValue("{" + (Quoted(path) + ("=" + valueText))) == Some((Table([(path, value)]), ""))
  {
    QuotedKeyStarts(path, valueText);
    LastPairIsRead(Quoted(path) + ("=" + valueText), path, valueText, value, "");
    TableIsRead(Quoted(path) + ("=" + valueText), [(path, value)], "");
  }

  const TRUST_KEY := "trust_level"
  const UNTRUSTED := "untrusted"

  lemma ProjectTableIsRead(path: string, key: string, word: string)
    requires IsBareKey(key)
    ensures ReadValue("{" + (Quoted(path) + ("=" + ("{" + (key + ("=" + (Quoted(word) + ("}" + "}")))))))) ==
            Some((Table([(path, Table([(key, Text(word))]))]), ""))
  {
    WordTableIsRead(key, word, "}");
    assert "}" + "" == "}";
    PathTableIsRead(path, "{" + (key + ("=" + (Quoted(word) + ("}" + "}")))), Table([(key, Text(word))]));
  }

  lemma TrustKeyIsBare()
    ensures IsBareKey(TRUST_KEY)
  {
  }

  /** The untrusted table of one project, up to the end. */
  function TrustText(quoted: string): string {
    "{" + (quoted + ("=" + ("{" + (TRUST_KEY + ("=" + (("\"" + UNTRUSTED + "\"") + ("}" + "}")))))))
  }

  lemma TrustTableIsRead(root: string)
    ensures ReadValue(TrustText(Quoted(root))) == Some((Table([(root, Table([(TRUST_KEY, Text(UNTRUSTED))]))]), ""))
  {
    PlainWordQuotes(UNTRUSTED);
    TrustKeyIsBare();
    ProjectTableIsRead(root, TRUST_KEY, UNTRUSTED);
  }

  lemma TrustIsRead(root: string)
    ensures ReadOverride("projects" + "=" + TrustText(Quoted(root)))
            == Some(("projects", Table([(root, Table([(TRUST_KEY, Text(UNTRUSTED))]))])))
  {
    TrustTableIsRead(root);
    KeyHasNoEquals();
    OverrideReads("projects", TrustText(Quoted(root)), Table([(root, Table([(TRUST_KEY, Text(UNTRUSTED))]))]));
  }

  /** The `projects` override marks exactly the project root as untrusted. */
  method ProjectTrust(root: string) returns (text: string)
    ensures ReadOverride(text) == Some(("projects", Table([(root, Table([(TRUST_KEY, Text(UNTRUSTED))]))])))
  {
    var quoted := QuoteToml(root);
    text := "projects" + "=" + TrustText(quoted);
    TrustIsRead(root);
  }

  /** Words of lower-case letters are quoted without escapes. */
  lemma {:induction false} PlainWordQuotes(word: string)
    requires forall k :: 0 <= k < |word| ==> 'a' <= word[k] <= 'z'
    ensures Quoted(word) == "\"" + word + "\""
  {
    PlainEscapes(word);
  }

  lemma {:induction false} PlainEscapes(word: string)
    requires forall k :: 0 <= k < |word| ==> 'a' <= word[k] <= 'z'
    ensures EscapeAll(word) == word
  {
    if word != [] {
      PlainEscapes(word[1..]);
      assert EscapeChar(word[0]) == [word[0]];
      assert word == [word[0]] + word[1..];
    }
  }

  // ---------------------------------------------------------------- alphabets

  const UPPER := "ABCDEFGHIJKLMNOPQRSTUVWXYZ"

  const LOWER := "abcdefghijklmnopqrstuvwxyz"

  const DIGITS := "0123456789"

  lemma UpperMeans(c: char)
    ensures c in UPPER <==> 'A' <= c <= 'Z'
  {
    assert 'A' <= c <= 'Z' ==> UPPER[c as int - 'A' as int] == c;
  }

  lemma LowerMeans(c: char)
    ensures c in LOWER <==> 'a' <= c <= 'z'
  {
    assert 'a' <= c <= 'z' ==> LOWER[c as int - 'a' as int] == c;
  }

  lemma DigitMeans(c: char)
    ensures c in DIGITS <==> '0' <= c <= '9'
  {
    assert '0' <= c <= '9' ==> DIGITS[c as int - '0' as int] == c;
  }

  lemma BareKeyMeans(c: char)
    ensures BareKeyChar(c) <==> c in UPPER || c in LOWER || c in DIGITS || c == '_' || c == '-'
  {
    UpperMeans(c);
    LowerMeans(c);
    DigitMeans(c);
  }

  /** The writer's digits are the lower-case ones. */
  lemma HexDigitMeans(n: nat)
    requires n < 16
    ensures HexDigit(n) == "0123456789abcdef"[n]
  {
  }

  /** Five characters have an escape of their own, every other control character has a code, and the rest stand. */
  lemma EscapeExactly(c: char)
    ensures |EscapeChar(c)|
            == if c in "\\\"\n\r\t" then 2
               else if (c as int) < 0x20 || 0x7f <= (c as int) <= 0x9f then 6
               else 1
    ensures |EscapeChar(c)| == 1 ==> EscapeChar(c) == [c]
  {
    if IsControl(c) {
      PaddedHexDenotes(c);
    }
  }

  // ---------------------------------------------------------------- the environment filter table

  /** `valid_environment_name`; every accepted name is ASCII, so its length in bytes is its length. */
  predicate ValidEnvironmentName(name: string) {
    name != [] && |name| <= 128
    && !('0' <= name[0] <= '9')
    && forall c :: c in name ==> BareKeyChar(c) && c != '-'
  }

  /** A name has at most 128 characters, first a letter or an underscore and then also digits. */
  lemma EnvironmentNameMeans(name: string)
    ensures ValidEnvironmentName(name)
            <==> && 0 < |name| <= 128 && (name[0] in UPPER || name[0] in LOWER || name[0] == '_')
                 && forall c :: c in name ==> c in UPPER || c in LOWER || c in DIGITS || c == '_'
  {
    forall c | c in name
      ensures BareKeyChar(c) && c != '-' <==> c in UPPER || c in LOWER || c in DIGITS || c == '_'
      ensures BareKeyChar(c) && c != '-' && !('0' <= c <= '9') <==> c in UPPER || c in LOWER || c == '_'
    {
      BareKeyMeans(c);
      DigitMeans(c);
    }
    if name != [] {
      assert name[0] in name;
    }
  }

  function WordPairs(names: seq<string>, word: string): seq<(string, Toml)> {
    seq(|names|, i requires 0 <= i < |names| => (names[i], Text(word)))
  }

  function Kept(names: seq<string>, skipped: string -> bool): seq<string> {
    if names == [] then []
    else if skipped(names[|names| - 1]) then Kept(names[..|names| - 1], skipped)
    else Kept(names[..|names| - 1], skipped) + [names[|names| - 1]]
  }

  const INCLUDE := "include"

  function FilterEntry(name: string, word: string): string {
    name + ("=" + Quoted(word))
  }

  /** The entries between commas; `word` needs no escape in the source, where it is `include`. */
  function Joined(names: seq<string>, word: string): string {
    if names == [] then []
    else if |names| == 1 then FilterEntry(names[0], word)
    else FilterEntry(names[0], word) + ("," + Joined(names[1..], word))
  }

  lemma EntryThen(name: string, word: string, rest: string)
    ensures FilterEntry(name, word) + rest == name + ("=" + (Quoted(word) + rest))
  {
    var quoted := Quoted(word);
    assert (name + ("=" + quoted)) + rest == name + ("=" + (quoted + rest));
  }

  lemma {:induction false} JoinedIsRead(names: seq<string>, word: string, rest: string)
    requires names != [] && forall name :: name in names ==> ValidEnvironmentName(name)
    ensures ReadPairs(Joined(names, word) + ("}" + rest)) == Some((WordPairs(names, word), rest))
  {
    if |names| == 1 {
      LastEntryIsRead(names[0], word, rest);
      assert WordPairs(names, word) == [(names[0], Text(word))];
    } else {
      JoinedIsRead(names[1..], word, rest);
      FirstEntryIsRead(names[0], word, Joined(names[1..], word) + ("}" + rest), WordPairs(names[1..], word), rest);
      JoinedCons(names, word, "}" + rest);
      WordPairsCons(names, word);
    }
  }

  lemma JoinedCons(names: seq<string>, word: string, rest: string)
    requires |names| > 1
    ensures Joined(names, word) + rest == FilterEntry(names[0], word) + ("," + (Joined(names[1..], word) + rest))
  {
  }

  lemma WordPairsCons(names: seq<string>, word: string)
    requires names != []
    ensures WordPairs(names, word) == [(names[0], Text(word))] + WordPairs(names[1..], word)
  {
  }

  lemma LastEntryIsRead(name: string, word: string, rest: string)
    requires ValidEnvironmentName(name)
    ensures ReadPairs(FilterEntry(name, word) + ("}" + rest)) == Some(([(name, Text(word))], rest))
  {
    var valueText := Quoted(word) + ("}" + rest);
    EntryThen(name, word, "}" + rest);
    BareKeyStarts(name, valueText);
    TextStarts(word, "}" + rest);
    LastPairIsRead(name + ("=" + valueText), name, valueText, Text(word), rest);
  }

  lemma FirstEntryIsRead(name: string, word: string, more: string, pairs: seq<(string, Toml)>, rest: string)
    requires ValidEnvironmentName(name) && ReadPairs(more) == Some((pairs, rest))
    ensures ReadPairs(FilterEntry(name, word) + ("," + more)) == Some(([(name, Text(word))] + pairs, rest))
  {
    var valueText := Quoted(word) + ("," + more);
    EntryThen(name, word, "," + more);
    BareKeyStarts(name, valueText);
    TextStarts(word, "," + more);
    PairIsRead(name + ("=" + valueText), name, valueText, Text(word), more, pairs, rest);
  }

  lemma EmptyTableIsRead(rest: string)
    ensures ValueStarts("{" + ("}" + rest), Table([]), rest)
  {
    assert ("{" + ("}" + rest))[1..] == "}" + rest;
    assert ("}" + rest)[1..] == rest;
  }

  lemma JoinedStarts(names: seq<string>, word: string)
    requires names != [] && ValidEnvironmentName(names[0])
    ensures Joined(names, word) != [] && Joined(names, word)[0] == names[0][0]
    ensures BareKeyChar(names[0][0])
  {
    assert FilterEntry(names[0], word)[0] == names[0][0];
    assert names[0][0] in names[0];
  }

  lemma FilterTableIsRead(names: seq<string>, word: string, rest: string)
    requires (forall name :: name in names ==> ValidEnvironmentName(name)) && Distinct(names)
    ensures ValueStarts("{" + (Joined(names, word) + ("}" + rest)), Table(WordPairs(names, word)), rest)
  {
    if names == [] {
      EmptyTableIsRead(rest);
      assert Joined(names, word) + ("}" + rest) == "}" + rest && WordPairs(names, word) == [];
    } else {
      JoinedIsRead(names, word, rest);
      JoinedStarts(names, word);
      TableIsRead(Joined(names, word) + ("}" + rest), WordPairs(names, word), rest);
    }
  }

  predicate Distinct(names: seq<string>) {
    forall i, j :: 0 <= i < j < |names| ==> names[i] != names[j]
  }

  lemma {:induction false} KeptIsDistinct(names: seq<string>, skipped: string -> bool)
    requires Distinct(names)
    ensures Distinct(Kept(names, skipped))
    ensures forall name :: name in Kept(names, skipped) <==> name in names && !skipped(name)
  {
    if names != [] {
      var front := names[..|names| - 1];
      KeptIsDistinct(front, skipped);
      assert names == front + [names[|names| - 1]];
    }
  }

  /** Some name that is not screened out is invalid. */
  predicate Refuses(names: seq<string>, skipped: string -> bool) {
    exists name :: name in names && !skipped(name) && !ValidEnvironmentName(name)
  }

  /**
   `environment_filters`, over the names in set order and with the credential and proxy screening as a
   parameter. It answers None exactly when some name that is not skipped is invalid; otherwise the text,
   put between braces, is an inline table that includes exactly the kept names. The source writes the word
   `include` between plain quotes, which `PlainWordQuotes` shows to be its quoted form.
   */
  method EnvironmentFilters(names: seq<string>, skipped: string -> bool) returns (text: Option<string>)
    requires Distinct(names)
    ensures text.None? <==> Refuses(names, skipped)
    ensures text.Some? ==>
              && text.value == Joined(Kept(names, skipped), INCLUDE)
              && ReadValue("{" + (text.value + "}")) == Some((Table(WordPairs(Kept(names, skipped), INCLUDE)), ""))
  {
    var entries: seq<string> := [];
    for i := 0 to |names|
      invariant entries == Kept(names[..i], skipped)
      invariant forall name :: name in names[..i] ==> skipped(name) || ValidEnvironmentName(name)
    {
      var name := names[i];
      assert names[..i + 1] == names[..i] + [name];
      if !skipped(name) {
        if !ValidEnvironmentName(name) {
          return None;
        }
        entries := entries + [name];
      }
    }
    assert names[..|names|] == names;
    text := Some(Joined(entries, INCLUDE));
    KeptIsDistinct(names, skipped);
    FilterTableIsRead(entries, INCLUDE, "");
    assert "}" + "" == "}";
  }

  const POLICY_KEY := "shell_environment_policy"
  const INHERIT_KEY := "inherit"
  const INHERIT_ALL := "all"
  const EXCLUDES_KEY := "ignore_default_excludes"
  const PROFILE_KEY := "experimental_use_profile"
  const FILTERS_KEY := "filters"

  lemma FalseStarts(rest: string)
    ensures ValueStarts("false" + rest, Flag(false), rest)
  {
    assert ("false" + rest)[5..] == rest;
  }

  lemma FlagPairIsRead(key: string, more: string, pairs: seq<(string, Toml)>, rest: string)
    requires IsBareKey(key) && ReadPairs(more) == Some((pairs, rest))
    ensures ReadPairs(key + ("=" + ("false" + ("," + more)))) == Some(([(key, Flag(false))] + pairs, rest))
  {
    var valueText := "false" + ("," + more);
    BareKeyStarts(key, valueText);
    FalseStarts("," + more);
    PairIsRead(key + ("=" + valueText), key, valueText, Flag(false), more, pairs, rest);
  }

  lemma WordPairIsRead(key: string, word: string, more: string, pairs: seq<(string, Toml)>, rest: string)
    requires IsBareKey(key) && ReadPairs(more) == Some((pairs, rest))
    ensures ReadPairs(key + ("=" + (Quoted(word) + ("," + more)))) == Some(([(key, Text(word))] + pairs, rest))
  {
    var valueText := Quoted(word) + ("," + more);
    BareKeyStarts(key, valueText);
    TextStarts(word, "," + more);
    PairIsRead(key + ("=" + valueText), key, valueText, Text(word), more, pairs, rest);
  }

  /** The last pair of the policy, whose value is the filter table. */
  lemma FiltersPairIsRead(key: string, names: seq<string>)
    requires IsBareKey(key)
    requires (forall name :: name in names ==> ValidEnvironmentName(name)) && Distinct(names)
    ensures ReadPairs(key + ("=" + ("{" + (Joined(names, INCLUDE) + ("}" + "}")))))
            == Some(([(key, Table(WordPairs(names, INCLUDE)))], ""))
  {
    var valueText := "{" + (Joined(names, INCLUDE) + ("}" + "}"));
    BareKeyStarts(key, valueText);
    FilterTableIsRead(names, INCLUDE, "}");
    assert "}" + "" == "}";
    LastPairIsRead(key + ("=" + valueText), key, valueText, Table(WordPairs(names, INCLUDE)), "");
  }

  /** The keys of the policy, and what they hold. */
  function PolicyPairs(filters: Toml): seq<(string, Toml)> {
    [(INHERIT_KEY, Text(INHERIT_ALL))]
    + ([(EXCLUDES_KEY, Flag(false))] + ([(PROFILE_KEY, Flag(false))] + [(FILTERS_KEY, filters)]))
  }

  lemma PolicyKeysAreBare()
    ensures IsBareKey(INHERIT_KEY) && IsBareKey(EXCLUDES_KEY) && IsBareKey(PROFILE_KEY) && IsBareKey(FILTERS_KEY)
  {
  }

  lemma PolicyKeysDiffer(filters: Toml)
    ensures DistinctKeys(PolicyPairs(filters)) && '=' !in POLICY_KEY
  {
    assert |INHERIT_KEY| == 7 && |EXCLUDES_KEY| == 23 && |PROFILE_KEY| == 24 && |FILTERS_KEY| == 7;
    assert INHERIT_KEY[0] != FILTERS_KEY[0];
  }

  function AfterKey(key: string, valueText: string): string {
    key + ("=" + valueText)
  }

  /** The text of the policy between its braces, up to the end. */
  function PolicyText(filters: string): string {
    var last := AfterKey(FILTERS_KEY, "{" + (filters + ("}" + "}")));
    var profile := AfterKey(PROFILE_KEY, "false" + ("," + last));
    var excludes := AfterKey(EXCLUDES_KEY, "false" + ("," + profile));
    AfterKey(INHERIT_KEY, ("\"" + INHERIT_ALL + "\"") + ("," + excludes))
  }

  lemma PolicyTextIsRead(names: seq<string>)
    requires (forall name :: name in names ==> ValidEnvironmentName(name)) && Distinct(names)
    ensures ReadPairs(PolicyText(Joined(names, INCLUDE)))
            == Some((PolicyPairs(Table(WordPairs(names, INCLUDE))), ""))
  {
    var table := Table(WordPairs(names, INCLUDE));
    var last := AfterKey(FILTERS_KEY, "{" + (Joined(names, INCLUDE) + ("}" + "}")));
    var profile := AfterKey(PROFILE_KEY, "false" + ("," + last));
    var excludes := AfterKey(EXCLUDES_KEY, "false" + ("," + profile));
    PolicyKeysAreBare();
    PlainWordQuotes(INHERIT_ALL);
    FiltersPairIsRead(FILTERS_KEY, names);
    FlagPairIsRead(PROFILE_KEY, last, [(FILTERS_KEY, table)], "");
    FlagPairIsRead(EXCLUDES_KEY, profile, [(PROFILE_KEY, Flag(false))] + [(FILTERS_KEY, table)], "");
    WordPairIsRead(INHERIT_KEY, INHERIT_ALL, excludes,
                   [(EXCLUDES_KEY, Flag(false))] + ([(PROFILE_KEY, Flag(false))] + [(FILTERS_KEY, table)]), "");
  }

  lemma PolicyTextStarts(filters: string)
    ensures var text := PolicyText(filters);
            text != [] && SkipBlank(text) == text && text[0] != '}'
  {
    assert PolicyText(filters)[0] == INHERIT_KEY[0];
  }

  lemma PolicyTableIsRead(names: seq<string>)
    requires (forall name :: name in names ==> ValidEnvironmentName(name)) && Distinct(names)
    ensures ReadValue("{" + PolicyText(Joined(names, INCLUDE)))
            == Some((Table(PolicyPairs(Table(WordPairs(names, INCLUDE)))), ""))
  {
    PolicyTextIsRead(names);
    PolicyTextStarts(Joined(names, INCLUDE));
    PolicyKeysDiffer(Table(WordPairs(names, INCLUDE)));
    TableIsRead(PolicyText(Joined(names, INCLUDE)), PolicyPairs(Table(WordPairs(names, INCLUDE))), "");
  }

  lemma PolicyIsRead(names: seq<string>)
    requires (forall name :: name in names ==> ValidEnvironmentName(name)) && Distinct(names)
    ensures ReadOverride(POLICY_KEY + "=" + ("{" + PolicyText(Joined(names, INCLUDE))))
            == Some((POLICY_KEY, Table(PolicyPairs(Table(WordPairs(names, INCLUDE))))))
  {
    PolicyTableIsRead(names);
    PolicyKeysDiffer(Table(WordPairs(names, INCLUDE)));
    OverrideReads(POLICY_KEY, "{" + PolicyText(Joined(names, INCLUDE)),
                  Table(PolicyPairs(Table(WordPairs(names, INCLUDE)))));
  }

  /**
   The `shell_environment_policy` override as a whole: it inherits everything, ignores no default exclusion, uses no
   profile, and its filters include exactly the kept names.
   */
  method ShellEnvironmentPolicy(names: seq<string>, skipped: string -> bool) returns (text: Option<string>)
    requires Distinct(names)
    ensures text.None? <==> Refuses(names, skipped)
    ensures text.Some? ==>
              ReadOverride(text.value)
              == Some((POLICY_KEY, Table(PolicyPairs(Table(WordPairs(Kept(names, skipped), INCLUDE))))))
  {
    var filters := EnvironmentFilters(names, skipped);
    if filters.None? {
      return None;
    }
    text := Some(POLICY_KEY + "=" + ("{" + PolicyText(filters.value)));
    KeptIsDistinct(names, skipped);
    PolicyIsRead(Kept(names, skipped));
  }
}
