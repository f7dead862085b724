/** Session identifiers in text and in file names (`src/codex_session.rs`). */
module SessionNames {
  import opened RustText
  import opened Wrappers

  const UUID_LENGTH := 36
  const EXTENSION := ".jsonl"

  predicate UuidChar(k: nat, c: char) {
    if k == 8 || k == 13 || k == 18 || k == 23 then c == '-' else '0' <= c <= '9' || 'a' <= c <= 'f'
  }

  /** The hyphenated lower-case form of section 4 of RFC 9562. */
  predicate CanonicalUuid(text: string) {
    |text| == UUID_LENGTH && forall k :: 0 <= k < UUID_LENGTH ==> UuidChar(k, text[k])
  }

  /** `normalize_session_id`: surrounding white space is dropped, any other form is refused. */
  function NormalizeSessionId(value: string): Option<string> {
    if CanonicalUuid(Trim(value)) then Some(Trim(value)) else None
  }

  // ---------------------------------------------------------------- the identifier in a record

  predicate HexDigit(c: char) {
    '0' <= c <= '9' || 'a' <= c <= 'f' || 'A' <= c <= 'F'
  }

  function LowerHex(c: char): char {
    if 'A' <= c <= 'F' then c - 'A' + 'a' else c
  }

  function Lower(text: string): string {
    seq(|text|, i requires 0 <= i < |text| => LowerHex(text[i]))
  }

  const SIMPLE_LENGTH := 32
  const URN_PREFIX := "urn:uuid:"

  /** The simple form of the `uuid` crate: digits without hyphens. */
  predicate SimpleUuid(text: string) {
    |text| == SIMPLE_LENGTH && forall i :: 0 <= i < SIMPLE_LENGTH ==> HexDigit(text[i])
  }

  /** The hyphenated form, in either case. */
  predicate HyphenatedUuid(text: string) {
    |text| == UUID_LENGTH
    && forall k :: 0 <= k < UUID_LENGTH ==>
         if k == 8 || k == 13 || k == 18 || k == 23 then text[k] == '-' else HexDigit(text[k])
  }

  function WithHyphens(digits: string): string
    requires |digits| == SIMPLE_LENGTH
  {
    digits[..8] + "-" + digits[8..12] + "-" + digits[12..16] + "-" + digits[16..20] + "-" + digits[20..]
  }

  /** What stands inside braces, or after the prefix of a URN. */
  function Unwrapped(value: string): string {
    if |value| == UUID_LENGTH + 2 && value[0] == '{' && value[UUID_LENGTH + 1] == '}' then value[1..UUID_LENGTH + 1]
    else if |value| == |URN_PREFIX| + UUID_LENGTH && value[..|URN_PREFIX|] == URN_PREFIX then value[|URN_PREFIX|..]
    else value
  }

  /** `normalize_metadata_id`: any spelling that `Uuid::parse_str` accepts, and no white space. */
  function NormalizeMetadataId(value: string): Option<string> {
    if SimpleUuid(value) then Some(Lower(WithHyphens(value)))
    else if HyphenatedUuid(Unwrapped(value)) then Some(Lower(Unwrapped(value)))
    else None
  }

  /** What `parse` makes of the text after the first hyphen, from `i` on, of which it makes anything. */
  function FirstAfterHyphen(parse: string -> Option<string>, stem: string, i: nat): Option<string>
    decreases |stem| - i
  {
    if i >= |stem| then None
    else if stem[i] == '-' && parse(stem[i + 1..]).Some? then parse(stem[i + 1..])
    else FirstAfterHyphen(parse, stem, i + 1)
  }

  function Stem(filename: string): string
    requires EndsWith(filename, EXTENSION)
  {
    filename[..|filename| - |EXTENSION|]
  }

  /** `filename_session_id`, on the final component of the path. */
  function FilenameSessionId(filename: string): Option<string> {
    if EndsWith(filename, EXTENSION) then FirstAfterHyphen(NormalizeSessionId, Stem(filename), 0) else None
  }

  /** What the exact lookup searches for at the end of a name. */
  function ExactSuffix(id: string): string {
    "-" + id + EXTENSION
  }

  // ---------------------------------------------------------------- white space around an identifier

  lemma UuidEndsAreNotBlank(id: string)
    requires CanonicalUuid(id)
    ensures !IsWhitespace(id[0]) && !IsWhitespace(id[UUID_LENGTH - 1])
  {
    assert UuidChar(0, id[0]) && UuidChar(UUID_LENGTH - 1, id[UUID_LENGTH - 1]);
  }

  lemma NormalizeKeepsUuid(id: string)
    requires CanonicalUuid(id)
    ensures NormalizeSessionId(id) == Some(id)
  {
    UuidEndsAreNotBlank(id);
    TrimKeepsEnd(IsWhitespace, id);
    assert TrimStart(IsWhitespace, id) == id;
  }

  /** Whatever its spelling, the identifier of a record is read in the canonical form. */
  lemma MetadataIdIsCanonical(value: string)
    requires NormalizeMetadataId(value).Some?
    ensures CanonicalUuid(NormalizeMetadataId(value).value)
  {
    if SimpleUuid(value) {
      HyphensAreSet(value);
    }
  }

  lemma HyphensAreSet(digits: string)
    requires SimpleUuid(digits)
    ensures HyphenatedUuid(WithHyphens(digits))
  {
    forall k | 0 <= k < UUID_LENGTH
      ensures if k == 8 || k == 13 || k == 18 || k == 23 then WithHyphens(digits)[k] == '-'
              else HexDigit(WithHyphens(digits)[k])
    {
      if !(k == 8 || k == 13 || k == 18 || k == 23) {
        var i := if k < 8 then k else if k < 13 then k - 1 else if k < 18 then k - 2
                 else if k < 23 then k - 3 else k - 4;
        assert WithHyphens(digits)[k] == digits[i];
      }
    }
  }

  /** In these spellings a record may give a canonical identifier. */
  ghost predicate Spells(value: string, id: string) {
    || (SimpleUuid(value) && Lower(WithHyphens(value)) == id)
    || (HyphenatedUuid(value) && Lower(value) == id)
    || (exists text :: value == "{" + text + "}" && HyphenatedUuid(text) && Lower(text) == id)
    || (exists text :: value == URN_PREFIX + text && HyphenatedUuid(text) && Lower(text) == id)
  }

  lemma BracedIsRead(value: string, text: string)
    requires value == "{" + text + "}" && HyphenatedUuid(text)
    ensures NormalizeMetadataId(value) == Some(Lower(text))
  {
    assert value[1..UUID_LENGTH + 1] == text;
  }

  lemma UrnIsRead(value: string, text: string)
    requires value == URN_PREFIX + text && HyphenatedUuid(text)
    ensures NormalizeMetadataId(value) == Some(Lower(text))
  {
    assert value[0] == 'u';
    assert value[|URN_PREFIX|..] == text && value[..|URN_PREFIX|] == URN_PREFIX;
  }

  lemma MetadataKeepsUuid(id: string)
    requires CanonicalUuid(id)
    ensures NormalizeMetadataId(id) == Some(id)
  {
    forall k | 0 <= k < UUID_LENGTH
      ensures HexDigit(id[k]) || id[k] == '-'
    {
      assert UuidChar(k, id[k]);
    }
    assert HyphenatedUuid(id) by {
      forall k | 0 <= k < UUID_LENGTH
        ensures if k == 8 || k == 13 || k == 18 || k == 23 then id[k] == '-' else HexDigit(id[k])
      {
        assert UuidChar(k, id[k]);
      }
    }
    assert Lower(id) == id by {
      forall k | 0 <= k < UUID_LENGTH
        ensures LowerHex(id[k]) == id[k]
      {
        assert UuidChar(k, id[k]);
      }
    }
  }

  /** The identifier of a record is the one that one of its spellings stands for, and no other text is read. */
  lemma MetadataIdMeans(value: string, id: string)
    ensures NormalizeMetadataId(value) == Some(id) <==> Spells(value, id)
  {
    if NormalizeMetadataId(value) == Some(id) && !SimpleUuid(value) && Unwrapped(value) != value {
      var text := Unwrapped(value);
      if |value| == UUID_LENGTH + 2 {
        assert value == "{" + text + "}";
      } else {
        assert value == URN_PREFIX + text;
      }
    }
    if text :| value == "{" + text + "}" && HyphenatedUuid(text) && Lower(text) == id {
      BracedIsRead(value, text);
    }
    if text :| value == URN_PREFIX + text && HyphenatedUuid(text) && Lower(text) == id {
      UrnIsRead(value, text);
    }
  }

  // ---------------------------------------------------------------- names that both lookups recognise

  /** The last 36 characters are the identifier, and a hyphen stands before them. */
  predicate EndsInId(text: string, id: string)
    requires |id| == UUID_LENGTH
  {
    |text| > UUID_LENGTH && text[|text| - UUID_LENGTH..] == id && text[|text| - UUID_LENGTH - 1] == '-'
  }

  lemma LongerStaysLonger(blank: char -> bool, text: string, id: string)
    requires |id| == UUID_LENGTH && EndsInId(text, id) && !blank('-') && !blank(id[UUID_LENGTH - 1])
    ensures |TrimBoth(blank, text)| > UUID_LENGTH
  {
    assert text[|text| - 1] == id[UUID_LENGTH - 1];
    TrimKeepsEnd(blank, text);
    TrimStartStops(blank, text, |text| - UUID_LENGTH - 1);
  }

  /** A longer text that ends with a hyphen and an identifier is no identifier itself. */
  lemma LongerIsNoSessionId(text: string, id: string)
    requires CanonicalUuid(id) && EndsInId(text, id)
    ensures NormalizeSessionId(text).None?
  {
    UuidEndsAreNotBlank(id);
    LongerStaysLonger(IsWhitespace, text, id);
  }

  lemma {:induction false} FirstIsLast(stem: string, i: nat, id: string)
    requires CanonicalUuid(id) && EndsInId(stem, id) && i <= |stem| - UUID_LENGTH - 1
    ensures FirstAfterHyphen(NormalizeSessionId, stem, i) == Some(id)
    decreases |stem| - i
  {
    if i == |stem| - UUID_LENGTH - 1 {
      NormalizeKeepsUuid(id);
    } else {
      var text := stem[i + 1..];
      assert text[|text| - UUID_LENGTH..] == id;
      LongerIsNoSessionId(text, id);
      FirstIsLast(stem, i + 1, id);
    }
  }

  lemma ExactNameSplits(filename: string, id: string)
    requires |id| == UUID_LENGTH && EndsWith(filename, ExactSuffix(id))
    ensures EndsWith(filename, EXTENSION) && EndsInId(Stem(filename), id)
  {
    var suffix := ExactSuffix(id);
    assert filename == filename[..|filename| - |suffix|] + suffix;
  }

  lemma ExactNameJoins(filename: string, id: string)
    requires |id| == UUID_LENGTH && EndsWith(filename, EXTENSION) && EndsInId(Stem(filename), id)
    ensures EndsWith(filename, ExactSuffix(id))
  {
    var stem := Stem(filename);
    var front := stem[..|stem| - UUID_LENGTH - 1];
    assert stem == front + ("-" + id);
    assert filename == stem + EXTENSION;
    assert filename == front + ExactSuffix(id);
  }

  /** Every name that the exact lookup takes for `id` carries `id`. */
  lemma ExactNameCarriesId(filename: string, id: string)
    requires CanonicalUuid(id) && EndsWith(filename, ExactSuffix(id))
    ensures FilenameSessionId(filename) == Some(id)
  {
    ExactNameSplits(filename, id);
    FirstIsLast(Stem(filename), 0, id);
  }

  /** The name ends neither in white space, nor has any between its hyphen and the last 36 characters. */
  predicate Unpadded(filename: string)
    requires EndsWith(filename, EXTENSION)
  {
    var stem := Stem(filename);
    |stem| > UUID_LENGTH && !IsWhitespace(stem[|stem| - 1]) && stem[|stem| - UUID_LENGTH - 1] == '-'
  }

  lemma {:induction false} FirstIsSomewhere(parse: string -> Option<string>, stem: string, i: nat) returns (k: nat)
    requires FirstAfterHyphen(parse, stem, i).Some?
    ensures i <= k < |stem| && parse(stem[k + 1..]) == FirstAfterHyphen(parse, stem, i)
    decreases |stem| - i
  {
    if stem[i] == '-' && parse(stem[i + 1..]).Some? {
      k := i;
    } else {
      k := FirstIsSomewhere(parse, stem, i + 1);
    }
  }

  lemma TrimmedTail(blank: char -> bool, stem: string, k: nat, id: string)
    requires k <= |stem| && id != [] && TrimBoth(blank, stem[k..]) == id && !blank(stem[|stem| - 1])
    ensures |id| <= |stem| && id == stem[|stem| - |id|..]
  {
    assert stem[k..] != [] by { assert TrimBoth(blank, []) == []; }
    assert stem[k..][|stem| - k - 1] == stem[|stem| - 1];
    TrimKeepsEnd(blank, stem[k..]);
    SuffixOfSuffix(stem, k, |id|);
  }

  lemma SuffixOfSuffix(text: string, k: nat, n: nat)
    requires n <= |text| - k && k <= |text|
    ensures text[k..][|text| - k - n..] == text[|text| - n..]
  {
  }

  lemma ExactIsUnpadded(filename: string, id: string)
    requires CanonicalUuid(id) && EndsWith(filename, ExactSuffix(id))
    ensures EndsWith(filename, EXTENSION) && Unpadded(filename)
  {
    ExactNameSplits(filename, id);
    UuidEndsAreNotBlank(id);
    var stem := Stem(filename);
    assert stem[|stem| - 1] == id[UUID_LENGTH - 1];
  }

  /**
   The two lookups read names differently: the identifier in a name may be surrounded by white space, the
   exact lookup allows none. A name that carries `id` is found by the exact lookup for `id` if and only if it
   is not padded.
   */
  lemma CarriedIdIsExactUnlessPadded(filename: string, id: string)
    requires FilenameSessionId(filename) == Some(id)
    ensures CanonicalUuid(id)
    ensures EndsWith(filename, ExactSuffix(id)) <==> Unpadded(filename)
  {
    var stem := Stem(filename);
    var k := FirstIsSomewhere(NormalizeSessionId, stem, 0);
    assert Trim(stem[k + 1..]) == id && CanonicalUuid(id);
    if Unpadded(filename) {
      TrimmedTail(IsWhitespace, stem, k + 1, id);
      ExactNameJoins(filename, id);
    }
    if EndsWith(filename, ExactSuffix(id)) {
      ExactIsUnpadded(filename, id);
    }
  }
}
