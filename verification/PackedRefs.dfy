/**
 The packed-refs scanner and the three-source answer of `src/campaign.rs`.

 The scanner is one pass with three variables; `Scan` is what a packed-refs file means, stated on its lines.
 */
module PackedRefs {
  import opened RustText
  import opened Wrappers

  datatype Presence = Present | Absent | Invalid

  // ---------------------------------------------------------------- lines

  function DropCarriageReturn(line: string): string {
    if line != [] && line[|line| - 1] == '\r' then line[..|line| - 1] else line
  }

  /**
   `str::lines`: a line feed ends a line and takes one carriage return before it along; the text after the
   last line feed is a line only when it is not empty, and keeps its carriage return.
   */
  function Lines(text: string): seq<string> {
    LinesOfPieces(Split(text, '\n'))
  }

  function LinesOfPieces(pieces: seq<string>): seq<string>
    requires |pieces| >= 1
  {
    if |pieces| == 1 then (if pieces[0] == [] then [] else pieces)
    else [DropCarriageReturn(pieces[0])] + LinesOfPieces(pieces[1..])
  }

  // ---------------------------------------------------------------- the grammar of one line

  /** `canonical_full_sha`. */
  predicate FullSha(text: string) {
    (|text| == 40 || |text| == 64)
    && forall k :: 0 <= k < |text| ==> '0' <= text[k] <= '9' || 'a' <= text[k] <= 'f'
  }

  const HEX_DIGITS := "0123456789abcdef"

  lemma HexDigitMeans(c: char)
    ensures c in HEX_DIGITS <==> '0' <= c <= '9' || 'a' <= c <= 'f'
  {
    if '0' <= c <= '9' {
      assert HEX_DIGITS[c as int - '0' as int] == c;
    } else if 'a' <= c <= 'f' {
      assert HEX_DIGITS[10 + c as int - 'a' as int] == c;
    }
  }

  /** An object id is 40 or 64 of the lower-case hexadecimal digits. */
  lemma FullShaMeans(text: string)
    ensures FullSha(text) <==> (|text| == 40 || |text| == 64) && forall c :: c in text ==> c in HEX_DIGITS
  {
    forall k | 0 <= k < |text|
      ensures text[k] in text
      ensures text[k] in HEX_DIGITS <==> '0' <= text[k] <= '9' || 'a' <= text[k] <= 'f'
    {
      HexDigitMeans(text[k]);
    }
  }

  datatype Line = Skipped | Peeled | Entry(name: string) | Malformed

  function LineKind(line: string): Line {
    if line == [] || line[0] == '#' then Skipped
    else if line[0] == '^' then (if FullSha(line[1..]) then Peeled else Malformed)
    else
      var fields := Split(line, ' ');
      if Trimmed(line) && |fields| == 2 && FullSha(fields[0]) && "refs/" <= fields[1] then Entry(fields[1])
      else Malformed
  }

  predicate IsTag(kind: Line) {
    kind.Entry? && "refs/tags/" <= kind.name
  }

  predicate LineFits(lines: seq<string>, i: nat)
    requires i < |lines|
  {
    var kind := LineKind(lines[i]);
    !kind.Malformed? && (kind.Peeled? ==> i > 0 && IsTag(LineKind(lines[i - 1])))
  }

  /** Every line has a form, and a peeled line stands directly after an entry for a tag. */
  predicate WellFormed(lines: seq<string>) {
    forall i :: 0 <= i < |lines| ==> LineFits(lines, i)
  }

  predicate Names(lines: seq<string>, i: nat, reference: string)
    requires i < |lines|
  {
    LineKind(lines[i]) == Entry(reference)
  }

  /** How many of the first `n` lines are entries for the reference. */
  function Named(lines: seq<string>, n: nat, reference: string): nat
    requires n <= |lines|
  {
    if n == 0 then 0
    else Named(lines, n - 1, reference) + if Names(lines, n - 1, reference) then 1 else 0
  }

  /** The meaning of the file for one reference. */
  function Scan(lines: seq<string>, reference: string): Presence {
    var entries := Named(lines, |lines|, reference);
    if !WellFormed(lines) || entries > 1 then Invalid
    else if entries == 1 then Present
    else Absent
  }

  // ---------------------------------------------------------------- the scanner

  lemma {:induction false} NamedGrows(lines: seq<string>, i: nat, reference: string)
    requires i <= |lines|
    ensures Named(lines, i, reference) <= Named(lines, |lines|, reference)
    decreases |lines| - i
  {
    if i < |lines| {
      NamedGrows(lines, i + 1, reference);
    }
  }

  lemma UnfitLineSpoils(lines: seq<string>, i: nat, reference: string)
    requires i < |lines| && !LineFits(lines, i)
    ensures Scan(lines, reference) == Invalid
  {
  }

  /** `parse_packed_refs`; `decoded` is None when the bytes are not UTF-8. */
  method ParsePackedRefs(decoded: Option<string>, reference: string) returns (presence: Presence)
    ensures presence == if decoded.None? then Invalid else Scan(Lines(decoded.value), reference)
  {
    if decoded.None? {
      return Invalid;
    }
    presence := ScanLines(Lines(decoded.value), reference);
  }

  method ScanLines(lines: seq<string>, reference: string) returns (presence: Presence)
    ensures presence == Scan(lines, reference)
  {
    presence := Absent;
    var targetEntries := 0;
    var previousWasTag := false;
    for i := 0 to |lines|
      invariant forall j :: 0 <= j < i ==> LineFits(lines, j)
      invariant targetEntries == Named(lines, i, reference) <= 1
      invariant presence == if targetEntries == 1 then Present else Absent
      invariant previousWasTag <==> i > 0 && IsTag(LineKind(lines[i - 1]))
    {
      var line := lines[i];
      if line == [] || line[0] == '#' {
        previousWasTag := false;
        continue;
      }
      if line[0] == '^' {
        if !previousWasTag || !FullSha(line[1..]) {
          UnfitLineSpoils(lines, i, reference);
          return Invalid;
        }
        previousWasTag := false;
        continue;
      }
      if !Trimmed(line) {
        UnfitLineSpoils(lines, i, reference);
        return Invalid;
      }
      var fields := Split(line, ' ');
      if |fields| != 2 || !FullSha(fields[0]) || !("refs/" <= fields[1]) {
        UnfitLineSpoils(lines, i, reference);
        return Invalid;
      }
      assert LineKind(line) == Entry(fields[1]);
      if fields[1] == reference {
        if targetEntries != 0 {
          NamedGrows(lines, i + 1, reference);
          return Invalid;
        }
        targetEntries := targetEntries + 1;
        presence := Present;
      }
      previousWasTag := "refs/tags/" <= fields[1];
    }
  }

  lemma {:induction false} NamedZero(lines: seq<string>, n: nat, reference: string)
    requires n <= |lines|
    ensures Named(lines, n, reference) == 0 <==> forall i :: 0 <= i < n ==> !Names(lines, i, reference)
  {
    if n > 0 {
      NamedZero(lines, n - 1, reference);
      if Named(lines, n, reference) != 0 && !Names(lines, n - 1, reference) {
        var i :| 0 <= i < n - 1 && Names(lines, i, reference);
        assert Names(lines, i, reference);
      }
    }
  }

  /** Among the first `n` lines, line `i` and no other is an entry for the reference. */
  predicate NamedOnlyAt(lines: seq<string>, n: nat, i: nat, reference: string)
    requires i < n <= |lines|
  {
    Names(lines, i, reference) && forall j :: 0 <= j < n && j != i ==> !Names(lines, j, reference)
  }

  lemma {:induction false} NamedOne(lines: seq<string>, n: nat, reference: string)
    requires n <= |lines|
    ensures Named(lines, n, reference) == 1 <==> exists i :: 0 <= i < n && NamedOnlyAt(lines, n, i, reference)
  {
    if n > 0 {
      NamedOne(lines, n - 1, reference);
      NamedZero(lines, n - 1, reference);
      if Names(lines, n - 1, reference) {
        if Named(lines, n, reference) == 1 {
          assert NamedOnlyAt(lines, n, n - 1, reference);
        }
      } else if Named(lines, n, reference) == 1 {
        var i :| 0 <= i < n - 1 && NamedOnlyAt(lines, n - 1, i, reference);
        assert NamedOnlyAt(lines, n, i, reference);
      } else if i :| 0 <= i < n && NamedOnlyAt(lines, n, i, reference) {
        assert NamedOnlyAt(lines, n - 1, i, reference);
      }
    }
  }

  /** The answer in terms of places in the file. */
  lemma ScanMeans(lines: seq<string>, reference: string)
    ensures Scan(lines, reference) == Present <==>
            WellFormed(lines) && exists i :: 0 <= i < |lines| && NamedOnlyAt(lines, |lines|, i, reference)
    ensures Scan(lines, reference) == Absent <==>
            WellFormed(lines) && forall i :: 0 <= i < |lines| ==> !Names(lines, i, reference)
  {
    NamedZero(lines, |lines|, reference);
    NamedOne(lines, |lines|, reference);
  }

  // ---------------------------------------------------------------- printing and reading back

  /** One record as Git writes it: an entry, and for an annotated tag the object it peels to. */
  datatype Record = Record(objectId: string, name: string, peeled: Option<string>)

  predicate Printable(record: Record) {
    && FullSha(record.objectId)
    && "refs/" <= record.name
    && ' ' !in record.name && '\n' !in record.name
    && !IsWhitespace(record.name[|record.name| - 1])
    && (record.peeled.Some? ==> "refs/tags/" <= record.name && FullSha(record.peeled.value))
  }

  function EntryLine(record: Record): string {
    record.objectId + " " + record.name
  }

  function RecordLines(record: Record): seq<string> {
    [EntryLine(record)] + if record.peeled.Some? then ["^" + record.peeled.value] else []
  }

  function AllLines(records: seq<Record>): seq<string> {
    if records == [] then [] else AllLines(records[..|records| - 1]) + RecordLines(records[|records| - 1])
  }

  function Terminated(lines: seq<string>): string {
    if lines == [] then [] else lines[0] + "\n" + Terminated(lines[1..])
  }

  /** A header line, then the lines of every record, each ended by a line feed. */
  function Print(header: string, records: seq<Record>): string {
    Terminated([header] + AllLines(records))
  }

  function Mentions(records: seq<Record>, reference: string): nat {
    if records == [] then 0
    else
      var last := |records| - 1;
      Mentions(records[..last], reference) + if records[last].name == reference then 1 else 0
  }

  lemma {:induction false} SplitAt(front: string, separator: char, rest: string)
    requires separator !in front
    ensures Split(front + [separator] + rest, separator) == [front] + Split(rest, separator)
  {
    var text := front + [separator] + rest;
    if front != [] {
      SplitAt(front[1..], separator, rest);
      assert text[1..] == front[1..] + [separator] + rest;
      assert [front[0]] + front[1..] == front;
    } else {
      assert text[1..] == rest;
    }
  }

  lemma {:induction false} SplitNone(text: string, separator: char)
    requires separator !in text
    ensures Split(text, separator) == [text]
  {
    if text != [] {
      SplitNone(text[1..], separator);
      assert [text[0]] + text[1..] == text;
    }
  }

  predicate PlainLine(line: string) {
    '\n' !in line && (line == [] || line[|line| - 1] != '\r')
  }

  lemma {:induction false} SplitTerminated(lines: seq<string>)
    requires forall i :: 0 <= i < |lines| ==> PlainLine(lines[i])
    ensures Split(Terminated(lines), '\n') == lines + [[]]
  {
    if lines != [] {
      SplitTerminated(lines[1..]);
      SplitAt(lines[0], '\n', Terminated(lines[1..]));
    }
  }

  lemma {:induction false} PlainPieces(lines: seq<string>)
    requires forall i :: 0 <= i < |lines| ==> PlainLine(lines[i])
    ensures LinesOfPieces(lines + [[]]) == lines
  {
    if lines != [] {
      PlainPieces(lines[1..]);
      assert (lines + [[]])[1..] == lines[1..] + [[]];
    }
  }

  lemma LinesOfTerminated(lines: seq<string>)
    requires forall i :: 0 <= i < |lines| ==> PlainLine(lines[i])
    ensures Lines(Terminated(lines)) == lines
  {
    SplitTerminated(lines);
    PlainPieces(lines);
  }

  lemma ShaIsPlain(id: string)
    requires FullSha(id)
    ensures ' ' !in id && '\n' !in id
    ensures id[0] != '#' && id[0] != '^' && !IsWhitespace(id[0])
  {
  }

  lemma EntryLineEnds(record: Record)
    requires Printable(record)
    ensures var line := EntryLine(record);
            line != [] && line[0] == record.objectId[0] && line[|line| - 1] == record.name[|record.name| - 1]
  {
  }

  lemma EntryLineIsPlain(record: Record)
    requires Printable(record)
    ensures PlainLine(EntryLine(record)) && Trimmed(EntryLine(record))
  {
    ShaIsPlain(record.objectId);
    EntryLineEnds(record);
  }

  lemma EntryLineSplits(record: Record)
    requires Printable(record)
    ensures Split(EntryLine(record), ' ') == [record.objectId, record.name]
  {
    ShaIsPlain(record.objectId);
    SplitAt(record.objectId, ' ', record.name);
    SplitNone(record.name, ' ');
  }

  lemma EntryLineIsEntry(record: Record)
    requires Printable(record)
    ensures PlainLine(EntryLine(record)) && LineKind(EntryLine(record)) == Entry(record.name)
  {
    ShaIsPlain(record.objectId);
    EntryLineEnds(record);
    EntryLineIsPlain(record);
    EntryLineSplits(record);
  }

  lemma PeeledLineIsPeeled(sha: string)
    requires FullSha(sha)
    ensures PlainLine("^" + sha) && LineKind("^" + sha) == Peeled
  {
    var line := "^" + sha;
    assert line[1..] == sha;
    assert line[|line| - 1] == sha[|sha| - 1];
  }

  lemma {:induction false} NamedPrefix(lines: seq<string>, line: string, n: nat, reference: string)
    requires n <= |lines|
    ensures Named(lines + [line], n, reference) == Named(lines, n, reference)
  {
    if n > 0 {
      NamedPrefix(lines, line, n - 1, reference);
    }
  }

  /** A file in progress: readable so far, made of plain lines, naming the reference `count` times. */
  predicate Reads(lines: seq<string>, reference: string, count: nat) {
    && WellFormed(lines)
    && (forall i :: 0 <= i < |lines| ==> PlainLine(lines[i]))
    && Named(lines, |lines|, reference) == count
  }

  lemma LineAppend(lines: seq<string>, line: string, reference: string, count: nat)
    requires Reads(lines, reference, count) && PlainLine(line) && !LineKind(line).Malformed?
    requires LineKind(line).Peeled? ==> lines != [] && IsTag(LineKind(lines[|lines| - 1]))
    ensures Reads(lines + [line], reference, count + if LineKind(line) == Entry(reference) then 1 else 0)
  {
    NamedPrefix(lines, line, |lines|, reference);
    forall i | 0 <= i < |lines| + 1 ensures LineFits(lines + [line], i) {
      if i < |lines| {
        assert LineFits(lines, i);
      }
    }
  }

  /** Adding the lines of one printable record keeps a file readable and counts its name once. */
  lemma RecordAppend(lines: seq<string>, record: Record, reference: string, count: nat)
    requires Printable(record) && Reads(lines, reference, count)
    ensures Reads(lines + RecordLines(record), reference, count + if record.name == reference then 1 else 0)
  {
    EntryLineIsEntry(record);
    var entry := EntryLine(record);
    var counted := count + if record.name == reference then 1 else 0;
    LineAppend(lines, entry, reference, count);
    if record.peeled.Some? {
      var line := "^" + record.peeled.value;
      PeeledLineIsPeeled(record.peeled.value);
      LineAppend(lines + [entry], line, reference, counted);
      assert lines + RecordLines(record) == lines + [entry] + [line];
    } else {
      assert lines + RecordLines(record) == lines + [entry];
    }
  }

  lemma {:induction false} RecordsAppend(header: string, records: seq<Record>, reference: string)
    requires header != [] && header[0] == '#' && PlainLine(header)
    requires forall i :: 0 <= i < |records| ==> Printable(records[i])
    ensures Reads([header] + AllLines(records), reference, Mentions(records, reference))
  {
    if records == [] {
      LineAppend([], header, reference, 0);
      assert [header] + AllLines(records) == [] + [header];
    } else {
      var last := |records| - 1;
      var before := [header] + AllLines(records[..last]);
      RecordsAppend(header, records[..last], reference);
      RecordAppend(before, records[last], reference, Mentions(records[..last], reference));
      assert [header] + AllLines(records) == before + RecordLines(records[last]);
    }
  }

  /** Reading what was printed agrees with the record list, for any list of printable records. */
  lemma PrintedRecordsScan(header: string, records: seq<Record>, reference: string)
    requires header != [] && header[0] == '#' && PlainLine(header)
    requires forall i :: 0 <= i < |records| ==> Printable(records[i])
    ensures Scan(Lines(Print(header, records)), reference)
         == if Mentions(records, reference) == 0 then Absent
            else if Mentions(records, reference) == 1 then Present
            else Invalid
  {
    RecordsAppend(header, records, reference);
    LinesOfTerminated([header] + AllLines(records));
  }

  // ---------------------------------------------------------------- three sources, one answer

  /** What the file system says about one metadata file; Failed is any other error. */
  datatype FileState = RegularFile | OtherFile | NotFound | Failed

  /** The answers of Git and of the file system that one classification asks for, in order. */
  datatype RefSources = RefSources(
    listing: Result<Option<seq<string>>, ()>,   // `for-each-ref`: None when it exits with failure
    loosePathKnown: bool, looseHasSymlink: bool, loose: FileState,
    packedPathKnown: bool, packedHasSymlink: bool, packed: FileState,
    packedText: Option<Option<string>>)         // None: unreadable or too long; Some(None): not UTF-8

  function FilePresence(state: FileState): Presence {
    match state
    case RegularFile => Present
    case NotFound => Absent
    case OtherFile | Failed => Invalid
  }

  /** What packed-refs says, when its path is known and free of symbolic links. */
  function PackedPresence(sources: RefSources, reference: string): Presence {
    if sources.packed.RegularFile? then
      (if sources.packedText.Some? && sources.packedText.value.Some?
       then Scan(Lines(sources.packedText.value.value), reference) else Invalid)
    else FilePresence(sources.packed)
  }

  /** Both files were looked at, and neither look was spoilt. */
  predicate Readable(sources: RefSources, reference: string) {
    && !sources.looseHasSymlink && !FilePresence(sources.loose).Invalid?
    && !sources.packedHasSymlink && !PackedPresence(sources, reference).Invalid?
  }

  /**
   `classify_exact_git_ref`. A local branch is reported absent only when Git does not list it, no loose file
   holds it and a well-formed packed-refs file (or none) does not name it; it is reported present only when
   at least one of the three sources holds it and no source is spoilt.
   */
  method ClassifyExactGitRef(reference: string, sources: RefSources) returns (r: Result<Presence, ()>)
    ensures r == Ok(Absent) <==>
              && "refs/heads/" <= reference && sources.listing.Ok? && sources.listing.value.Some?
              && sources.loosePathKnown && sources.packedPathKnown && Readable(sources, reference)
              && reference !in sources.listing.value.value
              && sources.loose.NotFound? && PackedPresence(sources, reference).Absent?
    ensures r == Ok(Present) <==>
              && "refs/heads/" <= reference && sources.listing.Ok? && sources.listing.value.Some?
              && sources.loosePathKnown && sources.packedPathKnown && Readable(sources, reference)
              && (reference in sources.listing.value.value || sources.loose.RegularFile?
                  || PackedPresence(sources, reference).Present?)
    ensures r.Err? ==> "refs/heads/" <= reference
    ensures !("refs/heads/" <= reference) ==> r == Ok(Invalid)
  {
    if !("refs/heads/" <= reference) {
      return Ok(Invalid);
    }
    if sources.listing.Err? {
      return Err(());
    }
    if sources.listing.value.None? {
      return Ok(Invalid);
    }
    var gitPresent := reference in sources.listing.value.value;
    if !sources.loosePathKnown {
      return Err(());
    }
    if sources.looseHasSymlink {
      return Ok(Invalid);
    }
    var loosePresence := FilePresence(sources.loose);
    if loosePresence == Invalid {
      return Ok(Invalid);
    }
    if !sources.packedPathKnown {
      return Err(());
    }
    if sources.packedHasSymlink {
      return Ok(Invalid);
    }
    var packedPresence;
    if sources.packed.RegularFile? && sources.packedText.Some? {
      packedPresence := ParsePackedRefs(sources.packedText.value, reference);
    } else if sources.packed.RegularFile? {
      packedPresence := Invalid;
    } else {
      packedPresence := FilePresence(sources.packed);
    }
    if packedPresence == Invalid {
      return Ok(Invalid);
    }
    if gitPresent || loosePresence == Present || packedPresence == Present {
      return Ok(Present);
    }
    return Ok(Absent);
  }
}
