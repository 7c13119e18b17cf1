/** The newline codec of subscription features and perks: a list is shown in
    a textarea as its entries joined by `\n`, and read back by splitting on
    `\n` and dropping lines that are blank once trimmed. */
module LineList {
  import opened Values
  import opened Text

  const Newline: char := '\n'

  /** `line.trim() !== ''`. */
  predicate NonBlank(line: string) {
    Trim(line) != ""
  }

  /** `lines.filter(line => line.trim() !== '')`. */
  function KeepNonBlank(lines: seq<string>): (r: seq<string>)
    ensures |r| <= |lines|
    ensures forall x :: x in r <==> x in lines && NonBlank(x)
  {
    if |lines| == 0 then []
    else if NonBlank(lines[0]) then [lines[0]] + KeepNonBlank(lines[1..])
    else KeepNonBlank(lines[1..])
  }

  /** A single line is kept exactly when it is not blank. */
  lemma KeepNonBlankOne(line: string)
    ensures KeepNonBlank([line]) == if NonBlank(line) then [line] else []
  {
    assert [line][1..] == [];
  }

  /** Filtering a concatenation filters each part and keeps their order, so
      the parsed lines come in the order they were typed. */
  lemma {:induction false} KeepNonBlankAppend(a: seq<string>, b: seq<string>)
    ensures KeepNonBlank(a + b) == KeepNonBlank(a) + KeepNonBlank(b)
  {
    if |a| == 0 {
      assert a + b == b;
    } else {
      assert (a + b)[0] == a[0];
      assert (a + b)[1..] == a[1..] + b;
      KeepNonBlankAppend(a[1..], b);
    }
  }

  /** Filtering a list that is already free of blank lines changes nothing. */
  lemma {:induction false} KeepNonBlankIdempotent(lines: seq<string>)
    ensures KeepNonBlank(KeepNonBlank(lines)) == KeepNonBlank(lines)
  {
    if |lines| > 0 {
      KeepNonBlankIdempotent(lines[1..]);
    }
  }

  /** `text.split('\n').filter(line => line.trim() !== '')`. */
  function Parse(text: string): (r: seq<string>)
    ensures forall i :: 0 <= i < |r| ==> Newline !in r[i] && NonBlank(r[i])
  {
    var r := KeepNonBlank(Split(text, Newline));
    assert forall i :: 0 <= i < |r| ==> r[i] in Split(text, Newline);
    r
  }

  /** `value ? value.split('\n').filter(...) : []`: a missing or empty text is `[]`. */
  function ParseField(text: Option<string>): (r: seq<string>)
    ensures !Truthy(text) ==> r == []
    ensures Truthy(text) ==> r == Parse(text.value)
  {
    if Truthy(text) then Parse(text.value) else []
  }

  /** The empty text parses to the empty list, so the guard above changes nothing. */
  lemma ParseEmpty()
    ensures Parse("") == []
  {
    assert Split("", Newline) == [""];
    assert !NonBlank("");
  }

  /** `list.join('\n')`. */
  function Render(lines: seq<string>): string {
    Join(lines, [Newline])
  }

  /** `list ? list.join('\n') : ''`, and equally `list?.join('\n') || ''`. */
  function RenderField(lines: Option<seq<string>>): (r: string)
    ensures lines.None? ==> r == ""
    ensures lines.Some? ==> r == Render(lines.value)
  {
    match lines
    case Some(xs) => Render(xs)
    case None => ""
  }

  /** Reading back a rendered list gives the list without its blank entries;
      kept entries are not trimmed. */
  lemma {:induction false} ParseRender(lines: seq<string>)
    requires forall i :: 0 <= i < |lines| ==> Newline !in lines[i]
    ensures Parse(Render(lines)) == KeepNonBlank(lines)
  {
    if |lines| == 0 {
      ParseEmpty();
    } else {
      SplitJoin(lines, Newline);
    }
  }

  /** A list with no blank entries and no newlines survives the round trip. */
  lemma RoundTrip(lines: seq<string>)
    requires forall i :: 0 <= i < |lines| ==> Newline !in lines[i] && NonBlank(lines[i])
    ensures Parse(Render(lines)) == lines
  {
    ParseRender(lines);
    KeepAllNonBlank(lines);
  }

  lemma {:induction false} KeepAllNonBlank(lines: seq<string>)
    requires forall i :: 0 <= i < |lines| ==> NonBlank(lines[i])
    ensures KeepNonBlank(lines) == lines
  {
    if |lines| > 0 {
      KeepAllNonBlank(lines[1..]);
    }
  }

  /** Parsing the rendering of a parse gives the same parse. */
  lemma ParseIdempotent(text: string)
    ensures Parse(Render(Parse(text))) == Parse(text)
  {
    RoundTrip(Parse(text));
  }

  /** `countNonEmptyLines`. */
  function CountNonEmptyLines(text: string): (n: nat)
    ensures n == |Parse(text)|
    ensures n <= |Split(text, Newline)|
  {
    |KeepNonBlank(Split(text, Newline))|
  }

  /** `onFeaturesInput`: the text becomes its non-blank lines, one per line. */
  function Normalise(text: string): (r: string)
    ensures Parse(r) == Parse(text)
  {
    RoundTrip(Parse(text));
    Render(Parse(text))
  }

  /** Normalising twice is normalising once. */
  lemma NormaliseIdempotent(text: string)
    ensures Normalise(Normalise(text)) == Normalise(text)
  {
  }

  /** After `onFeaturesInput` the stored count is the count of the new text. */
  lemma NormalisedCount(text: string)
    ensures CountNonEmptyLines(Normalise(text)) == |Parse(text)|
  {
  }

  /** An optional list whose entries are each a single non-blank line: the
      lists a form shows and reads back unchanged. */
  predicate CleanField(xs: Option<seq<string>>) {
    forall i :: 0 <= i < |xs.GetOr([])| ==> Newline !in xs.GetOr([])[i] && NonBlank(xs.GetOr([])[i])
  }

  /** A clean optional list survives rendering into a textarea and the
      `value ? parse : []` read back; a missing list comes back as `[]`. */
  lemma FieldRoundTrip(xs: Option<seq<string>>)
    requires CleanField(xs)
    ensures ParseField(Some(RenderField(xs))) == xs.GetOr([])
  {
    match xs
    case None =>
      ParseEmpty();
    case Some(ys) =>
      assert xs.GetOr([]) == ys;
      RoundTrip(ys);
      ParseEmpty();
      // an empty rendering reads back as `[]`, which is then the list itself
      assert Render(ys) == "" ==> ys == Parse("");
  }
}
