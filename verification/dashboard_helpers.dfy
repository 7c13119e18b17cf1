/** The dashboard's two display helpers: the badge classes of a status and
    the initials of a name. */
module DashboardHelpers {
  import opened Text

  const Green := "bg-green-100 text-green-800"
  const Yellow := "bg-yellow-100 text-yellow-800"
  const Red := "bg-red-100 text-red-800"
  const Gray := "bg-gray-100 text-gray-800"

  /** `getStatusColor`. */
  function StatusColor(status: string): (c: string)
    ensures c == Green <==> status == "completed" || status == "on-track"
    ensures c == Yellow <==> status == "pending" || status == "delayed"
    ensures c == Red <==> status == "failed"
    ensures c == Gray <==> status !in {"completed", "on-track", "pending", "delayed", "failed"}
  {
    if status == "completed" || status == "on-track" then Green
    else if status == "pending" || status == "delayed" then Yellow
    else if status == "failed" then Red
    else Gray
  }

  /** `words.map(n => n[0]).join('')`: the first character of every word, an
      empty word contributing nothing. */
  function FirstLetters(words: seq<string>): (r: string)
    ensures |r| <= |words|
  {
    if |words| == 0 then ""
    else (if words[0] == "" then "" else [words[0][0]]) + FirstLetters(words[1..])
  }

  /** The number of non-empty words. */
  function NonEmptyWords(words: seq<string>): nat {
    if |words| == 0 then 0 else (if words[0] == "" then 0 else 1) + NonEmptyWords(words[1..])
  }

  /** `getInitials`: the upper-cased first letters of the space-separated words. */
  function Initials(name: string): (r: string)
    ensures forall i :: 0 <= i < |r| ==> !('a' <= r[i] <= 'z')
    ensures name == "" ==> r == ""
  {
    Upper(FirstLetters(Split(name, ' ')))
  }

  /** A single word gives its first character, or nothing when empty. */
  lemma FirstLettersOne(w: string)
    ensures FirstLetters([w]) == (if w == "" then "" else [w[0]])
  {
    assert [w][1..] == [];
  }

  /** Taking first letters distributes over joining word lists; with
      `FirstLettersOne` this pins the result down for every list. */
  lemma {:induction false} FirstLettersAppend(a: seq<string>, b: seq<string>)
    ensures FirstLetters(a + b) == FirstLetters(a) + FirstLetters(b)
  {
    if |a| == 0 {
      assert a + b == b;
    } else {
      assert (a + b)[0] == a[0];
      assert (a + b)[1..] == a[1..] + b;
      FirstLettersAppend(a[1..], b);
    }
  }

  /** One letter per non-empty word, in order. */
  lemma {:induction false} FirstLettersCount(words: seq<string>)
    ensures |FirstLetters(words)| == NonEmptyWords(words)
  {
    if |words| > 0 {
      FirstLettersCount(words[1..]);
    }
  }

  /** For words without spaces, joined by single spaces, the initials are
      the upper-cased first letters of exactly those words; extra spaces
      (empty words) change nothing. */
  lemma InitialsOfWords(words: seq<string>)
    requires |words| >= 1
    requires forall i :: 0 <= i < |words| ==> ' ' !in words[i]
    ensures Initials(Join(words, " ")) == Upper(FirstLetters(words))
    ensures |Initials(Join(words, " "))| == NonEmptyWords(words)
  {
    SplitJoin(words, ' ');
    FirstLettersCount(words);
  }

  /** A sample: `Jane  doe` (two spaces) gives `JD`. */
  lemma InitialsExample()
    ensures Initials("Jane  doe") == "JD"
  {
    InitialsOfWords(["Jane", "", "doe"]);
    assert Join(["Jane", "", "doe"], " ") == "Jane  doe";
    assert FirstLetters(["Jane", "", "doe"]) == "Jd";
  }
}
