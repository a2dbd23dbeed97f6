/** Reading a quality-label file: each line names a distorted image and gives its score.
    A line is split on whitespace into exactly two fields; the name field loses its last
    character (a trailing separator); the line is kept only when characters 1..2 of the
    name (a distortion-type tag) are in the caller's allow-list, and only then is its score
    converted to a number. Kept names and scores are collected in file order. */
module LabelFile {
  import opened Wrappers

  // ---------------------------------------------------------------------------
  // Python string primitives

  /** The characters Python's str.split() without a separator treats as whitespace. */
  predicate IsSpace(ch: char) {
    var c := ch as int;
    || (9 <= c <= 13) || (28 <= c <= 32) || c == 0x85 || c == 0xA0 || c == 0x1680
    || (0x2000 <= c <= 0x200A) || c == 0x2028 || c == 0x2029 || c == 0x202F
    || c == 0x205F || c == 0x3000
  }

  predicate Spaceless(w: string) {
    forall i | 0 <= i < |w| :: !IsSpace(w[i])
  }

  /** The input without its leading whitespace. */
  function DropSpaces(s: string): (r: string)
    ensures |r| <= |s|
    ensures r != [] ==> !IsSpace(r[0])
  {
    if s != [] && IsSpace(s[0]) then DropSpaces(s[1..]) else s
  }

  /** The length of the longest whitespace-free prefix. */
  function WordLength(s: string): (n: nat)
    ensures n <= |s| && Spaceless(s[..n])
  {
    if s == [] || IsSpace(s[0]) then 0
    else
      var n := 1 + WordLength(s[1..]);
      assert s[..n] == [s[0]] + s[1..][..n - 1];
      n
  }

  /** Python's s.split(): the maximal runs of non-whitespace characters, in order. A line
      of whitespace only (or an empty one) has no fields at all. */
  function Words(s: string): (ws: seq<string>)
    ensures ws == [] <==> Blank(s)
    decreases |s|
  {
    var t := DropSpaces(s);
    BlankIffNoText(s);
    if t == [] then []
    else
      var n := WordLength(t);
      [t[..n]] + Words(t[n..])
  }

  /** Whitespace only, or nothing at all. */
  predicate Blank(s: string) {
    forall i | 0 <= i < |s| :: IsSpace(s[i])
  }

  /** Leading whitespace runs to the end exactly when the string is all whitespace. */
  lemma {:induction false} BlankIffNoText(s: string)
    ensures DropSpaces(s) == [] <==> Blank(s)
  {
    if s != [] && IsSpace(s[0]) {
      BlankIffNoText(s[1..]);
      assert forall i | 1 <= i < |s| :: s[i] == s[1..][i - 1];
    }
  }

  /** Every field of a split is non-empty and holds no whitespace. */
  lemma {:induction false} WordsAreWords(s: string)
    ensures forall k | 0 <= k < |Words(s)| :: |Words(s)[k]| > 0 && Spaceless(Words(s)[k])
    decreases |s|
  {
    var t := DropSpaces(s);
    if t != [] {
      WordsAreWords(t[WordLength(t)..]);
    }
  }

  /** The words separated by single blanks. */
  function Join(ws: seq<string>): string {
    if ws == [] then ""
    else if |ws| == 1 then ws[0]
    else ws[0] + " " + Join(ws[1..])
  }

  /** Python's s[:-1]. */
  function DropLast(s: string): string {
    if |s| == 0 then s else s[..|s| - 1]
  }

  /** An index clamped to a length, as Python slicing does. */
  function Clamp(i: nat, len: nat): nat { if i <= len then i else len }

  /** Python's s[lo:hi] for 0 <= lo <= hi: both bounds are clamped to the length. */
  function PySlice(s: string, lo: nat, hi: nat): (r: string)
    requires lo <= hi
  {
    s[Clamp(lo, |s|)..Clamp(hi, |s|)]
  }

  // ---------------------------------------------------------------------------
  // One line

  /** Failures of the line loop: unpacking a split that is not two fields, and float()
      on a kept line's score field. */
  datatype ParseError = UnpackError(fields: nat) | NotAFloat(text: string)

  datatype Entry = Entry(name: string, score: real)

  /** Whether `dis, score = line.split()` succeeds. */
  predicate WellFormed(line: string) {
    |Words(line)| == 2
  }

  /** The stored name: the first field minus its last character. */
  function NameOf(line: string): string
    requires WellFormed(line)
  {
    DropLast(Words(line)[0])
  }

  function ScoreText(line: string): string
    requires WellFormed(line)
  {
    Words(line)[1]
  }

  /** The distortion-type tag name[1:3]. */
  function Tag(name: string): string {
    PySlice(name, 1, 3)
  }

  /** Whether the line passes the allow-list filter. */
  predicate Kept(line: string, listName: seq<string>) {
    WellFormed(line) && Tag(NameOf(line)) in listName
  }

  /** One iteration of the loop: an error, Some(entry) for a kept line, None for a rejected one.
      `toFloat` is Python's float() on a field: None when the text is not a number. */
  function ParseLine(line: string, listName: seq<string>, toFloat: string -> Option<real>)
    : (r: Result<Option<Entry>, ParseError>)
    ensures r.Ok? <==> LineAccepted(line, listName, toFloat)
    ensures r == Ok(None) <==> WellFormed(line) && !Kept(line, listName)
    ensures r.Ok? && r.value.Some? ==>
              && Kept(line, listName)
              && r.value.value.name == NameOf(line)
              && toFloat(ScoreText(line)) == Some(r.value.value.score)
  {
    var fields := Words(line);
    if |fields| != 2 then Err(UnpackError(|fields|))
    else
      var name := DropLast(fields[0]);
      if Tag(name) in listName then
        match toFloat(fields[1])
        case None => Err(NotAFloat(fields[1]))
        case Some(score) => Ok(Some(Entry(name, score)))
      else Ok(None)
  }

  // ---------------------------------------------------------------------------
  // The whole file

  /** Kept names and their scores, index-aligned. */
  datatype Labels = Labels(names: seq<string>, scores: seq<real>)

  /** The loop over the file's lines, defined on the lines read so far: the first failing
      line (in file order) decides the error. */
  function ParseLabels(lines: seq<string>, listName: seq<string>, toFloat: string -> Option<real>)
    : (r: Result<Labels, ParseError>)
    ensures r.Ok? ==> |r.value.names| == |r.value.scores| <= |lines|
    decreases |lines|
  {
    if lines == [] then Ok(Labels([], []))
    else
      match ParseLabels(lines[..|lines| - 1], listName, toFloat)
      case Err(e) => Err(e)
      case Ok(acc) =>
        match ParseLine(lines[|lines| - 1], listName, toFloat)
        case Err(e) => Err(e)
        case Ok(None) => Ok(acc)
        case Ok(Some(entry)) => Ok(Labels(acc.names + [entry.name], acc.scores + [entry.score]))
  }

  /** Reference definition: the kept lines, in file order. */
  function KeptLines(lines: seq<string>, listName: seq<string>): (kept: seq<string>)
    ensures |kept| <= |lines|
    ensures forall k | 0 <= k < |kept| :: Kept(kept[k], listName)
    decreases |lines|
  {
    if lines == [] then []
    else
      var last := lines[|lines| - 1];
      KeptLines(lines[..|lines| - 1], listName) + (if Kept(last, listName) then [last] else [])
  }

  /** The line loop as it runs: split, unpack, drop the last character, filter on the tag,
      convert the score, append. */
  method ReadLabels(lines: seq<string>, listName: seq<string>, toFloat: string -> Option<real>)
    returns (r: Result<Labels, ParseError>)
    ensures r == ParseLabels(lines, listName, toFloat)
  {
    var disFilesData: seq<string> := [];
    var scoreData: seq<real> := [];
    for i := 0 to |lines|
      invariant ParseLabels(lines[..i], listName, toFloat) == Ok(Labels(disFilesData, scoreData))
    {
      assert lines[..i + 1][..i] == lines[..i];
      var fields := Words(lines[i]);
      if |fields| != 2 {
        ErrorPersists(lines, i + 1, listName, toFloat);
        return Err(UnpackError(|fields|));
      }
      var dis := DropLast(fields[0]);
      if PySlice(dis, 1, 3) in listName {
        var score := toFloat(fields[1]);
        if score.None? {
          ErrorPersists(lines, i + 1, listName, toFloat);
          return Err(NotAFloat(fields[1]));
        }
        assert ParseLine(lines[i], listName, toFloat) == Ok(Some(Entry(dis, score.value)));
        disFilesData := disFilesData + [dis];
        scoreData := scoreData + [score.value];
      } else {
        assert ParseLine(lines[i], listName, toFloat) == Ok(None);
      }
    }
    assert lines[..|lines|] == lines;
    r := Ok(Labels(disFilesData, scoreData));
  }

  // ---------------------------------------------------------------------------
  // Properties

  /** Once a prefix of the file fails, the whole file fails with the same error. */
  lemma {:induction false} ErrorPersists(lines: seq<string>, k: nat, listName: seq<string>,
                                         toFloat: string -> Option<real>)
    requires k <= |lines| && ParseLabels(lines[..k], listName, toFloat).Err?
    ensures ParseLabels(lines, listName, toFloat) == ParseLabels(lines[..k], listName, toFloat)
    decreases |lines| - k
  {
    if k == |lines| {
      assert lines[..k] == lines;
    } else {
      assert lines[..k + 1][..k] == lines[..k];
      ErrorPersists(lines, k + 1, listName, toFloat);
    }
  }

  /** The file is accepted exactly when every line splits into two fields and every kept
      line's score converts; a bad score on a rejected line is never looked at. */
  lemma {:induction false} ParseLabelsSucceeds(lines: seq<string>, listName: seq<string>,
                                               toFloat: string -> Option<real>)
    ensures ParseLabels(lines, listName, toFloat).Ok? <==>
            forall i | 0 <= i < |lines| :: LineAccepted(lines[i], listName, toFloat)
    decreases |lines|
  {
    if lines != [] {
      var n := |lines| - 1;
      var init := lines[..n];
      ParseLabelsSucceeds(init, listName, toFloat);
      ParseLabelsStep(lines, listName, toFloat);
      AllAcceptedSplit(lines, init, listName, toFloat);
    }
  }

  lemma AllAcceptedSplit(lines: seq<string>, init: seq<string>, listName: seq<string>,
                         toFloat: string -> Option<real>)
    requires lines != [] && init == lines[..|lines| - 1]
    ensures (forall i | 0 <= i < |lines| :: LineAccepted(lines[i], listName, toFloat)) <==>
            && (forall i | 0 <= i < |init| :: LineAccepted(init[i], listName, toFloat))
            && LineAccepted(lines[|lines| - 1], listName, toFloat)
  {
    assert forall i | 0 <= i < |init| :: init[i] == lines[i];
  }

  lemma ParseLabelsStep(lines: seq<string>, listName: seq<string>, toFloat: string -> Option<real>)
    requires lines != []
    ensures ParseLabels(lines, listName, toFloat).Ok? <==>
            ParseLabels(lines[..|lines| - 1], listName, toFloat).Ok? &&
            LineAccepted(lines[|lines| - 1], listName, toFloat)
  {
  }

  /** What the loop demands of one line. */
  predicate LineAccepted(line: string, listName: seq<string>, toFloat: string -> Option<real>) {
    WellFormed(line) && (Kept(line, listName) ==> toFloat(ScoreText(line)).Some?)
  }

  /** On success the names and scores are those of the kept lines, in file order and
      index-aligned. */
  lemma {:induction false} ParseLabelsKeepsOrder(lines: seq<string>, listName: seq<string>,
                                                 toFloat: string -> Option<real>)
    requires ParseLabels(lines, listName, toFloat).Ok?
    ensures var labels := ParseLabels(lines, listName, toFloat).value;
            var kept := KeptLines(lines, listName);
            && |labels.names| == |kept| && |labels.scores| == |kept|
            && forall k | 0 <= k < |kept| ::
                 labels.names[k] == NameOf(kept[k]) && toFloat(ScoreText(kept[k])) == Some(labels.scores[k])
    decreases |lines|
  {
    if lines != [] {
      ParseLabelsKeepsOrder(lines[..|lines| - 1], listName, toFloat);
    }
  }

  /** On failure the error is that of the first failing line. */
  lemma {:induction false} ParseLabelsFirstError(lines: seq<string>, listName: seq<string>,
                                                 toFloat: string -> Option<real>)
    requires ParseLabels(lines, listName, toFloat).Err?
    ensures exists i | 0 <= i < |lines| ::
              && ParseLabels(lines[..i], listName, toFloat).Ok?
              && ParseLine(lines[i], listName, toFloat) == Err(ParseLabels(lines, listName, toFloat).error)
    decreases |lines|
  {
    var n := |lines| - 1;
    var init := lines[..n];
    var e := ParseLabels(lines, listName, toFloat).error;
    if ParseLabels(init, listName, toFloat).Err? {
      ParseLabelsFirstError(init, listName, toFloat);
      var i :| 0 <= i < |init| && ParseLabels(init[..i], listName, toFloat).Ok?
               && ParseLine(init[i], listName, toFloat) == Err(ParseLabels(init, listName, toFloat).error);
      assert init[..i] == lines[..i] && init[i] == lines[i];
    } else {
      assert ParseLine(lines[n], listName, toFloat) == Err(e);
      assert ParseLabels(lines[..n], listName, toFloat).Ok?;
    }
  }

  /** Splitting undoes joining: blank-separated words come back unchanged. */
  lemma {:induction false} WordsJoin(ws: seq<string>)
    requires forall k | 0 <= k < |ws| :: |ws[k]| > 0 && Spaceless(ws[k])
    ensures Words(Join(ws)) == ws
    decreases |ws|
  {
    if ws == [] {
      assert DropSpaces(Join(ws)) == "";
    } else if |ws| == 1 {
      WordsJoinSingle(ws[0]);
    } else {
      var tail := ws[1..];
      assert forall k | 0 <= k < |tail| :: tail[k] == ws[k + 1];
      WordsJoin(tail);
      WordsJoinCons(ws[0], tail);
      assert ws == [ws[0]] + tail;
    }
  }

  lemma WordsJoinSingle(w: string)
    requires Spaceless(w) && w != []
    ensures Words(Join([w])) == [w]
  {
    assert Join([w]) == w;
    WordsOfWordThen(w, "");
    assert w + "" == w;
    assert DropSpaces("") == "";
  }

  lemma WordsJoinCons(w: string, tail: seq<string>)
    requires Spaceless(w) && w != [] && tail != []
    ensures Words(Join([w] + tail)) == [w] + Words(Join(tail))
  {
    var rest := Join(tail);
    assert ([w] + tail)[1..] == tail;
    assert Join([w] + tail) == w + (" " + rest);
    WordsOfWordThen(w, " " + rest);
    WordsAfterBlank(rest);
  }

  /** A word followed by nothing or by whitespace is split off as the first field. */
  lemma WordsOfWordThen(w: string, tail: string)
    requires Spaceless(w) && w != []
    requires tail == [] || IsSpace(tail[0])
    ensures Words(w + tail) == [w] + Words(tail)
  {
    var s := w + tail;
    assert DropSpaces(s) == s;
    WordLengthOfWord(w, tail);
    assert s[..|w|] == w;
    assert s[|w|..] == tail;
  }

  lemma WordsAfterBlank(rest: string)
    ensures Words(" " + rest) == Words(rest)
  {
    assert (" " + rest)[1..] == rest;
    assert DropSpaces(" " + rest) == DropSpaces(rest);
  }

  lemma {:induction false} WordLengthOfWord(w: string, tail: string)
    requires Spaceless(w) && w != []
    requires tail == [] || IsSpace(tail[0])
    ensures WordLength(w + tail) == |w|
    decreases |w|
  {
    var s := w + tail;
    assert s[1..] == w[1..] + tail;
    if |w| > 1 {
      WordLengthOfWord(w[1..], tail);
    } else {
      assert s[1..] == tail;
    }
  }
}
