/**
 * Parsing of the decomposer's reply (src/config/question_decomp.py): the
 * reply text is cut into lines, every line of the shape
 * `Question: <q> | Difficulty: <int> | Needs Web Search: <bool>` becomes one
 * sub-question, other lines are dropped, and a difficulty that is not an
 * integer makes `int()` raise.
 */
module Decomposition {
  import opened Wrappers
  import opened Strings

  /** One decomposed sub-question: `(question, difficulty, needs_web_search)`. */
  datatype SubQuestion = SubQuestion(question: string, difficulty: int, needsWebSearch: bool)

  /** The ValueError of `int()` on the difficulty field of a three-field line. */
  datatype DecompositionError = InvalidDifficulty(line: string, field: string)

  type Outcome = Result<seq<SubQuestion>, DecompositionError>

  const FieldSeparator: string := " | "
  const QuestionPrefix: string := "Question: "
  const DifficultyPrefix: string := "Difficulty: "
  const SearchPrefix: string := "Needs Web Search: "

  /** `content.strip().split("\n")`. */
  function ReplyLines(content: string): seq<string> {
    Split(Strip(content), "\n")
  }

  /** `item.split(" | ")`. */
  function Fields(line: string): seq<string> {
    Split(line, FieldSeparator)
  }

  /** `part.replace(prefix, "").strip()`. */
  function CleanField(part: string, prefix: string): string
    requires |prefix| > 0
  {
    Strip(Replace(part, prefix, ""))
  }

  /** The three fields of a line turned into a sub-question, or the error `int()` raises. */
  function ParseFields(line: string, parts: seq<string>): Result<SubQuestion, DecompositionError>
    requires |parts| == 3
  {
    var question := CleanField(parts[0], QuestionPrefix);
    var difficulty := CleanField(parts[1], DifficultyPrefix);
    match ParseInt(difficulty)
    case None => Failure(InvalidDifficulty(line, difficulty))
    case Some(d) =>
      var needsWebSearch := Lower(CleanField(parts[2], SearchPrefix)) == "true";
      Success(SubQuestion(question, d, needsWebSearch))
  }

  /** One line's contribution: `None` for a dropped line, else the line's parse. */
  type Entry = Option<Result<SubQuestion, DecompositionError>>

  /** What one line contributes: nothing when it does not have three fields, else its parse. */
  function LineEntry(line: string): Entry {
    var parts := Fields(line);
    if |parts| != 3 then None else Some(ParseFields(line, parts))
  }

  /** A contribution that adds a sub-question. */
  predicate Kept(e: Entry) {
    e.Some? && e.value.Success?
  }

  /** A line that yields a sub-question. */
  predicate Accepted(line: string) {
    Kept(LineEntry(line))
  }

  /** A line on which `int()` raises. */
  predicate Rejected(line: string) {
    LineEntry(line).Some? && LineEntry(line).value.Failure?
  }

  /** A line is rejected exactly when it has three fields and its cleaned difficulty field is not an integer. */
  lemma RejectedIff(line: string)
    ensures Rejected(line) <==>
      |Fields(line)| == 3 && ParseInt(CleanField(Fields(line)[1], DifficultyPrefix)).None?
  {
  }

  /** `prefix` followed by the entries of `rest`; an error stays an error. */
  function Prepend(prefix: seq<SubQuestion>, rest: Outcome): Outcome {
    match rest
    case Success(qs) => Success(prefix + qs)
    case Failure(e) => Failure(e)
  }

  /** `f` applied to every line, in order. */
  function MapLines(lines: seq<string>, f: string -> Entry): (es: seq<Entry>)
    ensures |es| == |lines|
    ensures forall k :: 0 <= k < |lines| ==> es[k] == f(lines[k])
  {
    seq(|lines|, k requires 0 <= k < |lines| => f(lines[k]))
  }

  /** The contributions of the lines, one per line, in order. */
  function Entries(lines: seq<string>): seq<Entry> {
    MapLines(lines, LineEntry)
  }

  /** The contributions collected front to back: dropped lines add nothing, and the first error is raised. */
  function Collect(es: seq<Entry>): Outcome
    decreases |es|
  {
    if |es| == 0 then Success([])
    else match es[0]
      case None => Collect(es[1..])
      case Some(Failure(e)) => Failure(e)
      case Some(Success(q)) => Prepend([q], Collect(es[1..]))
  }

  /** What the loop of `decompose_question` produces for these lines. */
  function DecomposeLines(lines: seq<string>): Outcome {
    Collect(Entries(lines))
  }

  /** The loop of question_decomp.py over the reply's lines, appending to `result`. */
  method Decompose(content: string) returns (r: Outcome)
    ensures r == DecomposeLines(ReplyLines(content))
  {
    var lines := Split(Strip(content), "\n");
    var result: seq<SubQuestion> := [];
    var i := 0;
    PrependEmpty(DecomposeLines(lines));
    assert lines[i..] == lines;
    while i < |lines|
      invariant 0 <= i <= |lines|
      invariant DecomposeLines(lines) == Prepend(result, DecomposeLines(lines[i..]))
    {
      var parts := Split(lines[i], FieldSeparator);
      DecomposeAt(lines, i, result, parts);
      if |parts| == 3 {
        var entry := ParseFields(lines[i], parts);
        if entry.Failure? {
          return Failure(entry.error);
        }
        result := result + [entry.value];
      }
      i := i + 1;
    }
    DecomposeEnd(lines, result);
    return Success(result);
  }

  /** One step of the loop: the line at `i` adds its contribution after the entries collected so far. */
  lemma DecomposeAt(lines: seq<string>, i: nat, result: seq<SubQuestion>, parts: seq<string>)
    requires i < |lines| && parts == Fields(lines[i])
    ensures Prepend(result, DecomposeLines(lines[i..])) ==
      if |parts| != 3 then Prepend(result, DecomposeLines(lines[i + 1..]))
      else match ParseFields(lines[i], parts)
        case Failure(e) => Failure(e)
        case Success(q) => Prepend(result + [q], DecomposeLines(lines[i + 1..]))
  {
    MapLinesConcat([lines[i]], lines[i + 1..], LineEntry);
    MapLinesOne(lines[i], LineEntry);
    assert [lines[i]] + lines[i + 1..] == lines[i..];
    CollectAt([LineEntry(lines[i])] + Entries(lines[i + 1..]), 0, result);
    assert ([LineEntry(lines[i])] + Entries(lines[i + 1..]))[1..] == Entries(lines[i + 1..]);
  }

  lemma DecomposeEnd(lines: seq<string>, result: seq<SubQuestion>)
    ensures Prepend(result, DecomposeLines(lines[|lines|..])) == Success(result)
  {
    assert lines[|lines|..] == [];
    assert result + [] == result;
  }

  /** One step of Collect at position `i`, after the entries collected so far. */
  lemma CollectAt(es: seq<Entry>, i: nat, result: seq<SubQuestion>)
    requires i < |es|
    ensures Prepend(result, Collect(es[i..])) ==
      match es[i]
      case None => Prepend(result, Collect(es[i + 1..]))
      case Some(Failure(e)) => Failure(e)
      case Some(Success(q)) => Prepend(result + [q], Collect(es[i + 1..]))
  {
    assert es[i..][0] == es[i];
    assert es[i..][1..] == es[i + 1..];
    if es[i].Some? && es[i].value.Success? {
      PrependPrepend(result, es[i].value.value, Collect(es[i + 1..]));
    }
  }

  lemma PrependEmpty(r: Outcome)
    ensures Prepend([], r) == r
  {
    if r.Success? {
      assert [] + r.value == r.value;
    }
  }

  lemma PrependPrepend(prefix: seq<SubQuestion>, q: SubQuestion, rest: Outcome)
    ensures Prepend(prefix, Prepend([q], rest)) == Prepend(prefix + [q], rest)
  {
    match rest
    case Failure(_) =>
    case Success(qs) =>
      assert prefix + ([q] + qs) == (prefix + [q]) + qs;
  }

  /** Mapping two pieces of a reply gives the mapping of the whole. */
  lemma MapLinesConcat(xs: seq<string>, ys: seq<string>, f: string -> Entry)
    ensures MapLines(xs + ys, f) == MapLines(xs, f) + MapLines(ys, f)
  {
    assert forall k :: 0 <= k < |xs| ==> (xs + ys)[k] == xs[k];
    assert forall k :: |xs| <= k < |xs + ys| ==> (xs + ys)[k] == ys[k - |xs|];
  }

  lemma MapLinesOne(line: string, f: string -> Entry)
    ensures MapLines([line], f) == [f(line)]
  {
  }

  /** Number of contributions that are not dropped. */
  function CountKept(es: seq<Entry>): (n: nat)
    ensures n <= |es|
    decreases |es|
  {
    if |es| == 0 then 0
    else (if es[0].Some? then 1 else 0) + CountKept(es[1..])
  }

  /** Number of lines that split into exactly three fields. */
  function CountThreeField(lines: seq<string>): (n: nat)
    ensures n <= |lines|
  {
    CountKept(Entries(lines))
  }

  lemma {:induction false} CollectCount(es: seq<Entry>)
    ensures Collect(es).Success? ==> |Collect(es).value| == CountKept(es)
    decreases |es|
  {
    if |es| > 0 {
      CollectCount(es[1..]);
    }
  }

  /** A successful parse yields one entry per three-field line: no cap, and never more entries than lines. */
  lemma DecomposeCount(lines: seq<string>)
    ensures DecomposeLines(lines).Success? ==> |DecomposeLines(lines).value| == CountThreeField(lines) <= |lines|
  {
    CollectCount(Entries(lines));
  }

  lemma {:induction false} CollectFailsIff(es: seq<Entry>)
    ensures Collect(es).Failure? <==> exists k :: 0 <= k < |es| && es[k].Some? && es[k].value.Failure?
    decreases |es|
  {
    if |es| > 0 {
      var rest := es[1..];
      CollectFailsIff(rest);
      if exists k :: 0 <= k < |rest| && rest[k].Some? && rest[k].value.Failure? {
        var k :| 0 <= k < |rest| && rest[k].Some? && rest[k].value.Failure?;
        assert es[k + 1] == rest[k];
      }
      if exists k :: 0 <= k < |es| && es[k].Some? && es[k].value.Failure? {
        var k :| 0 <= k < |es| && es[k].Some? && es[k].value.Failure?;
        if k > 0 {
          assert rest[k - 1] == es[k];
        }
      }
    }
  }

  /** The parse fails exactly when some three-field line has a difficulty that `int()` rejects. */
  lemma DecomposeFailsIff(lines: seq<string>)
    ensures DecomposeLines(lines).Failure? <==> exists k :: 0 <= k < |lines| && Rejected(lines[k])
  {
    var es := Entries(lines);
    CollectFailsIff(es);
    assert forall k :: 0 <= k < |lines| ==> (Rejected(lines[k]) <==> es[k].Some? && es[k].value.Failure?);
  }

  /** Adding one line's contribution after the entries parsed so far; the first error wins. */
  function AppendEntry(r: Outcome, entry: Entry): Outcome {
    match entry
    case None => r
    case Some(parsed) =>
      match r
      case Failure(e) => Failure(e)
      case Success(qs) =>
        match parsed
        case Failure(e) => Failure(e)
        case Success(q) => Success(qs + [q])
  }

  lemma {:induction false} CollectSnoc(es: seq<Entry>, entry: Entry)
    ensures Collect(es + [entry]) == AppendEntry(Collect(es), entry)
    decreases |es|
  {
    if |es| == 0 {
      assert es + [entry] == [entry];
      assert [entry][1..] == [];
      if entry.Some? && entry.value.Success? {
        assert [entry.value.value] + [] == [] + [entry.value.value];
      }
    } else {
      assert (es + [entry])[1..] == es[1..] + [entry];
      assert (es + [entry])[0] == es[0];
      CollectSnoc(es[1..], entry);
      if es[0].Some? && es[0].value.Success? {
        PrependAppend(es[0].value.value, Collect(es[1..]), entry);
      }
    }
  }

  /**
   * Lines are handled in order: one more line at the end adds its entry at the
   * end when it has three fields, and changes nothing otherwise.
   */
  lemma DecomposeSnoc(lines: seq<string>, line: string)
    ensures DecomposeLines(lines + [line]) == AppendEntry(DecomposeLines(lines), LineEntry(line))
  {
    MapLinesConcat(lines, [line], LineEntry);
    MapLinesOne(line, LineEntry);
    CollectSnoc(Entries(lines), LineEntry(line));
  }

  lemma PrependAppend(q: SubQuestion, r: Outcome, entry: Entry)
    ensures Prepend([q], AppendEntry(r, entry)) == AppendEntry(Prepend([q], r), entry)
  {
    if entry.Some? && r.Success? && entry.value.Success? {
      assert [q] + (r.value + [entry.value.value]) == ([q] + r.value) + [entry.value.value];
    }
  }

  lemma {:induction false} CollectSkipsNone(xs: seq<Entry>, ys: seq<Entry>)
    ensures Collect(xs + [None] + ys) == Collect(xs + ys)
    decreases |xs|
  {
    if |xs| == 0 {
      assert ([None] + ys)[1..] == ys;
      assert xs + [None] + ys == [None] + ys;
      assert xs + ys == ys;
    } else {
      CollectSkipsNone(xs[1..], ys);
      assert (xs + [None] + ys)[1..] == xs[1..] + [None] + ys;
      assert (xs + ys)[1..] == xs[1..] + ys;
      assert (xs + [None] + ys)[0] == (xs + ys)[0] == xs[0];
    }
  }

  /** A line that does not split into three fields is dropped wherever it stands. */
  lemma DropsMalformedLine(before: seq<string>, line: string, after: seq<string>)
    requires |Fields(line)| != 3
    ensures DecomposeLines(before + [line] + after) == DecomposeLines(before + after)
  {
    MapLinesConcat(before + [line], after, LineEntry);
    MapLinesConcat(before, [line], LineEntry);
    MapLinesConcat(before, after, LineEntry);
    MapLinesOne(line, LineEntry);
    CollectSkipsNone(Entries(before), Entries(after));
  }
  /** The three fields of the line the decomposer is asked to write for `(q, d, w)`. */
  function FormatFields(q: string, d: int, w: bool): seq<string> {
    [QuestionPrefix + q, DifficultyPrefix + IntToString(d), SearchPrefix + (if w then "true" else "false")]
  }

  /** The line the decomposer is asked to write for `(q, d, w)`. */
  function FormatLine(q: string, d: int, w: bool): string {
    var fs := FormatFields(q, d, w);
    fs[0] + FieldSeparator + fs[1] + FieldSeparator + fs[2]
  }

  /** Three `|`-free fields joined by the separator split back into those fields. */
  lemma SplitThreeFields(f0: string, f1: string, f2: string)
    requires '|' !in f0 && '|' !in f1 && '|' !in f2
    ensures Fields(f0 + FieldSeparator + f1 + FieldSeparator + f2) == [f0, f1, f2]
  {
    var tail := f1 + FieldSeparator + f2;
    assert f0 + FieldSeparator + f1 + FieldSeparator + f2 == f0 + FieldSeparator + tail;
    SplitConcat(f0, FieldSeparator, tail, 1);
    SplitConcat(f1, FieldSeparator, f2, 1);
    AbsentChar(f2, FieldSeparator, 1);
    SplitNoSeparator(f2, FieldSeparator);
  }

  /** None of the three written fields contains `|` when the question does not. */
  lemma FormatFieldsBarFree(q: string, d: int, w: bool)
    requires '|' !in q
    ensures forall k :: 0 <= k < 3 ==> '|' !in FormatFields(q, d, w)[k]
  {
    NoBarInNumber(d);
    NoBarIn(QuestionPrefix, q);
    NoBarIn(DifficultyPrefix, IntToString(d));
    NoBarIn(SearchPrefix, if w then "true" else "false");
  }

  /** A line written in the requested format splits into its three fields. */
  lemma FormattedLineFields(q: string, d: int, w: bool)
    requires '|' !in q
    ensures Fields(FormatLine(q, d, w)) == FormatFields(q, d, w)
  {
    var fs := FormatFields(q, d, w);
    FormatFieldsBarFree(q, d, w);
    assert '|' !in fs[0] && '|' !in fs[1] && '|' !in fs[2];
    SplitThreeFields(fs[0], fs[1], fs[2]);
    assert [fs[0], fs[1], fs[2]] == fs;
  }

  lemma NoBarIn(a: string, b: string)
    requires '|' !in a && '|' !in b
    ensures '|' !in a + b
  {
  }

  /** A field made of a prefix and a trimmed value that does not contain the prefix is cleaned back to the value. */
  lemma PrefixedField(prefix: string, v: string)
    requires |prefix| > 0
    requires v == [] || (!IsSpace(v[0]) && !IsSpace(v[|v| - 1]))
    requires !Occurs(v, prefix)
    ensures CleanField(prefix + v, prefix) == v
  {
    ReplaceLeading(prefix, v);
    StripTrimmed(v);
  }

  /** The difficulty field gives back the number written into it. */
  lemma DifficultyFieldParse(d: int)
    ensures ParseInt(CleanField(DifficultyPrefix + IntToString(d), DifficultyPrefix)) == Some(d)
  {
    var ds := IntToString(d);
    NoBarInNumber(d);
    AbsentChar(ds, DifficultyPrefix, 0);
    if d < 0 {
      assert ds[0] == '-';
    }
    PrefixedField(DifficultyPrefix, ds);
    ParseIntOfString(d);
  }

  /** The search field reads as true exactly when "true" was written into it. */
  lemma SearchFieldParse(w: bool)
    ensures Lower(CleanField(SearchPrefix + (if w then "true" else "false"), SearchPrefix)) == "true" <==> w
  {
    if w {
      SearchFieldClean("true");
      LowerIsTrue("true");
    } else {
      SearchFieldClean("false");
      assert |Lower("false")| == 5;
    }
  }

  /** Removing the search prefix and stripping gives back a trimmed value without the letter N. */
  lemma SearchFieldClean(v: string)
    requires |v| > 0 && !IsSpace(v[0]) && !IsSpace(v[|v| - 1]) && 'N' !in v
    ensures CleanField(SearchPrefix + v, SearchPrefix) == v
  {
    assert SearchPrefix[0] == 'N';
    AbsentChar(v, SearchPrefix, 0);
    PrefixedField(SearchPrefix, v);
  }

  /** ParseFields on three fields whose cleaned values are known. */
  lemma ParseCleanFields(line: string, f0: string, f1: string, f2: string, sq: SubQuestion)
    requires CleanField(f0, QuestionPrefix) == sq.question
    requires ParseInt(CleanField(f1, DifficultyPrefix)) == Some(sq.difficulty)
    requires Lower(CleanField(f2, SearchPrefix)) == "true" <==> sq.needsWebSearch
    ensures ParseFields(line, [f0, f1, f2]) == Success(sq)
  {
  }

  /**
   * Round trip: a line written in the requested format parses back to the
   * sub-question it was written from, provided the question text is trimmed
   * and contains neither `|` nor the text `Question: `.
   */
  lemma ParseFormattedLine(q: string, d: int, w: bool)
    requires '|' !in q
    requires q == [] || (!IsSpace(q[0]) && !IsSpace(q[|q| - 1]))
    requires !Occurs(q, QuestionPrefix)
    ensures LineEntry(FormatLine(q, d, w)) == Some(Success(SubQuestion(q, d, w)))
  {
    var line := FormatLine(q, d, w);
    FormattedLineFields(q, d, w);
    PrefixedField(QuestionPrefix, q);
    DifficultyFieldParse(d);
    SearchFieldParse(w);
    ParseCleanFields(line, QuestionPrefix + q, DifficultyPrefix + IntToString(d),
      SearchPrefix + (if w then "true" else "false"), SubQuestion(q, d, w));
  }

  /** The decimal rendering of an integer holds only digits and a leading minus sign. */
  lemma NoBarInNumber(d: int)
    ensures '|' !in IntToString(d) && 'D' !in IntToString(d)
  {
    var n: nat := if d < 0 then -d else d;
    DigitsOnly(n);
  }

  lemma {:induction false} DigitsOnly(n: nat)
    ensures forall k :: 0 <= k < |NatToString(n)| ==> IsDigit(NatToString(n)[k])
    decreases n
  {
    if n >= 10 {
      DigitsOnly(n / 10);
    }
  }

  lemma {:induction false} CollectAllKept(es: seq<Entry>)
    requires forall k :: 0 <= k < |es| ==> Kept(es[k])
    ensures Collect(es).Success? && |Collect(es).value| == |es|
    decreases |es|
  {
    if |es| > 0 {
      assert forall k :: 0 <= k < |es[1..]| ==> es[1..][k] == es[k + 1];
      CollectAllKept(es[1..]);
    }
  }

  /** Well-formed lines are never dropped or capped: any number of them yields that many sub-questions. */
  lemma NoEntryCap(lines: seq<string>)
    requires forall k :: 0 <= k < |lines| ==> Accepted(lines[k])
    ensures DecomposeLines(lines).Success? && |DecomposeLines(lines).value| == |lines|
  {
    CollectAllKept(Entries(lines));
  }

  lemma CollectOne(q: SubQuestion)
    ensures Collect([Some(Success(q))]) == Success([q])
  {
    var es: seq<Entry> := [Some(Success(q))];
    assert es[1..] == [];
    assert [q] + [] == [q];
  }

  /** A reply of exactly one accepted line yields exactly that line's sub-question. */
  lemma SingleLine(line: string, sq: SubQuestion)
    requires LineEntry(line) == Some(Success(sq))
    ensures DecomposeLines([line]) == Success([sq])
  {
    MapLinesOne(line, LineEntry);
    CollectOne(sq);
  }

  /**
   * The line "Question: What is X? | Difficulty: 42 | Needs Web Search: true"
   * (FormatLine spells it out piece by piece) parses to ("What is X?", 42, true).
   */
  lemma ExampleLine()
    ensures DecomposeLines([FormatLine("What is X?", 42, true)]) == Success([SubQuestion("What is X?", 42, true)])
  {
    var q := "What is X?";
    AbsentChar(q, QuestionPrefix, 0);
    ParseFormattedLine(q, 42, true);
    SingleLine(FormatLine(q, 42, true), SubQuestion(q, 42, true));
  }
}
