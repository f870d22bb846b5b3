/**
 * The markdown editor: one string builder per formatter, the two input
 * validation loops, the list builder and the command loop that grows the
 * document. Every answer the user types is a parameter.
 */
module Markdown {
  import opened Wrappers

  // ---------------------------------------------------------------------
  // Inline formatters
  // ---------------------------------------------------------------------

  /** Plain text is kept as typed. */
  function Plain(text: string): (r: string)
    ensures r == text
  {
    text
  }

  /** Bold text: the text between two pairs of asterisks, which strip off again. */
  function Bold(text: string): (r: string)
    ensures |r| == |text| + 4
    ensures r[..2] == "**" && r[|r| - 2..] == "**"
    ensures r[2..|r| - 2] == text
  {
    "**" + text + "**"
  }

  /** Italic text: the text between two single asterisks, which strip off again. */
  function Italic(text: string): (r: string)
    ensures |r| == |text| + 2
    ensures r[0] == '*' && r[|r| - 1] == '*'
    ensures r[1..|r| - 1] == text
  {
    "*" + text + "*"
  }

  /** Inline code: the text between two backticks, which strip off again. */
  function InlineCode(text: string): (r: string)
    ensures |r| == |text| + 2
    ensures r[0] == '`' && r[|r| - 1] == '`'
    ensures r[1..|r| - 1] == text
  {
    "`" + text + "`"
  }

  /** A link `[labelText](url)`; labelText and url can be read back from their positions. */
  function Link(labelText: string, url: string): (r: string)
    ensures |r| == |labelText| + |url| + 4
    ensures r[0] == '[' && r[|labelText| + 1..|labelText| + 3] == "](" && r[|r| - 1] == ')'
    ensures r[1..|labelText| + 1] == labelText
    ensures r[|labelText| + 3..|r| - 1] == url
  {
    "[" + labelText + "](" + url + ")"
  }

  /** The new-line formatter. */
  function NewLine(): (r: string)
    ensures |r| == 1 && r[0] == '\n'
  {
    "\n"
  }

  // ---------------------------------------------------------------------
  // Headers
  // ---------------------------------------------------------------------

  /** A header level: the only values the level prompt accepts. */
  type Level = l: int | 1 <= l <= 6 witness 1

  /** `n` copies of '#'. */
  function Hashes(n: nat): (r: string)
    ensures |r| == n
    ensures forall k :: 0 <= k < n ==> r[k] == '#'
  {
    if n == 0 then "" else Hashes(n - 1) + "#"
  }

  /** The number of '#' characters a string starts with. */
  function LeadingHashes(s: string): (n: nat)
    ensures n <= |s|
  {
    if s != [] && s[0] == '#' then 1 + LeadingHashes(s[1..]) else 0
  }

  lemma {:induction false} LeadingHashesOfHeader(n: nat, rest: string)
    requires rest == [] || rest[0] != '#'
    ensures LeadingHashes(Hashes(n) + rest) == n
  {
    if n > 0 {
      var s := Hashes(n) + rest;
      assert s[0] == '#';
      assert s[1..] == Hashes(n - 1) + rest by {
        assert Hashes(n) == "#" + Hashes(n - 1) by { HashesFront(n); }
      }
      LeadingHashesOfHeader(n - 1, rest);
    }
  }

  lemma HashesFront(n: nat)
    requires n > 0
    ensures Hashes(n) == "#" + Hashes(n - 1)
  {
  }

  /** A header: `level` hashes, a space, the text. Level and text can be read back. */
  function Header(level: Level, text: string): (r: string)
    ensures |r| == level + 1 + |text|
    ensures 1 <= LeadingHashes(r) == level <= 6
    ensures r[level] == ' ' && r[level + 1..] == text
  {
    LeadingHashesOfHeader(level, " " + text);
    assert Hashes(level) + " " + text == Hashes(level) + (" " + text);
    Hashes(level) + " " + text
  }

  /** An answer to the level prompt is accepted when it is numeric and in 1..6. */
  predicate AcceptsLevel(answer: Option<int>)
  {
    answer.Some? && 1 <= answer.value <= 6
  }

  /**
   * Asks for a level until an answer is accepted; a non-numeric answer is
   * None. The result is None only when the answers run out first.
   */
  method HeaderLevel(answers: seq<Option<int>>) returns (level: Option<int>)
    ensures level.Some? ==> 1 <= level.value <= 6
    ensures level.None? <==> forall k :: 0 <= k < |answers| ==> !AcceptsLevel(answers[k])
    ensures level.Some? ==> exists k :: 0 <= k < |answers| && answers[k] == level &&
                                      (forall j :: 0 <= j < k ==> !AcceptsLevel(answers[j]))
  {
    var i := 0;
    while i < |answers|
      invariant 0 <= i <= |answers|
      invariant forall j :: 0 <= j < i ==> !AcceptsLevel(answers[j])
    {
      var answer := answers[i];
      if answer.Some? && 1 <= answer.value <= 6 {
        return answer;
      }
      i := i + 1;
    }
    return None;
  }

  // ---------------------------------------------------------------------
  // Lists
  // ---------------------------------------------------------------------

  /** An answer to the row-count prompt is accepted when it is numeric and positive. */
  predicate AcceptsCount(answer: Option<int>)
  {
    answer.Some? && answer.value > 0
  }

  /** Asks for a number of rows until an answer is accepted (None: the answers ran out). */
  method RowCount(answers: seq<Option<int>>) returns (count: Option<int>)
    ensures count.Some? ==> count.value > 0
    ensures count.None? <==> forall k :: 0 <= k < |answers| ==> !AcceptsCount(answers[k])
    ensures count.Some? ==> exists k :: 0 <= k < |answers| && answers[k] == count &&
                                      (forall j :: 0 <= j < k ==> !AcceptsCount(answers[j]))
  {
    var i := 0;
    while i < |answers|
      invariant 0 <= i <= |answers|
      invariant forall j :: 0 <= j < i ==> !AcceptsCount(answers[j])
    {
      var answer := answers[i];
      if answer.Some? && answer.value > 0 {
        return answer;
      }
      i := i + 1;
    }
    return None;
  }

  function DigitChar(d: nat): (c: char)
    requires d < 10
    ensures '0' <= c <= '9' && c as int - '0' as int == d
  {
    "0123456789"[d]
  }

  /** The decimal numeral of a natural number, as a formatted string shows it. */
  function Decimal(n: nat): (s: string)
    ensures |s| >= 1
    ensures forall k :: 0 <= k < |s| ==> '0' <= s[k] <= '9'
    ensures s[0] == '0' <==> n == 0
  {
    if n < 10 then [DigitChar(n)] else Decimal(n / 10) + [DigitChar(n % 10)]
  }

  /** The value of a string of decimal digits. */
  function DigitsValue(s: string): nat
    requires forall k :: 0 <= k < |s| ==> '0' <= s[k] <= '9'
  {
    if s == [] then 0 else 10 * DigitsValue(s[..|s| - 1]) + (s[|s| - 1] as int - '0' as int)
  }

  /** A row number reads back as the number it was made from. */
  lemma {:induction false} DecimalRoundTrip(n: nat)
    ensures DigitsValue(Decimal(n)) == n
  {
    if n >= 10 {
      DecimalRoundTrip(n / 10);
      var s := Decimal(n);
      assert s[..|s| - 1] == Decimal(n / 10);
    }
  }

  /** One list row: `number. item` in an ordered list, `* item` otherwise. */
  function Row(number: nat, ordered: bool, item: string): (r: string)
    ensures |r| == (if ordered then |Decimal(number)| + 2 else 2) + |item|
    ensures !ordered ==> r[..2] == "* " && r[2..] == item
    ensures ordered ==> var d := |Decimal(number)|;
      r[..d] == Decimal(number) && r[d..d + 2] == ". " && r[d + 2..] == item
  {
    if ordered then Decimal(number) + ". " + item else "* " + item
  }

  /** The rows for `items`, numbered from `first`, each preceded by a line break. */
  function Rows(items: seq<string>, ordered: bool, first: nat): (r: string)
    ensures |r| >= 3 * |items|
    decreases |items|
  {
    if items == [] then "" else "\n" + Row(first, ordered, items[0]) + Rows(items[1..], ordered, first + 1)
  }

  /** The rows of a list split at any point into the rows before and the rows after, numbering continued. */
  lemma {:induction false} RowsSplit(items: seq<string>, ordered: bool, first: nat, k: nat)
    requires k <= |items|
    ensures Rows(items, ordered, first) == Rows(items[..k], ordered, first) + Rows(items[k..], ordered, first + k)
    decreases k
  {
    if k > 0 {
      RowsSplit(items[1..], ordered, first + 1, k - 1);
      assert items[..k][1..] == items[1..][..k - 1];
      assert items[1..][k - 1..] == items[k..];
    }
  }

  /** Rows come in input order: the row of `items[k]` carries number `first + k` and follows the rows of the items before it. */
  lemma RowAt(items: seq<string>, ordered: bool, first: nat, k: nat)
    requires k < |items|
    ensures Rows(items, ordered, first)
         == Rows(items[..k], ordered, first) + "\n" + Row(first + k, ordered, items[k]) + Rows(items[k + 1..], ordered, first + k + 1)
  {
    RowsSplit(items, ordered, first, k);
    var tail := items[k..];
    assert tail[0] == items[k] && tail[1..] == items[k + 1..];
    var before := Rows(items[..k], ordered, first);
    var row := Row(first + k, ordered, items[k]);
    var after := Rows(items[k + 1..], ordered, first + k + 1);
    assert Rows(tail, ordered, first + k) == "\n" + row + after;
    assert before + ("\n" + row + after) == before + "\n" + row + after;
  }

  /** Adding an item adds its row, numbered after the others, at the end. */
  lemma RowsAppend(items: seq<string>, item: string, ordered: bool, first: nat)
    ensures Rows(items + [item], ordered, first) == Rows(items, ordered, first) + "\n" + Row(first + |items|, ordered, item)
  {
    var all := items + [item];
    RowAt(all, ordered, first, |items|);
    assert all[..|items|] == items && all[|items|..][1..] == [] && all[|items| + 1..] == [];
  }

  /** Builds a list row by row, in input order, and ends it with a line break. */
  method CreateList(ordered: bool, items: seq<string>) returns (result: string)
    ensures result == Rows(items, ordered, 1) + "\n"
  {
    result := "";
    var i := 0;
    while i < |items|
      invariant 0 <= i <= |items|
      invariant result == Rows(items[..i], ordered, 1)
    {
      RowsAppend(items[..i], items[i], ordered, 1);
      assert items[..i] + [items[i]] == items[..i + 1];
      result := result + "\n" + Row(i + 1, ordered, items[i]);
      i := i + 1;
    }
    assert items[..i] == items;
    result := result + "\n";
  }

  // ---------------------------------------------------------------------
  // The command loop
  // ---------------------------------------------------------------------

  /** The formatter names the editor knows. */
  const Formatters: seq<string> :=
    ["plain", "bold", "italic", "inline-code", "link", "header", "unordered-list", "ordered-list", "new-line"]

  /**
   * One turn of the editor: the name typed at the prompt and the answers
   * the chosen formatter reads (only the ones it asks for are used). The
   * level and the rows are what the validation loops handed back.
   */
  datatype Turn = Turn(name: string, text: string, labelText: string, url: string, level: Level, rows: seq<string>)

  /** The document after one turn other than "!done". */
  function Apply(output: string, turn: Turn): (r: string)
    requires turn.name != "!done"
    ensures output <= r
    ensures turn.name !in Formatters ==> r == output
    ensures turn.name == "plain" ==> r == output + turn.text
    ensures turn.name == "bold" ==> r == output + Bold(turn.text)
    ensures turn.name == "italic" ==> r == output + Italic(turn.text)
    ensures turn.name == "inline-code" ==> r == output + InlineCode(turn.text)
    ensures turn.name == "link" ==> r == output + Link(turn.labelText, turn.url)
    ensures turn.name == "header" ==> r == output + Header(turn.level, turn.text)
    ensures turn.name == "unordered-list" ==> r == output + Rows(turn.rows, false, 1) + "\n"
    ensures turn.name == "ordered-list" ==> r == output + Rows(turn.rows, true, 1) + "\n"
    ensures turn.name == "new-line" ==> r == output + "\n"
  {
    var name := turn.name;
    if name == "plain" then output + Plain(turn.text)
    else if name == "bold" then output + Bold(turn.text)
    else if name == "italic" then output + Italic(turn.text)
    else if name == "inline-code" then output + InlineCode(turn.text)
    else if name == "link" then output + Link(turn.labelText, turn.url)
    else if name == "header" then output + Header(turn.level, turn.text)
    // the two list formatters append what CreateList builds
    else if name == "unordered-list" then output + Rows(turn.rows, false, 1) + "\n"
    else if name == "ordered-list" then output + Rows(turn.rows, true, 1) + "\n"
    else if name == "new-line" then output + NewLine()
    else output  // "!help" and unknown names
  }

  /** The document at the end of a session, which stops at the first "!done". */
  function Render(output: string, turns: seq<Turn>): (r: string)
    ensures output <= r
    decreases |turns|
  {
    if turns == [] || turns[0].name == "!done" then output
    else
      var next := Apply(output, turns[0]);
      PrefixTransitive(output, next, Render(next, turns[1..]));
      Render(next, turns[1..])
  }

  lemma PrefixTransitive(a: string, b: string, c: string)
    requires a <= b && b <= c
    ensures a <= c
  {
    assert b == c[..|b|];
    assert a == b[..|a|];
  }

  /** Nothing typed after "!done" reaches the document. */
  lemma {:induction false} RenderStopsAtDone(output: string, turns: seq<Turn>, k: nat)
    requires k < |turns| && turns[k].name == "!done"
    ensures Render(output, turns) == Render(output, turns[..k])
    decreases k
  {
    if k > 0 && turns[0].name != "!done" {
      RenderStopsAtDone(Apply(output, turns[0]), turns[1..], k - 1);
      assert turns[..k][1..] == turns[1..][..k - 1];
    }
  }

  /** Running more turns only ever extends the document of the earlier ones. */
  lemma {:induction false} RenderGrows(output: string, turns: seq<Turn>, k: nat)
    requires k <= |turns|
    ensures Render(output, turns[..k]) <= Render(output, turns)
    decreases k
  {
    if k > 0 && turns[0].name != "!done" {
      RenderGrows(Apply(output, turns[0]), turns[1..], k - 1);
      assert turns[..k][1..] == turns[1..][..k - 1];
    }
  }

  lemma RenderUnfold(output: string, turns: seq<Turn>)
    requires turns != [] && turns[0].name != "!done"
    ensures Render(output, turns) == Render(Apply(output, turns[0]), turns[1..])
  {
  }

  lemma ListTurn(output: string, turn: Turn, list: string)
    requires turn.name == "unordered-list" || turn.name == "ordered-list"
    requires list == Rows(turn.rows, turn.name == "ordered-list", 1) + "\n"
    ensures output + list == Apply(output, turn)
  {
    assert output + (Rows(turn.rows, turn.name == "ordered-list", 1) + "\n")
        == output + Rows(turn.rows, turn.name == "ordered-list", 1) + "\n";
  }

  /**
   * The editor: reads turns until "!done" (or until they run out) and
   * appends what each formatter produces. `done` tells whether the
   * document would be saved.
   */
  method Editor(turns: seq<Turn>) returns (output: string, done: bool)
    ensures output == Render("", turns)
    ensures done <==> exists k :: 0 <= k < |turns| && turns[k].name == "!done"
  {
    output := "";
    done := false;
    var i := 0;
    while i < |turns|
      invariant 0 <= i <= |turns|
      invariant forall k :: 0 <= k < i ==> turns[k].name != "!done"
      invariant Render("", turns) == Render(output, turns[i..])
    {
      var turn := turns[i];
      if turn.name == "!done" {
        done := true;
        break;
      }
      RenderUnfold(output, turns[i..]);
      assert turns[i..][1..] == turns[i + 1..];
      if turn.name == "unordered-list" || turn.name == "ordered-list" {
        var list := CreateList(turn.name == "ordered-list", turn.rows);
        ListTurn(output, turn, list);
        output := output + list;
      } else {
        output := Apply(output, turn);
      }
      i := i + 1;
    }
  }
}
