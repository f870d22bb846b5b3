/**
 * Rock-paper-scissors with user-defined options: rule generation, the
 * scoring of one round, the rating lookup and the command loop of the menu.
 * The computer's random choice and every line the player types are
 * parameters.
 */
module RockPaperScissors {

  /** An option name as the player types it ("rock", "lizard", ...). */
  type Choice = string

  /** For every option, the options it beats. */
  type Rules = map<Choice, seq<Choice>>

  /** One line of the rating file, already split into a name and its points. */
  datatype RatingLine = RatingLine(name: string, points: int)

  /** The rules used when the player enters an empty options line. */
  const DefaultRules: Rules := map["rock" := ["scissors"], "paper" := ["rock"], "scissors" := ["paper"]]

  predicate Distinct(options: seq<Choice>)
  {
    forall i, j :: 0 <= i < j < |options| ==> options[i] != options[j]
  }

  // ---------------------------------------------------------------------
  // Rule generation
  // ---------------------------------------------------------------------

  /** The list the rule generator stores for `options[i]`: the next half of the options, cyclically. */
  function Beats(options: seq<Choice>, i: nat): (r: seq<Choice>)
    requires i < |options|
    ensures |r| == |options| / 2
    ensures forall k :: 0 <= k < |r| ==> r[k] in options
  {
    seq(|options| / 2, k requires 0 <= k < |options| / 2 => options[(i + 1 + k) % |options|])
  }

  /** Number of forward steps around the circle of `n` options from index `i` to index `j` (n when i == j). */
  function Offset(i: nat, j: nat, n: nat): (d: nat)
    requires i < n && j < n
    ensures 1 <= d <= n
  {
    if i < j then j - i else j + n - i
  }

  lemma ModWrap(x: int, n: int)
    requires 0 < n && 0 <= x < 2 * n
    ensures x % n == if x < n then x else x - n
  {
  }

  /** Each rules entry holds exactly n/2 options, the k-th being k+1 steps forward, wrapping around the end of the list. */
  lemma BeatsShape(options: seq<Choice>, i: nat)
    requires i < |options|
    ensures |Beats(options, i)| == |options| / 2
    ensures forall k :: 0 <= k < |options| / 2 ==>
      Beats(options, i)[k] == options[if i + 1 + k < |options| then i + 1 + k else i + 1 + k - |options|]
  {
    var n := |options|;
    forall k | 0 <= k < n / 2
      ensures Beats(options, i)[k] == options[if i + 1 + k < n then i + 1 + k else i + 1 + k - n]
    {
      ModWrap(i + 1 + k, n);
    }
  }

  /** With distinct options, `options[i]` beats `options[j]` exactly when j is at most n/2 steps ahead of i. */
  lemma BeatsMembership(options: seq<Choice>, i: nat, j: nat)
    requires Distinct(options) && i < |options| && j < |options|
    ensures options[j] in Beats(options, i) <==> Offset(i, j, |options|) <= |options| / 2
  {
    var n := |options|;
    var b := Beats(options, i);
    BeatsShape(options, i);
    var d := Offset(i, j, n);
    if d <= n / 2 {
      var k := d - 1;
      assert b[k] == options[j];
    }
    if options[j] in b {
      var k :| 0 <= k < |b| && b[k] == options[j];
      var w := if i + 1 + k < n then i + 1 + k else i + 1 + k - n;
      assert options[w] == options[j];
      assert w == j;
    }
  }

  /** With distinct options, no option beats itself. */
  lemma NoSelfBeat(options: seq<Choice>, i: nat)
    requires Distinct(options) && i < |options|
    ensures options[i] !in Beats(options, i)
  {
    BeatsMembership(options, i, i);
  }

  /** With an odd number of distinct options, of two different options exactly one beats the other. */
  lemma ExactlyOneBeats(options: seq<Choice>, i: nat, j: nat)
    requires Distinct(options) && |options| % 2 == 1
    requires i < |options| && j < |options| && i != j
    ensures (options[j] in Beats(options, i)) != (options[i] in Beats(options, j))
  {
    BeatsMembership(options, i, j);
    BeatsMembership(options, j, i);
    assert Offset(i, j, |options|) + Offset(j, i, |options|) == |options|;
  }

  /** With an even number (at least two) of distinct options, the first and the middle option beat each other. */
  lemma EvenCountMutualBeat(options: seq<Choice>)
    requires Distinct(options) && |options| >= 2 && |options| % 2 == 0
    ensures options[|options| / 2] in Beats(options, 0)
    ensures options[0] in Beats(options, |options| / 2)
  {
    BeatsMembership(options, 0, |options| / 2);
    BeatsMembership(options, |options| / 2, 0);
  }

  /** The map after the first `k` passes of the generator's loop: each pass writes the entry of `options[k-1]`. */
  function RulesUpTo(options: seq<Choice>, k: nat): (r: Rules)
    requires k <= |options|
    ensures r.Keys == set o | o in options[..k]
  {
    if k == 0 then map[]
    else
      assert options[..k] == options[..k - 1] + [options[k - 1]];
      RulesUpTo(options, k - 1)[options[k - 1] := Beats(options, k - 1)]
  }

  /** The rules generated from a list of options. */
  function GeneratedRules(options: seq<Choice>): (r: Rules)
    ensures r.Keys == set o | o in options
  {
    assert options[..|options|] == options;
    RulesUpTo(options, |options|)
  }

  /** The rules the menu plays with: the default ones for an empty options line, generated ones otherwise. */
  function GameRules(options: seq<Choice>): (r: Rules)
    ensures options == [] ==> r == DefaultRules
    ensures options != [] ==> r.Keys == set o | o in options
  {
    if options == [] then DefaultRules else GeneratedRules(options)
  }

  /** Generates the rules by writing one entry per index, in index order. */
  method GenerateRules(options: seq<Choice>) returns (rules: Rules)
    ensures rules == GeneratedRules(options)
    ensures rules.Keys == set o | o in options
  {
    rules := map[];
    var i := 0;
    while i < |options|
      invariant 0 <= i <= |options|
      invariant rules == RulesUpTo(options, i)
    {
      rules := rules[options[i] := Beats(options, i)];
      i := i + 1;
    }
  }

  lemma {:induction false} RulesUpToLastWins(options: seq<Choice>, k: nat, i: nat)
    requires i < k <= |options|
    requires forall j :: i < j < k ==> options[j] != options[i]
    ensures options[i] in RulesUpTo(options, k)
    ensures RulesUpTo(options, k)[options[i]] == Beats(options, i)
  {
    if i < k - 1 {
      RulesUpToLastWins(options, k - 1, i);
    }
  }

  /** For a repeated option, the entry written at its last index is the one that stays. */
  lemma GeneratedLastWins(options: seq<Choice>, i: nat)
    requires i < |options|
    requires forall j :: i < j < |options| ==> options[j] != options[i]
    ensures options[i] in GeneratedRules(options)
    ensures GeneratedRules(options)[options[i]] == Beats(options, i)
  {
    RulesUpToLastWins(options, |options|, i);
  }

  lemma {:induction false} RulesUpToEntryLength(options: seq<Choice>, k: nat, o: Choice)
    requires k <= |options| && o in RulesUpTo(options, k)
    ensures |RulesUpTo(options, k)[o]| == |options| / 2
  {
    if o == options[k - 1] {
      BeatsShape(options, k - 1);
    } else {
      RulesUpToEntryLength(options, k - 1, o);
    }
  }

  /** Every generated entry lists exactly len(options) / 2 options. */
  lemma GeneratedEntryLength(options: seq<Choice>, o: Choice)
    requires o in GeneratedRules(options)
    ensures |GeneratedRules(options)[o]| == |options| / 2
  {
    RulesUpToEntryLength(options, |options|, o);
  }

  /** With distinct options, the entry of `options[i]` is the list generated at index i. */
  lemma GeneratedEntry(options: seq<Choice>, o: Choice) returns (i: nat)
    requires Distinct(options) && o in GeneratedRules(options)
    ensures i < |options| && options[i] == o
    ensures GeneratedRules(options)[o] == Beats(options, i)
  {
    assert o in options;
    i :| 0 <= i < |options| && options[i] == o;
    GeneratedLastWins(options, i);
  }

  /** With distinct options, no generated entry contains its own key. */
  lemma GeneratedNoSelfBeat(options: seq<Choice>, o: Choice)
    requires Distinct(options) && o in GeneratedRules(options)
    ensures o !in GeneratedRules(options)[o]
  {
    var i := GeneratedEntry(options, o);
    NoSelfBeat(options, i);
  }

  /** With an odd number of distinct options, of two different keys exactly one beats the other. */
  lemma GeneratedExactlyOneBeats(options: seq<Choice>, a: Choice, b: Choice)
    requires Distinct(options) && |options| % 2 == 1
    requires a in GeneratedRules(options) && b in GeneratedRules(options) && a != b
    ensures (b in GeneratedRules(options)[a]) != (a in GeneratedRules(options)[b])
  {
    var i := GeneratedEntry(options, a);
    var j := GeneratedEntry(options, b);
    ExactlyOneBeats(options, i, j);
  }

  /** A repeated option can beat itself: for [a, b, a] the entry of a is [a]. */
  lemma DuplicateOptionBeatsItself(a: Choice, b: Choice)
    ensures a in GeneratedRules([a, b, a])[a]
  {
    var options := [a, b, a];
    GeneratedLastWins(options, 2);
    BeatsShape(options, 2);
    assert Beats(options, 2)[0] == a;
  }

  /** Generating from "rock,paper,scissors" gives the reverse of the default rules. */
  lemma ClassicOptionsReverseDefaults()
    ensures GeneratedRules(["rock", "paper", "scissors"]).Keys == DefaultRules.Keys
    ensures forall a, b :: a in DefaultRules && b in DefaultRules ==>
      (b in GeneratedRules(["rock", "paper", "scissors"])[a] <==> a in DefaultRules[b])
  {
    var options := ["rock", "paper", "scissors"];
    GeneratedLastWins(options, 0);
    GeneratedLastWins(options, 1);
    GeneratedLastWins(options, 2);
    BeatsShape(options, 0);
    BeatsShape(options, 1);
    BeatsShape(options, 2);
    assert GeneratedRules(options)["rock"] == ["paper"];
    assert GeneratedRules(options)["paper"] == ["scissors"];
    assert GeneratedRules(options)["scissors"] == ["rock"];
  }

  // ---------------------------------------------------------------------
  // One round
  // ---------------------------------------------------------------------

  /** Points for one round: 100 for a win, 50 for a draw, 0 for a loss. */
  function PlayRound(userChoice: Choice, computerChoice: Choice, rules: Rules): (points: nat)
    requires userChoice in rules
    ensures points == 0 || points == 50 || points == 100
    ensures points == 100 <==> computerChoice in rules[userChoice]
    ensures points == 50 <==> computerChoice !in rules[userChoice] && computerChoice == userChoice
  {
    if computerChoice in rules[userChoice] then 100
    else if userChoice == computerChoice then 50
    else 0
  }

  /** With an odd number of distinct options, the two sides' points for any pair of choices add up to 100. */
  lemma RoundIsFair(options: seq<Choice>, a: Choice, b: Choice)
    requires Distinct(options) && |options| % 2 == 1
    requires a in GeneratedRules(options) && b in GeneratedRules(options)
    ensures PlayRound(a, b, GeneratedRules(options)) + PlayRound(b, a, GeneratedRules(options)) == 100
  {
    if a == b {
      GeneratedNoSelfBeat(options, a);
    } else {
      GeneratedExactlyOneBeats(options, a, b);
    }
  }

  /** The default rules are fair in the same sense. */
  lemma DefaultRoundIsFair(a: Choice, b: Choice)
    requires a in DefaultRules && b in DefaultRules
    ensures PlayRound(a, b, DefaultRules) + PlayRound(b, a, DefaultRules) == 100
  {
  }

  // ---------------------------------------------------------------------
  // Rating lookup
  // ---------------------------------------------------------------------

  /** The points on the first line carrying `username`, or 0 when there is none. */
  function RatingOf(lines: seq<RatingLine>, username: string): (r: int)
    ensures r == 0 || exists k :: 0 <= k < |lines| && lines[k].name == username && lines[k].points == r
  {
    if lines == [] then 0
    else if lines[0].name == username then lines[0].points
    else RatingOf(lines[1..], username)
  }

  lemma {:induction false} RatingOfFirstMatch(lines: seq<RatingLine>, username: string, i: nat)
    requires i < |lines| && lines[i].name == username
    requires forall k :: 0 <= k < i ==> lines[k].name != username
    ensures RatingOf(lines, username) == lines[i].points
  {
    if i > 0 {
      assert lines[0].name != username;
      RatingOfFirstMatch(lines[1..], username, i - 1);
    }
  }

  lemma {:induction false} RatingOfNoMatch(lines: seq<RatingLine>, username: string)
    requires forall k :: 0 <= k < |lines| ==> lines[k].name != username
    ensures RatingOf(lines, username) == 0
  {
    if lines != [] {
      assert lines[0].name != username;
      RatingOfNoMatch(lines[1..], username);
    }
  }

  /** Scans the lines in order and returns at the first one whose name matches. */
  method GetRating(lines: seq<RatingLine>, username: string) returns (rating: int)
    ensures rating == RatingOf(lines, username)
    ensures (forall k :: 0 <= k < |lines| ==> lines[k].name != username) ==> rating == 0
    ensures forall i :: (0 <= i < |lines| && lines[i].name == username &&
                         (forall k :: 0 <= k < i ==> lines[k].name != username)) ==> rating == lines[i].points
  {
    var i := 0;
    while i < |lines|
      invariant 0 <= i <= |lines|
      invariant forall k :: 0 <= k < i ==> lines[k].name != username
    {
      if lines[i].name == username {
        RatingOfFirstMatch(lines, username, i);
        forall j | 0 <= j < |lines| && lines[j].name == username &&
            (forall k :: 0 <= k < j ==> lines[k].name != username)
          ensures lines[i].points == lines[j].points
        {
          assert j == i;
        }
        return lines[i].points;
      }
      i := i + 1;
    }
    RatingOfNoMatch(lines, username);
    return 0;
  }

  // ---------------------------------------------------------------------
  // Menu
  // ---------------------------------------------------------------------

  /** What one line typed at the menu prompt means. */
  datatype Command = Exit | ShowRules | ShowRating | Round(choice: Choice) | Incorrect

  /** Reads a menu line, testing the special commands before the options. */
  function Classify(input: string, rules: Rules): (c: Command)
    ensures c == Exit <==> input == "!exit"
    ensures c == ShowRules <==> input == "!rules"
    ensures c == ShowRating <==> input == "!rating"
    ensures c.Round? <==> input in rules && input != "!exit" && input != "!rules" && input != "!rating"
    ensures c.Round? ==> c.choice == input
  {
    if input == "!exit" then Exit
    else if input == "!rules" then ShowRules
    else if input == "!rating" then ShowRating
    else if input in rules then Round(input)
    else Incorrect
  }

  /** The rating after one menu line other than "!exit". */
  function MenuStep(rating: int, input: string, computerChoice: Choice, rules: Rules): (r: int)
    requires input != "!exit"
    ensures !Classify(input, rules).Round? ==> r == rating
    ensures Classify(input, rules).Round? ==> r - rating == PlayRound(input, computerChoice, rules)
  {
    match Classify(input, rules)
    case Round(c) => rating + PlayRound(c, computerChoice, rules)
    case _ => rating
  }

  /** The rating at the end of a menu session, which stops at the first "!exit". */
  function SessionRating(rating: int, inputs: seq<string>, computerChoices: seq<Choice>, rules: Rules): (r: int)
    requires |computerChoices| == |inputs|
    ensures r >= rating
    decreases |inputs|
  {
    if inputs == [] || inputs[0] == "!exit" then rating
    else SessionRating(MenuStep(rating, inputs[0], computerChoices[0], rules), inputs[1..], computerChoices[1..], rules)
  }

  /** Nothing typed after "!exit" is read. */
  lemma {:induction false} SessionStopsAtExit(rating: int, inputs: seq<string>, computerChoices: seq<Choice>, rules: Rules, k: nat)
    requires |computerChoices| == |inputs| && k < |inputs| && inputs[k] == "!exit"
    ensures SessionRating(rating, inputs, computerChoices, rules) == SessionRating(rating, inputs[..k], computerChoices[..k], rules)
    decreases k
  {
    if k > 0 && inputs[0] != "!exit" {
      var next := MenuStep(rating, inputs[0], computerChoices[0], rules);
      SessionStopsAtExit(next, inputs[1..], computerChoices[1..], rules, k - 1);
      assert inputs[..k][1..] == inputs[1..][..k - 1];
      assert computerChoices[..k][1..] == computerChoices[1..][..k - 1];
    }
  }

  /** A session with no option among its lines leaves the rating as it was. */
  lemma {:induction false} SessionWithoutRounds(rating: int, inputs: seq<string>, computerChoices: seq<Choice>, rules: Rules)
    requires |computerChoices| == |inputs|
    requires forall k :: 0 <= k < |inputs| ==> !Classify(inputs[k], rules).Round?
    ensures SessionRating(rating, inputs, computerChoices, rules) == rating
    decreases |inputs|
  {
    if inputs != [] && inputs[0] != "!exit" {
      assert !Classify(inputs[0], rules).Round?;
      SessionWithoutRounds(rating, inputs[1..], computerChoices[1..], rules);
    }
  }

  /**
   * The whole menu: looks up the player's rating, picks the rules, then
   * reads lines until "!exit" (or until the lines run out), adding the
   * points of every round.
   */
  method StartMenu(name: string, ratingLines: seq<RatingLine>, options: seq<Choice>,
                   inputs: seq<string>, computerChoices: seq<Choice>)
    returns (rating: int, exited: bool)
    requires |computerChoices| == |inputs|
    requires forall k :: 0 <= k < |computerChoices| ==> computerChoices[k] in GameRules(options)
    ensures rating == SessionRating(RatingOf(ratingLines, name), inputs, computerChoices, GameRules(options))
    ensures rating >= RatingOf(ratingLines, name)
    ensures exited <==> "!exit" in inputs
  {
    rating := GetRating(ratingLines, name);
    var rules: Rules;
    if options == [] {
      rules := DefaultRules;
    } else {
      rules := GenerateRules(options);
    }
    ghost var initial := rating;
    exited := false;
    var i := 0;
    while i < |inputs|
      invariant 0 <= i <= |inputs|
      invariant "!exit" !in inputs[..i]
      invariant SessionRating(initial, inputs, computerChoices, rules)
             == SessionRating(rating, inputs[i..], computerChoices[i..], rules)
      invariant rating >= initial
    {
      var input := inputs[i];
      if input == "!exit" {
        exited := true;
        break;
      } else if input == "!rules" {
        // only displays the rules
      } else if input == "!rating" {
        // only displays the rating
      } else if input in rules {
        rating := rating + PlayRound(input, computerChoices[i], rules);
      } else {
        // "Incorrect input."
      }
      assert inputs[..i + 1] == inputs[..i] + [input];
      i := i + 1;
    }
    if !exited {
      assert inputs[..i] == inputs;
    }
  }
}
