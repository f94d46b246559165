/**
 * Tokenising of the minifier option strings: `StringUtils.isNotBlank(options)` followed by
 * `options.split("[ \t]+")` (WebOptimizerMavenPlugin.processJavaScript / processCss).
 *
 * Java's split with a limit of 0 cuts the string at every maximal run of spaces and tabs,
 * keeps a leading empty piece when the string starts with such a run, drops every trailing
 * empty piece, and returns the string itself when no run occurs at all.
 */
module Tokens {
  import opened Common

  const Separators: set<char> := {' ', '\t'}

  predicate HasNoSeparator(s: string) {
    forall i :: 0 <= i < |s| ==> s[i] !in Separators
  }

  /**
   * The pieces of `s` between maximal runs of separators, an empty piece at either end
   * included when `s` starts or ends with a run; read one character at a time, where a
   * separator opens a new piece unless the next character is a separator as well.
   */
  function Pieces(s: string): (r: seq<string>)
    ensures |r| >= 1
  {
    if s == [] then
      [[]]
    else
      var rest := Pieces(s[1..]);
      if s[0] !in Separators then [[s[0]] + rest[0]] + rest[1..]
      else if s[1..] != [] && s[1] in Separators then rest
      else [[]] + rest
  }

  /** The list without its trailing empty strings. */
  function DropTrailingEmpty(pieces: seq<string>): (d: seq<string>)
    ensures |d| <= |pieces| && d == pieces[..|d|]
    ensures d == [] || d[|d| - 1] != []
    ensures forall i :: |d| <= i < |pieces| ==> pieces[i] == []
  {
    if pieces == [] || pieces[|pieces| - 1] != [] then pieces
    else DropTrailingEmpty(pieces[..|pieces| - 1])
  }

  /** String.split("[ \t]+") with Java's default limit of 0. */
  function Split(s: string): seq<string> {
    if HasNoSeparator(s) then [s] else DropTrailingEmpty(Pieces(s))
  }

  /** The arguments contributed by an option string: none when it is null or blank. */
  function OptionTokens(options: Option<string>): seq<string> {
    if options.None? || IsBlank(options.value) then [] else Split(options.value)
  }

  /** The characters of `s` that are not separators, in order. */
  function RemoveSeparators(s: string): string {
    if s == [] then [] else (if s[0] in Separators then [] else [s[0]]) + RemoveSeparators(s[1..])
  }

  /** The concatenation of a list of strings. */
  function Concat(pieces: seq<string>): string {
    if pieces == [] then [] else pieces[0] + Concat(pieces[1..])
  }

  /** The tokens written out with one space between neighbours. */
  function JoinWithSpace(tokens: seq<string>): string {
    if tokens == [] then []
    else if |tokens| == 1 then tokens[0]
    else tokens[0] + [' '] + JoinWithSpace(tokens[1..])
  }

  predicate AllSeparators(s: string) {
    forall i :: 0 <= i < |s| ==> s[i] in Separators
  }

  /**
   * `s` with every maximal run of spaces and tabs replaced by one space, except a run at the
   * end, which is dropped: where the split cuts, and what it throws away.
   */
  function CollapseRuns(s: string): string {
    if s == [] then []
    else if s[0] !in Separators then [s[0]] + CollapseRuns(s[1..])
    else if AllSeparators(s[1..]) then []
    else if s[1] in Separators then CollapseRuns(s[1..])
    else [' '] + CollapseRuns(s[1..])
  }

  /** Like CollapseRuns, but a run at the end becomes one space as well. */
  function CollapseAll(s: string): string {
    if s == [] then []
    else if s[0] !in Separators then [s[0]] + CollapseAll(s[1..])
    else if s[1..] != [] && s[1] in Separators then CollapseAll(s[1..])
    else [' '] + CollapseAll(s[1..])
  }

  // ---------------------------------------------------------------------------------------
  // Helper facts about the definitions above.

  lemma {:induction false} RemoveSeparatorsOfPlain(s: string)
    requires HasNoSeparator(s)
    ensures RemoveSeparators(s) == s
    decreases |s|
  {
    if s != [] {
      RemoveSeparatorsOfPlain(s[1..]);
    }
  }

  lemma {:induction false} ConcatAppend(a: seq<string>, b: seq<string>)
    ensures Concat(a + b) == Concat(a) + Concat(b)
    decreases |a|
  {
    if a != [] {
      assert (a + b)[1..] == a[1..] + b;
      ConcatAppend(a[1..], b);
    } else {
      assert a + b == b;
    }
  }

  lemma {:induction false} ConcatOfEmpties(pieces: seq<string>)
    requires forall i :: 0 <= i < |pieces| ==> pieces[i] == []
    ensures Concat(pieces) == []
    decreases |pieces|
  {
    if pieces != [] {
      ConcatOfEmpties(pieces[1..]);
    }
  }

  lemma DropTrailingEmptyKeepsConcat(pieces: seq<string>)
    ensures Concat(DropTrailingEmpty(pieces)) == Concat(pieces)
  {
    var d := DropTrailingEmpty(pieces);
    assert pieces == d + pieces[|d|..];
    ConcatAppend(d, pieces[|d|..]);
    ConcatOfEmpties(pieces[|d|..]);
  }

  // ---------------------------------------------------------------------------------------
  // What splitting promises.

  /** No piece contains a space or a tab. */
  lemma {:induction false} PiecesHaveNoSeparator(s: string)
    ensures forall k :: 0 <= k < |Pieces(s)| ==> HasNoSeparator(Pieces(s)[k])
  {
    if s != [] {
      PiecesHaveNoSeparator(s[1..]);
    }
  }

  /** Splitting removes exactly the separators: the pieces, concatenated, are `s` without them. */
  lemma {:induction false} PiecesKeepContent(s: string)
    ensures Concat(Pieces(s)) == RemoveSeparators(s)
  {
    if s != [] {
      var rest := Pieces(s[1..]);
      PiecesKeepContent(s[1..]);
      assert Concat(rest) == rest[0] + Concat(rest[1..]);
      if s[0] !in Separators {
        var p := [[s[0]] + rest[0]] + rest[1..];
        assert p[1..] == rest[1..];
        assert Concat(p) == [s[0]] + rest[0] + Concat(rest[1..]);
      } else if !(s[1..] != [] && s[1] in Separators) {
        assert ([[]] + rest)[1..] == rest;
      }
    }
  }

  /** The first piece is empty exactly when `s` is empty or starts with a separator; only
      the first and the last piece can be empty. */
  lemma {:induction false} PiecesEmptiness(s: string)
    ensures Pieces(s)[0] == [] <==> (s == [] || s[0] in Separators)
    ensures forall k :: 0 < k < |Pieces(s)| - 1 ==> Pieces(s)[k] != []
  {
    if s != [] {
      var rest := Pieces(s[1..]);
      PiecesEmptiness(s[1..]);
      if s[0] !in Separators {
        forall k | 0 < k < |Pieces(s)| - 1 ensures Pieces(s)[k] != [] {
          assert Pieces(s)[k] == rest[k];
        }
      } else if !(s[1..] != [] && s[1] in Separators) {
        forall k | 0 < k < |Pieces(s)| - 1 ensures Pieces(s)[k] != [] {
          assert Pieces(s)[k] == rest[k - 1];
        }
      }
    }
  }

  /** Every token of a split is free of spaces and tabs. */
  lemma SplitTokensHaveNoSeparator(s: string)
    ensures forall k :: 0 <= k < |Split(s)| ==> HasNoSeparator(Split(s)[k])
  {
    if !HasNoSeparator(s) {
      PiecesHaveNoSeparator(s);
    }
  }

  /** The tokens of a split, concatenated, are the input with its spaces and tabs removed:
      nothing but separators is lost, nothing is added or reordered. */
  lemma SplitKeepsContent(s: string)
    ensures Concat(Split(s)) == RemoveSeparators(s)
  {
    if HasNoSeparator(s) {
      RemoveSeparatorsOfPlain(s);
      assert Concat([s]) == s + Concat([]);
    } else {
      PiecesKeepContent(s);
      DropTrailingEmptyKeepsConcat(Pieces(s));
    }
  }

  /** Only the first token of a split can be empty. */
  lemma SplitLaterTokensNonEmpty(s: string)
    ensures forall k :: 0 < k < |Split(s)| ==> Split(s)[k] != []
  {
    if !HasNoSeparator(s) {
      PiecesEmptiness(s);
    }
  }

  lemma {:induction false} RemoveSeparatorsKeepsNonBlank(s: string)
    requires !IsBlank(s)
    ensures RemoveSeparators(s) != []
    decreases |s|
  {
    if !IsWhitespace(s[0]) {
      assert RemoveSeparators(s)[0] == s[0];
    } else {
      assert !IsBlank(s[1..]) by {
        var i :| 0 <= i < |s| && !IsWhitespace(s[i]);
        assert s[1..][i - 1] == s[i];
      }
      RemoveSeparatorsKeepsNonBlank(s[1..]);
    }
  }

  /**
   * A string that is not blank splits into at least one token, and its first token is the
   * empty string exactly when the string starts with a space or a tab (SplitLeadingSpace shows
   * " -c" giving ["", "-c"]).
   */
  lemma SplitOfNonBlank(s: string)
    requires !IsBlank(s)
    ensures |Split(s)| >= 1
    ensures Split(s)[0] == [] <==> s[0] in Separators
  {
    RemoveSeparatorsKeepsNonBlank(s);
    SplitKeepsContent(s);
    if !HasNoSeparator(s) {
      PiecesEmptiness(s);
      assert Split(s)[0] == Pieces(s)[0];
    }
  }

  // ---------------------------------------------------------------------------------------
  // Where the split cuts.

  lemma JoinWithSpaceOfCons(x: string, tokens: seq<string>)
    requires tokens != []
    ensures JoinWithSpace([x + tokens[0]] + tokens[1..]) == x + JoinWithSpace(tokens)
  {
    var t := [x + tokens[0]] + tokens[1..];
    assert t[1..] == tokens[1..];
  }

  lemma {:induction false} JoinWithSpaceOfSnoc(tokens: seq<string>, last: string)
    requires tokens != []
    ensures JoinWithSpace(tokens + [last]) == JoinWithSpace(tokens) + [' '] + last
    decreases |tokens|
  {
    if |tokens| > 1 {
      assert (tokens + [last])[1..] == tokens[1..] + [last];
      JoinWithSpaceOfSnoc(tokens[1..], last);
    }
  }

  /** Joining the pieces puts one space where each run of separators was. */
  lemma {:induction false} JoinPieces(s: string)
    ensures JoinWithSpace(Pieces(s)) == CollapseAll(s)
  {
    if s != [] {
      JoinPieces(s[1..]);
      var rest := Pieces(s[1..]);
      if s[0] !in Separators {
        JoinWithSpaceOfCons([s[0]], rest);
      } else if !(s[1..] != [] && s[1] in Separators) {
        assert ([[]] + rest)[1..] == rest;
      }
    }
  }

  lemma {:induction false} CollapseAllOfRun(s: string)
    requires s != [] && AllSeparators(s)
    ensures CollapseAll(s) == [' ']
    decreases |s|
  {
    if s[1..] != [] {
      CollapseAllOfRun(s[1..]);
    }
  }

  predicate EndsWithSeparator(s: string) {
    s != [] && s[|s| - 1] in Separators
  }

  /** The two collapses differ only by the space that a run at the end leaves behind. */
  lemma {:induction false} CollapseAllOfRuns(s: string)
    ensures CollapseAll(s) == CollapseRuns(s) + (if EndsWithSeparator(s) then [' '] else [])
    decreases |s|
  {
    if s != [] {
      if s[1..] != [] {
        assert s[|s| - 1] == s[1..][|s[1..]| - 1];
      }
      if s[0] !in Separators {
        CollapseAllOfRuns(s[1..]);
      } else if AllSeparators(s[1..]) {
        CollapseAllOfRun(s);
        assert s[|s| - 1] in Separators;
      } else {
        CollapseAllOfRuns(s[1..]);
      }
    }
  }

  lemma {:induction false} CollapseRunsOfPlain(s: string)
    requires HasNoSeparator(s)
    ensures CollapseRuns(s) == s
    decreases |s|
  {
    if s != [] {
      CollapseRunsOfPlain(s[1..]);
    }
  }

  /** A string that contains a separator has at least two pieces. */
  lemma {:induction false} PiecesOfSeparated(s: string)
    requires !HasNoSeparator(s)
    ensures |Pieces(s)| >= 2
    decreases |s|
  {
    if s[0] !in Separators {
      assert !HasNoSeparator(s[1..]) by {
        var i :| 0 <= i < |s| && s[i] in Separators;
        assert s[1..][i - 1] == s[i];
      }
      PiecesOfSeparated(s[1..]);
    } else if s[1..] != [] && s[1] in Separators {
      assert s[1..][0] in Separators;
      PiecesOfSeparated(s[1..]);
    }
  }

  /** The last piece is empty exactly when the string is empty or ends with a separator. */
  lemma {:induction false} PiecesLast(s: string)
    ensures Pieces(s)[|Pieces(s)| - 1] == [] <==> (s == [] || EndsWithSeparator(s))
    decreases |s|
  {
    if s != [] {
      var rest := Pieces(s[1..]);
      PiecesLast(s[1..]);
      if s[1..] == [] {
        assert rest == [[]];
      } else {
        assert s[|s| - 1] == s[1..][|s[1..]| - 1];
        if s[0] !in Separators {
          if EndsWithSeparator(s[1..]) {
            assert !HasNoSeparator(s[1..]) by { assert s[1..][|s[1..]| - 1] in Separators; }
            PiecesOfSeparated(s[1..]);
          }
          assert |rest| >= 2 ==> Pieces(s)[|Pieces(s)| - 1] == rest[|rest| - 1];
        }
      }
    }
  }

  /** Dropping the one empty piece that a run at the end leaves drops the space before it. */
  lemma JoinDropTrailingEmpty(p: seq<string>)
    requires |p| >= 2 && p[|p| - 1] == []
    requires forall k :: 0 < k < |p| - 1 ==> p[k] != []
    ensures JoinWithSpace(DropTrailingEmpty(p)) + [' '] == JoinWithSpace(p)
  {
    var d := DropTrailingEmpty(p);
    var q := p[..|p| - 1];
    assert p == q + [[]];
    JoinWithSpaceOfSnoc(q, []);
    if |d| < |p| - 1 {
      assert p[|p| - 2] == [];
      assert d == [] && q == [[]];
    } else {
      assert d == q;
    }
  }

  /**
   * The split cuts exactly at the runs of spaces and tabs: writing its tokens out with one
   * space between neighbours gives the input with each run collapsed to one space and a run
   * at the end dropped.
   */
  lemma SplitBoundaries(s: string)
    ensures JoinWithSpace(Split(s)) == CollapseRuns(s)
  {
    if HasNoSeparator(s) {
      CollapseRunsOfPlain(s);
    } else {
      var p := Pieces(s);
      JoinPieces(s);
      CollapseAllOfRuns(s);
      PiecesOfSeparated(s);
      PiecesLast(s);
      if EndsWithSeparator(s) {
        PiecesEmptiness(s);
        JoinDropTrailingEmpty(p);
        var j := JoinWithSpace(DropTrailingEmpty(p));
        assert j + [' '] == CollapseRuns(s) + [' '];
        assert j == (j + [' '])[..|j|];
      } else {
        assert DropTrailingEmpty(p) == p;
      }
    }
  }

  /** Where the first space of the spaced form falls: after the first token, or nowhere when
      there is only one token. */
  lemma JoinWithSpaceFirstSpace(tokens: seq<string>)
    requires tokens != []
    requires forall k :: 0 <= k < |tokens| ==> HasNoSeparator(tokens[k])
    ensures var j := JoinWithSpace(tokens);
      && (|tokens| == 1 ==> j == tokens[0])
      && (|tokens| > 1 ==>
            && |tokens[0]| < |j| && j[..|tokens[0]|] == tokens[0] && j[|tokens[0]|] == ' '
            && j[|tokens[0]| + 1..] == JoinWithSpace(tokens[1..]))
      && (forall i :: 0 <= i < |tokens[0]| && i < |j| ==> j[i] != ' ')
  {
    var j := JoinWithSpace(tokens);
    if |tokens| > 1 {
      assert j == tokens[0] + [' '] + JoinWithSpace(tokens[1..]);
    }
    forall i | 0 <= i < |tokens[0]| && i < |j| ensures j[i] != ' ' {
      assert j[i] == tokens[0][i];
    }
  }

  /** Separator-free tokens can be read back from their spaced form: a non-empty list of them
      is determined by its JoinWithSpace. */
  lemma {:induction false} JoinWithSpaceInjective(a: seq<string>, b: seq<string>)
    requires a != [] && b != []
    requires forall k :: 0 <= k < |a| ==> HasNoSeparator(a[k])
    requires forall k :: 0 <= k < |b| ==> HasNoSeparator(b[k])
    requires JoinWithSpace(a) == JoinWithSpace(b)
    ensures a == b
    decreases |a|
  {
    JoinWithSpaceFirstSpace(a);
    JoinWithSpaceFirstSpace(b);
    assert |a| > 1 <==> |b| > 1;
    if |a| > 1 {
      assert |a[0]| == |b[0]|;
      JoinWithSpaceInjective(a[1..], b[1..]);
    }
    assert a == [a[0]] + a[1..] && b == [b[0]] + b[1..];
  }

  /**
   * The split of a string is the only non-empty list of separator-free tokens whose spaced
   * form is the string with its runs collapsed.
   */
  lemma SplitDetermined(s: string, tokens: seq<string>)
    requires Split(s) != [] && tokens != []
    requires forall k :: 0 <= k < |tokens| ==> HasNoSeparator(tokens[k])
    requires JoinWithSpace(tokens) == CollapseRuns(s)
    ensures tokens == Split(s)
  {
    SplitBoundaries(s);
    SplitTokensHaveNoSeparator(s);
    JoinWithSpaceInjective(tokens, Split(s));
  }

  /**
   * The option string's contribution to an argument vector: nothing when it is null or blank;
   * otherwise at least one token, none containing a space or a tab, only the first possibly
   * empty (when the string starts with a separator), and together they spell the string
   * without its separators, cut exactly where the runs of separators were.
   */
  lemma OptionTokensMeaning(options: Option<string>)
    ensures options.None? || IsBlank(options.value) ==> OptionTokens(options) == []
    ensures options.Some? && !IsBlank(options.value) ==>
      var tokens := OptionTokens(options);
      && |tokens| >= 1
      && Concat(tokens) == RemoveSeparators(options.value)
      && (forall k :: 0 <= k < |tokens| ==> HasNoSeparator(tokens[k]))
      && (forall k :: 0 < k < |tokens| ==> tokens[k] != [])
      && (tokens[0] == [] <==> options.value[0] in Separators)
      && JoinWithSpace(tokens) == CollapseRuns(options.value)
  {
    if options.Some? && !IsBlank(options.value) {
      var s := options.value;
      SplitOfNonBlank(s);
      SplitKeepsContent(s);
      SplitTokensHaveNoSeparator(s);
      SplitLaterTokensNonEmpty(s);
      SplitBoundaries(s);
    }
  }

  /** The default cleancss option string is a single flag. */
  lemma DefaultCleanCssOptionsSplit()
    ensures OptionTokens(Some("-d")) == ["-d"]
  {
    assert !IsBlank("-d") by { assert !IsWhitespace("-d"[0]); }
    assert HasNoSeparator("-d");
  }

  /** Every separator of `s` is a single space followed by something other than a separator. */
  predicate SingleSpaced(s: string) {
    forall i :: 0 <= i < |s| && s[i] in Separators ==>
      s[i] == ' ' && i < |s| - 1 && s[i + 1] !in Separators
  }

  lemma {:induction false} CollapseRunsOfSingleSpaced(s: string)
    requires SingleSpaced(s)
    ensures CollapseRuns(s) == s
    decreases |s|
  {
    if s != [] {
      var t := s[1..];
      assert SingleSpaced(t) by {
        forall i | 0 <= i < |t| && t[i] in Separators
          ensures t[i] == ' ' && i < |t| - 1 && t[i + 1] !in Separators
        {
          assert t[i] == s[i + 1];
        }
      }
      CollapseRunsOfSingleSpaced(t);
      if s[0] in Separators {
        assert !AllSeparators(t) by { assert t[0] == s[1]; }
      }
    }
  }

  /** A single-spaced string splits into its words. */
  lemma SplitOfSingleSpaced(s: string, words: seq<string>)
    requires SingleSpaced(s) && !IsBlank(s)
    requires words != [] && forall k :: 0 <= k < |words| ==> HasNoSeparator(words[k])
    requires JoinWithSpace(words) == s
    ensures Split(s) == words
  {
    SplitOfNonBlank(s);
    CollapseRunsOfSingleSpaced(s);
    SplitDetermined(s, words);
  }

  lemma DefaultUglifyJsOptionsWords()
    ensures JoinWithSpace(["-c", "-m", "--stats"]) == "-c -m --stats"
    ensures SingleSpaced("-c -m --stats") && !IsBlank("-c -m --stats")
  {
    assert !IsWhitespace("-c -m --stats"[0]);
    var words := ["-c", "-m", "--stats"];
    assert words[1..][1..] == ["--stats"];
    assert JoinWithSpace(words[1..]) == "-m --stats";
  }

  /** The default uglifyjs option string gives three arguments. */
  lemma DefaultUglifyJsOptionsSplit()
    ensures OptionTokens(Some("-c -m --stats")) == ["-c", "-m", "--stats"]
  {
    DefaultUglifyJsOptionsWords();
    SplitOfSingleSpaced("-c -m --stats", ["-c", "-m", "--stats"]);
  }

  /** A leading space yields a leading empty token. */
  lemma SplitLeadingSpace()
    ensures Split(" -c") == ["", "-c"]
  {
    var s := " -c";
    assert !IsBlank(s) by { assert !IsWhitespace(s[1]); }
    assert JoinWithSpace(["", "-c"]) == s by { assert ["", "-c"][1..] == ["-c"]; }
    SplitOfSingleSpaced(s, ["", "-c"]);
  }

  /** A trailing space yields no token. */
  lemma SplitTrailingSpace()
    ensures Split("-c ") == ["-c"]
  {
    var s := "-c ";
    assert !IsBlank(s) by { assert !IsWhitespace(s[0]); }
    SplitOfNonBlank(s);
    assert CollapseRuns(s) == "-c" by {
      assert s[1..] == "c " && s[1..][1..] == " ";
      assert AllSeparators(" "[1..]);
    }
    SplitDetermined(s, ["-c"]);
  }
}
