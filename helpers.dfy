/** The helper functions of src/helpers.hpp: averaging, the profile line
    tokenizer and the pairing of profile tokens into variables. */
module Helpers {
  import opened Wrappers
  import opened Sequences

  /** The sum of `s`, accumulated from the left as the loops of the source do. */
  function Sum(s: seq<real>): real
  {
    if |s| == 0 then 0.0 else Sum(s[..|s| - 1]) + s[|s| - 1]
  }

  lemma SumPair(a: real, b: real)
    ensures Sum([a, b]) == a + b
  {
    assert [a, b][..1] == [a];
    assert [a][..0] == [];
    assert Sum([a]) == a;
  }

  lemma {:induction false} SumBounds(s: seq<real>, lo: real, hi: real)
    requires forall i :: 0 <= i < |s| ==> lo <= s[i] <= hi
    ensures (|s| as real) * lo <= Sum(s) <= (|s| as real) * hi
  {
    if |s| > 0 {
      var init := s[..|s| - 1];
      assert forall i :: 0 <= i < |init| ==> init[i] == s[i];
      SumBounds(init, lo, hi);
    }
  }

  /** average: the sum of the values divided by their count. An empty list
      divides zero by zero, so the list must not be empty. */
  method Average(values: seq<real>) returns (r: real)
    requires |values| > 0
    ensures r == Sum(values) / (|values| as real)
    ensures |values| == 2 ==> r == (values[0] + values[1]) / 2.0
  {
    var sum := 0.0;
    var count: nat := 0;
    for i := 0 to |values|
      invariant sum == Sum(values[..i])
      invariant count == i
    {
      assert values[..i + 1][..i] == values[..i];
      sum := sum + values[i];
      count := count + 1;
    }
    assert values[..|values|] == values;
    r := sum / (count as real);
    if |values| == 2 {
      assert values == [values[0], values[1]];
      SumPair(values[0], values[1]);
    }
  }

  /** The average of values that all lie in [lo, hi] lies in [lo, hi]. */
  lemma AverageBetween(values: seq<real>, lo: real, hi: real)
    requires |values| > 0
    requires forall i :: 0 <= i < |values| ==> lo <= values[i] <= hi
    ensures lo <= Sum(values) / (|values| as real) <= hi
  {
    SumBounds(values, lo, hi);
    DivBetween(Sum(values), |values| as real, lo, hi);
  }

  lemma DivBetween(s: real, n: real, lo: real, hi: real)
    requires n > 0.0 && n * lo <= s <= n * hi
    ensures lo <= s / n <= hi
  {
    assert s / n * n == s;
  }

  // ---------------------------------------------------------------------
  // Splitting as std::getline does it.

  /** The pieces of `s` between occurrences of `delim`; there is always one
      more piece than there are delimiters. */
  function Split(s: string, delim: char): (pieces: seq<string>)
    ensures |pieces| >= 1
  {
    if |s| == 0 then [""]
    else
      var rest := Split(s[1..], delim);
      if s[0] == delim then [""] + rest else [[s[0]] + rest[0]] + rest[1..]
  }

  /** The strings that successive std::getline(stream, piece, delim) calls
      extract from a stream holding `s`: the pieces between delimiters, where
      the empty piece after a final delimiter (or of an empty stream) is not
      extracted because the stream is already exhausted. */
  function Getline(s: string, delim: char): seq<string>
  {
    var pieces := Split(s, delim);
    if pieces[|pieces| - 1] == "" then pieces[..|pieces| - 1] else pieces
  }

  /** The pieces joined back with the delimiter between them. */
  function Join(pieces: seq<string>, delim: char): string
    requires |pieces| >= 1
  {
    if |pieces| == 1 then pieces[0] else pieces[0] + [delim] + Join(pieces[1..], delim)
  }

  /** Splitting loses nothing: joining the pieces gives back the input, and
      no piece contains the delimiter. */
  lemma {:induction false} SplitJoin(s: string, delim: char)
    ensures Join(Split(s, delim), delim) == s
    ensures forall i :: 0 <= i < |Split(s, delim)| ==> delim !in Split(s, delim)[i]
  {
    if |s| > 0 {
      SplitJoin(s[1..], delim);
      var rest := Split(s[1..], delim);
      if s[0] == delim {
        assert ([""] + rest)[1..] == rest;
      } else {
        var pieces := [[s[0]] + rest[0]] + rest[1..];
        assert pieces[1..] == rest[1..];
        assert s == [s[0]] + s[1..];
        forall i | 0 <= i < |pieces| ensures delim !in pieces[i] {
          if i > 0 { assert pieces[i] == rest[i]; }
        }
      }
    }
  }

  /** A string without the delimiter is one piece. */
  lemma {:induction false} SplitNoDelim(s: string, delim: char)
    requires delim !in s
    ensures Split(s, delim) == [s]
  {
    if |s| > 0 {
      assert delim !in s[1..];
      SplitNoDelim(s[1..], delim);
      assert s == [s[0]] + s[1..];
    }
  }

  /** The first delimiter ends the first piece. */
  lemma {:induction false} SplitAppend(a: string, delim: char, b: string)
    requires delim !in a
    ensures Split(a + [delim] + b, delim) == [a] + Split(b, delim)
  {
    var s := a + [delim] + b;
    if |a| == 0 {
      assert s == [delim] + b;
      assert s[1..] == b;
    } else {
      assert s[1..] == a[1..] + [delim] + b;
      assert delim !in a[1..];
      SplitAppend(a[1..], delim, b);
      assert [a[0]] + a[1..] == a;
    }
  }

  /** getline extracts the first line, then continues with the rest. */
  lemma GetlineAppend(a: string, delim: char, b: string)
    requires delim !in a
    ensures Getline(a + [delim] + b, delim) == [a] + Getline(b, delim)
  {
    SplitAppend(a, delim, b);
    var p := Split(b, delim);
    var q := [a] + p;
    assert q[|q| - 1] == p[|p| - 1];
    if p[|p| - 1] == "" {
      assert q[..|q| - 1] == [a] + p[..|p| - 1];
    }
  }

  /** A string without the delimiter is extracted whole, unless it is empty. */
  lemma GetlineNoDelim(s: string, delim: char)
    requires delim !in s
    ensures Getline(s, delim) == if s == "" then [] else [s]
  {
    SplitNoDelim(s, delim);
  }

  // ---------------------------------------------------------------------
  // parseLine

  predicate StartsWith(s: string, c: char)
  {
    |s| > 0 && s[0] == c
  }

  /** The tokens kept from the space-separated pieces of one line: empty
      pieces are skipped and the first piece starting with '#' ends the line. */
  function WordTokens(words: seq<string>): seq<string>
  {
    if |words| == 0 then []
    else if StartsWith(words[0], '#') then []
    else (if |words[0]| > 0 && words[0][0] != ' ' then [words[0]] else []) + WordTokens(words[1..])
  }

  /** The tokens of one line; a line starting with a space or '#' has none. */
  function LineTokens(item: string): seq<string>
  {
    if StartsWith(item, ' ') || StartsWith(item, '#') then [] else WordTokens(Getline(item, ' '))
  }

  function LinesTokens(items: seq<string>): seq<string>
  {
    if |items| == 0 then [] else LineTokens(items[0]) + LinesTokens(items[1..])
  }

  /** The tokens parseLine returns for `text`, taken line by line. */
  function Tokens(text: string): seq<string>
  {
    LinesTokens(Getline(text, '\n'))
  }

  /** parseLine: split into lines, skip comment and indented lines, and
      collect the tokens of every other line. */
  method ParseLine(line: string) returns (variables: seq<string>)
    ensures variables == Tokens(line)
  {
    variables := [];
    var lines := Getline(line, '\n');
    ghost var target := LinesTokens(lines);
    assert lines[0..] == lines;
    var i := 0;
    while i < |lines|
      invariant 0 <= i <= |lines|
      invariant variables + LinesTokens(lines[i..]) == target
    {
      var lineItem := lines[i];
      LinesTokensStep(lines, i);
      ghost var before := variables;
      if |lineItem| == 0 || (lineItem[0] != ' ' && lineItem[0] != '#') {
        var items := ParseItems(lineItem);
        variables := variables + items;
      }
      ghost var here, rest := LineTokens(lineItem), LinesTokens(lines[i + 1..]);
      assert variables == before + here;
      AppendAssoc(before, here, rest);
      i := i + 1;
    }
    assert lines[|lines|..] == [];
  }

  /** The inner loop of parseLine over the space-separated pieces of one
      line: empty pieces are skipped and a piece starting with '#' ends it. */
  method ParseItems(lineItem: string) returns (variables: seq<string>)
    ensures variables == WordTokens(Getline(lineItem, ' '))
  {
    variables := [];
    var items := Getline(lineItem, ' ');
    var j := 0;
    assert items[0..] == items;
    while j < |items|
      invariant 0 <= j <= |items|
      invariant variables + WordTokens(items[j..]) == WordTokens(items)
    {
      var item := items[j];
      WordTokensStep(items, j);
      if |item| > 0 && item[0] == '#' {
        assert variables + [] == variables;
        break;
      } else if |item| > 0 && item[0] != ' ' {
        AppendAssoc(variables, [item], WordTokens(items[j + 1..]));
        variables := variables + [item];
      } else {
        assert WordTokens(items[j..]) == WordTokens(items[j + 1..]);
      }
      j := j + 1;
    }
    if j == |items| {
      assert items[j..] == [];
      assert variables + [] == variables;
    }
  }

  lemma WordTokensStep(words: seq<string>, j: nat)
    requires j < |words|
    ensures WordTokens(words[j..]) ==
      if StartsWith(words[j], '#') then []
      else (if |words[j]| > 0 && words[j][0] != ' ' then [words[j]] else []) + WordTokens(words[j + 1..])
  {
    assert words[j..][1..] == words[j + 1..];
  }

  lemma LinesTokensStep(items: seq<string>, i: nat)
    requires i < |items|
    ensures LinesTokens(items[i..]) == LineTokens(items[i]) + LinesTokens(items[i + 1..])
  {
    assert items[i..][1..] == items[i + 1..];
  }

  /** Every token is non-empty, holds no space or newline, and does not
      start with '#'. */
  lemma {:induction false} WordTokensShape(words: seq<string>)
    ensures forall k :: 0 <= k < |WordTokens(words)| ==>
      WordTokens(words)[k] in words && |WordTokens(words)[k]| > 0 && WordTokens(words)[k][0] != '#' && WordTokens(words)[k][0] != ' '
  {
    if |words| > 0 && !StartsWith(words[0], '#') {
      WordTokensShape(words[1..]);
    }
  }

  lemma {:induction false} LinesTokensShape(items: seq<string>)
    requires forall i :: 0 <= i < |items| ==> '\n' !in items[i]
    ensures forall k :: 0 <= k < |LinesTokens(items)| ==>
      var t := LinesTokens(items)[k];
      |t| > 0 && t[0] != '#' && ' ' !in t && '\n' !in t
  {
    if |items| > 0 {
      LinesTokensShape(items[1..]);
      var item := items[0];
      if !(StartsWith(item, ' ') || StartsWith(item, '#')) {
        var words := Getline(item, ' ');
        WordTokensShape(words);
        SplitJoin(item, ' ');
        var p := Split(item, ' ');
        forall w | w in words ensures ' ' !in w && '\n' !in w {
          var i :| 0 <= i < |words| && words[i] == w;
          assert w == p[i];
          JoinContains(p, ' ', i);
        }
      }
    }
  }

  /** Each piece is a part of the joined string. */
  lemma {:induction false} JoinContains(pieces: seq<string>, delim: char, i: nat)
    requires |pieces| >= 1 && i < |pieces|
    ensures forall c :: c in pieces[i] ==> c in Join(pieces, delim)
  {
    if i > 0 {
      JoinContains(pieces[1..], delim, i - 1);
    }
  }

  /** Every token parseLine returns is non-empty, contains neither a space
      nor a newline, and does not start with '#'. */
  lemma TokensShape(text: string)
    ensures forall k :: 0 <= k < |Tokens(text)| ==>
      var t := Tokens(text)[k];
      |t| > 0 && t[0] != '#' && ' ' !in t && '\n' !in t
  {
    SplitJoin(text, '\n');
    var p := Split(text, '\n');
    var lines := Getline(text, '\n');
    forall i | 0 <= i < |lines| ensures '\n' !in lines[i] {
      assert lines[i] == p[i];
    }
    LinesTokensShape(lines);
  }

  /** The non-empty pieces of `words`, in order. */
  function NonEmpty(words: seq<string>): seq<string>
  {
    if |words| == 0 then [] else (if |words[0]| > 0 then [words[0]] else []) + NonEmpty(words[1..])
  }

  /** Without a '#' piece the tokens are exactly the non-empty pieces; at the
      first piece starting with '#' the line ends. */
  lemma {:induction false} WordTokensCut(words: seq<string>, k: nat)
    requires k <= |words|
    requires forall i :: 0 <= i < k ==> !StartsWith(words[i], '#')
    requires k < |words| ==> StartsWith(words[k], '#')
    requires forall i :: 0 <= i < k ==> !StartsWith(words[i], ' ')
    ensures WordTokens(words) == NonEmpty(words[..k])
  {
    if k > 0 {
      assert words[1..][..k - 1] == words[..k][1..];
      WordTokensCut(words[1..], k - 1);
    }
  }

  /** An empty piece changes nothing among the tokens. */
  lemma {:induction false} WordTokensSnocEmpty(words: seq<string>)
    ensures WordTokens(words + [""]) == WordTokens(words)
  {
    if |words| > 0 {
      assert (words + [""])[1..] == words[1..] + [""];
      WordTokensSnocEmpty(words[1..]);
    } else {
      assert WordTokens([""]) == [] + WordTokens([]);
    }
  }

  /** The empty piece getline does not extract would contribute no token. */
  lemma WordTokensOfGetline(item: string)
    ensures WordTokens(Getline(item, ' ')) == WordTokens(Split(item, ' '))
  {
    var p := Split(item, ' ');
    if p[|p| - 1] == "" {
      assert p == p[..|p| - 1] + [""];
      WordTokensSnocEmpty(p[..|p| - 1]);
    }
  }

  /** parseLine on one line (no newline in it): a line that starts with a
      space or '#' yields nothing; otherwise the tokens are the non-empty
      space-separated pieces before the first piece starting with '#'. */
  lemma SingleLineTokens(line: string, k: nat)
    requires '\n' !in line
    requires k <= |Split(line, ' ')|
    requires forall i :: 0 <= i < k ==> !StartsWith(Split(line, ' ')[i], '#')
    requires k < |Split(line, ' ')| ==> StartsWith(Split(line, ' ')[k], '#')
    ensures StartsWith(line, ' ') || StartsWith(line, '#') ==> Tokens(line) == []
    ensures !(StartsWith(line, ' ') || StartsWith(line, '#')) ==> Tokens(line) == NonEmpty(Split(line, ' ')[..k])
  {
    SingleLineIsLine(line);
    if !(StartsWith(line, ' ') || StartsWith(line, '#')) {
      var p := Split(line, ' ');
      SplitJoin(line, ' ');
      WordTokensOfGetline(line);
      WordTokensCut(p, k);
    }
  }

  /** A text without a newline is tokenized as one line. */
  lemma SingleLineIsLine(line: string)
    requires '\n' !in line
    ensures Tokens(line) == LineTokens(line)
  {
    GetlineNoDelim(line, '\n');
    if line == "" {
      assert Split("", ' ') == [""];
    } else {
      assert LinesTokens([line]) == LineTokens(line) + LinesTokens([]);
    }
  }

  /** A text with several lines is tokenized line by line and the results
      are concatenated in order. */
  lemma TokensConcat(first: string, rest: string)
    requires '\n' !in first
    ensures Tokens(first + "\n" + rest) == Tokens(first) + Tokens(rest)
  {
    assert first + "\n" + rest == first + ['\n'] + rest;
    GetlineAppend(first, '\n', rest);
    SingleLineIsLine(first);
    var ls := [first] + Getline(rest, '\n');
    assert ls[1..] == Getline(rest, '\n');
    assert LinesTokens(ls) == LineTokens(first) + LinesTokens(ls[1..]);
  }

  // ---------------------------------------------------------------------
  // readProfile

  /** The std::out_of_range that variables.at(i + 1) throws when a line has
      an odd number of tokens. */
  datatype ProfileError = OutOfRange

  /** The token-pairing loop of readProfile: key at even index, value at
      the next index; None when a key has no value. */
  function PairUp(env: map<string, string>, vars: seq<string>): Option<map<string, string>>
    decreases |vars|
  {
    if |vars| == 0 then Some(env)
    else if |vars| == 1 then None
    else PairUp(env[vars[0] := vars[1]], vars[2..])
  }

  function AfterLine(o: Option<map<string, string>>, rest: seq<string>): Option<map<string, string>>
    decreases |rest|, 1
  {
    match o
    case None => None
    case Some(env) => ProfileLines(env, rest)
  }

  function ProfileLines(env: map<string, string>, lines: seq<string>): Option<map<string, string>>
    decreases |lines|, 0
  {
    if |lines| == 0 then Some(env) else AfterLine(PairUp(env, Tokens(lines[0])), lines[1..])
  }

  /** The variables read from a profile with the given contents. */
  function Profile(contents: string): Result<map<string, string>, ProfileError>
  {
    match ProfileLines(map[], Getline(contents, '\n'))
    case None => Failure(OutOfRange)
    case Some(env) => Success(env)
  }

  /** readProfile over the contents of the profile: each line is tokenized
      and its tokens are stored as (key, value) pairs. */
  method ReadProfile(contents: string) returns (result: Result<map<string, string>, ProfileError>)
    ensures result == Profile(contents)
  {
    var env: map<string, string> := map[];
    var lines := Getline(contents, '\n');
    var i := 0;
    while i < |lines|
      invariant 0 <= i <= |lines|
      invariant ProfileLines(env, lines[i..]) == ProfileLines(map[], lines)
    {
      assert lines[i..][1..] == lines[i + 1..];
      var variables := ParseLine(lines[i]);
      assert ProfileLines(env, lines[i..]) == AfterLine(PairUp(env, variables), lines[i + 1..]);
      assert variables[0..] == variables;
      var j := 0;
      while j < |variables|
        invariant 0 <= j <= |variables|
        invariant AfterLine(PairUp(env, variables[j..]), lines[i + 1..]) == ProfileLines(map[], lines)
      {
        if j + 1 >= |variables| {
          assert PairUp(env, variables[j..]) == None;
          return Failure(OutOfRange);
        }
        assert variables[j..][2..] == variables[j + 2..];
        assert PairUp(env, variables[j..]) == PairUp(env[variables[j] := variables[j + 1]], variables[j + 2..]);
        env := env[variables[j] := variables[j + 1]];
        j := j + 2;
      }
      assert variables[j..] == [];
      i := i + 1;
    }
    result := Success(env);
  }

  /** Pairing succeeds exactly when the number of tokens is even. */
  lemma {:induction false} PairUpParity(env: map<string, string>, vars: seq<string>)
    decreases |vars|
    ensures PairUp(env, vars).Some? <==> |vars| % 2 == 0
  {
    if |vars| >= 2 {
      PairUpParity(env[vars[0] := vars[1]], vars[2..]);
    }
  }

  /** A later pair for a key overrides every earlier one. */
  lemma {:induction false} PairUpSnoc(env: map<string, string>, vars: seq<string>, key: string, value: string)
    decreases |vars|
    requires |vars| % 2 == 0
    ensures PairUp(env, vars).Some? && PairUp(env, vars + [key, value]) == Some(PairUp(env, vars).value[key := value])
  {
    PairUpParity(env, vars);
    if |vars| == 0 {
      assert [key, value][2..] == [];
    } else {
      assert (vars + [key, value])[2..] == vars[2..] + [key, value];
      PairUpSnoc(env[vars[0] := vars[1]], vars[2..], key, value);
    }
  }

  /** A key that never stands at an even position keeps its old value (or
      stays absent). */
  lemma {:induction false} PairUpUntouched(env: map<string, string>, vars: seq<string>, key: string)
    decreases |vars|
    requires |vars| % 2 == 0
    requires forall i :: 0 <= i < |vars| && i % 2 == 0 ==> vars[i] != key
    ensures PairUp(env, vars).Some? && (key in PairUp(env, vars).value <==> key in env)
    ensures PairUp(env, vars).Some? && (key in env ==> PairUp(env, vars).value[key] == env[key])
  {
    PairUpParity(env, vars);
    if |vars| > 0 {
      assert vars[0] != key;
      forall i | 0 <= i < |vars[2..]| && i % 2 == 0 ensures vars[2..][i] != key {
        assert vars[2..][i] == vars[i + 2];
      }
      PairUpUntouched(env[vars[0] := vars[1]], vars[2..], key);
    }
  }

  /** A repeated key keeps the value of its last occurrence. */
  lemma {:induction false} PairUpLastWins(env: map<string, string>, vars: seq<string>, i: nat)
    decreases |vars|
    requires |vars| % 2 == 0 && i < |vars| && i % 2 == 0
    requires forall j :: i < j < |vars| && j % 2 == 0 ==> vars[j] != vars[i]
    ensures PairUp(env, vars).Some? && vars[i] in PairUp(env, vars).value && PairUp(env, vars).value[vars[i]] == vars[i + 1]
  {
    PairUpParity(env, vars);
    var env' := env[vars[0] := vars[1]];
    if i == 0 {
      forall j | 0 <= j < |vars[2..]| && j % 2 == 0 ensures vars[2..][j] != vars[0] {
        assert vars[2..][j] == vars[j + 2];
      }
      PairUpUntouched(env', vars[2..], vars[0]);
    } else {
      forall j | i - 2 < j < |vars[2..]| && j % 2 == 0 ensures vars[2..][j] != vars[2..][i - 2] {
        assert vars[2..][j] == vars[j + 2];
      }
      PairUpLastWins(env', vars[2..], i - 2);
    }
  }

  /** A profile in which some line has an odd number of tokens fails with
      the out-of-range error. */
  lemma {:induction false} ProfileLinesOddFails(env: map<string, string>, lines: seq<string>, k: nat)
    decreases |lines|
    requires k < |lines| && |Tokens(lines[k])| % 2 == 1
    ensures ProfileLines(env, lines).None?
  {
    PairUpParity(env, Tokens(lines[0]));
    if k > 0 {
      match PairUp(env, Tokens(lines[0]))
      case None =>
      case Some(env') =>
        assert lines[1..][k - 1] == lines[k];
        ProfileLinesOddFails(env', lines[1..], k - 1);
    }
  }

  /** Pairing an even-length prefix, then the rest from the map it left. */
  lemma {:induction false} PairUpAppend(env: map<string, string>, a: seq<string>, b: seq<string>)
    decreases |a|
    requires |a| % 2 == 0
    ensures PairUp(env, a).Some? && PairUp(env, a + b) == PairUp(PairUp(env, a).value, b)
  {
    if |a| == 0 {
      assert a + b == b;
    } else {
      assert (a + b)[2..] == a[2..] + b;
      PairUpAppend(env[a[0] := a[1]], a[2..], b);
    }
  }

  /** The map lives across lines: when no line has an odd number of tokens,
      reading the lines one after another pairs up the tokens of all lines
      in order, as one list. */
  lemma {:induction false} ProfileLinesFlat(env: map<string, string>, lines: seq<string>)
    decreases |lines|
    requires forall i :: 0 <= i < |lines| ==> '\n' !in lines[i] && |Tokens(lines[i])| % 2 == 0
    ensures ProfileLines(env, lines).Some?
    ensures ProfileLines(env, lines) == PairUp(env, LinesTokens(lines))
  {
    if |lines| > 0 {
      var first := Tokens(lines[0]);
      SingleLineIsLine(lines[0]);
      PairUpAppend(env, first, LinesTokens(lines[1..]));
      forall i | 0 <= i < |lines[1..]|
        ensures '\n' !in lines[1..][i] && |Tokens(lines[1..][i])| % 2 == 0
      {
        assert lines[1..][i] == lines[i + 1];
      }
      ProfileLinesFlat(PairUp(env, first).value, lines[1..]);
    }
  }

  /** The lines of a profile hold no newline. */
  lemma ProfileLinesHaveNoNewline(contents: string)
    ensures forall i :: 0 <= i < |Getline(contents, '\n')| ==> '\n' !in Getline(contents, '\n')[i]
  {
    SplitJoin(contents, '\n');
    var p := Split(contents, '\n');
    var lines := Getline(contents, '\n');
    forall i | 0 <= i < |lines| ensures '\n' !in lines[i] {
      assert lines[i] == p[i];
    }
  }

  /** A profile whose lines all have an even number of tokens is read
      without error, into the pairing of all parseLine tokens of the file. */
  lemma ProfileIsPairedTokens(contents: string)
    requires forall i :: 0 <= i < |Getline(contents, '\n')| ==> |Tokens(Getline(contents, '\n')[i])| % 2 == 0
    ensures PairUp(map[], Tokens(contents)).Some?
    ensures Profile(contents) == Success(PairUp(map[], Tokens(contents)).value)
  {
    ProfileLinesHaveNoNewline(contents);
    ProfileLinesFlat(map[], Getline(contents, '\n'));
  }

  /** Across the whole profile, a repeated key keeps the value after its
      last occurrence, whichever lines the occurrences are on. */
  lemma ProfileLastWins(contents: string, i: nat)
    requires forall k :: 0 <= k < |Getline(contents, '\n')| ==> |Tokens(Getline(contents, '\n')[k])| % 2 == 0
    requires i + 1 < |Tokens(contents)| && i % 2 == 0
    requires forall j :: i < j < |Tokens(contents)| && j % 2 == 0 ==> Tokens(contents)[j] != Tokens(contents)[i]
    ensures Profile(contents).Success?
    ensures Tokens(contents)[i] in Profile(contents).value
    ensures Profile(contents).value[Tokens(contents)[i]] == Tokens(contents)[i + 1]
  {
    ProfileIsPairedTokens(contents);
    PairUpParity(map[], Tokens(contents));
    PairUpLastWins(map[], Tokens(contents), i);
  }

  // Examples from the profile format.

  /** A line of two words without spaces, newlines or '#' holds those two tokens. */
  lemma TwoWordLine(key: string, value: string)
    requires |key| > 0 && |value| > 0
    requires ' ' !in key && ' ' !in value && '\n' !in key && '\n' !in value
    requires key[0] != '#' && value[0] != '#'
    ensures Tokens(key + " " + value) == [key, value]
  {
    var line := key + " " + value;
    assert line == key + [' '] + value;
    SplitAppend(key, ' ', value);
    SplitNoDelim(value, ' ');
    var p := Split(line, ' ');
    assert p == [key, value];
    SingleLineTokens(line, 2);
    assert p[..2] == p;
    assert NonEmpty([value]) == [value] + NonEmpty([]);
    assert NonEmpty([key, value]) == [key] + NonEmpty([value]);
  }

  /** A '#' inside a token is kept. */
  lemma HashInsideTokenKept()
    ensures Tokens("a#b c") == ["a#b", "c"]
  {
    SplitHashInside();
    SingleLineTokens("a#b c", 2);
    assert Split("a#b c", ' ')[..2] == ["a#b", "c"];
    assert NonEmpty(["c"]) == ["c"] + NonEmpty([]);
    assert NonEmpty(["a#b", "c"]) == ["a#b"] + NonEmpty(["c"]);
  }

  lemma SplitHashInside()
    ensures Split("a#b c", ' ') == ["a#b", "c"]
  {
    assert "a#b c" == "a#b" + [' '] + "c";
    SplitAppend("a#b", ' ', "c");
    SplitNoDelim("c", ' ');
  }

  /** A tab does not separate tokens. */
  lemma TabDoesNotSeparate()
    ensures Tokens("key\tvalue") == ["key\tvalue"]
  {
    SplitNoDelim("key\tvalue", ' ');
    SingleLineTokens("key\tvalue", 1);
    assert Split("key\tvalue", ' ')[..1] == ["key\tvalue"];
  }

  /** A token starting with '#' drops the rest of the line. */
  lemma TrailingCommentDropped()
    ensures Tokens("fov #x") == ["fov"]
  {
    assert "fov #x" == "fov" + [' '] + "#x";
    SplitAppend("fov", ' ', "#x");
    SplitNoDelim("#x", ' ');
    var p := Split("fov #x", ' ');
    assert p == ["fov", "#x"];
    SingleLineTokens("fov #x", 1);
    assert p[..1] == ["fov"];
    assert NonEmpty(["fov"]) == ["fov"] + NonEmpty([]);
  }
}
