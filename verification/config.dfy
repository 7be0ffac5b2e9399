/**
 * Machine configuration files (main.py:100-137). A file is a list of lines;
 * its contents are re-tokenised on `;`, an 11-token preamble is dropped and
 * the rest is paired up positionally. The file system is an input: `files`
 * maps a machine name to the lines of `<config-dir>/<machine>_00.txt` when
 * that path exists, is a regular file and can be read.
 */
module ConfigFile {
  import opened Wrappers
  import opened Text
  import opened Schema

  /** `[line.strip() for line in f]` (main.py:116). */
  function StripEach(lines: seq<string>): (r: seq<string>)
    ensures |r| == |lines|
    ensures forall i :: 0 <= i < |r| ==> r[i] == Strip(lines[i])
  {
    if lines == [] then [] else [Strip(lines[0])] + StripEach(lines[1..])
  }

  /** `[ln for ln in raw_lines if ln != '']` (main.py:119). */
  function DropBlank(lines: seq<string>): seq<string>
  {
    if lines == [] then []
    else if lines[0] == "" then DropBlank(lines[1..])
    else [lines[0]] + DropBlank(lines[1..])
  }

  /** `[tok.strip() for tok in parts if tok.strip() != '']` (main.py:121). */
  function CleanTokens(parts: seq<string>): seq<string>
  {
    if parts == [] then []
    else if Strip(parts[0]) == "" then CleanTokens(parts[1..])
    else [Strip(parts[0])] + CleanTokens(parts[1..])
  }

  /** The tokens of a configuration file, computed as main.py:116-121 does: strip every line,
      drop the blank ones, join them with `;`, split on `;`, strip and drop empty tokens. */
  function Tokens(lines: seq<string>): seq<string>
  {
    CleanTokens(Split(Join(DropBlank(StripEach(lines)))))
  }

  /** The tokens one line contributes on its own. */
  function LineTokens(line: string): seq<string>
  {
    CleanTokens(Split(Strip(line)))
  }

  /** The tokens of every line, line after line: the reference reading of a file. */
  function TokensByLine(lines: seq<string>): seq<string>
  {
    if lines == [] then [] else LineTokens(lines[0]) + TokensByLine(lines[1..])
  }

  /** Every token is non-empty, stripped and free of `;`. */
  ghost predicate WellFormedToken(t: string)
  {
    t != "" && Strip(t) == t && Separator !in t
  }

  lemma {:induction false} CleanTokensConcat(a: seq<string>, b: seq<string>)
    ensures CleanTokens(a + b) == CleanTokens(a) + CleanTokens(b)
  {
    if a == [] {
      assert a + b == b;
    } else {
      assert (a + b)[0] == a[0];
      assert (a + b)[1..] == a[1..] + b;
      CleanTokensConcat(a[1..], b);
    }
  }

  /** Tokens of separator-free pieces are well formed. */
  lemma {:induction false} CleanTokensWellFormed(parts: seq<string>)
    requires forall i :: 0 <= i < |parts| ==> Separator !in parts[i]
    ensures forall i :: 0 <= i < |CleanTokens(parts)| ==> WellFormedToken(CleanTokens(parts)[i])
  {
    if parts != [] {
      CleanTokensWellFormed(parts[1..]);
      var t := Strip(parts[0]);
      StripIdempotent(parts[0]);
      if Separator in t {
        StripChars(parts[0], Separator);
      }
    }
  }

  /** The tokens of the stripped, non-blank lines, line by line. */
  function CleanEach(lines: seq<string>): seq<string>
  {
    if lines == [] then [] else CleanTokens(Split(lines[0])) + CleanEach(lines[1..])
  }

  lemma {:induction false} CleanSplitEach(xs: seq<string>)
    ensures CleanTokens(SplitEach(xs)) == CleanEach(xs)
  {
    if xs != [] {
      CleanTokensConcat(Split(xs[0]), SplitEach(xs[1..]));
      CleanSplitEach(xs[1..]);
    }
  }

  /** A blank line (white space only) contributes no token. */
  lemma BlankLineNoTokens(line: string)
    requires Strip(line) == ""
    ensures LineTokens(line) == []
  {
    assert Split("") == [""];
    assert Strip("") == "";
    assert [""][1..] == [];
  }

  lemma {:induction false} CleanEachDropBlank(lines: seq<string>)
    ensures CleanEach(DropBlank(StripEach(lines))) == TokensByLine(lines)
  {
    if lines != [] {
      CleanEachDropBlank(lines[1..]);
      assert StripEach(lines)[1..] == StripEach(lines[1..]);
      if Strip(lines[0]) == "" {
        BlankLineNoTokens(lines[0]);
      }
    }
  }

  /** Joining with `;` and splitting again tokenises each line on its own: the tokens
      of a file are the tokens of its lines, in file order. */
  lemma TokensInFileOrder(lines: seq<string>)
    ensures Tokens(lines) == TokensByLine(lines)
  {
    var kept := DropBlank(StripEach(lines));
    if kept == [] {
      assert Split(Join(kept)) == [""];
      assert Strip("") == "";
      assert [""][1..] == [];
    } else {
      SplitJoin(kept);
      CleanSplitEach(kept);
    }
    CleanEachDropBlank(lines);
  }

  /** Every token of a file is non-empty, stripped and contains no `;`. */
  lemma TokensWellFormed(lines: seq<string>)
    ensures forall i :: 0 <= i < |Tokens(lines)| ==> WellFormedToken(Tokens(lines)[i])
  {
    CleanTokensWellFormed(Split(Join(DropBlank(StripEach(lines)))));
  }

  /** Adding blank lines anywhere to a file changes none of its tokens. */
  lemma BlankLinesIgnored(before: seq<string>, blank: string, after: seq<string>)
    requires Strip(blank) == ""
    ensures Tokens(before + [blank] + after) == Tokens(before + after)
  {
    var rest := [blank] + after;
    assert before + [blank] + after == before + rest;
    TokensInFileOrder(before + rest);
    TokensInFileOrder(before + after);
    TokensByLineConcat(before, rest);
    TokensByLineConcat(before, after);
    BlankLineNoTokens(blank);
    assert rest[0] == blank && rest[1..] == after;
    assert TokensByLine(rest) == TokensByLine(after);
  }

  lemma {:induction false} TokensByLineConcat(a: seq<string>, b: seq<string>)
    ensures TokensByLine(a + b) == TokensByLine(a) + TokensByLine(b)
  {
    if a == [] {
      assert a + b == b;
    } else {
      assert (a + b)[0] == a[0];
      assert (a + b)[1..] == a[1..] + b;
      TokensByLineConcat(a[1..], b);
    }
  }

  /** The number of preamble tokens a configuration file starts with. */
  const Preamble: nat := 11

  /** `tokens[11:] if len(tokens) > 11 else []` (main.py:123). */
  function ConfigTokens(tokens: seq<string>): (config: seq<string>)
    ensures |config| == if |tokens| > Preamble then |tokens| - Preamble else 0
    ensures forall k :: 0 <= k < |config| ==> config[k] == tokens[Preamble + k]
  {
    if |tokens| > Preamble then tokens[Preamble..] else []
  }

  /** The exceptions the configuration block can raise. */
  datatype Raised =
    | IndexError      // `config[i + 1]` past the end
    | AttributeError  // assignment to the read-only `append` attribute of a list

  /** Evaluating `[{config[i]: config[i + 1]} for i in range(0, len(config), 2)]`
      (main.py:124): one single-entry mapping per pair, or an `IndexError` when a
      last token has no partner. */
  function Pairs(config: seq<string>): (r: Result<seq<Entry>, Raised>)
    ensures r.Err? <==> |config| % 2 == 1
    ensures r.Err? ==> r.error == IndexError
    ensures r.Ok? ==> |r.value| == |config| / 2
    ensures r.Ok? ==> forall k :: 0 <= k < |r.value| ==> r.value[k] == Entry(config[2 * k], config[2 * k + 1])
  {
    if |config| == 0 then Ok([])
    else if |config| == 1 then Err(IndexError)
    else match Pairs(config[2..])
      case Err(e) => Err(e)
      case Ok(rest) => Ok([Entry(config[0], config[1])] + rest)
  }

  /** The try block of main.py:115-127 as written: tokenise, drop the preamble,
      evaluate the pairing, then assign it to `config_values.append`. The
      assignment raises, so the block never completes. */
  function ReadConfigFile(lines: seq<string>): (r: Result<seq<Entry>, Raised>)
    ensures r.Err?
    ensures r.error == IndexError <==> |ConfigTokens(Tokens(lines))| % 2 == 1
  {
    var tokens := Tokens(lines);
    var config := ConfigTokens(tokens);
    match Pairs(config)
    case Err(e) => Err(e)
    case Ok(_) => Err(AttributeError)
  }

  /** The `config` value a record receives for its `machine` (main.py:101-137):
      empty for a blank machine, empty when no file exists, and, because reading an
      existing file always ends in an exception that is caught, empty then too. */
  function AttachConfig(machine: string, files: map<string, seq<string>>): (config: seq<Entry>)
    ensures config == []
  {
    var m := Strip(machine);
    if m == "" then []
    else if m !in files then []
    else match ReadConfigFile(files[m])
      case Ok(entries) => entries
      case Err(_) => []
  }
}
