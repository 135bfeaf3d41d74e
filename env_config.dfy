/**
 * The database tool's configuration loader: the lines of `.env.local`, if the
 * file exists, are read as `KEY=value` assignments into the process
 * environment, each one applied only when the variable is unset or empty;
 * the datasource url is then `DIRECT_URL` from that environment.
 */
module EnvConfig {
  import opened Wrappers
  import opened Text

  /** `text.split("\n")`: the pieces between newlines, at least one. */
  function SplitLines(text: string): (r: seq<string>)
    ensures |r| >= 1
    decreases |text|
  {
    match IndexOf(text, '\n')
    case None => [text]
    case Some(i) => [text[..i]] + SplitLines(text[i + 1..])
  }

  /** The pieces joined back with newlines: the inverse of `SplitLines`. */
  function JoinLines(lines: seq<string>): string
    requires |lines| >= 1
  {
    if |lines| == 1 then lines[0] else lines[0] + "\n" + JoinLines(lines[1..])
  }

  /** No piece of a split holds a newline. */
  lemma {:induction false} SplitHasNoNewlines(text: string)
    ensures forall i :: 0 <= i < |SplitLines(text)| ==> '\n' !in SplitLines(text)[i]
    decreases |text|
  {
    match IndexOf(text, '\n')
    case None =>
    case Some(i) =>
      SplitHasNoNewlines(text[i + 1..]);
  }

  /** Joining the pieces gives the text back. */
  lemma {:induction false} JoinSplit(text: string)
    ensures JoinLines(SplitLines(text)) == text
    decreases |text|
  {
    match IndexOf(text, '\n')
    case None =>
    case Some(i) =>
      var rest := SplitLines(text[i + 1..]);
      JoinSplit(text[i + 1..]);
      var lines := [text[..i]] + rest;
      assert SplitLines(text) == lines;
      assert lines[1..] == rest;
      assert JoinLines(lines) == text[..i] + "\n" + JoinLines(rest);
      assert text == text[..i] + "\n" + text[i + 1..];
  }

  /** The first occurrence of `c` after a prefix without `c` is right after the prefix. */
  lemma {:induction false} IndexAfterPrefix(pre: string, c: char, rest: string)
    requires c !in pre
    ensures IndexOf(pre + [c] + rest, c) == Some(|pre|)
  {
    if pre != [] {
      IndexAfterPrefix(pre[1..], c, rest);
      assert (pre + [c] + rest)[1..] == pre[1..] + [c] + rest;
    }
  }

  /** Splitting newline-free pieces joined by newlines gives the pieces back. */
  lemma {:induction false} SplitJoin(lines: seq<string>)
    requires |lines| >= 1
    requires forall i :: 0 <= i < |lines| ==> '\n' !in lines[i]
    ensures SplitLines(JoinLines(lines)) == lines
  {
    if |lines| == 1 {
    } else {
      var tail := lines[1..];
      forall i | 0 <= i < |tail| ensures '\n' !in tail[i] {
        assert tail[i] == lines[i + 1];
      }
      assert '\n' !in lines[0];
      var rest := JoinLines(tail);
      assert JoinLines(lines) == lines[0] + "\n" + rest;
      SplitCons(lines[0], rest);
      SplitJoin(tail);
      assert lines == [lines[0]] + tail;
    }
  }

  /** A newline-free head and a newline split off as the first piece. */
  lemma SplitCons(head: string, rest: string)
    requires '\n' !in head
    ensures SplitLines(head + "\n" + rest) == [head] + SplitLines(rest)
  {
    IndexAfterPrefix(head, '\n', rest);
    var text := head + "\n" + rest;
    assert text[..|head|] == head;
    assert text[|head| + 1..] == rest;
  }

  /**
   * A value that starts with either quote loses its first and its last
   * character (`slice(1, -1)`, which gives "" for a lone quote); other
   * values are kept. The closing quote is not checked.
   */
  function Unquote(v: string): string {
    if v != "" && (v[0] == '"' || v[0] == '\'') then
      (if |v| >= 2 then v[1..|v| - 1] else "")
    else v
  }

  predicate IsQuote(c: char) {
    c == '"' || c == '\''
  }

  /** A value in matching quotes comes out as what is between them. */
  lemma UnquoteQuoted(q: char, v: string)
    requires IsQuote(q)
    ensures Unquote([q] + v + [q]) == v
  {
    assert ([q] + v + [q])[1..|v| + 1] == v;
  }

  /** A value that does not start with a quote is kept as it is. */
  lemma UnquotePlain(v: string)
    requires v == "" || !IsQuote(v[0])
    ensures Unquote(v) == v
  {
  }

  /** An unterminated or mismatched quote still costs the last character. */
  lemma UnquoteExamples()
    ensures Unquote("\"abc") == "ab"
    ensures Unquote("'abc\"") == "abc"
    ensures Unquote("\"") == ""
  {
    assert "\"abc"[1..3] == "ab";
    assert "'abc\""[1..4] == "abc";
  }

  /**
   * One line: blank lines, comment lines and lines without `=` give nothing;
   * otherwise the trimmed text before the first `=` is the key and the
   * trimmed, unquoted text after it the value.
   */
  function ParseLine(line: string): Option<(string, string)> {
    var t := Trim(line);
    if t == "" || StartsWith(t, "#") then None
    else match IndexOf(t, '=')
      case None => None
      case Some(eq) => Some((Trim(t[..eq]), Unquote(Trim(t[eq + 1..]))))
  }

  /** What is skipped, and the key of what is not: trimmed and free of `=`. */
  lemma {:induction false} ParseLineCases(line: string)
    ensures ParseLine(line).None? <==>
      Trim(line) == "" || StartsWith(Trim(line), "#") || '=' !in Trim(line)
    ensures ParseLine(line).Some? ==>
      var k := ParseLine(line).value.0;
      '=' !in k && Trim(k) == k
  {
    var t := Trim(line);
    if t != "" && !StartsWith(t, "#") && '=' in t {
      var eq := IndexOf(t, '=').value;
      TrimIdempotent(t[..eq]);
      TrimAvoids(t[..eq], '=');
    }
  }

  /** Trimming adds no character. */
  lemma {:induction false} TrimAvoids(s: string, c: char)
    requires c !in s
    ensures c !in Trim(s)
  {
    TrimIsSlice(s);
    var lo := |s| - |TrimStart(s)|;
    forall j | 0 <= j < |Trim(s)| ensures Trim(s)[j] != c {
      assert Trim(s)[j] == s[lo + j];
    }
  }

  /** The shape of a key that reads back as itself. */
  predicate PlainKey(k: string) {
    k != "" && !IsSpace(k[0]) && !IsSpace(k[|k| - 1]) && '=' !in k && k[0] != '#'
  }

  /** How a line splits once it is known to be trimmed, not a comment, and to hold `=` at `|k|`. */
  lemma ParseAt(line: string, k: string, rest: string)
    requires line == k + "=" + rest && k != [] && k[0] != '#' && '=' !in k
    requires Trim(line) == line
    ensures ParseLine(line) == Some((Trim(k), Unquote(Trim(rest))))
  {
    assert line[..1] == [k[0]];
    IndexAfterPrefix(k, '=', rest);
    assert line[..|k|] == k;
    assert line[|k| + 1..] == rest;
  }

  /** A line with no white space at either end is its own trim. */
  lemma LineTrimmed(k: string, rest: string)
    requires k != [] && !IsSpace(k[0])
    requires rest == [] || !IsSpace(rest[|rest| - 1])
    ensures Trim(k + "=" + rest) == k + "=" + rest
  {
    var line := k + "=" + rest;
    assert line[0] == k[0];
    assert line[|line| - 1] == if rest == [] then '=' else rest[|rest| - 1];
    TrimNoOp(line);
  }

  /** `k=v` with a value that needs no quoting reads back as `(k, v)`. */
  lemma {:induction false} ParsePlain(k: string, v: string)
    requires PlainKey(k)
    requires v == "" || (!IsSpace(v[0]) && !IsSpace(v[|v| - 1]) && !IsQuote(v[0]))
    ensures ParseLine(k + "=" + v) == Some((k, v))
  {
    var line := k + "=" + v;
    assert line[..|k|] == k;
    TrimNoOp(k);
    TrimNoOp(v);
    UnquotePlain(v);
    LineTrimmed(k, v);
    ParseAt(line, k, v);
  }

  /** `k="v"` or `k='v'` reads back as `(k, v)`, whatever `v` holds. */
  lemma ParseQuoted(k: string, q: char, v: string)
    requires PlainKey(k) && IsQuote(q)
    ensures ParseLine(k + "=" + ([q] + v + [q])) == Some((k, v))
  {
    var quoted := [q] + v + [q];
    QuotedTrimmed(q, v);
    LineTrimmed(k, quoted);
    ParseAt(k + "=" + quoted, k, quoted);
    TrimNoOp(k);
    UnquoteQuoted(q, v);
  }

  lemma QuotedTrimmed(q: char, v: string)
    requires IsQuote(q)
    ensures var quoted := [q] + v + [q];
      !IsSpace(quoted[|quoted| - 1]) && Trim(quoted) == quoted
  {
    var quoted := [q] + v + [q];
    assert quoted[0] == q && quoted[|quoted| - 1] == q;
    TrimNoOp(quoted);
  }

  /** Comment lines are skipped even when they hold `=`. */
  lemma CommentSkipped()
    ensures ParseLine("# DIRECT_URL=x") == None
  {
    var s := "# DIRECT_URL=x";
    TrimNoOp(s);
    assert StartsWith(s, "#");
  }

  /** One assignment applied: the variable is set only when it is unset or empty (JavaScript falsy). */
  function ApplyEntry(env: map<string, string>, entry: Option<(string, string)>): (r: map<string, string>)
    ensures entry.None? ==> r == env
    ensures entry.Some? ==> entry.value.0 in r
  {
    match entry
    case None => env
    case Some((k, v)) => if k !in env || env[k] == "" then env[k := v] else env
  }

  /** The entry assigns `k`. */
  predicate Assigns(entry: Option<(string, string)>, k: string) {
    entry.Some? && entry.value.0 == k
  }

  /**
   * What one assignment does to variable `k`: a set variable stays set, a
   * non-empty one keeps its value, a falsy one assigned takes the new value,
   * and one not assigned is untouched.
   */
  lemma EntryEffect(env: map<string, string>, entry: Option<(string, string)>, k: string)
    ensures var r := ApplyEntry(env, entry);
      && (k in env ==> k in r)
      && (k in env && env[k] != "" ==> r[k] == env[k])
      && (Assigns(entry, k) && (k !in env || env[k] == "") ==> k in r && r[k] == entry.value.1)
      && (!Assigns(entry, k) ==> (k in r <==> k in env) && (k in env ==> r[k] == env[k]))
  {
  }

  function ApplyLine(env: map<string, string>, line: string): map<string, string> {
    ApplyEntry(env, ParseLine(line))
  }

  /** The lines applied in order. */
  function ApplyLines(env: map<string, string>, lines: seq<string>): map<string, string> {
    if lines == [] then env
    else ApplyLine(ApplyLines(env, lines[..|lines| - 1]), lines[|lines| - 1])
  }

  lemma {:induction false} ApplyLinesConcat(env: map<string, string>, a: seq<string>, b: seq<string>)
    ensures ApplyLines(env, a + b) == ApplyLines(ApplyLines(env, a), b)
    decreases |b|
  {
    if b == [] {
      assert a + b == a;
    } else {
      var init, last := b[..|b| - 1], b[|b| - 1];
      ApplyLinesConcat(env, a, init);
      assert (a + b)[..|a + b| - 1] == a + init;
      assert (a + b)[|a + b| - 1] == last;
      calc {
        ApplyLines(env, a + b);
        ApplyLine(ApplyLines(env, a + init), last);
        ApplyLine(ApplyLines(ApplyLines(env, a), init), last);
        ApplyLines(ApplyLines(env, a), b);
      }
    }
  }

  /** A variable that is set stays set, and one that is non-empty is never overridden. */
  lemma {:induction false} TruthyKept(env: map<string, string>, lines: seq<string>, k: string)
    ensures k in env ==> k in ApplyLines(env, lines)
    ensures k in env && env[k] != "" ==> ApplyLines(env, lines)[k] == env[k]
  {
    if lines != [] {
      var init := lines[..|lines| - 1];
      TruthyKept(env, init, k);
      EntryEffect(ApplyLines(env, init), ParseLine(lines[|lines| - 1]), k);
    }
  }

  /** No line assigns `k`. */
  predicate NeverAssigns(lines: seq<string>, k: string) {
    forall i :: 0 <= i < |lines| ==> !Assigns(ParseLine(lines[i]), k)
  }

  /** A variable no line assigns keeps its presence and its value. */
  lemma {:induction false} OthersUntouched(env: map<string, string>, lines: seq<string>, k: string)
    requires NeverAssigns(lines, k)
    ensures k in ApplyLines(env, lines) <==> k in env
    ensures k in env ==> ApplyLines(env, lines)[k] == env[k]
  {
    if lines != [] {
      var init := lines[..|lines| - 1];
      assert forall i :: 0 <= i < |init| ==> init[i] == lines[i];
      OthersUntouched(env, init, k);
      assert !Assigns(ParseLine(lines[|lines| - 1]), k);
      EntryEffect(ApplyLines(env, init), ParseLine(lines[|lines| - 1]), k);
    }
  }

  /** The entry gives `k` a non-empty value. */
  predicate AssignsValue(entry: Option<(string, string)>, k: string) {
    Assigns(entry, k) && entry.value.1 != ""
  }

  /** No line gives `k` a non-empty value. */
  predicate AssignsOnlyEmpty(lines: seq<string>, k: string) {
    forall i :: 0 <= i < |lines| ==> !AssignsValue(ParseLine(lines[i]), k)
  }

  lemma {:induction false} StaysFalsy(env: map<string, string>, lines: seq<string>, k: string)
    requires AssignsOnlyEmpty(lines, k)
    requires k !in env || env[k] == ""
    ensures k !in ApplyLines(env, lines) || ApplyLines(env, lines)[k] == ""
  {
    if lines != [] {
      var init := lines[..|lines| - 1];
      assert forall i :: 0 <= i < |init| ==> init[i] == lines[i];
      StaysFalsy(env, init, k);
      assert !AssignsValue(ParseLine(lines[|lines| - 1]), k);
      EntryEffect(ApplyLines(env, init), ParseLine(lines[|lines| - 1]), k);
    }
  }

  /**
   * For a variable unset or empty beforehand, the first line that gives it a
   * non-empty value decides it.
   */
  lemma FirstValueWins(env: map<string, string>, lines: seq<string>, i: nat, k: string)
    requires i < |lines| && AssignsValue(ParseLine(lines[i]), k)
    requires AssignsOnlyEmpty(lines[..i], k)
    requires k !in env || env[k] == ""
    ensures k in ApplyLines(env, lines) && ApplyLines(env, lines)[k] == ParseLine(lines[i]).value.1
  {
    SplitAround(lines, i);
    SetByLine(env, lines, i, k);
    var upto := ApplyLines(env, lines[..i + 1]);
    TruthyKept(upto, lines[i + 1..], k);
    ApplyLinesConcat(env, lines[..i + 1], lines[i + 1..]);
  }

  /** The line that assigns a value to a still falsy variable sets it. */
  lemma SetByLine(env: map<string, string>, lines: seq<string>, i: nat, k: string)
    requires i < |lines| && Assigns(ParseLine(lines[i]), k)
    requires AssignsOnlyEmpty(lines[..i], k)
    requires k !in env || env[k] == ""
    ensures k in ApplyLines(env, lines[..i + 1])
    ensures ApplyLines(env, lines[..i + 1])[k] == ParseLine(lines[i]).value.1
  {
    StaysFalsy(env, lines[..i], k);
    ApplyLinesSnoc(env, lines, i);
    EntryEffect(ApplyLines(env, lines[..i]), ParseLine(lines[i]), k);
  }

  /** Applying one line more of a prefix. */
  lemma ApplyLinesSnoc(env: map<string, string>, lines: seq<string>, i: nat)
    requires i < |lines|
    ensures ApplyLines(env, lines[..i + 1]) == ApplyLine(ApplyLines(env, lines[..i]), lines[i])
  {
    assert lines[..i + 1][..i] == lines[..i];
  }

  lemma SplitAround(lines: seq<string>, i: nat)
    requires i < |lines|
    ensures lines[..i + 1] + lines[i + 1..] == lines
    ensures lines[..i + 1][..i] == lines[..i] && lines[..i + 1][i] == lines[i]
  {
  }

  /** The datasource url: `DIRECT_URL`, which may be unset (the `!` checks nothing). */
  function DatasourceUrl(env: map<string, string>): (r: Option<string>)
    ensures r.Some? <==> "DIRECT_URL" in env
    ensures r.Some? ==> r.value == env["DIRECT_URL"]
  {
    if "DIRECT_URL" in env then Some(env["DIRECT_URL"]) else None
  }

  /** The process environment. */
  class Environment {
    var vars: map<string, string>

    constructor (vars: map<string, string>)
      ensures this.vars == vars
    {
      this.vars := vars;
    }

    /**
     * Loads `.env.local`: `contents` is the file's text, or `None` when the
     * file does not exist, in which case nothing changes.
     */
    method LoadDotEnv(contents: Option<string>)
      modifies this
      ensures contents.None? ==> vars == old(vars)
      ensures contents.Some? ==> vars == ApplyLines(old(vars), SplitLines(contents.value))
    {
      if contents.Some? {
        var lines := SplitLines(contents.value);
        for i := 0 to |lines|
          invariant vars == ApplyLines(old(vars), lines[..i])
        {
          ApplyLinesSnoc(old(vars), lines, i);
          vars := ApplyLine(vars, lines[i]);
        }
        assert lines[..|lines|] == lines;
      }
    }
  }
}
