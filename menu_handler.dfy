/**
 * The API-key menu command: reading the api_key entry of the configuration
 * file and writing a new key back into it.
 *
 * The configuration file is its text (None when the file cannot be opened);
 * lines are read the way BufferedReader.readLine reads them, and the new
 * content is the text that would be printed back to the file.
 */
module ApiKeyConfig {
  import opened Wrappers
  import opened JavaStrings

  // ---------------------------------------------------------------- lines

  /** A line as readLine returns it never holds a line terminator. */
  predicate NoBreaks(s: string) {
    '\n' !in s && '\r' !in s
  }

  /** Index of the first line terminator of text, or |text| when there is none. */
  function LineEnd(text: string): (i: nat)
    ensures i <= |text|
    ensures NoBreaks(text[..i])
    ensures i < |text| ==> text[i] == '\n' || text[i] == '\r'
  {
    if text == [] || text[0] == '\n' || text[0] == '\r' then 0
    else
      var j := 1 + LineEnd(text[1..]);
      assert text[..j] == [text[0]] + text[1..][..j - 1];
      j
  }

  /**
   * The lines readLine returns one after another: a line ends at "\n", "\r" or
   * "\r\n"; a last line without a terminator is still a line; an empty text has none.
   */
  function ReadLines(text: string): (ls: seq<string>)
    ensures forall k :: 0 <= k < |ls| ==> NoBreaks(ls[k])
    decreases |text|
  {
    if text == [] then []
    else
      var i := LineEnd(text);
      if i == |text| then [text]
      else
        var next := if text[i] == '\r' && i + 1 < |text| && text[i + 1] == '\n' then i + 2 else i + 1;
        [text[..i]] + ReadLines(text[next..])
  }

  /** Lines written one after another, each followed by "\n", as StringBuilder.append builds them. */
  function Unlines(ls: seq<string>): string {
    if ls == [] then "" else Unlines(ls[..|ls| - 1]) + ls[|ls| - 1] + "\n"
  }

  lemma {:induction false} UnlinesCons(l: string, ls: seq<string>)
    ensures Unlines([l] + ls) == l + "\n" + Unlines(ls)
    decreases |ls|
  {
    if ls == [] {
      assert [l] + ls == [l];
      assert ([l] + ls)[..0] == [];
    } else {
      var front := ls[..|ls| - 1];
      var last := ls[|ls| - 1];
      assert ([l] + ls)[..|ls|] == [l] + front;
      UnlinesCons(l, front);
      AppendAssoc3(l + "\n", Unlines(front), last + "\n");
    }
  }

  lemma AppendAssoc3(a: string, b: string, c: string)
    ensures a + b + c == a + (b + c)
  {
  }

  /** Text written as lines reads back as the same lines. */
  lemma {:induction false} ReadUnlines(ls: seq<string>)
    requires forall k :: 0 <= k < |ls| ==> NoBreaks(ls[k])
    ensures ReadLines(Unlines(ls)) == ls
    decreases |ls|
  {
    if ls != [] {
      var l := ls[0];
      var rest := ls[1..];
      assert ls == [l] + rest;
      UnlinesCons(l, rest);
      var text := Unlines(ls);
      assert text == l + "\n" + Unlines(rest);
      LineEndAt(l, Unlines(rest));
      assert text[..|l|] == l;
      assert text[|l| + 1..] == Unlines(rest);
      ReadUnlines(rest);
    }
  }

  /** A line without terminators followed by "\n" ends exactly there. */
  lemma {:induction false} LineEndAt(l: string, rest: string)
    requires NoBreaks(l)
    ensures LineEnd(l + "\n" + rest) == |l|
    decreases |l|
  {
    var text := l + "\n" + rest;
    if l == [] {
      assert text[0] == '\n';
    } else {
      assert l[0] in l;
      assert text[1..] == l[1..] + "\n" + rest;
      assert NoBreaks(l[1..]) by {
        forall c | c in l[1..]
          ensures c in l
        {
        }
      }
      LineEndAt(l[1..], rest);
    }
  }

  // ---------------------------------------------------------------- matching lines

  /*
   * Both loops of the menu command pick out lines by one test. The facts about
   * such a scan hold for any test, so they are stated for a test p here and
   * applied to the api_key test below.
   */

  /** The last line that passes p, if any. */
  function LastMatch(lines: seq<string>, p: string -> bool): (e: Option<string>)
    ensures e.Some? ==> p(e.value)
  {
    if lines == [] then None
    else if p(lines[|lines| - 1]) then Some(lines[|lines| - 1])
    else LastMatch(lines[..|lines| - 1], p)
  }

  predicate AnyMatch(lines: seq<string>, p: string -> bool) {
    exists k :: 0 <= k < |lines| && p(lines[k])
  }

  /** Every line that passes p replaced by the line repl, every other line kept as it was. */
  function Replaced(lines: seq<string>, p: string -> bool, repl: string): (r: seq<string>)
    ensures |r| == |lines|
    ensures forall k :: 0 <= k < |lines| ==> r[k] == (if p(lines[k]) then repl else lines[k])
  {
    if lines == [] then []
    else Replaced(lines[..|lines| - 1], p, repl) + [if p(lines[|lines| - 1]) then repl else lines[|lines| - 1]]
  }

  /** There is a last match exactly when there is a match. */
  lemma {:induction false} LastMatchExists(lines: seq<string>, p: string -> bool)
    ensures LastMatch(lines, p).Some? <==> AnyMatch(lines, p)
    decreases |lines|
  {
    if lines != [] {
      var n := |lines| - 1;
      var front := lines[..n];
      LastMatchExists(front, p);
      if p(lines[n]) {
        assert AnyMatch(lines, p);
      } else {
        if AnyMatch(lines, p) {
          var k :| 0 <= k < |lines| && p(lines[k]);
          assert front[k] == lines[k];
        }
        if AnyMatch(front, p) {
          var k :| 0 <= k < |front| && p(front[k]);
          assert front[k] == lines[k];
        }
      }
    }
  }

  /** The last match wins: lines after it that do not pass p change nothing. */
  lemma {:induction false} LastMatchWins(lines: seq<string>, p: string -> bool, j: nat)
    requires j < |lines| && p(lines[j])
    requires forall k :: j < k < |lines| ==> !p(lines[k])
    ensures LastMatch(lines, p) == Some(lines[j])
    decreases |lines|
  {
    if j < |lines| - 1 {
      var front := lines[..|lines| - 1];
      forall k | j < k < |front|
        ensures !p(front[k])
      {
        assert front[k] == lines[k];
      }
      LastMatchWins(front, p, j);
    }
  }

  /** When every match is the same line, that line is the last match. */
  lemma {:induction false} LastMatchAllSame(lines: seq<string>, p: string -> bool, line: string)
    requires AnyMatch(lines, p)
    requires forall k :: 0 <= k < |lines| && p(lines[k]) ==> lines[k] == line
    ensures LastMatch(lines, p) == Some(line)
    decreases |lines|
  {
    var n := |lines| - 1;
    if !p(lines[n]) {
      var front := lines[..n];
      var j :| 0 <= j < |lines| && p(lines[j]);
      assert front[j] == lines[j];
      forall k | 0 <= k < |front| && p(front[k])
        ensures front[k] == line
      {
        assert front[k] == lines[k];
      }
      LastMatchAllSame(front, p, line);
    }
  }

  /** One more line scanned: a match so far exactly when there was one before or this line passes. */
  lemma AnyMatchStep(lines: seq<string>, p: string -> bool, i: nat)
    requires i < |lines|
    ensures AnyMatch(lines[..i + 1], p) == (AnyMatch(lines[..i], p) || p(lines[i]))
  {
    var before := lines[..i];
    var after := lines[..i + 1];
    if p(lines[i]) {
      assert after[i] == lines[i];
    } else if AnyMatch(before, p) {
      var k :| 0 <= k < |before| && p(before[k]);
      assert after[k] == before[k];
    }
  }

  /** After replacing with a line that passes p, every match is that line, and a match remains. */
  lemma ReplacedMatches(lines: seq<string>, p: string -> bool, repl: string)
    requires p(repl)
    ensures forall k :: 0 <= k < |lines| && p(Replaced(lines, p, repl)[k]) ==> Replaced(lines, p, repl)[k] == repl
    ensures AnyMatch(lines, p) ==> AnyMatch(Replaced(lines, p, repl), p)
  {
    var r := Replaced(lines, p, repl);
    if AnyMatch(lines, p) {
      var j :| 0 <= j < |lines| && p(lines[j]);
      assert r[j] == repl;
    }
  }

  /** Replacing lines without terminators by one without terminators leaves none. */
  lemma ReplacedNoBreaks(lines: seq<string>, p: string -> bool, repl: string)
    requires forall k :: 0 <= k < |lines| ==> NoBreaks(lines[k])
    requires NoBreaks(repl)
    ensures forall k :: 0 <= k < |lines| ==> NoBreaks(Replaced(lines, p, repl)[k])
  {
  }

  /** Of three lines of which only the middle one passes p, that one is every match. */
  lemma OnlyMiddleMatches(a: string, m: string, b: string, p: string -> bool)
    requires !p(a) && p(m) && !p(b)
    ensures AnyMatch([a, m, b], p)
    ensures forall k :: 0 <= k < 3 && p([a, m, b][k]) ==> [a, m, b][k] == m
  {
    assert [a, m, b][1] == m;
  }

  /** Replacing with the line that is already there changes nothing. */
  lemma ReplacedAgain(lines: seq<string>, p: string -> bool, repl: string)
    requires forall k :: 0 <= k < |lines| && p(lines[k]) ==> lines[k] == repl
    ensures Replaced(lines, p, repl) == lines
  {
  }

  // ---------------------------------------------------------------- the api_key entry

  /** The test of both loops: two sides of "=" whose left side trims to "api_key". */
  predicate IsApiKeyLine(line: string) {
    var parts := Split(line, '=');
    |parts| == 2 && Trim(parts[0]) == "api_key"
  }

  /** The key an api_key line holds: its right-hand side, trimmed. */
  function KeyOf(line: string): (r: string)
    requires IsApiKeyLine(line)
    ensures '=' !in r && Trim(r) == r
  {
    TrimIdempotent(Split(line, '=')[1]);
    TrimInfix(Split(line, '=')[1]);
    Trim(Split(line, '=')[1])
  }

  /** The key of the last api_key line; none gives the empty key getApiKey starts from. */
  function EntryKey(e: Option<string>): string
    requires e.Some? ==> IsApiKeyLine(e.value)
  {
    if e.Some? then KeyOf(e.value) else ""
  }

  /** The key getApiKey returns; a file that cannot be opened yields the empty key. */
  function ApiKeyOf(file: Option<string>): string {
    match file
    case None => ""
    case Some(text) => EntryKey(LastMatch(ReadLines(text), IsApiKeyLine))
  }

  /** getApiKey: reads the file line by line and keeps the key of the latest api_key line. */
  method GetApiKey(file: Option<string>) returns (apiKey: string)
    ensures apiKey == ApiKeyOf(file)
    ensures file.None? ==> apiKey == ""
  {
    apiKey := "";
    if file.Some? {
      var lines := ReadLines(file.value);
      var i := 0;
      while i < |lines|
        invariant i <= |lines|
        invariant apiKey == EntryKey(LastMatch(lines[..i], IsApiKeyLine))
      {
        var line := lines[i];
        assert lines[..i + 1][..i] == lines[..i];
        if IsApiKeyLine(line) {
          apiKey := KeyOf(line);
        }
        i := i + 1;
      }
      assert lines[..i] == lines;
    }
  }

  // ---------------------------------------------------------------- writing a key

  /** A setting line as setApiKey prints it: the name, " = ", the value. */
  function SettingLine(name: string, value: string): string {
    name + " = " + value
  }

  /** The line setApiKey writes for a key. */
  function ApiKeyLine(key: string): string {
    SettingLine("api_key", key)
  }

  lemma ApiKeyLineNoBreaks(key: string)
    requires NoBreaks(key)
    ensures NoBreaks(ApiKeyLine(key))
  {
  }

  /** The lines of the file written when the file has no api_key line, or cannot be opened. */
  function DefaultLines(key: string): seq<string> {
    ["[settings]", ApiKeyLine(key), SettingLine("debug", "false")]
  }

  /** The content written then: the three lines, each followed by "\n". */
  function DefaultConfig(key: string): string {
    Unlines(DefaultLines(key))
  }

  /** The text setApiKey prints to the configuration file. */
  function ConfigWithKey(file: Option<string>, key: string): string {
    if file.Some? && AnyMatch(ReadLines(file.value), IsApiKeyLine) then
      Unlines(Replaced(ReadLines(file.value), IsApiKeyLine, ApiKeyLine(key)))
    else DefaultConfig(key)
  }

  /** One more line read extends the output by that line as rewritten. */
  lemma ReplacedStep(lines: seq<string>, i: nat, repl: string)
    requires i < |lines|
    ensures Unlines(Replaced(lines[..i + 1], IsApiKeyLine, repl))
         == Unlines(Replaced(lines[..i], IsApiKeyLine, repl)) + (if IsApiKeyLine(lines[i]) then repl else lines[i]) + "\n"
  {
    assert lines[..i + 1][..i] == lines[..i];
  }

  /** setApiKey: copies the file line by line, replacing api_key lines, and falls back to a fresh file. */
  method SetApiKey(file: Option<string>, key: string) returns (content: string)
    ensures content == ConfigWithKey(file, key)
  {
    var found := false;
    content := "";
    if file.Some? {
      var lines := ReadLines(file.value);
      var i := 0;
      while i < |lines|
        invariant i <= |lines|
        invariant found == AnyMatch(lines[..i], IsApiKeyLine)
        invariant content == Unlines(Replaced(lines[..i], IsApiKeyLine, ApiKeyLine(key)))
      {
        var line := lines[i];
        AnyMatchStep(lines, IsApiKeyLine, i);
        ReplacedStep(lines, i, ApiKeyLine(key));
        if IsApiKeyLine(line) {
          found := true;
          content := content + ApiKeyLine(key) + "\n";
        } else {
          content := content + line + "\n";
        }
        i := i + 1;
      }
      assert lines[..i] == lines;
    }
    if !found {
      content := DefaultConfig(key);
    }
  }

  // ---------------------------------------------------------------- properties

  /** A file without an api_key line reads as the empty key. */
  lemma NoEntryReadsEmpty(text: string)
    requires !AnyMatch(ReadLines(text), IsApiKeyLine)
    ensures ApiKeyOf(Some(text)) == ""
  {
    LastMatchExists(ReadLines(text), IsApiKeyLine);
  }

  /** The written line is an api_key line and holds the trimmed key, for a key without "=". */
  lemma ApiKeyLineReads(key: string)
    requires '=' !in key
    ensures IsApiKeyLine(ApiKeyLine(key))
    ensures KeyOf(ApiKeyLine(key)) == Trim(key)
  {
    SettingLineSplits("api_key", key);
    TrimAfterBlank(key);
  }

  /** A setting line splits at its one "=" into the padded name and the padded value. */
  lemma SettingLineSplits(name: string, value: string)
    requires '=' !in name && '=' !in value
    requires name != [] && !TrimDrops(name[0]) && !TrimDrops(name[|name| - 1])
    ensures var parts := Split(SettingLine(name, value), '=');
      parts == [name + " ", " " + value] && Trim(parts[0]) == name
  {
    assert SettingLine(name, value) == (name + " ") + ['='] + (" " + value);
    SplitPair(name + " ", '=', " " + value);
    assert [] + name + " " == name + " ";
    TrimPadded([], name, " ");
  }

  /** A line without "=" is not an api_key line. */
  lemma NoEqualsNoEntry(line: string)
    requires '=' !in line
    ensures !IsApiKeyLine(line)
  {
  }

  /** The debug line of the default file has "debug" on the left of its "=": not an api_key line. */
  lemma DebugLineNoEntry()
    ensures !IsApiKeyLine(SettingLine("debug", "false"))
  {
    SettingLineSplits("debug", "false");
    assert "debug"[0] != "api_key"[0];
  }

  /** The default file reads back as its three lines. */
  lemma DefaultConfigLines(key: string)
    requires NoBreaks(key)
    ensures ReadLines(DefaultConfig(key)) == DefaultLines(key)
  {
    var ls := DefaultLines(key);
    ApiKeyLineNoBreaks(key);
    assert forall k :: 0 <= k < |ls| ==> NoBreaks(ls[k]);
    ReadUnlines(ls);
  }

  /** The property of the written lines that reading them back relies on. */
  predicate OnlyNewEntries(ls: seq<string>, key: string) {
    && AnyMatch(ls, IsApiKeyLine)
    && forall k :: 0 <= k < |ls| && IsApiKeyLine(ls[k]) ==> ls[k] == ApiKeyLine(key)
  }

  /** A file with an api_key line is written back as its lines with every api_key line replaced. */
  lemma RewrittenLines(lines: seq<string>, key: string)
    requires '=' !in key && NoBreaks(key)
    requires forall k :: 0 <= k < |lines| ==> NoBreaks(lines[k])
    requires AnyMatch(lines, IsApiKeyLine)
    ensures var ls := Replaced(lines, IsApiKeyLine, ApiKeyLine(key));
      ReadLines(Unlines(ls)) == ls && OnlyNewEntries(ls, key)
  {
    ApiKeyLineReads(key);
    ApiKeyLineNoBreaks(key);
    ReplacedNoBreaks(lines, IsApiKeyLine, ApiKeyLine(key));
    ReadUnlines(Replaced(lines, IsApiKeyLine, ApiKeyLine(key)));
    ReplacedMatches(lines, IsApiKeyLine, ApiKeyLine(key));
  }

  /** The default file holds the new api_key line and no other. */
  lemma DefaultEntries(key: string)
    requires '=' !in key && NoBreaks(key)
    ensures OnlyNewEntries(ReadLines(DefaultConfig(key)), key)
  {
    ApiKeyLineReads(key);
    DefaultConfigLines(key);
    NoEqualsNoEntry("[settings]");
    DebugLineNoEntry();
    OnlyMiddleMatches("[settings]", ApiKeyLine(key), SettingLine("debug", "false"), IsApiKeyLine);
  }

  /** The lines of the written file: at least one api_key line, and each of them the new one. */
  lemma WrittenLines(file: Option<string>, key: string)
    requires '=' !in key && NoBreaks(key)
    ensures OnlyNewEntries(ReadLines(ConfigWithKey(file, key)), key)
  {
    if file.Some? && AnyMatch(ReadLines(file.value), IsApiKeyLine) {
      RewrittenLines(ReadLines(file.value), key);
    } else {
      DefaultEntries(key);
    }
  }

  /** Writing a key and reading the file back gives the key, trimmed. */
  lemma SetThenGet(file: Option<string>, key: string)
    requires '=' !in key && NoBreaks(key)
    ensures ApiKeyOf(Some(ConfigWithKey(file, key))) == Trim(key)
  {
    ApiKeyLineReads(key);
    WrittenLines(file, key);
    LastMatchAllSame(ReadLines(ConfigWithKey(file, key)), IsApiKeyLine, ApiKeyLine(key));
  }

  /** The new content keeps every line that is not an api_key line, in place, and rewrites the others. */
  lemma SetKeepsOtherLines(text: string, key: string)
    requires NoBreaks(key)
    requires AnyMatch(ReadLines(text), IsApiKeyLine)
    ensures var before := ReadLines(text);
      var after := ReadLines(ConfigWithKey(Some(text), key));
      && |after| == |before|
      && forall k :: 0 <= k < |before| ==> after[k] == (if IsApiKeyLine(before[k]) then ApiKeyLine(key) else before[k])
  {
    ApiKeyLineNoBreaks(key);
    ReplacedNoBreaks(ReadLines(text), IsApiKeyLine, ApiKeyLine(key));
    ReadUnlines(Replaced(ReadLines(text), IsApiKeyLine, ApiKeyLine(key)));
  }

  /** The written file is the lines it reads back as, each followed by "\n". */
  lemma WrittenReadsBack(file: Option<string>, key: string)
    requires '=' !in key && NoBreaks(key)
    ensures Unlines(ReadLines(ConfigWithKey(file, key))) == ConfigWithKey(file, key)
  {
    if file.Some? && AnyMatch(ReadLines(file.value), IsApiKeyLine) {
      RewrittenLines(ReadLines(file.value), key);
    } else {
      DefaultConfigLines(key);
    }
  }

  /** Setting the same key twice writes the same content as setting it once. */
  lemma SetIdempotent(file: Option<string>, key: string)
    requires '=' !in key && NoBreaks(key)
    ensures ConfigWithKey(Some(ConfigWithKey(file, key)), key) == ConfigWithKey(file, key)
  {
    var content := ConfigWithKey(file, key);
    WrittenLines(file, key);
    WrittenReadsBack(file, key);
    ReplacedAgain(ReadLines(content), IsApiKeyLine, ApiKeyLine(key));
  }
}
