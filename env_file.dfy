/** The `.env` fallback: the file's text is split on '\n', and every line that
    matches /^([^=]+)=(.*)$/ with a non-empty value assigns that value to that key.
    The file's text is a parameter and the environment a map value. */
module EnvFile {
  import opened Values

  // ---------------------------------------------------------------------------
  // text.split('\n')
  // ---------------------------------------------------------------------------

  /** `text.split('\n')`: always at least one piece, and no piece holds a '\n'. */
  function SplitLines(text: string): (lines: seq<string>)
    ensures |lines| >= 1
    ensures forall i :: 0 <= i < |lines| ==> '\n' !in lines[i]
  {
    if text == [] then [""]
    else
      var rest := SplitLines(text[1..]);
      if text[0] == '\n' then [""] + rest
      else [[text[0]] + rest[0]] + rest[1..]
  }

  /** `lines.join('\n')`, the inverse of SplitLines. */
  function JoinLines(lines: seq<string>): string
    requires |lines| >= 1
  {
    if |lines| == 1 then lines[0] else lines[0] + "\n" + JoinLines(lines[1..])
  }

  /** Splitting loses nothing: joining the pieces gives back the text. */
  lemma {:induction false} JoinSplitLines(text: string)
    ensures JoinLines(SplitLines(text)) == text
  {
    if text != [] {
      var rest := SplitLines(text[1..]);
      JoinSplitLines(text[1..]);
      if text[0] == '\n' {
        assert SplitLines(text) == [""] + rest;
        assert ([""] + rest)[1..] == rest;
      } else {
        var lines := SplitLines(text);
        assert lines == [[text[0]] + rest[0]] + rest[1..];
        if |rest| > 1 {
          assert lines[1..] == rest[1..];
        }
      }
    }
  }

  /** Splitting a '\n'-free prefix onto the text that follows it. */
  lemma {:induction false} SplitLinesPrefix(a: string, t: string)
    requires '\n' !in a
    ensures SplitLines(a + t) == [a + SplitLines(t)[0]] + SplitLines(t)[1..]
  {
    if a != [] {
      assert (a + t)[0] == a[0];
      assert (a + t)[1..] == a[1..] + t;
      assert '\n' !in a[1..] by {
        forall i | 0 <= i < |a[1..]| ensures a[1..][i] != '\n' { assert a[1..][i] == a[i + 1]; }
      }
      SplitLinesPrefix(a[1..], t);
      assert [a[0]] + (a[1..] + SplitLines(t)[0]) == a + SplitLines(t)[0];
    } else {
      var pieces := SplitLines(t);
      assert a + t == t;
      assert a + pieces[0] == pieces[0];
      assert pieces == [pieces[0]] + pieces[1..];
    }
  }

  /** Pieces without '\n' come back unchanged from joining then splitting. */
  lemma {:induction false} SplitJoinLines(lines: seq<string>)
    requires |lines| >= 1
    requires forall i :: 0 <= i < |lines| ==> '\n' !in lines[i]
    ensures SplitLines(JoinLines(lines)) == lines
  {
    if |lines| == 1 {
      SplitLinesPrefix(lines[0], "");
      assert lines[0] + "" == lines[0];
    } else {
      var tail := JoinLines(lines[1..]);
      SplitJoinLines(lines[1..]);
      assert lines[0] + "\n" + tail == lines[0] + ("\n" + tail);
      SplitLinesPrefix(lines[0], "\n" + tail);
      assert ("\n" + tail)[1..] == tail;
      assert SplitLines("\n" + tail) == [""] + lines[1..];
      assert lines[0] + "" == lines[0];
    }
  }

  // ---------------------------------------------------------------------------
  // line.match(/^([^=]+)=(.*)$/) && match[1] && match[2]
  // ---------------------------------------------------------------------------

  /** The characters JavaScript's `.` does not match. */
  predicate IsLineTerminator(c: char) {
    c == '\n' || c == '\r' || c == '\U{2028}' || c == '\U{2029}'
  }

  /** `line` matches /^([^=]+)=(.*)$/ with `key` as group 1 and `value` as group 2. */
  ghost predicate MatchesEnvPattern(line: string, key: string, value: string) {
    && line == key + "=" + value
    && key != []
    && (forall i :: 0 <= i < |key| ==> key[i] != '=')
    && (forall i :: 0 <= i < |value| ==> !IsLineTerminator(value[i]))
  }

  /** One assignment read from the file. */
  datatype EnvEntry = EnvEntry(key: string, value: string)

  /** Position of the first '=' in `s`, or |s| when there is none. */
  function IndexOfEquals(s: string): (i: nat)
    ensures i <= |s|
    ensures i < |s| ==> s[i] == '='
    ensures forall j :: 0 <= j < i ==> s[j] != '='
  {
    if s == [] || s[0] == '=' then 0 else 1 + IndexOfEquals(s[1..])
  }

  /** The value group may hold no line terminator. */
  predicate NoLineTerminator(s: string) {
    forall i :: 0 <= i < |s| ==> !IsLineTerminator(s[i])
  }

  /** The assignment a line makes, if any: it matches the pattern and both groups
      are truthy (group 1 is non-empty by the pattern already). */
  function ParseEnvLine(line: string): (e: Option<EnvEntry>)
    ensures e.Some? ==> MatchesEnvPattern(line, e.value.key, e.value.value) && e.value.value != []
  {
    var i := IndexOfEquals(line);
    if i == 0 || i == |line| then None
    else
      var key, value := line[..i], line[i + 1..];
      assert line == key + "=" + value;
      if value != [] && NoLineTerminator(value) then Some(EnvEntry(key, value)) else None
  }

  /** The pattern fixes its groups: the key is everything before the first '='. */
  lemma EnvPatternGroupsUnique(line: string, key: string, value: string)
    requires MatchesEnvPattern(line, key, value)
    ensures IndexOfEquals(line) == |key|
    ensures line[..|key|] == key && line[|key| + 1..] == value
  {
    var i := IndexOfEquals(line);
    assert line[|key|] == '=';
    assert forall j :: 0 <= j < |key| ==> line[j] == key[j] && line[j] != '=';
  }

  /** Every line matching the pattern with a non-empty value is an assignment,
      so ParseEnvLine accepts exactly the lines the source accepts. */
  lemma ParseEnvLineComplete(line: string, key: string, value: string)
    requires MatchesEnvPattern(line, key, value) && value != []
    ensures ParseEnvLine(line) == Some(EnvEntry(key, value))
  {
    EnvPatternGroupsUnique(line, key, value);
  }

  /** A line ending in '\r' (a CRLF file after splitting on '\n') never assigns:
      the value group would have to hold the '\r'. */
  lemma CarriageReturnLineIgnored(line: string)
    requires |line| > 0 && line[|line| - 1] == '\r'
    ensures ParseEnvLine(line) == None
  {
  }

  // ---------------------------------------------------------------------------
  // The loop over the lines
  // ---------------------------------------------------------------------------

  /** The environment after one line. */
  function ApplyLine(env: map<string, string>, line: string): map<string, string> {
    match ParseEnvLine(line)
    case None => env
    case Some(e) => env[e.key := e.value]
  }

  /** The environment after the lines, in order. */
  function ApplyLines(env: map<string, string>, lines: seq<string>): map<string, string>
    decreases |lines|
  {
    if lines == [] then env
    else ApplyLine(ApplyLines(env, lines[..|lines| - 1]), lines[|lines| - 1])
  }

  /** `s.includes(sub)`. */
  function Contains(s: string, sub: string): bool
    decreases |s|
  {
    if |s| < |sub| then false else s[..|sub|] == sub || Contains(s[1..], sub)
  }

  /** A line that assigns a key whose name includes "API_KEY". */
  predicate LoadsApiKey(line: string) {
    var e := ParseEnvLine(line);
    e.Some? && Contains(e.value.key, "API_KEY")
  }

  /** The `keysLoaded` counter after the lines: repeated keys count each time. */
  function CountApiKeys(lines: seq<string>): nat
    decreases |lines|
  {
    if lines == [] then 0
    else CountApiKeys(lines[..|lines| - 1]) + (if LoadsApiKey(lines[|lines| - 1]) then 1 else 0)
  }

  /** The keys the lines assign. */
  function AssignedKeys(lines: seq<string>): set<string>
    decreases |lines|
  {
    if lines == [] then {}
    else
      var e := ParseEnvLine(lines[|lines| - 1]);
      AssignedKeys(lines[..|lines| - 1]) + (if e.Some? then {e.value.key} else {})
  }

  /** The loop of the loader: each line is matched in turn, an assignment is written
      into the environment, and the counter grows for every API key written. */
  method LoadEnvText(text: string, env0: map<string, string>) returns (env: map<string, string>, keysLoaded: nat)
    ensures env == ApplyLines(env0, SplitLines(text))
    ensures keysLoaded == CountApiKeys(SplitLines(text))
  {
    var lines := SplitLines(text);
    env, keysLoaded := env0, 0;
    var n := 0;
    while n < |lines|
      invariant 0 <= n <= |lines|
      invariant env == ApplyLines(env0, lines[..n])
      invariant keysLoaded == CountApiKeys(lines[..n])
    {
      assert lines[..n + 1][..n] == lines[..n];
      var line := lines[n];
      var entry := ParseEnvLine(line);
      if entry.Some? {
        env := env[entry.value.key := entry.value.value];
        if Contains(entry.value.key, "API_KEY") {
          keysLoaded := keysLoaded + 1;
        }
      }
      n := n + 1;
    }
    assert lines[..n] == lines;
  }

  /** Loading adds exactly the assigned keys to the environment. */
  lemma {:induction false} LoadedKeys(env: map<string, string>, lines: seq<string>)
    ensures ApplyLines(env, lines).Keys == env.Keys + AssignedKeys(lines)
    decreases |lines|
  {
    if lines != [] {
      LoadedKeys(env, lines[..|lines| - 1]);
    }
  }

  /** A key no line assigns keeps the value it had. */
  lemma {:induction false} UnassignedKeyKept(env: map<string, string>, lines: seq<string>, key: string)
    requires key !in AssignedKeys(lines)
    ensures key in ApplyLines(env, lines) <==> key in env
    ensures key in env ==> ApplyLines(env, lines)[key] == env[key]
    decreases |lines|
  {
    if lines != [] {
      UnassignedKeyKept(env, lines[..|lines| - 1], key);
    }
  }

  /** The last line that assigns a key decides its value. */
  lemma {:induction false} LastAssignmentWins(env: map<string, string>, lines: seq<string>, j: nat, key: string, value: string)
    requires j < |lines|
    requires ParseEnvLine(lines[j]) == Some(EnvEntry(key, value))
    requires forall k :: j < k < |lines| ==> ParseEnvLine(lines[k]).None? || ParseEnvLine(lines[k]).value.key != key
    ensures key in ApplyLines(env, lines) && ApplyLines(env, lines)[key] == value
    decreases |lines|
  {
    if j < |lines| - 1 {
      var prefix := lines[..|lines| - 1];
      assert forall k :: j < k < |prefix| ==> prefix[k] == lines[k];
      LastAssignmentWins(env, prefix, j, key, value);
    }
  }

  /** The counter never exceeds the number of lines. */
  lemma {:induction false} KeysLoadedAtMostLines(lines: seq<string>)
    ensures CountApiKeys(lines) <= |lines|
    decreases |lines|
  {
    if lines != [] {
      KeysLoadedAtMostLines(lines[..|lines| - 1]);
    }
  }
}
