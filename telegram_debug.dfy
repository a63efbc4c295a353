/** The Telegram check script (`test-telegram.js`): it picks an environment
 *  file, reads `KEY=VALUE` lines from it, cleans the bot token the way the
 *  notification route does, and sends one test message.
 *
 *  The file system is given as which files exist and their contents; the request
 *  itself is the script's result.
 */
module TelegramDebug {
  import opened Common
  import TelegramRoute

  const LocalEnvFile := ".env.local"
  const EnvFile := ".env"
  const TokenKey := "TELEGRAM_BOT_TOKEN"
  const ChatIdKey := "TELEGRAM_CHAT_ID"

  /** `.env.local` when it exists, else `.env` when it exists, else none (the
   *  script exits). */
  function ChooseEnvFile(localExists: bool, envExists: bool): (r: Option<string>)
    ensures r == Some(LocalEnvFile) <==> localExists
    ensures r == Some(EnvFile) <==> !localExists && envExists
    ensures r.None? <==> !localExists && !envExists
  {
    if localExists then Some(LocalEnvFile)
    else if envExists then Some(EnvFile)
    else None
  }

  /** One line: `const [key, value] = line.split("=")`, kept when both parts are
   *  non-empty, stored trimmed. */
  function Record(env: map<string, string>, line: string): map<string, string>
  {
    var parts := Split(line, '=');
    if |parts| >= 2 && parts[0] != "" && parts[1] != "" then env[Trim(parts[0]) := Trim(parts[1])]
    else env
  }

  /** The dictionary after the lines, first to last. */
  function EnvFrom(lines: seq<string>): map<string, string>
  {
    if lines == [] then map[] else Record(EnvFrom(lines[..|lines| - 1]), lines[|lines| - 1])
  }

  /** The `forEach` over the file's lines. */
  method ParseEnv(content: string) returns (env: map<string, string>)
    ensures env == EnvFrom(Split(content, '\n'))
  {
    var lines := Split(content, '\n');
    env := map[];
    var i := 0;
    while i < |lines|
      invariant 0 <= i <= |lines|
      invariant env == EnvFrom(lines[..i])
    {
      EnvFromStep(lines, i);
      var parts := Split(lines[i], '=');
      if |parts| >= 2 && parts[0] != "" && parts[1] != "" {
        env := env[Trim(parts[0]) := Trim(parts[1])];
      }
      i := i + 1;
    }
    assert lines[..i] == lines;
  }

  lemma EnvFromStep(lines: seq<string>, i: nat)
    requires i < |lines|
    ensures EnvFrom(lines[..i + 1]) == Record(EnvFrom(lines[..i]), lines[i])
  {
    assert lines[..i + 1][..i] == lines[..i];
  }

  /** A line whose first two `=`-separated parts are `k` and `v`. */
  lemma RecordOf(env: map<string, string>, line: string, k: string, v: string)
    requires |Split(line, '=')| >= 2 && Split(line, '=')[0] == k && Split(line, '=')[1] == v
    requires k != [] && v != []
    ensures Record(env, line) == env[Trim(k) := Trim(v)]
  {
  }

  lemma NoSeparator(s: string, c: char)
    requires c !in s
    ensures Split(s, c) == [s]
  {
    assert IndexOf(s, c) == |s|;
  }

  /** Splitting at the first separator. */
  lemma SplitAt(a: string, c: char, b: string)
    requires c !in a
    ensures Split(a + [c] + b, c) == [a] + Split(b, c)
  {
    var s := a + [c] + b;
    IndexPast(a, c, b);
    assert s[..|a|] == a && s[|a| + 1..] == b;
  }

  /** `KEY=VALUE` is recorded as the trimmed pair. */
  lemma KeyValueLine(env: map<string, string>, k: string, v: string)
    requires '=' !in k && '=' !in v && k != [] && v != []
    ensures Record(env, k + "=" + v) == env[Trim(k) := Trim(v)]
  {
    SplitAt(k, '=', v);
    NoSeparator(v, '=');
    assert Split(k + "=" + v, '=') == [k, v];
    RecordOf(env, k + "=" + v, k, v);
  }

  /** Anything after a second `=` is lost from the value. */
  lemma ValueEndsAtSecondSeparator(env: map<string, string>, k: string, v: string, rest: string)
    requires '=' !in k && '=' !in v && k != [] && v != []
    ensures Record(env, k + "=" + v + "=" + rest) == env[Trim(k) := Trim(v)]
  {
    var tail := v + ['='] + rest;
    assert k + "=" + v + "=" + rest == k + ['='] + tail;
    SplitAt(k, '=', tail);
    SplitAt(v, '=', rest);
    var parts := Split(k + ['='] + tail, '=');
    assert parts == [k] + ([v] + Split(rest, '='));
    assert parts[0] == k && parts[1] == v;
    RecordOf(env, k + ['='] + tail, k, v);
  }

  /** A line without `=`, or with nothing before or after the first `=`, is
   *  skipped. */
  lemma SkippedLines(env: map<string, string>, line: string, v: string)
    requires '=' !in line
    ensures Record(env, line) == env
    ensures Record(env, "=" + v) == env
    ensures Record(env, line + "=") == env
  {
    NoSeparator(line, '=');
    assert "=" + v == [] + ['='] + v;
    SplitAt([], '=', v);
    assert line + "=" == line + ['='] + [];
    SplitAt(line, '=', []);
    NoSeparator([], '=');
  }

  /** A later line with the same key wins. */
  lemma LaterLineWins(lines: seq<string>, k: string, v1: string, v2: string)
    requires '=' !in k && '=' !in v1 && '=' !in v2 && k != [] && v1 != [] && v2 != []
    ensures EnvFrom(lines + [k + "=" + v1, k + "=" + v2]) == EnvFrom(lines)[Trim(k) := Trim(v2)]
  {
    var all := lines + [k + "=" + v1, k + "=" + v2];
    assert all[..|all| - 1] == lines + [k + "=" + v1];
    assert (lines + [k + "=" + v1])[..|lines|] == lines;
    KeyValueLine(EnvFrom(lines), k, v1);
    KeyValueLine(EnvFrom(lines)[Trim(k) := Trim(v1)], k, v2);
  }

  /** The script's token cleaning: one leading "bot" removed, no further trim. */
  function CleanToken(token: string): (r: string)
    ensures StartsWith(token, "bot") ==> r == token[3..]
    ensures !StartsWith(token, "bot") ==> r == token
  {
    if StartsWith(token, "bot") then token[3..] else token
  }

  /** A token read from a `TELEGRAM_BOT_TOKEN=` line is cleaned exactly as the
   *  notification route cleans the same text. */
  lemma CleaningMatchesRoute(v: string)
    ensures TelegramRoute.CleanToken(Some(v)) == Some(CleanToken(Trim(v)))
  {
  }

  /** What the script does. */
  datatype ScriptOutcome = NoEnvFile | MissingCredentials | SendTest(path: string, chatId: string, text: string)

  const TestText := "\U{1F50D} Test message from GoCart Debugger"

  /** The outcome for a dictionary read from the chosen file. */
  function Outcome(env: map<string, string>): (r: ScriptOutcome)
    ensures r.MissingCredentials? <==> TokenKey !in env || env[TokenKey] == "" || ChatIdKey !in env || env[ChatIdKey] == ""
    ensures r.SendTest? ==> r.path == "/bot" + CleanToken(env[TokenKey]) + "/sendMessage" && r.chatId == env[ChatIdKey]
  {
    if TokenKey !in env || env[TokenKey] == "" || ChatIdKey !in env || env[ChatIdKey] == "" then MissingCredentials
    else SendTest("/bot" + CleanToken(env[TokenKey]) + "/sendMessage", env[ChatIdKey], TestText)
  }

  /** The whole script, given which files exist and their contents. */
  method Run(localExists: bool, envExists: bool, localContent: string, envContent: string) returns (r: ScriptOutcome)
    ensures var file := ChooseEnvFile(localExists, envExists);
      && (file.None? ==> r == NoEnvFile)
      && (file == Some(LocalEnvFile) ==> r == Outcome(EnvFrom(Split(localContent, '\n'))))
      && (file == Some(EnvFile) ==> r == Outcome(EnvFrom(Split(envContent, '\n'))))
  {
    var file := ChooseEnvFile(localExists, envExists);
    if file.None? {
      return NoEnvFile;
    }
    var content := if file == Some(LocalEnvFile) then localContent else envContent;
    var env := ParseEnv(content);
    if TokenKey !in env || env[TokenKey] == "" || ChatIdKey !in env || env[ChatIdKey] == "" {
      return MissingCredentials;
    }
    var cleanToken := env[TokenKey];
    if StartsWith(cleanToken, "bot") {
      cleanToken := cleanToken[3..];
    }
    r := SendTest("/bot" + cleanToken + "/sendMessage", env[ChatIdKey], TestText);
  }
}
