/** Shell quoting of excluded paths: buildExcludePathFlags in internal/controller/nodeopupgrade_controller.go. */
module ExcludePaths {
  import opened Wrappers

  const ALWAYS_EXCLUDED: seq<string> := ["/etc/hostname", "/etc/hosts"]
  const FLAG := "--exclude-path"

  /** strings.ReplaceAll(p, "'", `'\''`) */
  function Escape(p: string): string {
    if p == "" then ""
    else (if p[0] == '\'' then "'\\''" else [p[0]]) + Escape(p[1..])
  }

  function FragmentOf(p: string): string {
    " --exclude-path '" + Escape(p) + "'"
  }

  function Fragment(paths: seq<string>): string {
    if paths == [] then "" else FragmentOf(paths[0]) + Fragment(paths[1..])
  }

  lemma {:induction false} FragmentSnoc(paths: seq<string>, p: string)
    ensures Fragment(paths + [p]) == Fragment(paths) + FragmentOf(p)
  {
    hide FragmentOf;
    if paths == [] {
      assert paths + [p] == [p];
      assert [p][1..] == [];
      assert Fragment([p]) == FragmentOf(p) + "" == "" + FragmentOf(p);
    } else {
      assert (paths + [p])[0] == paths[0] && (paths + [p])[1..] == paths[1..] + [p];
      FragmentSnoc(paths[1..], p);
    }
  }

  lemma Assemble(b: string, p: string)
    ensures b + " --exclude-path '" + Escape(p) + "'" == b + FragmentOf(p)
  {
  }

  method BuildExcludePathFlags(userPaths: seq<string>) returns (b: string)
    ensures b == Fragment(ALWAYS_EXCLUDED + userPaths)
    ensures (forall p | p in userPaths :: '\0' !in p) ==>
              Tokens(b).Some? && Excludes(Tokens(b).value, ["/etc/hostname", "/etc/hosts"] + userPaths)
  {
    ShellReadsFlagsBack(userPaths);
    ArgumentsExclude(ALWAYS_EXCLUDED + userPaths);
    hide Tokens, Excludes, Arguments;
    hide FragmentOf, Fragment, Escape;
    assert Fragment([]) == "" by { NoFragment(); }
    var all := ALWAYS_EXCLUDED + userPaths;
    b := "";
    var i := 0;
    while i < |all|
      invariant 0 <= i <= |all| && b == Fragment(all[..i])
    {
      ghost var before := b;
      b := b + " --exclude-path '";
      b := b + Escape(all[i]);
      b := b + "'";
      Assemble(before, all[i]);
      assert all[..i + 1] == all[..i] + [all[i]];
      FragmentSnoc(all[..i], all[i]);
      i := i + 1;
    }
    assert all[..i] == all;
  }

  /** Characters that mean something to the shell outside quotes, apart from blanks, quotes and backslash. */
  predicate Special(c: char) {
    || c == '|' || c == '&' || c == ';' || c == '<' || c == '>' || c == '(' || c == ')' || c == '$' || c == '`'
    || c == '"' || c == '*' || c == '?' || c == '[' || c == '#' || c == '~' || c == '=' || c == '%' || c == '!'
    || c == '{' || c == '}' || c == '\n' || c == '\r'
  }

  predicate Blank(c: char) {
    c == ' ' || c == '\t'
  }

  function Grown(word: Option<string>, c: string): Option<string> {
    Some((if word.Some? then word.value else "") + c)
  }

  /**
   * The words of a command line by the quoting rules of section 2.2 of the Shell Command
   * Language volume of POSIX.1-2017. `quoted` says that a single quote is open, `word` is
   * the word so far. None when the text is not a plain list of words: an unquoted special
   * character, an open quote at the end, or a NUL, which no shell word can hold.
   */
  function Words(s: string, quoted: bool, word: Option<string>): Option<seq<string>>
    decreases |s|
  {
    if s == "" then
      if quoted then None else Some(if word.Some? then [word.value] else [])
    else if s[0] == '\0' then None
    else if quoted then
      if s[0] == '\'' then Words(s[1..], false, word) else Words(s[1..], true, Grown(word, [s[0]]))
    else if Blank(s[0]) then
      match Words(s[1..], false, None)
      case None => None
      case Some(rest) => Some((if word.Some? then [word.value] else []) + rest)
    else if s[0] == '\'' then Words(s[1..], true, Grown(word, ""))
    else if s[0] == '\\' then
      if |s| == 1 || s[1] == '\0' then None
      else if s[1] == '\n' then Words(s[2..], false, word)
      else Words(s[2..], false, Grown(word, [s[1]]))
    else if Special(s[0]) then None
    else Words(s[1..], false, Grown(word, [s[0]]))
  }

  function Tokens(s: string): Option<seq<string>> {
    Words(s, false, None)
  }

  /** The arguments the fragment stands for. */
  function Arguments(paths: seq<string>): seq<string> {
    if paths == [] then [] else [FLAG, paths[0]] + Arguments(paths[1..])
  }

  /** These words are a flag for each of these paths, in order. */
  predicate Excludes(words: seq<string>, paths: seq<string>) {
    && |words| == 2 * |paths|
    && forall i | 0 <= i < |paths| :: words[2 * i] == "--exclude-path" && words[2 * i + 1] == paths[i]
  }

  lemma {:induction false} ArgumentsExclude(paths: seq<string>)
    ensures Excludes(Arguments(paths), paths)
  {
    if paths != [] {
      var rest := Arguments(paths[1..]);
      ArgumentsExclude(paths[1..]);
      forall i | 0 <= i < |paths|
        ensures Arguments(paths)[2 * i] == "--exclude-path" && Arguments(paths)[2 * i + 1] == paths[i]
      {
        if i > 0 {
          assert rest[2 * (i - 1)] == "--exclude-path" && rest[2 * (i - 1) + 1] == paths[1..][i - 1];
          assert Arguments(paths)[2 * i] == rest[2 * i - 2] && Arguments(paths)[2 * i + 1] == rest[2 * i - 1];
        }
      }
    }
  }

  predicate Plain(s: string) {
    forall c | c in s :: c != '\0' && !Blank(c) && c != '\'' && c != '\\' && !Special(c)
  }

  lemma NoFragment()
    ensures Fragment([]) == ""
  {
  }

  lemma PlainStep(c: char, s: string, word: Option<string>)
    requires Plain([c])
    ensures Words([c] + s, false, word) == Words(s, false, Grown(word, [c]))
  {
    assert c in [c];
    assert ([c] + s)[1..] == s;
  }

  lemma InsideStep(c: char, s: string, w: string)
    requires c != '\'' && c != '\0'
    ensures Words([c] + s, true, Some(w)) == Words(s, true, Some(w + [c]))
  {
    assert ([c] + s)[1..] == s;
  }

  lemma OpenQuote(s: string, word: Option<string>)
    ensures Words("'" + s, false, word) == Words(s, true, Some(if word.Some? then word.value else ""))
  {
    assert ("'" + s)[1..] == s;
    assert word.Some? ==> word.value + "" == word.value;
    assert "" + "" == "";
  }

  lemma CloseQuote(s: string, word: Option<string>)
    ensures Words("'" + s, true, word) == Words(s, false, word)
  {
    assert ("'" + s)[1..] == s;
  }

  lemma EscapedQuote(s: string, w: string)
    ensures Words("\\'" + s, false, Some(w)) == Words(s, false, Some(w + "'"))
  {
    assert ("\\'" + s)[2..] == s;
  }

  lemma {:induction false} PlainGrows(t: string, s: string, w: string)
    requires Plain(t)
    ensures Words(t + s, false, Some(w)) == Words(s, false, Some(w + t))
  {
    hide Words;
    if t == "" {
      assert t + s == s && w + t == w;
    } else {
      assert Plain([t[0]]) && Plain(t[1..]);
      assert t + s == [t[0]] + (t[1..] + s);
      PlainStep(t[0], t[1..] + s, Some(w));
      PlainGrows(t[1..], s, w + [t[0]]);
      assert w + [t[0]] + t[1..] == w + t;
    }
  }

  /** A quoted, escaped path is read back as the path, and the quote is closed again. */
  lemma {:induction false} EscapedIsRead(p: string, s: string, w: string)
    requires '\0' !in p
    ensures Words(Escape(p) + "'" + s, true, Some(w)) == Words(s, false, Some(w + p))
  {
    hide Words;
    if p == "" {
      assert Escape(p) + "'" + s == "'" + s;
      CloseQuote(s, Some(w));
      assert w + p == w;
    } else {
      var rest := Escape(p[1..]) + "'" + s;
      EscapedIsRead(p[1..], s, w + [p[0]]);
      assert w + [p[0]] + p[1..] == w + p;
      if p[0] == '\'' {
        assert Escape(p) + "'" + s == "'" + ("\\'" + ("'" + rest));
        CloseQuote("\\'" + ("'" + rest), Some(w));
        EscapedQuote("'" + rest, w);
        OpenQuote(rest, Some(w + "'"));
        assert w + "'" == w + [p[0]];
      } else {
        assert Escape(p) + "'" + s == [p[0]] + rest;
        InsideStep(p[0], rest, w);
      }
    }
  }

  function AndThen(first: seq<string>, rest: Option<seq<string>>): Option<seq<string>> {
    if rest.None? then None else Some(first + rest.value)
  }

  function Before(word: Option<string>): seq<string> {
    if word.Some? then [word.value] else []
  }

  lemma BlankStep(s: string, word: Option<string>)
    ensures Words(" " + s, false, word) == AndThen(Before(word), Words(s, false, None))
  {
    assert (" " + s)[1..] == s;
  }

  predicate Lower(c: char) {
    c == '-' || 'a' <= c <= 'z'
  }

  lemma LowerIsPlain(s: string)
    requires forall i | 0 <= i < |s| :: Lower(s[i])
    ensures Plain(s)
  {
  }

  lemma FlagIsPlain()
    ensures Plain(FLAG) && FLAG == ['-'] + FLAG[1..] && Plain(['-']) && Plain(FLAG[1..])
  {
    LowerIsPlain(FLAG);
    LowerIsPlain(['-']);
    LowerIsPlain(FLAG[1..]);
  }

  lemma FlagIsRead(s: string)
    ensures Words(FLAG + s, false, None) == Words(s, false, Some(FLAG))
  {
    FlagIsPlain();
    hide Words, Plain;
    var t := FLAG[1..];
    assert FLAG + s == ['-'] + (t + s);
    PlainStep('-', t + s, None);
    assert "" + ['-'] == ['-'];
    PlainGrows(t, s, ['-']);
  }

  /** One flag and its path, whatever word came before. */
  lemma OneIsRead(p: string, s: string, word: Option<string>)
    requires '\0' !in p
    ensures Words(FragmentOf(p) + s, false, word) == AndThen(Before(word) + [FLAG], Words(s, false, Some(p)))
  {
    hide Words;
    var escaped := Escape(p) + "'" + s;
    var quoted := " " + ("'" + escaped);
    FragmentParts(p, s);
    BlankStep(FLAG + quoted, word);
    FlagIsRead(quoted);
    BlankStep("'" + escaped, Some(FLAG));
    OpenQuote(escaped, None);
    EscapedIsRead(p, s, "");
    assert "" + p == p;
    var rest := Words(s, false, Some(p));
    assert rest.Some? ==> Before(word) + ([FLAG] + rest.value) == Before(word) + [FLAG] + rest.value;
  }

  lemma FragmentParts(p: string, s: string)
    ensures FragmentOf(p) + s == " " + (FLAG + (" " + ("'" + (Escape(p) + "'" + s))))
  {
    assert " --exclude-path '" == " " + (FLAG + (" " + "'"));
  }

  lemma {:induction false} FragmentIsRead(paths: seq<string>, word: Option<string>)
    requires forall p | p in paths :: '\0' !in p
    ensures Words(Fragment(paths), false, word) == Some(Before(word) + Arguments(paths))
  {
    if paths == [] {
      assert Before(word) + [] == Before(word);
    } else {
      hide FragmentOf, Words;
      assert paths[0] in paths;
      OneIsRead(paths[0], Fragment(paths[1..]), word);
      FragmentIsRead(paths[1..], Some(paths[0]));
      assert Before(word) + [FLAG] + ([paths[0]] + Arguments(paths[1..])) == Before(word) + Arguments(paths);
    }
  }

  lemma {:induction false} NulIsRefused(s: string, quoted: bool, word: Option<string>)
    requires '\0' in s
    ensures Words(s, quoted, word) == None
    decreases |s|
  {
    if s[0] != '\0' {
      assert s == [s[0]] + s[1..];
      if !quoted && s[0] == '\\' {
        if s[1] != '\0' {
          assert s[1..] == [s[1]] + s[2..];
          NulIsRefused(s[2..], false, word);
          NulIsRefused(s[2..], false, Grown(word, [s[1]]));
        }
      } else if quoted {
        NulIsRefused(s[1..], false, word);
        NulIsRefused(s[1..], true, Grown(word, [s[0]]));
      } else {
        NulIsRefused(s[1..], false, None);
        NulIsRefused(s[1..], true, Grown(word, ""));
        NulIsRefused(s[1..], false, Grown(word, [s[0]]));
      }
    }
  }

  lemma {:induction false} EscapeKeepsNul(p: string)
    requires '\0' in p
    ensures '\0' in Escape(p)
  {
    assert p == [p[0]] + p[1..];
    if p[0] != '\0' { EscapeKeepsNul(p[1..]); }
  }

  lemma {:induction false} FragmentHolds(paths: seq<string>, p: string)
    requires p in paths && '\0' in p
    ensures '\0' in Fragment(paths)
  {
    assert paths == [paths[0]] + paths[1..];
    if p == paths[0] {
      EscapeKeepsNul(p);
    } else {
      FragmentHolds(paths[1..], p);
    }
  }

  lemma NoNul(userPaths: seq<string>)
    requires forall p | p in userPaths :: '\0' !in p
    ensures forall p | p in ALWAYS_EXCLUDED + userPaths :: '\0' !in p
  {
  }

  /** The shell reads a fragment back as its flags and paths exactly when no path holds a NUL. */
  lemma ShellReadsBack(paths: seq<string>)
    ensures Tokens(Fragment(paths)) == Some(Arguments(paths)) <==> forall p | p in paths :: '\0' !in p
  {
    hide Words, Fragment, Arguments;
    if forall p | p in paths :: '\0' !in p {
      FragmentIsRead(paths, None);
      assert [] + Arguments(paths) == Arguments(paths);
    } else {
      var p :| p in paths && '\0' in p;
      FragmentHolds(paths, p);
      NulIsRefused(Fragment(paths), false, None);
    }
  }

  /**
   * The shell reads the flags of the upgrade command back as one flag and one path each, in
   * order, the always-excluded paths first, exactly when no user path holds a NUL.
   */
  lemma ShellReadsFlagsBack(userPaths: seq<string>)
    ensures var all := ALWAYS_EXCLUDED + userPaths;
            Tokens(Fragment(all)) == Some(Arguments(all)) <==> forall p | p in userPaths :: '\0' !in p
  {
    hide Tokens, Fragment, Arguments;
    ShellReadsBack(ALWAYS_EXCLUDED + userPaths);
    if forall p | p in userPaths :: '\0' !in p { NoNul(userPaths); }
  }

  /** Appended to a command, the fragment leaves the command's last word as it is. */
  lemma FragmentAppends(userPaths: seq<string>, last: string)
    requires forall p | p in userPaths :: '\0' !in p
    ensures var all := ALWAYS_EXCLUDED + userPaths;
            Words(Fragment(all), false, Some(last)) == Some([last] + Arguments(all))
  {
    var all := ALWAYS_EXCLUDED + userPaths;
    NoNul(userPaths);
    FragmentIsRead(all, Some(last));
  }
}
