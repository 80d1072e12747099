/** The pending-input line of the main loop and the routing of a submitted
    line: slash commands are split on whitespace, everything else (the empty
    line included) is a chat turn. */
module Editor {
  import opened Text

  /** The keys with a meaning of their own; any other key is typed. */
  const EnterKey: string := "\n"
  const BackspaceKey: string := "\U{0008}"

  /** `input_text[:-1]`: the last character goes; an empty line stays empty. */
  function Backspace(buf: string): (r: string)
    ensures buf == [] ==> r == []
    ensures buf != [] ==> r + [buf[|buf| - 1]] == buf
  {
    if buf == [] then [] else buf[..|buf| - 1]
  }

  /** The text of the input label for a pending line. */
  function Prompt(buf: string): string {
    "> " + buf
  }

  /** Typing a character and erasing it restores the line. */
  lemma BackspaceUndoesKey(buf: string, c: char)
    ensures Backspace(buf + [c]) == buf
  {
    assert (buf + [c])[..|buf|] == buf;
  }

  /** `n` backspaces remove the last `n` characters, or all of them. */
  function Backspaces(buf: string, n: nat): string {
    if n == 0 then buf else Backspaces(Backspace(buf), n - 1)
  }

  lemma {:induction false} BackspacesKeepPrefix(buf: string, n: nat)
    ensures Backspaces(buf, n) == buf[..if n <= |buf| then |buf| - n else 0]
  {
    if n > 0 {
      BackspacesKeepPrefix(Backspace(buf), n - 1);
      if buf != [] {
        assert Backspace(buf)[..if n - 1 <= |buf| - 1 then |buf| - n else 0]
            == buf[..if n <= |buf| then |buf| - n else 0];
      }
    }
  }

  /** What a submitted line asks for. */
  datatype Command =
    | Chat(text: string)      // not a slash command: sent to the model
    | ListModels              // first token `models`
    | Load(name: string)      // `load` and a model name; later tokens ignored
    | LoadUsage               // `load` with no name: a usage hint, no request
    | Unknown                 // no token, or any other token

  /** The routing of a submitted line. */
  function Classify(line: string): (c: Command)
    ensures c.Chat? <==> !StartsWith(line, "/")
    ensures c.Chat? ==> c.text == line
    ensures c.Load? ==> IsWord(c.name) && |c.name| < |line|
    ensures StartsWith(line, "/") ==>
      var ws := SplitWords(line[1..]);
      && (c.ListModels? <==> ws != [] && ws[0] == "models")
      && (c.Load? <==> ws != [] && ws[0] == "load" && |ws| > 1)
      && (c.Load? ==> c.name == ws[1])
      && (c.LoadUsage? <==> ws == ["load"])
      && (c.Unknown? <==> ws == [] || (ws[0] != "models" && ws[0] != "load"))
  {
    if !StartsWith(line, "/") then Chat(line)
    else
      var command := SplitWords(line[1..]);
      if command != [] && command[0] == "models" then ListModels
      else if command != [] && command[0] == "load" then
        if |command| > 1 then
          assert |command[1]| < |line| by { SplitLength(line[1..]); }
          Load(command[1])
        else LoadUsage
      else Unknown
  }

  /** No token of `split()` is longer than the text. */
  lemma SplitLength(s: string)
    ensures forall i :: 0 <= i < |SplitWords(s)| ==> |SplitWords(s)[i]| <= |s|
  {
    var ws := SplitWords(s);
    forall i | 0 <= i < |ws| ensures |ws[i]| <= |s| {
      ConcatPart(ws, i);
      NonSpaceShorter(s);
    }
  }

  lemma {:induction false} ConcatPart(ws: seq<string>, i: nat)
    requires i < |ws|
    ensures |ws[i]| <= |Concat(ws)|
  {
    if i > 0 {
      ConcatPart(ws[1..], i - 1);
    }
  }

  lemma {:induction false} NonSpaceShorter(s: string)
    ensures |NonSpace(s)| <= |s|
  {
    if s != [] {
      NonSpaceShorter(s[1..]);
    }
  }

  /** The empty line does not start with `/`, so it is a chat turn. */
  lemma EmptyLineIsChat()
    ensures Classify("") == Chat("")
  {
  }

  /** A slash followed only by blanks has no token. */
  lemma BareSlashUnknown(sp: string)
    requires AllSpace(sp)
    ensures Classify("/" + sp) == Unknown
  {
    assert ("/" + sp)[1..] == sp;
    SplitWordsEmptyIff(sp);
  }

  lemma LoadTokens(sp1: string, sp2: string, name: string, rest: string)
    requires AllSpace(sp1) && AllSpace(sp2) && sp2 != []
    requires IsWord(name)
    requires rest == [] || IsSpace(rest[0])
    ensures var ws := SplitWords(sp1 + ("load" + (sp2 + (name + rest))));
      |ws| > 1 && ws[0] == "load" && ws[1] == name
  {
    assert IsWord("load");
    SplitWordFirst(name, rest);
    SplitSkipsSpace(sp2, name + rest);
    SplitWordFirst("load", sp2 + (name + rest));
    SplitSkipsSpace(sp1, "load" + (sp2 + (name + rest)));
  }

  /** `/load <name> ...` loads `name`, whatever follows it. */
  lemma LoadTakesSecondToken(sp1: string, sp2: string, name: string, rest: string)
    requires AllSpace(sp1) && AllSpace(sp2) && sp2 != []
    requires IsWord(name)
    requires rest == [] || IsSpace(rest[0])
    ensures Classify("/" + sp1 + "load" + sp2 + name + rest) == Load(name)
  {
    var line := "/" + sp1 + "load" + sp2 + name + rest;
    var t := sp1 + ("load" + (sp2 + (name + rest)));
    assert line == "/" + t;
    assert line[1..] == t;
    assert StartsWith(line, "/");
    LoadTokens(sp1, sp2, name, rest);
  }

  /** `/load` without a name asks for one and sends nothing. */
  lemma LoadWithoutName(sp1: string, sp2: string)
    requires AllSpace(sp1) && AllSpace(sp2)
    ensures Classify("/" + sp1 + "load" + sp2) == LoadUsage
  {
    var line := "/" + sp1 + "load" + sp2;
    assert line[1..] == sp1 + ("load" + sp2);
    assert IsWord("load");
    SplitSkipsSpace(sp1, "load" + sp2);
    SplitWordFirst("load", sp2);
    SplitWordsEmptyIff(sp2);
  }

  /** `/models` lists the models, whatever follows it. */
  lemma ModelsIgnoresRest(sp: string, rest: string)
    requires AllSpace(sp)
    requires rest == [] || IsSpace(rest[0])
    ensures Classify("/" + sp + "models" + rest) == ListModels
  {
    var line := "/" + sp + "models" + rest;
    assert line[1..] == sp + ("models" + rest);
    assert IsWord("models");
    SplitSkipsSpace(sp, "models" + rest);
    SplitWordFirst("models", rest);
  }

  /** A slash line whose first token is neither `models` nor `load` is an
      unknown command. */
  lemma OtherTokenUnknown(sp: string, w: string, rest: string)
    requires AllSpace(sp)
    requires IsWord(w) && w != "models" && w != "load"
    requires rest == [] || IsSpace(rest[0])
    ensures Classify("/" + sp + w + rest) == Unknown
  {
    var line := "/" + sp + w + rest;
    assert line[1..] == sp + (w + rest);
    SplitSkipsSpace(sp, w + rest);
    SplitWordFirst(w, rest);
  }
}
