// The single-quote encoding of a tmux command list and its canonical parser,
// which undo each other.
module TmuxWords {
  import opened OwnerState

  const QUOTE := '\''
  const ESCAPED_QUOTE := "'\\''"

  // ---- The encoding --------------------------------------------------------

  /** Every quote becomes: close, escaped quote, open again. */
  function Escaped(w: string): string {
    if w == "" then "" else (if w[0] == QUOTE then ESCAPED_QUOTE else [w[0]]) + Escaped(w[1..])
  }

  function Quoted(w: string): string {
    [QUOTE] + Escaped(w) + [QUOTE]
  }

  function Encode(ws: seq<string>): string {
    if ws == [] then "" else if |ws| == 1 then Quoted(ws[0]) else Quoted(ws[0]) + " " + Encode(ws[1..])
  }

  /** What the encoder accepts: at least one word, and no NUL in any. */
  predicate Encodable(ws: seq<string>) {
    ws != [] && forall i :: 0 <= i < |ws| ==> '\0' !in ws[i]
  }

  method TmuxCommandString(args: seq<string>) returns (r: Option<string>)
    ensures r == if Encodable(args) then Some(Encode(args)) else None
  {
    if |args| == 0 {
      return None;
    }
    var command := "";
    var i := |args|;
    while i > 0
      invariant 0 <= i <= |args|
      invariant command == Encode(args[i..])
      invariant forall j :: i <= j < |args| ==> '\0' !in args[j]
    {
      i := i - 1;
      if '\0' in args[i] {
        return None;
      }
      assert args[i..] == [args[i]] + args[i + 1..];
      command := if i + 1 == |args| then Quoted(args[i]) else Quoted(args[i]) + " " + command;
    }
    assert args[0..] == args;
    return Some(command);
  }

  // ---- Reading it back -----------------------------------------------------

  /** The word after an opening quote, and what follows its closing quote. */
  function ReadWord(s: string): (r: Option<(string, string)>)
    ensures r.Some? ==> |r.value.1| < |s|
  {
    if s == "" then None
    else if ESCAPED_QUOTE <= s then Prefixed([QUOTE], ReadWord(s[4..]))
    else if s[0] == QUOTE then Some(("", s[1..]))
    else Prefixed([s[0]], ReadWord(s[1..]))
  }

  function Prefixed(w: string, r: Option<(string, string)>): Option<(string, string)> {
    if r.None? then None else Some((w + r.value.0, r.value.1))
  }

  /** All words; a space after the last one is let through here. */
  function ReadWords(s: string): Option<seq<string>>
    decreases |s|
  {
    if s == "" then Some([])
    else if s[0] != QUOTE then None
    else match ReadWord(s[1..])
      case None => None
      case Some((w, rest)) =>
        if rest == "" then Some([w])
        else if rest[0] != ' ' then None
        else Following([w], ReadWords(rest[1..]))
  }

  function Following(ws: seq<string>, r: Option<seq<string>>): Option<seq<string>> {
    if r.None? then None else Some(ws + r.value)
  }

  lemma Prefixes(a: string, b: string, r: Option<(string, string)>)
    ensures Prefixed("", r) == r && Prefixed(a, Prefixed(b, r)) == Prefixed(a + b, r)
  {
    if r.Some? {
      assert "" + r.value.0 == r.value.0 && a + (b + r.value.0) == a + b + r.value.0;
    }
  }

  lemma Follows(a: seq<string>, b: seq<string>, r: Option<seq<string>>)
    ensures Following([], r) == r && Following(a, Following(b, r)) == Following(a + b, r)
  {
    if r.Some? {
      assert [] + r.value == r.value && a + (b + r.value) == a + b + r.value;
    }
  }

  // ---- Encoding, then reading ----------------------------------------------

  lemma EscapePrefix(s: string)
    ensures ESCAPED_QUOTE <= s ==> |s| >= 4 && s[0] == QUOTE && s[1] == '\\'
  {
    assert ESCAPED_QUOTE <= s ==> s[0] == ESCAPED_QUOTE[0] && s[1] == ESCAPED_QUOTE[1];
  }

  /** The escaped word is read back when what follows its closing quote does not
      look like the rest of an escaped quote. */
  lemma {:induction false} EscapedReadsBack(w: string, rest: string)
    requires rest == "" || rest[0] != '\\'
    ensures ReadWord(Escaped(w) + [QUOTE] + rest) == Some((w, rest))
  {
    var s := Escaped(w) + [QUOTE] + rest;
    if w == "" {
      assert s == [QUOTE] + rest && s[1..] == rest;
      EscapePrefix(s);
    } else {
      var tail := Escaped(w[1..]) + [QUOTE] + rest;
      EscapedReadsBack(w[1..], rest);
      if w[0] == QUOTE {
        assert s == ESCAPED_QUOTE + tail && s[4..] == tail;
        assert [QUOTE] + w[1..] == w;
      } else {
        assert s == [w[0]] + tail && s[1..] == tail && s[0] == w[0];
        EscapePrefix(s);
        assert [w[0]] + w[1..] == w;
      }
    }
  }

  lemma QuotedReadsBack(w: string, rest: string)
    requires rest == "" || rest[0] == ' '
    ensures ReadWords(Quoted(w) + rest) == if rest == "" then Some([w]) else Following([w], ReadWords(rest[1..]))
  {
    hide ReadWord, Escaped;
    var s := Quoted(w) + rest;
    assert s[1..] == Escaped(w) + [QUOTE] + rest;
    EscapedReadsBack(w, rest);
  }

  lemma {:induction false} EncodedReadsBack(ws: seq<string>)
    requires ws != []
    ensures ReadWords(Encode(ws)) == Some(ws)
  {
    hide ReadWords, ReadWord, Quoted;
    if |ws| == 1 {
      QuotedReadsBack(ws[0], "");
      assert Quoted(ws[0]) + "" == Quoted(ws[0]) && ws == [ws[0]];
    } else {
      var rest := " " + Encode(ws[1..]);
      QuotedReadsBack(ws[0], rest);
      EncodedReadsBack(ws[1..]);
      assert rest[1..] == Encode(ws[1..]) && Quoted(ws[0]) + rest == Encode(ws);
      assert [ws[0]] + ws[1..] == ws;
    }
  }

  /** No two word lists have one encoding. */
  lemma EncodingIsInjective(ws: seq<string>, vs: seq<string>)
    requires ws != [] && vs != [] && Encode(ws) == Encode(vs)
    ensures ws == vs
  {
    EncodedReadsBack(ws);
    EncodedReadsBack(vs);
  }

  /** Characters that are no quote are taken into the word one by one. */
  lemma {:induction false} PlainIsRead(s: string, i: nat)
    requires i <= |s| && QUOTE !in s[..i]
    ensures ReadWord(s) == Prefixed(s[..i], ReadWord(s[i..]))
  {
    Prefixes("", "", ReadWord(s));
    if i == 0 {
      assert s[0..] == s;
    } else {
      assert s[0] == s[..i][0];
      EscapePrefix(s);
      assert QUOTE !in s[1..][..i - 1] by {
        assert s[1..][..i - 1] == s[..i][1..];
      }
      PlainIsRead(s[1..], i - 1);
      assert s[1..][i - 1..] == s[i..];
      assert [s[0]] + s[1..][..i - 1] == s[..i];
      Prefixes([s[0]], s[1..][..i - 1], ReadWord(s[i..]));
    }
  }

  method IndexByte(s: string, c: char) returns (index: int)
    ensures index == -1 ==> c !in s
    ensures index != -1 ==> 0 <= index < |s| && s[index] == c && c !in s[..index]
  {
    index := 0;
    while index < |s|
      invariant 0 <= index <= |s| && c !in s[..index]
    {
      if s[index] == c {
        return;
      }
      index := index + 1;
    }
    assert s[..index] == s;
    index := -1;
  }

  lemma UnquotedHasNoWord(s: string)
    requires QUOTE !in s
    ensures ReadWord(s).None?
  {
    assert s[..|s|] == s && s[|s|..] == "";
    PlainIsRead(s, |s|);
  }

  /** The parser: two nested loops over the text that is left, and a final
      comparison with the encoding of what was read. */
  method ParseCanonicalTmuxWords(original: string) returns (words: seq<string>, ok: bool)
    ensures ok <==> exists ws :: Encodable(ws) && Encode(ws) == original
    ensures ok ==> Encodable(words) && Encode(words) == original
    ensures forall ws :: Encodable(ws) && Encode(ws) == original ==> words == ws
  {
    hide ReadWord, Escaped, Encode, Encodable, Following, Prefixed;
    var command := original;
    words := [];
    Follows([], [], ReadWords(original));
    while |command| > 0
      invariant ReadWords(original) == Following(words, ReadWords(command))
      decreases |command|
    {
      if command[0] != QUOTE {
        NotRead(original, words, command);
        return [], false;
      }
      ghost var whole := command;
      command := command[1..];
      var word := "";
      var closed := false;
      Prefixes("", "", ReadWord(command));
      while !closed
        invariant |command| < |whole|
        invariant if closed then ReadWord(whole[1..]) == Some((word, command)) else ReadWord(whole[1..]) == Prefixed(word, ReadWord(command))
        decreases |command|, !closed
      {
        var index := IndexByte(command, QUOTE);
        if index < 0 {
          UnquotedHasNoWord(command);
          NotClosed(original, words, whole, word);
          return [], false;
        }
        SegmentIsRead(word, command, index);
        word := word + command[..index];
        command := command[index..];
        if ESCAPED_QUOTE <= command {
          word := word + [QUOTE];
          command := command[4..];
        } else {
          command := command[1..];
          closed := true;
        }
      }
      Follows(words, [word], if command == "" then Some([]) else ReadWords(command[1..]));
      ghost var before := words;
      words := words + [word];
      if command == "" {
        assert ReadWords(whole) == Some([word]);
        LastWord(before, word);
        break;
      }
      if command[0] != ' ' {
        NotRead(original, before, whole);
        return [], false;
      }
      command := command[1..];
    }
    assert command == "" && ReadWords(original) == Some(words) by {
      LastWord(words, "");
    }
    var canonical := TmuxCommandString(words);
    ok := canonical == Some(original);
    forall ws | Encodable(ws) && Encode(ws) == original ensures words == ws && ok {
      EncodableIsNonempty(ws);
      EncodedReadsBack(ws);
    }
  }

  lemma EncodableIsNonempty(ws: seq<string>)
    requires Encodable(ws)
    ensures ws != []
  {
  }

  lemma LastWord(words: seq<string>, word: string)
    ensures Following(words, Some([])) == Some(words) && Following(words, Some([word])) == Some(words + [word])
    ensures ReadWords("") == Some([])
  {
    assert words + [] == words;
  }

  lemma NotRead(s: string, words: seq<string>, command: string)
    requires ReadWords(s) == Following(words, ReadWords(command)) && ReadWords(command).None?
    ensures forall ws :: Encodable(ws) ==> Encode(ws) != s
  {
    NothingEncodesTo(s);
  }

  lemma NotClosed(s: string, words: seq<string>, whole: string, word: string)
    requires ReadWords(s) == Following(words, ReadWords(whole)) && whole != "" && whole[0] == QUOTE
    requires ReadWord(whole[1..]) == Prefixed(word, None)
    ensures forall ws :: Encodable(ws) ==> Encode(ws) != s
  {
    NothingEncodesTo(s);
  }

  /** Taking the text up to the next quote into the word, then the quote. */
  lemma SegmentIsRead(word: string, command: string, index: nat)
    requires index < |command| && command[index] == QUOTE && QUOTE !in command[..index]
    ensures var left := command[index..];
      Prefixed(word, ReadWord(command)) ==
        if ESCAPED_QUOTE <= left then Prefixed(word + command[..index] + [QUOTE], ReadWord(left[4..]))
        else Some((word + command[..index], left[1..]))
  {
    PlainIsRead(command, index);
    var left := command[index..];
    Prefixes(word, command[..index], ReadWord(left));
    if ESCAPED_QUOTE <= left {
      Prefixes(word + command[..index], [QUOTE], ReadWord(left[4..]));
    } else {
      assert word + command[..index] + "" == word + command[..index];
    }
  }

  lemma NothingEncodesTo(s: string)
    requires ReadWords(s).None?
    ensures forall ws :: Encodable(ws) ==> Encode(ws) != s
  {
    forall ws | Encodable(ws) ensures Encode(ws) != s {
      EncodedReadsBack(ws);
    }
  }

  /** A trailing space is refused, whatever comes before it. */
  lemma TrailingSpaceIsRefused(s: string, ws: seq<string>)
    requires Encodable(ws)
    ensures Encode(ws) != s + " "
  {
    EndsInQuote(ws);
    var spaced := s + " ";
    assert spaced[|spaced| - 1] == ' ';
  }

  lemma {:induction false} EndsInQuote(ws: seq<string>)
    requires ws != []
    ensures Encode(ws) != "" && Encode(ws)[|Encode(ws)| - 1] == QUOTE
  {
    if |ws| > 1 {
      EndsInQuote(ws[1..]);
    }
  }
}
