/**
 * `str.split()` with no separator: the maximal runs of non-whitespace
 * characters, in order; leading, trailing and repeated whitespace produce
 * no empty tokens.
 */
module Tokens {

  /** The characters Python's `str.split()` treats as whitespace. */
  predicate IsSpace(c: char)
  {
    || c == ' ' || ('\t' <= c <= '\r') || ('\U{1C}' <= c <= '\U{1F}')
    || c == '\U{85}' || c == '\U{A0}' || c == '\U{1680}' || ('\U{2000}' <= c <= '\U{200A}')
    || c == '\U{2028}' || c == '\U{2029}' || c == '\U{202F}' || c == '\U{205F}' || c == '\U{3000}'
  }

  /** A token: non-empty and free of whitespace. */
  predicate IsWord(t: string)
  {
    t != [] && forall i :: 0 <= i < |t| ==> !IsSpace(t[i])
  }

  /** Split `s`, where `word` holds the characters of the token being read. */
  function SplitFrom(s: string, word: string): seq<string>
    decreases |s|
  {
    if s == [] then
      (if word == [] then [] else [word])
    else if IsSpace(s[0]) then
      (if word == [] then [] else [word]) + SplitFrom(s[1..], [])
    else
      SplitFrom(s[1..], word + [s[0]])
  }

  /** `line.split()`. */
  function Split(line: string): seq<string>
  {
    SplitFrom(line, [])
  }

  /** Every token is non-empty and free of whitespace. */
  lemma {:induction false} SplitFromYieldsWords(s: string, word: string)
    requires word == [] || IsWord(word)
    ensures forall k :: 0 <= k < |SplitFrom(s, word)| ==> IsWord(SplitFrom(s, word)[k])
    decreases |s|
  {
    if s != [] {
      if IsSpace(s[0]) {
        SplitFromYieldsWords(s[1..], []);
      } else {
        SplitFromYieldsWords(s[1..], word + [s[0]]);
      }
    }
  }

  lemma SplitYieldsWords(line: string)
    ensures forall k :: 0 <= k < |Split(line)| ==> IsWord(Split(line)[k])
  {
    SplitFromYieldsWords(line, []);
  }

  /** Tokens joined with single spaces. */
  function Join(tokens: seq<string>): string
  {
    if tokens == [] then []
    else if |tokens| == 1 then tokens[0]
    else tokens[0] + " " + Join(tokens[1..])
  }

  /** Reading a space-free run only extends the current token. */
  lemma {:induction false} SplitWord(t: string, rest: string, word: string)
    requires word == [] || IsWord(word)
    requires forall i :: 0 <= i < |t| ==> !IsSpace(t[i])
    ensures word + t == [] || IsWord(word + t)
    ensures SplitFrom(t + rest, word) == SplitFrom(rest, word + t)
    decreases |t|
  {
    if t == [] {
      assert t + rest == rest && word + t == word;
    } else {
      assert (t + rest)[0] == t[0] && (t + rest)[1..] == t[1..] + rest;
      assert word + t == (word + [t[0]]) + t[1..];
      SplitWord(t[1..], rest, word + [t[0]]);
    }
  }

  /** Splitting undoes joining: `" ".join(ts).split() == ts` for whitespace-free tokens. */
  lemma {:induction false} SplitJoin(tokens: seq<string>)
    requires forall k :: 0 <= k < |tokens| ==> IsWord(tokens[k])
    ensures Split(Join(tokens)) == tokens
    decreases |tokens|
  {
    if tokens == [] {
    } else if |tokens| == 1 {
      SplitWord(tokens[0], [], []);
      assert tokens[0] + [] == tokens[0] && [] + tokens[0] == tokens[0];
    } else {
      var t := tokens[0];
      var rest := Join(tokens[1..]);
      assert Join(tokens) == t + (" " + rest);
      SplitWord(t, " " + rest, []);
      assert [] + t == t;
      assert (" " + rest)[0] == ' ' && (" " + rest)[1..] == rest;
      assert SplitFrom(" " + rest, t) == [t] + SplitFrom(rest, []);
      SplitJoin(tokens[1..]);
      assert [t] + tokens[1..] == tokens;
    }
  }

  /** A leading whitespace character of any kind does not change the tokens. */
  lemma SplitIgnoresPadding(c: char, line: string)
    requires IsSpace(c)
    ensures Split([c] + line) == Split(line)
  {
    assert ([c] + line)[1..] == line;
  }

  /** Nor does a leading run of whitespace, however long. */
  lemma {:induction false} SplitIgnoresLeadingWhitespace(pad: string, line: string)
    requires forall k :: 0 <= k < |pad| ==> IsSpace(pad[k])
    ensures Split(pad + line) == Split(line)
    decreases |pad|
  {
    if pad != [] {
      SplitIgnoresLeadingWhitespace(pad[1..], line);
      assert pad + line == [pad[0]] + (pad[1..] + line);
      SplitIgnoresPadding(pad[0], pad[1..] + line);
    } else {
      assert pad + line == line;
    }
  }
}
