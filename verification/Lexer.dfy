/** strtok with DELIM, and the tokens parsing_input tells apart. */
module Lexer {

  const END_LINE := "\\n"
  const PIPE := "|"
  const REDIRECT := ">"
  const DELIM := ' '

  datatype Token = Pipe | Redirect | Word(text: string)

  predicate Plain(s: string) { s != "" && DELIM !in s }

  /** Where the next delimiter is. */
  function Upto(line: string): (k: nat)
    ensures k <= |line| && DELIM !in line[..k]
    ensures k == |line| || line[k] == DELIM
  {
    if line == "" || line[0] == DELIM then 0 else 1 + Upto(line[1..])
  }

  /** The pieces strtok returns one after the other. */
  function Split(line: string): (pieces: seq<string>)
    ensures forall s :: s in pieces ==> Plain(s)
    decreases |line|
  {
    if line == "" then []
    else if line[0] == DELIM then Split(line[1..])
    else [line[..Upto(line)]] + Split(line[Upto(line)..])
  }

  /** strcmp with PIPE and with REDIRECT */
  function Classify(s: string): Token {
    if s == PIPE then Pipe else if s == REDIRECT then Redirect else Word(s)
  }

  function Tokens(line: string): seq<Token> {
    var pieces := Split(line);
    seq(|pieces|, i requires 0 <= i < |pieces| => Classify(pieces[i]))
  }

  function Text(t: Token): string {
    match t
    case Pipe => PIPE
    case Redirect => REDIRECT
    case Word(s) => s
  }

  /** The tokens written out with a delimiter after each. */
  function Line(ts: seq<Token>): string {
    if ts == [] then "" else Text(ts[0]) + [DELIM] + Line(ts[1..])
  }

  predicate Writable(t: Token) { t.Word? ==> Plain(t.text) && t.text != PIPE && t.text != REDIRECT }

  lemma {:induction false} UptoIs(line: string, k: nat)
    requires k < |line| && line[k] == DELIM && DELIM !in line[..k]
    ensures Upto(line) == k
  {
    if k > 0 {
      assert line[0] in line[..k];
      assert line[1..][..k - 1] == line[..k][1..];
      UptoIs(line[1..], k - 1);
    }
  }

  /** What follows a delimiter does not matter for where the first one is. */
  lemma UptoEnd(a: string, b: string)
    ensures Upto(a + [DELIM] + b) == Upto(a)
  {
    var k, line := Upto(a), a + [DELIM] + b;
    assert line[..k] == a[..k];
    UptoIs(line, k);
  }

  /** Cutting at any delimiter, and cutting the two halves, is the same. */
  lemma {:induction false} SplitAtDelimiter(a: string, b: string)
    ensures Split(a + [DELIM] + b) == Split(a) + Split(b)
    decreases |a|
  {
    var line := a + [DELIM] + b;
    if a == "" {
      assert line[1..] == b;
    } else if a[0] == DELIM {
      assert line[1..] == a[1..] + [DELIM] + b;
      SplitAtDelimiter(a[1..], b);
    } else {
      var k := Upto(a);
      UptoEnd(a, b);
      assert line[..k] == a[..k] && line[k..] == a[k..] + [DELIM] + b;
      SplitAtDelimiter(a[k..], b);
      assert [a[..k]] + (Split(a[k..]) + Split(b)) == [a[..k]] + Split(a[k..]) + Split(b);
    }
  }

  lemma {:induction false} UptoAll(w: string)
    requires DELIM !in w
    ensures Upto(w) == |w|
  {
    if w != "" {
      assert w[0] in w;
      UptoAll(w[1..]);
    }
  }

  /** A line without delimiters is one piece, to its end; an empty one is none. */
  lemma SplitWord(w: string)
    requires DELIM !in w
    ensures Split(w) == if w == "" then [] else [w]
  {
    if w != "" {
      assert w[0] in w;
      UptoAll(w);
      assert w[..|w|] == w && w[|w|..] == "";
    }
  }

  /** Two words as they are typed. */
  lemma SplitTwo(v: string, w: string)
    requires Plain(v) && Plain(w)
    ensures Split(v + [DELIM] + w) == [v, w]
  {
    SplitAtDelimiter(v, w);
    SplitWord(v);
    SplitWord(w);
  }

  lemma {:induction false} SplitLine(ts: seq<Token>)
    requires forall t :: t in ts ==> Writable(t)
    ensures |Split(Line(ts))| == |ts|
    ensures forall i :: 0 <= i < |ts| ==> Split(Line(ts))[i] == Text(ts[i])
  {
    if ts != [] {
      var w, rest := Text(ts[0]), Line(ts[1..]);
      assert Writable(ts[0]);
      SplitLine(ts[1..]);
      var line := Line(ts);
      assert line == w + [DELIM] + rest;
      assert line[..|w|] == w && line[|w|] == DELIM;
      UptoIs(line, |w|);
      assert w[0] in w && line[0] == w[0];
      var after := line[|w|..];
      assert after[0] == DELIM && after[1..] == rest;
      assert Split(line) == [w] + Split(rest);
    }
  }

  /** Reading a line gives back the tokens it was written from. */
  lemma TokensOfLine(ts: seq<Token>)
    requires forall t :: t in ts ==> Writable(t)
    ensures Tokens(Line(ts)) == ts
  {
    SplitLine(ts);
    forall i | 0 <= i < |ts| ensures Tokens(Line(ts))[i] == ts[i] {
      assert ts[i] in ts;
    }
  }

  /** The tokens as they are typed: a delimiter between two, none after the last. */
  function Typed(ts: seq<Token>): string {
    if ts == [] then ""
    else if |ts| == 1 then Text(ts[0])
    else Text(ts[0]) + [DELIM] + Typed(ts[1..])
  }

  lemma {:induction false} SplitTyped(ts: seq<Token>)
    requires forall t :: t in ts ==> Writable(t)
    ensures Split(Typed(ts)) == Split(Line(ts))
  {
    if ts != [] {
      var w := Text(ts[0]);
      assert Writable(ts[0]);
      SplitWord(w);
      SplitAtDelimiter(w, Line(ts[1..]));
      if |ts| > 1 {
        SplitTyped(ts[1..]);
        SplitAtDelimiter(w, Typed(ts[1..]));
      } else {
        assert [w] + [] == [w];
      }
    }
  }

  /** And from a line as it is typed. */
  lemma TokensOfTyped(ts: seq<Token>)
    requires forall t :: t in ts ==> Writable(t)
    ensures Tokens(Typed(ts)) == ts
  {
    SplitTyped(ts);
    TokensOfLine(ts);
  }
}
