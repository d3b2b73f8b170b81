/** A `class` attribute as the DOM reads it (an element's `classList`: the attribute split on
    ASCII whitespace) and the space join by which the classnames utility builds one. The
    checkbox's tests inspect the rendered root through `classList.contains`, so the lemmas here
    say what reading back a joined class string yields. */
module ClassList {

  /** ASCII whitespace: tab, line feed, form feed, carriage return and space. */
  predicate IsSpace(c: char) {
    c == ' ' || c == '\t' || c == '\n' || c == '\U{C}' || c == '\r'
  }

  /** A single class token: non-empty and free of whitespace. */
  predicate IsToken(w: string) {
    w != [] && forall i :: 0 <= i < |w| ==> !IsSpace(w[i])
  }

  /** The length of the run of non-space characters at the front of `s`. */
  function TokenLength(s: string): (n: nat)
    ensures n <= |s|
    ensures forall i :: 0 <= i < n ==> !IsSpace(s[i])
    ensures n < |s| ==> IsSpace(s[n])
  {
    if s == [] || IsSpace(s[0]) then 0 else 1 + TokenLength(s[1..])
  }

  /** The tokens of a class attribute, in order, duplicates kept. */
  function Words(s: string): (ws: seq<string>)
    ensures forall i :: 0 <= i < |ws| ==> IsToken(ws[i])
    decreases |s|
  {
    if s == [] then []
    else if IsSpace(s[0]) then Words(s[1..])
    else
      var n := TokenLength(s);
      [s[..n]] + Words(s[n..])
  }

  /** The strings joined with one space between neighbours. */
  function Join(ts: seq<string>): string {
    if |ts| == 0 then ""
    else if |ts| == 1 then ts[0]
    else ts[0] + " " + Join(ts[1..])
  }

  /** The tokens of each string in turn. */
  function WordsOfAll(ts: seq<string>): seq<string> {
    if ts == [] then [] else Words(ts[0]) + WordsOfAll(ts[1..])
  }

  /** The three properties in TokenLength's contract determine it. */
  lemma {:induction false} TokenLengthIs(s: string, n: nat)
    requires n <= |s|
    requires forall i :: 0 <= i < n ==> !IsSpace(s[i])
    requires n < |s| ==> IsSpace(s[n])
    ensures TokenLength(s) == n
  {
    if n > 0 {
      TokenLengthIs(s[1..], n - 1);
    }
  }

  /** A single token reads back as itself. */
  lemma WordsOfToken(w: string)
    requires IsToken(w)
    ensures Words(w) == [w]
  {
    TokenLengthIs(w, |w|);
    assert w[..|w|] == w;
    assert w[|w|..] == [];
  }

  /** A space separates the tokens on its left from those on its right, whatever either side holds. */
  lemma {:induction false} WordsAroundSpace(a: string, b: string)
    ensures Words(a + " " + b) == Words(a) + Words(b)
    decreases |a|
  {
    var s := a + " " + b;
    if a == [] {
      assert s[1..] == b;
    } else if IsSpace(a[0]) {
      assert s[1..] == a[1..] + " " + b;
      WordsAroundSpace(a[1..], b);
    } else {
      var m := TokenLength(a);
      TokenLengthIs(s, m);
      assert s[..m] == a[..m];
      assert s[m..] == a[m..] + " " + b;
      WordsAroundSpace(a[m..], b);
    }
  }

  /** Reading back a joined string yields the tokens of each part, in order. */
  lemma {:induction false} WordsOfJoin(ts: seq<string>)
    ensures Words(Join(ts)) == WordsOfAll(ts)
  {
    if |ts| == 0 {
    } else if |ts| == 1 {
      assert WordsOfAll(ts) == Words(ts[0]) + WordsOfAll([]);
    } else {
      WordsAroundSpace(ts[0], Join(ts[1..]));
      WordsOfJoin(ts[1..]);
    }
  }

  /** Joining tokens and reading them back is the identity. */
  lemma {:induction false} JoinRoundTrip(ts: seq<string>)
    requires forall i :: 0 <= i < |ts| ==> IsToken(ts[i])
    ensures Words(Join(ts)) == ts
  {
    WordsOfJoin(ts);
    WordsOfAllTokens(ts);
  }

  lemma {:induction false} WordsOfAllTokens(ts: seq<string>)
    requires forall i :: 0 <= i < |ts| ==> IsToken(ts[i])
    ensures WordsOfAll(ts) == ts
  {
    if ts != [] {
      WordsOfToken(ts[0]);
      WordsOfAllTokens(ts[1..]);
    }
  }
}
