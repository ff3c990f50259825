/** How a shell splits a command line into words: runs of spaces separate
    words, and a double-quoted span belongs to the word it stands in, without
    its quotes. Backslash escapes are not interpreted. This is the reading
    against which the handler's two spawned command lines are checked. */
module ShellWords {
  import opened Wrappers

  /** A word that needs no quoting: no space and no double quote. */
  predicate Plain(w: string) {
    forall i :: 0 <= i < |w| ==> w[i] != ' ' && w[i] != '"'
  }

  function Flush(word: Option<string>): seq<string> {
    if word.Some? then [word.value] else []
  }

  /** Scans `s`; `word` is the word under construction (None between words),
      `quoted` says whether a double quote is open. */
  function Scan(s: string, word: Option<string>, quoted: bool): seq<string>
    decreases |s|
  {
    if s == [] then Flush(word)
    else if quoted then
      if s[0] == '"' then Scan(s[1..], word, false)
      else Scan(s[1..], Some(word.GetOr("") + [s[0]]), true)
    else if s[0] == ' ' then Flush(word) + Scan(s[1..], None, false)
    else if s[0] == '"' then Scan(s[1..], Some(word.GetOr("")), true)
    else Scan(s[1..], Some(word.GetOr("") + [s[0]]), false)
  }

  /** The words of the command line `s`. */
  function Words(s: string): seq<string> {
    Scan(s, None, false)
  }

  lemma {:induction false} ScanPlain(w: string, rest: string, word: Option<string>)
    requires Plain(w)
    ensures Scan(w + rest, word, false)
         == Scan(rest, if w == [] then word else Some(word.GetOr("") + w), false)
    decreases |w|
  {
    if w != [] {
      var s := w + rest;
      assert s[0] == w[0] && s[1..] == w[1..] + rest;
      assert w[0] != ' ' && w[0] != '"';
      var word' := Some(word.GetOr("") + [w[0]]);
      assert Plain(w[1..]) by {
        forall i | 0 <= i < |w[1..]| ensures w[1..][i] != ' ' && w[1..][i] != '"' {
          assert w[1..][i] == w[i + 1];
        }
      }
      ScanPlain(w[1..], rest, word');
      assert word'.GetOr("") + w[1..] == word.GetOr("") + w;
      assert w[1..] == [] ==> w == [w[0]];
    } else {
      assert w + rest == rest;
    }
  }

  lemma {:induction false} ScanQuoted(t: string, rest: string, word: Option<string>)
    requires '"' !in t && word.Some?
    ensures Scan(t + ['"'] + rest, word, true) == Scan(rest, Some(word.GetOr("") + t), false)
    decreases |t|
  {
    var s := t + ['"'] + rest;
    if t == [] {
      assert s[0] == '"' && s[1..] == rest;
      assert word.GetOr("") + t == word.value;
    } else {
      assert s[0] == t[0] && s[1..] == t[1..] + ['"'] + rest;
      assert '"' !in t[1..] by {
        forall i | 0 <= i < |t[1..]| ensures t[1..][i] != '"' { assert t[1..][i] == t[i + 1]; }
      }
      ScanQuoted(t[1..], rest, Some(word.GetOr("") + [t[0]]));
      assert word.GetOr("") + [t[0]] + t[1..] == word.GetOr("") + t;
    }
  }

  /** A plain word followed by a space is the first word. */
  lemma WordsPlainSpace(w: string, rest: string)
    requires Plain(w) && w != ""
    ensures Words(w + " " + rest) == [w] + Words(rest)
  {
    ScanPlain(w, " " + rest, None);
    assert w + " " + rest == w + (" " + rest);
    assert "" + w == w;
    var s := " " + rest;
    assert s[0] == ' ' && s[1..] == rest;
  }

  /** A double-quoted span followed by a space is one word, without its quotes,
      whatever spaces it holds. */
  lemma WordsQuotedSpace(t: string, rest: string)
    requires '"' !in t
    ensures Words("\"" + t + "\" " + rest) == [t] + Words(rest)
  {
    var s := "\"" + t + "\" " + rest;
    assert s[0] == '"' && s[1..] == t + ['"'] + (" " + rest);
    ScanQuoted(t, " " + rest, Some(""));
    var r := " " + rest;
    assert r[0] == ' ' && r[1..] == rest;
    assert "" + t == t;
  }

  /** A plain word alone is one word. */
  lemma WordsPlain(w: string)
    requires Plain(w) && w != ""
    ensures Words(w) == [w]
  {
    ScanPlain(w, "", None);
    assert w + "" == w && "" + w == w;
  }

  /** Spaces before the first word are ignored. */
  lemma WordsSpace(rest: string)
    ensures Words(" " + rest) == Words(rest)
  {
    var s := " " + rest;
    assert s[0] == ' ' && s[1..] == rest;
  }
}
