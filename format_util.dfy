/** String helpers: whitespace normalisation and home-directory paths.
    Whitespace is the ASCII whitespace `str.split()` recognises. */
module FormatUtil {
  import opened Py

  /** Space, tab, newline, vertical tab, form feed, carriage return and the
      four ASCII separators 0x1c..0x1f. */
  predicate IsSpace(c: char) {
    c == ' ' || '\t' <= c <= '\r' || '\U{1c}' <= c <= '\U{1f}'
  }

  predicate NoSpace(w: string) {
    forall i :: 0 <= i < |w| ==> !IsSpace(w[i])
  }

  /** A word: a non-empty run of non-whitespace characters. */
  predicate IsWord(w: string) {
    |w| > 0 && NoSpace(w)
  }

  /** The length of the leading whitespace run. */
  function SpaceRun(s: string): (n: nat)
    ensures n <= |s|
    ensures forall i :: 0 <= i < n ==> IsSpace(s[i])
    ensures n < |s| ==> !IsSpace(s[n])
  {
    if s == [] || !IsSpace(s[0]) then 0 else 1 + SpaceRun(s[1..])
  }

  /** The length of the leading non-whitespace run. */
  function WordRun(s: string): (n: nat)
    ensures n <= |s|
    ensures forall i :: 0 <= i < n ==> !IsSpace(s[i])
    ensures n < |s| ==> IsSpace(s[n])
  {
    if s == [] || IsSpace(s[0]) then 0 else 1 + WordRun(s[1..])
  }

  /** `s.split()`: the maximal runs of non-whitespace characters, in order. */
  function Words(s: string): (ws: seq<string>)
    ensures forall i :: 0 <= i < |ws| ==> IsWord(ws[i])
    decreases |s|
  {
    var t := s[SpaceRun(s)..];
    if t == [] then []
    else
      var n := WordRun(t);
      [t[..n]] + Words(t[n..])
  }

  /** `strip_whitespace`: the words joined by single spaces. */
  function StripWhitespace(s: string): string {
    JoinWith(Words(s), " ")
  }

  /** The characters of `s` that are not whitespace. */
  function NonSpace(s: string): string {
    if s == [] then [] else (if IsSpace(s[0]) then [] else [s[0]]) + NonSpace(s[1..])
  }

  function Concat(ws: seq<string>): string {
    if ws == [] then [] else ws[0] + Concat(ws[1..])
  }

  lemma {:induction false} NonSpaceConcat(a: string, b: string)
    ensures NonSpace(a + b) == NonSpace(a) + NonSpace(b)
    decreases |a|
  {
    if a == [] {
      assert a + b == b;
    } else {
      var head := if IsSpace(a[0]) then [] else [a[0]];
      assert (a + b)[0] == a[0];
      assert (a + b)[1..] == a[1..] + b;
      NonSpaceConcat(a[1..], b);
      assert NonSpace(a + b) == head + NonSpace(a[1..] + b);
      assert NonSpace(a) == head + NonSpace(a[1..]);
    }
  }

  lemma {:induction false} NonSpaceOfSpaces(s: string)
    requires forall i :: 0 <= i < |s| ==> IsSpace(s[i])
    ensures NonSpace(s) == []
    decreases |s|
  {
    if s != [] { NonSpaceOfSpaces(s[1..]); }
  }

  lemma {:induction false} NonSpaceOfWord(s: string)
    requires NoSpace(s)
    ensures NonSpace(s) == s
    decreases |s|
  {
    if s != [] { NonSpaceOfWord(s[1..]); }
  }

  /** The words hold exactly the non-whitespace characters of `s`, in order:
      splitting loses nothing but whitespace. */
  lemma {:induction false} WordsKeepCharacters(s: string)
    ensures Concat(Words(s)) == NonSpace(s)
    decreases |s|
  {
    var k := SpaceRun(s);
    var t := s[k..];
    assert s == s[..k] + t;
    NonSpaceConcat(s[..k], t);
    NonSpaceOfSpaces(s[..k]);
    if t != [] {
      var n := WordRun(t);
      var w, rest := t[..n], t[n..];
      assert Words(s) == [w] + Words(rest);
      assert t == w + rest;
      NonSpaceConcat(w, rest);
      NonSpaceOfWord(w);
      WordsKeepCharacters(rest);
      ConcatCons(w, Words(rest));
    }
  }

  lemma ConcatCons(w: string, ws: seq<string>)
    ensures Concat([w] + ws) == w + Concat(ws)
  {
    assert ([w] + ws)[1..] == ws;
  }

  /** Splitting a word followed by whitespace and more text. */
  lemma WordsOfWordThen(w: string, rest: string)
    requires IsWord(w)
    requires rest == [] || IsSpace(rest[0])
    ensures Words(w + rest) == [w] + Words(rest)
  {
    var s := w + rest;
    assert SpaceRun(s) == 0;
    assert s[0..] == s;
    WordRunOf(w, rest);
    assert s[..|w|] == w && s[|w|..] == rest;
  }

  lemma {:induction false} WordRunOf(w: string, rest: string)
    requires NoSpace(w)
    requires rest == [] || IsSpace(rest[0])
    ensures WordRun(w + rest) == |w|
    decreases |w|
  {
    if w != [] {
      assert (w + rest)[1..] == w[1..] + rest;
      WordRunOf(w[1..], rest);
    } else {
      assert w + rest == rest;
    }
  }

  /** Splitting text that starts with a space skips it. */
  lemma WordsSkipSpace(s: string)
    requires s != [] && IsSpace(s[0])
    ensures Words(s) == Words(s[1..])
  {
    var k := SpaceRun(s);
    assert SpaceRun(s) == 1 + SpaceRun(s[1..]);
    assert s[k..] == s[1..][SpaceRun(s[1..])..];
  }

  /** Words joined by single spaces split back into the same words. */
  lemma {:induction false} WordsOfJoin(ws: seq<string>)
    requires forall i :: 0 <= i < |ws| ==> IsWord(ws[i])
    ensures Words(JoinWith(ws, " ")) == ws
    decreases |ws|
  {
    if |ws| == 0 {
    } else if |ws| == 1 {
      WordsOfWordThen(ws[0], []);
      assert ws[0] + [] == ws[0];
    } else {
      var rest := JoinWith(ws[1..], " ");
      assert JoinWith(ws, " ") == ws[0] + (" " + rest);
      WordsOfWordThen(ws[0], " " + rest);
      WordsSkipSpace(" " + rest);
      assert (" " + rest)[1..] == rest;
      WordsOfJoin(ws[1..]);
      assert [ws[0]] + ws[1..] == ws;
    }
  }

  /** `strip_whitespace` keeps the words exactly. */
  lemma StripKeepsWords(s: string)
    ensures Words(StripWhitespace(s)) == Words(s)
    ensures Concat(Words(StripWhitespace(s))) == NonSpace(s)
  {
    WordsOfJoin(Words(s));
    WordsKeepCharacters(s);
  }

  /** `strip_whitespace` is idempotent. */
  lemma StripIdempotent(s: string)
    ensures StripWhitespace(StripWhitespace(s)) == StripWhitespace(s)
  {
    WordsOfJoin(Words(s));
  }

  /** Words joined by single spaces: the only whitespace is `' '`, never at
      either end and never twice in a row. */
  lemma {:induction false} JoinShape(ws: seq<string>)
    requires forall i :: 0 <= i < |ws| ==> IsWord(ws[i])
    ensures var r := JoinWith(ws, " ");
      (forall i :: 0 <= i < |r| && IsSpace(r[i]) ==> r[i] == ' ') &&
      (|r| > 0 ==> !IsSpace(r[0]) && !IsSpace(r[|r| - 1])) &&
      (forall i :: 0 <= i < |r| - 1 ==> !(r[i] == ' ' && r[i + 1] == ' '))
    decreases |ws|
  {
    if |ws| > 1 {
      JoinShape(ws[1..]);
      var rest := JoinWith(ws[1..], " ");
      var r := ws[0] + " " + rest;
      assert JoinWith(ws, " ") == r;
      assert |rest| > 0 by { assert |ws[1]| > 0; JoinStartsWith(ws[1..]); }
      forall i | 0 <= i < |r| - 1 ensures !(r[i] == ' ' && r[i + 1] == ' ') {
        if i < |ws[0]| - 1 {
          assert r[i] == ws[0][i];
        } else if i == |ws[0]| - 1 {
          assert r[i] == ws[0][i];
        } else if i == |ws[0]| {
          assert r[i + 1] == rest[0];
        } else {
          assert r[i] == rest[i - |ws[0]| - 1] && r[i + 1] == rest[i - |ws[0]|];
        }
      }
      forall i | 0 <= i < |r| && IsSpace(r[i]) ensures r[i] == ' ' {
        if i > |ws[0]| {
          assert r[i] == rest[i - |ws[0]| - 1];
        }
      }
      assert r[0] == ws[0][0];
      assert r[|r| - 1] == rest[|rest| - 1];
    }
  }

  lemma JoinStartsWith(ws: seq<string>)
    requires |ws| > 0 && |ws[0]| > 0
    ensures |JoinWith(ws, " ")| > 0 && JoinWith(ws, " ")[0] == ws[0][0]
  {
  }

  /** The shape of `strip_whitespace`'s result. */
  lemma StripShape(s: string)
    ensures var r := StripWhitespace(s);
      (forall i :: 0 <= i < |r| && IsSpace(r[i]) ==> r[i] == ' ') &&
      (|r| > 0 ==> !IsSpace(r[0]) && !IsSpace(r[|r| - 1])) &&
      (forall i :: 0 <= i < |r| - 1 ==> !(r[i] == ' ' && r[i + 1] == ' '))
  {
    JoinShape(Words(s));
  }

  /** `user_path`: `None` stays `None`; a path starting with `~` is passed to
      `expand` (the operating system's home-directory expansion); any other
      path is returned unchanged. */
  function UserPath(s: Option<string>, expand: string -> string): (r: Option<string>)
    ensures r.None? <==> s.None?
    ensures s.Some? && !(|s.value| > 0 && s.value[0] == '~') ==> r == s
    ensures s.Some? && |s.value| > 0 && s.value[0] == '~' ==> r == Some(expand(s.value))
  {
    match s
    case None => None
    case Some(p) => if |p| > 0 && p[0] == '~' then Some(expand(p)) else Some(p)
  }
}
