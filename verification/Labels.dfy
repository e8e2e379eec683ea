// normalize_label: lower case, outer space removed, inner runs of space joined
// into one blank.
module Labels {
  import opened Json

  function WordLength(s: string): (n: nat)
    ensures n <= |s| && forall i :: 0 <= i < n ==> !IsSpace(s[i])
    ensures n < |s| ==> IsSpace(s[n])
  {
    if s == "" || IsSpace(s[0]) then 0 else 1 + WordLength(s[1..])
  }

  // str.split()
  function Words(s: string): seq<string>
    decreases |s|
  {
    if s == "" then []
    else if IsSpace(s[0]) then Words(s[1..])
    else [s[..WordLength(s)]] + Words(s[WordLength(s)..])
  }

  // " ".join(words)
  function Join(ws: seq<string>): string {
    if ws == [] then "" else if |ws| == 1 then ws[0] else ws[0] + " " + Join(ws[1..])
  }

  function NormalizeLabel(s: string): string {
    Join(Words(Lower(Strip(s))))
  }

  ghost predicate Word(w: string) {
    w != "" && (forall i :: 0 <= i < |w| ==> !IsSpace(w[i])) && Lower(w) == w
  }

  ghost predicate AllWords(ws: seq<string>) {
    forall i :: 0 <= i < |ws| ==> Word(ws[i])
  }

  lemma {:induction false} WordsAreWords(s: string)
    requires Lower(s) == s
    ensures AllWords(Words(s))
    decreases |s|
  {
    if s != "" {
      assert forall i :: 0 <= i < |s| ==> LowerChar(s[i]) == s[i] by {
        assert forall i :: 0 <= i < |s| ==> Lower(s)[i] == LowerChar(s[i]);
      }
      if IsSpace(s[0]) {
        assert Lower(s[1..]) == s[1..];
        WordsAreWords(s[1..]);
      } else {
        var n := WordLength(s);
        assert Lower(s[n..]) == s[n..] && Lower(s[..n]) == s[..n];
        WordsAreWords(s[n..]);
      }
    }
  }

  lemma {:induction false} FirstWord(w: string, rest: string)
    requires w != "" && forall i :: 0 <= i < |w| ==> !IsSpace(w[i])
    requires rest == "" || IsSpace(rest[0])
    ensures WordLength(w + rest) == |w|
  {
    if |w| == 1 {
      assert (w + rest)[1..] == rest;
    } else {
      FirstWord(w[1..], rest);
      assert (w + rest)[1..] == w[1..] + rest;
    }
  }

  lemma {:induction false} SplitJoin(ws: seq<string>)
    requires AllWords(ws)
    ensures Words(Join(ws)) == ws
  {
    if |ws| == 1 {
      FirstWord(ws[0], "");
      assert ws[0] + "" == ws[0] && ws[0][|ws[0]|..] == "" && ws == [ws[0]];
    } else if |ws| > 1 {
      var rest := " " + Join(ws[1..]);
      assert Join(ws) == ws[0] + rest;
      FirstWord(ws[0], rest);
      SplitJoin(ws[1..]);
      assert (ws[0] + rest)[|ws[0]|..] == rest && (ws[0] + rest)[..|ws[0]|] == ws[0] && rest[1..] == Join(ws[1..]);
      assert ws == [ws[0]] + ws[1..];
    }
  }

  lemma {:induction false} JoinLower(ws: seq<string>)
    requires AllWords(ws)
    ensures Lower(Join(ws)) == Join(ws)
    ensures ws != [] ==> Join(ws) != "" && !IsSpace(Join(ws)[0]) && !IsSpace(Join(ws)[|Join(ws)| - 1])
  {
    if |ws| == 1 {
    } else if |ws| > 1 {
      JoinLower(ws[1..]);
      var tail := " " + Join(ws[1..]);
      LowerConcat(ws[0], tail);
      LowerConcat(" ", Join(ws[1..]));
      assert Join(ws) == ws[0] + tail;
      assert Join(ws)[|Join(ws)| - 1] == Join(ws[1..])[|Join(ws[1..])| - 1];
    }
  }

  lemma LowerConcat(a: string, b: string)
    ensures Lower(a + b) == Lower(a) + Lower(b)
  {
  }

  lemma LowerIdempotent(s: string)
    ensures Lower(Lower(s)) == Lower(s)
  {
  }

  lemma NormalizeIdempotent(s: string)
    ensures NormalizeLabel(NormalizeLabel(s)) == NormalizeLabel(s)
  {
    LowerIdempotent(Strip(s));
    var ws := Words(Lower(Strip(s)));
    WordsAreWords(Lower(Strip(s)));
    JoinLower(ws);
    SplitJoin(ws);
    assert Strip(Join(ws)) == Join(ws);
  }

  // Two labels normalise alike exactly when they have the same lower-case words.
  lemma NormalizeIdentifies(s: string, t: string)
    ensures NormalizeLabel(s) == NormalizeLabel(t) <==> Words(Lower(Strip(s))) == Words(Lower(Strip(t)))
  {
    LowerIdempotent(Strip(s));
    LowerIdempotent(Strip(t));
    WordsAreWords(Lower(Strip(s)));
    WordsAreWords(Lower(Strip(t)));
    SplitJoin(Words(Lower(Strip(s))));
    SplitJoin(Words(Lower(Strip(t))));
  }

  lemma {:induction false} StripKeeps(s: string)
    ensures Blank(Strip(s)) <==> Blank(s)
    decreases |s|
  {
    if s != "" && IsSpace(s[0]) {
      StripKeeps(s[1..]);
      assert s == [s[0]] + s[1..];
    } else if s != "" && IsSpace(s[|s| - 1]) {
      StripKeeps(s[..|s| - 1]);
      assert s == s[..|s| - 1] + [s[|s| - 1]];
    }
  }

  lemma {:induction false} WordlessIff(s: string)
    ensures Words(s) == [] <==> Blank(s)
    decreases |s|
  {
    if s != "" && IsSpace(s[0]) {
      WordlessIff(s[1..]);
      assert s == [s[0]] + s[1..];
    }
  }

  // Nothing is left of a label exactly when it is all space.
  lemma NormalizedEmptyIff(s: string)
    ensures NormalizeLabel(s) == "" <==> Blank(s)
  {
    var lower := Lower(Strip(s));
    LowerIdempotent(Strip(s));
    WordsAreWords(lower);
    JoinLower(Words(lower));
    WordlessIff(lower);
    assert Blank(lower) <==> Blank(Strip(s)) by { LowerBlank(Strip(s)); }
    StripKeeps(s);
  }

  lemma LowerBlank(s: string)
    ensures Blank(Lower(s)) <==> Blank(s)
  {
    forall i | 0 <= i < |s| ensures IsSpace(Lower(s)[i]) == IsSpace(s[i]) { assert Lower(s)[i] == LowerChar(s[i]); }
  }

  // What str.strip() leaves: everything from the first to the last character
  // that is not space.
  lemma {:induction false} StripIs(s: string, i: nat, j: nat)
    requires i < j <= |s| && Blank(s[..i]) && Blank(s[j..]) && !IsSpace(s[i]) && !IsSpace(s[j - 1])
    ensures Strip(s) == s[i..j]
    decreases |s|
  {
    if i > 0 {
      assert s[0] == s[..i][0];
      assert s[1..][..i - 1] == s[..i][1..] && s[1..][j - 1..] == s[j..] && s[1..][i - 1..j - 1] == s[i..j];
      StripIs(s[1..], i - 1, j - 1);
    } else if j < |s| {
      var n := |s| - 1;
      assert s[n] == s[j..][n - j];
      assert s[..n][..i] == s[..i] && s[..n][j..] == s[j..][..n - j] && s[..n][i..j] == s[i..j];
      StripIs(s[..n], i, j);
    } else {
      assert s[i..j] == s;
    }
  }

  lemma {:induction false} StripLeaves(s: string) returns (i: nat, j: nat)
    ensures i <= j <= |s| && Blank(s[..i]) && Blank(s[j..]) && Strip(s) == s[i..j]
    decreases |s|
  {
    if s != "" && IsSpace(s[0]) {
      var a, b := StripLeaves(s[1..]);
      i, j := a + 1, b + 1;
      assert s[..i] == [s[0]] + s[1..][..a] && s[j..] == s[1..][b..] && s[i..j] == s[1..][a..b];
    } else if s != "" && IsSpace(s[|s| - 1]) {
      var n := |s| - 1;
      i, j := StripLeaves(s[..n]);
      assert s[j..] == s[..n][j..] + [s[n]] && s[..n][..i] == s[..i] && s[..n][i..j] == s[i..j];
    } else {
      i, j := 0, |s|;
      assert s[..0] == "" && s[|s|..] == "" && s[0..|s|] == s;
    }
  }
}
