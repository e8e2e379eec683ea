// What the two patterns written out match: the expressions as relations between
// a text and two positions, and that the matchers find a match at a position
// exactly when there is one.
module RedactionSyntax {
  import opened Json
  import opened RedactionPatterns

  // ----- the labelled credential -----

  const LABELS := ["apikey", "api_key", "api key", "api-key", "secret", "password", "passwd", "token", "authorization"]

  // The letters of a label, in any case.
  ghost predicate SpelledAt(s: string, i: int, name: string) {
    0 <= i && i + |name| <= |s| && forall n :: 0 <= n < |name| ==> LowerChar(s[i + n]) == name[n]
  }

  // One of the labels, from i up to k, between word boundaries.
  ghost predicate LabelSpan(s: string, i: int, k: int) {
    && 0 <= i && Boundary(s, i) && 0 <= k && Boundary(s, k)
    && exists name :: name in LABELS && k == i + |name| && SpelledAt(s, i, name)
  }

  ghost predicate SpacesFrom(s: string, i: int, j: int) {
    0 <= i <= j <= |s| && forall n :: i <= n < j ==> IsSpace(s[n])
  }

  // Nothing but characters that are neither space, comma, quote nor brace.
  ghost predicate SecretFrom(s: string, i: int, j: int) {
    0 <= i <= j <= |s| && forall n :: i <= n < j ==> !IsSpace(s[n]) && s[n] !in [',', '\'', '"', '}']
  }

  lemma SecretCharIff(c: char)
    ensures IsSecretChar(c) <==> !IsSpace(c) && c !in [',', '\'', '"', '}']
  {
  }

  // The quote is optional.
  ghost predicate QuoteSpan(s: string, d: int, e: int) {
    0 <= d && (e == d || (d < |s| && (s[d] == '\'' || s[d] == '"') && e == d + 1))
  }

  // Label, space, colon or equals sign, space, quote, six or more characters.
  ghost predicate CredentialSpan(s: string, i: int, k: int, c: int, d: int, e: int, f: int) {
    && LabelSpan(s, i, k) && SpacesFrom(s, k, c) && c < |s| && (s[c] == ':' || s[c] == '=')
    && SpacesFrom(s, c + 1, d) && QuoteSpan(s, d, e) && SecretFrom(s, e, f) && f - e >= 6
  }

  lemma WordIff(s: string, i: nat, w: string)
    ensures HasWord(s, i, w) <==> SpelledAt(s, i, w)
  {
    hide LowerChar;
    if i + |w| <= |s| {
      var part := s[i..i + |w|];
      assert forall n :: 0 <= n < |w| ==> Lower(part)[n] == LowerChar(s[i + n]);
      if SpelledAt(s, i, w) { assert Lower(part) == w; }
    }
  }

  lemma WordsIff(s: string, i: nat, a: string, b: string)
    ensures HasWord(s, i, a + b) <==> HasWord(s, i, a) && HasWord(s, i + |a|, b)
  {
    hide LowerChar, HasWord;
    WordIff(s, i, a);
    WordIff(s, i + |a|, b);
    WordIff(s, i, a + b);
    if SpelledAt(s, i, a) && SpelledAt(s, i + |a|, b) {
      forall n | 0 <= n < |a + b| ensures LowerChar(s[i + n]) == (a + b)[n] {
        if n >= |a| { assert LowerChar(s[i + |a| + (n - |a|)]) == b[n - |a|]; }
      }
    }
    if SpelledAt(s, i, a + b) {
      forall n | 0 <= n < |a| ensures LowerChar(s[i + n]) == a[n] { assert LowerChar(s[i + n]) == (a + b)[n]; }
      forall n | 0 <= n < |b| ensures LowerChar(s[i + |a| + n]) == b[n] { assert LowerChar(s[i + (|a| + n)]) == (a + b)[|a| + n]; }
    }
  }

  // Two names that differ at a place are not both spelled.
  lemma NotBoth(s: string, i: nat, a: string, b: string, n: nat)
    requires n < |a| && n < |b| && a[n] != b[n]
    ensures !(HasWord(s, i, a) && HasWord(s, i, b))
  {
    hide LowerChar, HasWord;
    WordIff(s, i, a);
    WordIff(s, i, b);
    assert SpelledAt(s, i, a) ==> LowerChar(s[i + n]) == a[n];
    assert SpelledAt(s, i, b) ==> LowerChar(s[i + n]) == b[n];
  }

  // The label that is spelled at a position.
  ghost predicate Ends(s: string, i: nat, k: int) {
    exists name :: name in LABELS && k == i + |name| && HasWord(s, i, name)
  }

  lemma KeyLabel(s: string, i: nat)
    requires HasWord(s, i, "api")
    ensures HasWord(s, i, "apikey") <==> HasWord(s, i + 3, "key")
    ensures HasWord(s, i, "api_key") <==> i + 3 < |s| && s[i + 3] == '_' && HasWord(s, i + 4, "key")
    ensures HasWord(s, i, "api key") <==> i + 3 < |s| && s[i + 3] == ' ' && HasWord(s, i + 4, "key")
    ensures HasWord(s, i, "api-key") <==> i + 3 < |s| && s[i + 3] == '-' && HasWord(s, i + 4, "key")
  {
    assert "api" + "key" == "apikey";
    SeparatedLabel(s, i, '_');
    SeparatedLabel(s, i, ' ');
    SeparatedLabel(s, i, '-');
    assert "api" + (['_'] + "key") == "api_key" && "api" + ([' '] + "key") == "api key" && "api" + (['-'] + "key") == "api-key";
    hide HasWord;
    WordsIff(s, i, "api", "key");
  }

  lemma SeparatedLabel(s: string, i: nat, c: char)
    requires HasWord(s, i, "api") && c in {'_', ' ', '-'}
    ensures HasWord(s, i, "api" + ([c] + "key")) <==> i + 3 < |s| && s[i + 3] == c && HasWord(s, i + 4, "key")
  {
    WordsIff(s, i, "api", [c] + "key");
    WordsIff(s, i + 3, [c], "key");
    OneChar(s, i + 3, c);
  }

  lemma OneChar(s: string, i: nat, c: char)
    requires c in {'_', ' ', '-'}
    ensures HasWord(s, i, [c]) <==> i < |s| && s[i] == c
  {
    if i < |s| { assert s[i..i + 1] == [s[i]] && Lower([s[i]]) == [LowerChar(s[i])]; }
  }

  lemma PlainLabels(s: string, i: nat)
    ensures HasWord(s, i, "api") ==> !HasWord(s, i, "secret") && !HasWord(s, i, "password") && !HasWord(s, i, "passwd")
    ensures HasWord(s, i, "api") ==> !HasWord(s, i, "token") && !HasWord(s, i, "authorization")
    ensures HasWord(s, i, "secret") ==> !HasWord(s, i, "password") && !HasWord(s, i, "passwd")
    ensures HasWord(s, i, "secret") ==> !HasWord(s, i, "token") && !HasWord(s, i, "authorization")
    ensures HasWord(s, i, "password") ==> !HasWord(s, i, "passwd") && !HasWord(s, i, "token") && !HasWord(s, i, "authorization")
    ensures HasWord(s, i, "passwd") ==> !HasWord(s, i, "token") && !HasWord(s, i, "authorization")
    ensures HasWord(s, i, "token") ==> !HasWord(s, i, "authorization")
  {
    hide HasWord;
    NotBoth(s, i, "api", "secret", 0);
    NotBoth(s, i, "api", "password", 0);
    NotBoth(s, i, "api", "passwd", 0);
    NotBoth(s, i, "api", "token", 0);
    NotBoth(s, i, "api", "authorization", 1);
    NotBoth(s, i, "secret", "password", 0);
    NotBoth(s, i, "secret", "passwd", 0);
    NotBoth(s, i, "secret", "token", 0);
    NotBoth(s, i, "secret", "authorization", 0);
    NotBoth(s, i, "password", "passwd", 5);
    NotBoth(s, i, "password", "token", 0);
    NotBoth(s, i, "password", "authorization", 0);
    NotBoth(s, i, "passwd", "token", 0);
    NotBoth(s, i, "passwd", "authorization", 0);
    NotBoth(s, i, "token", "authorization", 0);
  }

  lemma KeyNeedsApi(s: string, i: nat)
    ensures HasWord(s, i, "apikey") || HasWord(s, i, "api_key") || HasWord(s, i, "api key") || HasWord(s, i, "api-key") ==> HasWord(s, i, "api")
  {
    assert "api" + "key" == "apikey" && "api" + "_key" == "api_key" && "api" + " key" == "api key" && "api" + "-key" == "api-key";
    hide HasWord;
    WordsIff(s, i, "api", "key");
    WordsIff(s, i, "api", "_key");
    WordsIff(s, i, "api", " key");
    WordsIff(s, i, "api", "-key");
  }

  lemma KeyFirst(s: string, i: nat)
    ensures HasWord(s, i, "key") ==> i < |s| && s[i] !in {'_', ' ', '-'}
  {
    if HasWord(s, i, "key") { assert Lower(s[i..i + 3])[0] == LowerChar(s[i]); }
  }

  // A label ends where the matcher says, and there only.
  lemma LabelEndIff(s: string, i: nat, k: int)
    ensures Ends(s, i, k) <==> LabelEnd(s, i).Some? && LabelEnd(s, i).value == k
  {
    hide HasWord;
    PlainLabels(s, i);
    KeyNeedsApi(s, i);
    if HasWord(s, i, "api") {
      KeyLabel(s, i);
      KeyFirst(s, i + 3);
    }
    LabelNamed(s, i, k);
  }

  lemma LabelNamed(s: string, i: nat, k: int)
    ensures Ends(s, i, k) <==>
              || (k == i + 6 && (HasWord(s, i, "apikey") || HasWord(s, i, "secret") || HasWord(s, i, "passwd")))
              || (k == i + 7 && (HasWord(s, i, "api_key") || HasWord(s, i, "api key") || HasWord(s, i, "api-key")))
              || (k == i + 8 && HasWord(s, i, "password")) || (k == i + 5 && HasWord(s, i, "token"))
              || (k == i + 13 && HasWord(s, i, "authorization"))
  {
    hide HasWord;
    assert LABELS[0] == "apikey" && LABELS[1] == "api_key" && LABELS[2] == "api key" && LABELS[3] == "api-key" && LABELS[4] == "secret";
    assert LABELS[5] == "password" && LABELS[6] == "passwd" && LABELS[7] == "token" && LABELS[8] == "authorization";
    assert |"apikey"| == |"secret"| == |"passwd"| == 6 && |"api_key"| == |"api key"| == |"api-key"| == 7;
    assert |"password"| == 8 && |"token"| == 5 && |"authorization"| == 13;
  }

  lemma SpelledEnds(s: string, i: nat, k: int)
    ensures Ends(s, i, k) <==> exists name :: name in LABELS && k == i + |name| && SpelledAt(s, i, name)
  {
    hide HasWord, SpelledAt;
    forall name ensures HasWord(s, i, name) <==> SpelledAt(s, i, name) { WordIff(s, i, name); }
  }

  // ----- the rest of a credential -----

  lemma {:induction false} SpacesReach(s: string, i: nat)
    requires i <= |s|
    ensures SpacesFrom(s, i, SkipSpaces(s, i))
    ensures SkipSpaces(s, i) < |s| ==> !IsSpace(s[SkipSpaces(s, i)])
    decreases |s| - i
  {
    hide IsSpace;
    if i < |s| && IsSpace(s[i]) { SpacesReach(s, i + 1); }
  }

  // Space ends where something else follows.
  lemma SpacesEnd(s: string, i: nat, j: int)
    requires SpacesFrom(s, i, j) && j < |s| && !IsSpace(s[j])
    ensures j == SkipSpaces(s, i)
  {
    hide IsSpace, SkipSpaces;
    SpacesReach(s, i);
  }

  lemma {:induction false} SecretReach(s: string, i: nat)
    requires i <= |s|
    ensures SecretFrom(s, i, SkipSecret(s, i))
    ensures forall j :: SecretFrom(s, i, j) ==> j <= SkipSecret(s, i)
    decreases |s| - i
  {
    hide IsSecretChar, IsSpace;
    if i < |s| { SecretCharIff(s[i]); }
    if i < |s| && IsSecretChar(s[i]) {
      SecretReach(s, i + 1);
      forall j | SecretFrom(s, i, j) ensures j <= SkipSecret(s, i) {
        if j > i { assert SecretFrom(s, i + 1, j); }
      }
    }
  }

  // Where the matcher puts the quote.
  function QuoteEnd(s: string, d: nat): nat {
    if d < |s| && (s[d] == '\'' || s[d] == '"') then d + 1 else d
  }

  lemma SecretStart(s: string, d: int, e: int, f: int)
    requires QuoteSpan(s, d, e) && SecretFrom(s, e, f) && f - e >= 6
    ensures d < |s| && !IsSpace(s[d]) && e == QuoteEnd(s, d)
  {
    assert !IsSpace(s[e]) && s[e] != '\'' && s[e] != '"';
    assert !IsSpace('\'') && !IsSpace('"');
  }

  lemma NoSpaceColon()
    ensures !IsSpace(':') && !IsSpace('=')
  {
  }

  // The match that the matcher finds is one.
  lemma CredentialFound(s: string, i: nat) returns (k: int, c: int, d: int, e: int)
    requires CredentialEnd(s, i).Some?
    ensures CredentialSpan(s, i, k, c, d, e, CredentialEnd(s, i).value)
  {
    hide LabelEnd, Boundary, SkipSpaces, SkipSecret, IsSpace, IsSecretChar, Ends, SpelledAt, LABELS;
    k := LabelEnd(s, i).value;
    c := SkipSpaces(s, k);
    d := SkipSpaces(s, c + 1);
    e := QuoteEnd(s, d);
    LabelEndIff(s, i, k);
    SpelledEnds(s, i, k);
    SpacesReach(s, k);
    SpacesReach(s, c + 1);
    SecretReach(s, e);
  }

  // Any match there is makes the matcher find one, ending no earlier.
  lemma CredentialThere(s: string, i: nat, k: int, c: int, d: int, e: int, f: int)
    requires CredentialSpan(s, i, k, c, d, e, f)
    ensures CredentialEnd(s, i).Some? && f <= CredentialEnd(s, i).value
  {
    hide LabelEnd, Boundary, SkipSpaces, SkipSecret, IsSpace, IsSecretChar, Ends, SpelledAt, LABELS;
    SpelledEnds(s, i, k);
    LabelEndIff(s, i, k);
    NoSpaceColon();
    SpacesEnd(s, k, c);
    SecretStart(s, d, e, f);
    SpacesEnd(s, c + 1, d);
    SecretReach(s, e);
  }

  // The credential pattern matches at a position exactly when the text spells a
  // credential there; the match found is the longest.
  lemma CredentialIff(s: string, i: nat)
    ensures CredentialEnd(s, i).Some? <==> exists k, c, d, e, f :: CredentialSpan(s, i, k, c, d, e, f)
    ensures CredentialEnd(s, i).Some? ==> exists k, c, d, e :: CredentialSpan(s, i, k, c, d, e, CredentialEnd(s, i).value)
    ensures forall k, c, d, e, f :: CredentialSpan(s, i, k, c, d, e, f) ==> CredentialEnd(s, i).Some? && f <= CredentialEnd(s, i).value
  {
    hide CredentialEnd, CredentialSpan;
    if CredentialEnd(s, i).Some? { var k, c, d, e := CredentialFound(s, i); }
    forall k, c, d, e, f | CredentialSpan(s, i, k, c, d, e, f) ensures CredentialEnd(s, i).Some? && f <= CredentialEnd(s, i).value {
      CredentialThere(s, i, k, c, d, e, f);
    }
  }

  // ----- the payment card -----

  // n digits from i up to j, each with an optional blank or dash after it.
  ghost predicate Digits(s: string, i: int, j: int, n: nat)
    decreases n
  {
    if n == 0 then i == j
    else
      && 0 <= i < |s| && IsDigit(s[i])
      && (Digits(s, i + 1, j, n - 1) || (i + 1 < |s| && (s[i + 1] == ' ' || s[i + 1] == '-') && Digits(s, i + 2, j, n - 1)))
  }

  // What is left to read after m digits, so that thirteen to nineteen are read
  // in all and no digit follows.
  ghost predicate CardRest(s: string, i: int, m: nat, j: int, n: nat) {
    13 <= m + n <= 19 && Digits(s, i, j, n) && !(0 <= j < |s| && IsDigit(s[j]))
  }

  ghost predicate CardAgrees(s: string, i: nat, m: nat)
    requires i <= |s| && m <= 19
  {
    && (CardFrom(s, i, m).Some? ==> exists n: nat :: CardRest(s, i, m, CardFrom(s, i, m).value, n))
    && (forall j, n: nat :: CardRest(s, i, m, j, n) ==> CardFrom(s, i, m).Some?)
  }

  lemma {:induction false} CardFromIff(s: string, i: nat, m: nat)
    requires i <= |s| && m <= 19
    ensures CardAgrees(s, i, m)
    decreases 19 - m
  {
    hide IsDigit;
    if m < 19 && i < |s| && IsDigit(s[i]) {
      CardFromIff(s, i + 1, m + 1);
      if i + 1 < |s| && (s[i + 1] == ' ' || s[i + 1] == '-') { CardFromIff(s, i + 2, m + 1); }
      forall j, n: nat | CardRest(s, i, m, j, n) ensures CardFrom(s, i, m).Some? { CardNext(s, i, m, j, n); }
      if CardFrom(s, i, m).Some? { CardTaken(s, i, m); }
    } else {
      forall j, n: nat | CardRest(s, i, m, j, n) ensures CardFrom(s, i, m).Some? { assert n == 0; }
      if CardFrom(s, i, m).Some? { assert CardRest(s, i, m, i, 0); }
    }
  }

  // With a digit ahead, a completion takes it, and perhaps a separator.
  lemma CardNext(s: string, i: nat, m: nat, j: int, n: nat)
    requires m < 19 && i < |s| && IsDigit(s[i]) && CardRest(s, i, m, j, n) && CardAgrees(s, i + 1, m + 1)
    requires i + 1 < |s| && (s[i + 1] == ' ' || s[i + 1] == '-') ==> CardAgrees(s, i + 2, m + 1)
    ensures CardFrom(s, i, m).Some?
  {
    hide IsDigit;
    if n > 0 {
      assert CardRest(s, i + 1, m + 1, j, n - 1) || CardRest(s, i + 2, m + 1, j, n - 1);
    }
  }

  lemma CardTaken(s: string, i: nat, m: nat)
    requires m < 19 && i < |s| && IsDigit(s[i]) && CardFrom(s, i, m).Some? && CardAgrees(s, i + 1, m + 1)
    requires i + 1 < |s| && (s[i + 1] == ' ' || s[i + 1] == '-') ==> CardAgrees(s, i + 2, m + 1)
    ensures exists n: nat :: CardRest(s, i, m, CardFrom(s, i, m).value, n)
  {
    hide IsDigit;
    var end := CardFrom(s, i, m).value;
    if i + 1 < |s| && (s[i + 1] == ' ' || s[i + 1] == '-') && CardFrom(s, i + 2, m + 1).Some? {
      var n: nat :| CardRest(s, i + 2, m + 1, end, n);
      assert CardRest(s, i, m, end, n + 1);
    } else {
      var n: nat :| CardRest(s, i + 1, m + 1, end, n);
      assert CardRest(s, i, m, end, n + 1);
    }
  }

  // A card number from i up to j that no digit precedes or follows.
  ghost predicate CardSpan(s: string, i: int, j: int) {
    0 <= i <= |s| && !(0 < i && IsDigit(s[i - 1])) && exists n: nat :: CardRest(s, i, 0, j, n)
  }

  // The card pattern matches at a position exactly when a card number is there.
  lemma CardIff(s: string, i: nat)
    ensures CardEnd(s, i).Some? <==> exists j :: CardSpan(s, i, j)
    ensures CardEnd(s, i).Some? ==> CardSpan(s, i, CardEnd(s, i).value)
  {
    hide IsDigit, CardFrom, CardRest;
    if i <= |s| {
      CardFromIff(s, i, 0);
      if CardEnd(s, i).Some? { assert CardSpan(s, i, CardEnd(s, i).value); }
      forall j | CardSpan(s, i, j) ensures CardEnd(s, i).Some? { var n: nat :| CardRest(s, i, 0, j, n); }
    }
  }
}
