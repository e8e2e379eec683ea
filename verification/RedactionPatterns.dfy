// Two of the redaction patterns in full, the labelled credential and the payment
// card, and the leaf on which sanitising twice is not sanitising once. Word
// characters and digits are the ASCII ones.
module RedactionPatterns {
  import opened Wrappers
  import opened Json
  import opened Redaction

  // ----- matching -----

  predicate IsDigit(c: char) { '0' <= c <= '9' }

  predicate IsWord(c: char) {
    IsDigit(c) || 'a' <= c <= 'z' || 'A' <= c <= 'Z' || c == '_'
  }

  predicate WordAt(s: string, i: int) {
    0 <= i < |s| && IsWord(s[i])
  }

  // \b
  predicate Boundary(s: string, i: nat) {
    WordAt(s, i - 1) != WordAt(s, i)
  }

  // The word at position i, in any case.
  predicate HasWord(s: string, i: nat, w: string) {
    i + |w| <= |s| && Lower(s[i..i + |w|]) == w
  }

  // Where one of the labels that starts at i ends.
  function LabelEnd(s: string, i: nat): Option<nat> {
    if HasWord(s, i, "api") then
      var j := if i + 3 < |s| && s[i + 3] in {'_', ' ', '-'} then i + 4 else i + 3;
      if HasWord(s, j, "key") then Some(j + 3) else None
    else if HasWord(s, i, "secret") then Some(i + 6)
    else if HasWord(s, i, "password") then Some(i + 8)
    else if HasWord(s, i, "passwd") then Some(i + 6)
    else if HasWord(s, i, "token") then Some(i + 5)
    else if HasWord(s, i, "authorization") then Some(i + 13)
    else None
  }

  function SkipSpaces(s: string, i: nat): (j: nat)
    requires i <= |s|
    ensures i <= j <= |s|
    decreases |s| - i
  {
    if i < |s| && IsSpace(s[i]) then SkipSpaces(s, i + 1) else i
  }

  predicate IsSecretChar(c: char) {
    !IsSpace(c) && c != ',' && c != '\'' && c != '"' && c != '}'
  }

  function SkipSecret(s: string, i: nat): (j: nat)
    requires i <= |s|
    ensures i <= j <= |s|
    decreases |s| - i
  {
    if i < |s| && IsSecretChar(s[i]) then SkipSecret(s, i + 1) else i
  }

  // A label, a colon or an equals sign, and at least six characters of secret.
  function CredentialEnd(s: string, i: nat): Option<nat> {
    if !Boundary(s, i) then None
    else match LabelEnd(s, i)
      case None => None
      case Some(k) =>
        if k > |s| || !Boundary(s, k) then None
        else
          var c := SkipSpaces(s, k);
          if c == |s| || (s[c] != ':' && s[c] != '=') then None
          else
            var d := SkipSpaces(s, c + 1);
            var e := if d < |s| && (s[d] == '\'' || s[d] == '"') then d + 1 else d;
            var f := SkipSecret(s, e);
            if f - e >= 6 then Some(f) else None
  }

  // n digits, each with an optional separator, have been read: read more if the
  // match can be completed so, else stop if it is complete.
  function CardFrom(s: string, i: nat, n: nat): Option<nat>
    requires i <= |s| && n <= 19
    decreases 19 - n
  {
    var stop := if n >= 13 && !(i < |s| && IsDigit(s[i])) then Some(i) else None;
    if n == 19 || i == |s| || !IsDigit(s[i]) then stop
    else
      var apart := if i + 1 < |s| && (s[i + 1] == ' ' || s[i + 1] == '-') then CardFrom(s, i + 2, n + 1) else None;
      if apart.Some? then apart
      else if CardFrom(s, i + 1, n + 1).Some? then CardFrom(s, i + 1, n + 1)
      else stop
  }

  // Thirteen to nineteen digits that no digit precedes or follows.
  function CardEnd(s: string, i: nat): Option<nat> {
    if i > |s| || (0 < i && IsDigit(s[i - 1])) then None else CardFrom(s, i, 0)
  }

  datatype Kind = Credential | PaymentCard

  function End(kind: Kind, s: string, i: nat): Option<nat> {
    if kind.Credential? then CredentialEnd(s, i) else CardEnd(s, i)
  }

  function Mask(kind: Kind): string {
    if kind.Credential? then "[REDACTED:CREDENTIAL]" else "[REDACTED:PAYMENT_CARD]"
  }

  // pattern.search from position i on
  predicate Matches(kind: Kind, s: string, i: nat)
    requires i <= |s|
    decreases |s| - i
  {
    i < |s| && (End(kind, s, i).Some? || Matches(kind, s, i + 1))
  }

  // pattern.sub from position i on
  function Replaced(kind: Kind, s: string, i: nat): string
    requires i <= |s|
    decreases |s| - i
  {
    if i == |s| then ""
    else match End(kind, s, i)
      case Some(j) => if i < j <= |s| then Mask(kind) + Replaced(kind, s, j) else [s[i]] + Replaced(kind, s, i + 1)
      case None => [s[i]] + Replaced(kind, s, i + 1)
  }

  function PatternOf(kind: Kind): Pattern {
    Pattern(if kind.Credential? then "credential" else "payment_card", (s: string) => Matches(kind, s, 0), (s: string) => Replaced(kind, s, 0))
  }

  // ----- a rank that every replacement lowers -----

  // Characters that occur in every match and in no mask.
  predicate IsHeavy(c: char) {
    IsDigit(c) || LowerChar(c) == 's' || LowerChar(c) == 'o' || LowerChar(c) == 'k'
  }

  function Weight(s: string): nat {
    if s == "" then 0 else (if IsHeavy(s[0]) then 1 else 0) + Weight(s[1..])
  }

  lemma {:induction false} WeightAppend(a: string, b: string)
    ensures Weight(a + b) == Weight(a) + Weight(b)
  {
    if a == "" {
      assert a + b == b;
    } else {
      assert (a + b)[0] == a[0] && (a + b)[1..] == a[1..] + b;
      WeightAppend(a[1..], b);
    }
  }

  lemma {:induction false} HeavyText(s: string, k: nat)
    requires k < |s| && IsHeavy(s[k])
    ensures Weight(s) >= 1
  {
    if k > 0 { HeavyText(s[1..], k - 1); }
  }

  lemma {:induction false} LightText(s: string)
    requires forall i :: 0 <= i < |s| ==> !IsHeavy(s[i])
    ensures Weight(s) == 0
  {
    if s != "" { LightText(s[1..]); }
  }

  lemma MaskLight(kind: Kind)
    ensures Weight(Mask(kind)) == 0
  {
    LightText(Mask(kind));
  }

  lemma LabelHeavy(s: string, i: nat)
    requires LabelEnd(s, i).Some?
    ensures i < LabelEnd(s, i).value <= |s|
    ensures exists k :: i <= k < LabelEnd(s, i).value && IsHeavy(s[k])
  {
    var end := LabelEnd(s, i).value;
    if HasWord(s, i, "api") {
      WordHeavy(s, end - 3, "key", 0);
    } else if HasWord(s, i, "secret") {
      WordHeavy(s, i, "secret", 0);
    } else if HasWord(s, i, "password") {
      WordHeavy(s, i, "password", 2);
    } else if HasWord(s, i, "passwd") {
      WordHeavy(s, i, "passwd", 2);
    } else if HasWord(s, i, "token") {
      WordHeavy(s, i, "token", 1);
    } else {
      WordHeavy(s, i, "authorization", 4);
    }
  }

  lemma WordHeavy(s: string, i: nat, w: string, k: nat)
    requires HasWord(s, i, w) && k < |w| && (w[k] == 's' || w[k] == 'o' || w[k] == 'k')
    ensures i + k < |s| && IsHeavy(s[i + k])
  {
    assert Lower(s[i..i + |w|])[k] == LowerChar(s[i..i + |w|][k]) == w[k];
  }

  lemma CredentialHeavy(s: string, i: nat)
    requires CredentialEnd(s, i).Some?
    ensures i < CredentialEnd(s, i).value <= |s| && Weight(s[i..CredentialEnd(s, i).value]) >= 1
  {
    hide LabelEnd, IsHeavy;
    LabelHeavy(s, i);
    var k :| i <= k < LabelEnd(s, i).value && IsHeavy(s[k]);
    HeavyText(s[i..CredentialEnd(s, i).value], k - i);
  }

  lemma {:induction false} CardReach(s: string, i: nat, n: nat)
    requires i <= |s| && n <= 19 && CardFrom(s, i, n).Some?
    ensures i <= CardFrom(s, i, n).value <= |s|
    ensures n < 13 ==> i < CardFrom(s, i, n).value && IsDigit(s[i])
    decreases 19 - n
  {
    if n < 19 && i < |s| && IsDigit(s[i]) {
      if i + 1 < |s| && (s[i + 1] == ' ' || s[i + 1] == '-') && CardFrom(s, i + 2, n + 1).Some? { CardReach(s, i + 2, n + 1); }
      if CardFrom(s, i + 1, n + 1).Some? { CardReach(s, i + 1, n + 1); }
    }
  }

  lemma MatchHeavy(kind: Kind, s: string, i: nat)
    requires End(kind, s, i).Some?
    ensures i < End(kind, s, i).value <= |s| && Weight(s[i..End(kind, s, i).value]) >= 1
  {
    hide CredentialEnd, CardFrom;
    if kind.Credential? {
      CredentialHeavy(s, i);
    } else {
      CardReach(s, i, 0);
      HeavyText(s[i..CardFrom(s, i, 0).value], 0);
    }
  }

  lemma ReplacedAt(kind: Kind, s: string, i: nat)
    requires i < |s| && End(kind, s, i).Some? && i < End(kind, s, i).value <= |s|
    ensures Replaced(kind, s, i) == Mask(kind) + Replaced(kind, s, End(kind, s, i).value)
    ensures Matches(kind, s, i)
  {
    hide End, Mask;
  }

  lemma ReplacedPast(kind: Kind, s: string, i: nat)
    requires i < |s| && End(kind, s, i) == None
    ensures Replaced(kind, s, i) == [s[i]] + Replaced(kind, s, i + 1)
    ensures Matches(kind, s, i) == Matches(kind, s, i + 1)
  {
    hide End, Mask;
  }

  lemma WeightSplit(s: string, i: nat, j: nat)
    requires i <= j <= |s|
    ensures Weight(s[i..]) == Weight(s[i..j]) + Weight(s[j..])
  {
    assert s[i..] == s[i..j] + s[j..];
    WeightAppend(s[i..j], s[j..]);
  }

  lemma {:induction false} ReplacedLighter(kind: Kind, s: string, i: nat)
    requires i <= |s|
    ensures Weight(Replaced(kind, s, i)) <= Weight(s[i..])
    ensures Matches(kind, s, i) ==> Weight(Replaced(kind, s, i)) < Weight(s[i..])
    decreases |s| - i
  {
    hide End, Mask, Weight, IsHeavy;
    if i == |s| {
      assert Replaced(kind, s, i) == s[i..];
    } else {
      hide Replaced, Matches;
      if End(kind, s, i).Some? {
        MatchHeavy(kind, s, i);
        var j := End(kind, s, i).value;
        ReplacedAt(kind, s, i);
        ReplacedLighter(kind, s, j);
        MaskLight(kind);
        WeightAppend(Mask(kind), Replaced(kind, s, j));
        WeightSplit(s, i, j);
      } else {
        ReplacedPast(kind, s, i);
        ReplacedLighter(kind, s, i + 1);
        WeightAppend([s[i]], Replaced(kind, s, i + 1));
        WeightSplit(s, i, i + 1);
        assert s[i..i + 1] == [s[i]];
      }
    }
  }

  // The two patterns lower the weight of any text they change.
  lemma MasksLower()
    ensures Lowers([PatternOf(Credential), PatternOf(PaymentCard)], Weight)
  {
    hide Matches, Replaced, Weight;
    var ps := [PatternOf(Credential), PatternOf(PaymentCard)];
    forall k, s | 0 <= k < |ps| && ps[k].search(s) ensures Weight(ps[k].sub(s)) < Weight(s) {
      ReplacedLighter(if k == 0 then Credential else PaymentCard, s, 0);
      assert s[0..] == s;
    }
  }

  // ----- the leaf that a second pass changes again -----

  const LABELLED_CARD := "password: 4111 1111 1111 1111"
  const MASKED_CARD := "password: [REDACTED:PAYMENT_CARD]"
  const MASKED_LABEL := "[REDACTED:CREDENTIAL]"

  // A label starts with one of four letters.
  lemma NoLabel(s: string, i: nat)
    requires i < |s| && LowerChar(s[i]) != 'a' && LowerChar(s[i]) != 's' && LowerChar(s[i]) != 'p' && LowerChar(s[i]) != 't'
    ensures CredentialEnd(s, i) == None
  {
    FirstLetter(s, i, "api");
    FirstLetter(s, i, "secret");
    FirstLetter(s, i, "password");
    FirstLetter(s, i, "passwd");
    FirstLetter(s, i, "token");
    FirstLetter(s, i, "authorization");
    hide HasWord, Boundary, SkipSpaces, SkipSecret;
  }

  lemma FirstLetter(s: string, i: nat, w: string)
    requires i < |s| && w != "" && LowerChar(s[i]) != w[0]
    ensures !HasWord(s, i, w)
  {
    assert i + |w| <= |s| ==> Lower(s[i..i + |w|])[0] == LowerChar(s[i]);
  }

  lemma {:induction false} NoMatches(kind: Kind, s: string, i: nat)
    requires i <= |s| && forall k :: i <= k < |s| ==> End(kind, s, k) == None
    ensures !Matches(kind, s, i) && Replaced(kind, s, i) == s[i..]
    decreases |s| - i
  {
    hide End;
    if i < |s| {
      NoMatches(kind, s, i + 1);
      assert s[i..] == [s[i]] + s[i + 1..];
    }
  }

  // Text before the first match is kept.
  lemma {:induction false} KeptBefore(kind: Kind, s: string, i: nat, m: nat)
    requires i <= m < |s| && (forall k :: i <= k < m ==> End(kind, s, k) == None) && End(kind, s, m).Some?
    ensures Matches(kind, s, i) && Replaced(kind, s, i) == s[i..m] + Replaced(kind, s, m)
    decreases m - i
  {
    hide End, Mask, Replaced;
    if i == m {
      assert s[i..m] + Replaced(kind, s, m) == Replaced(kind, s, m);
    } else {
      hide Matches;
      KeptBefore(kind, s, i + 1, m);
      ReplacedPast(kind, s, i);
      Regrouped(s[i], s[i + 1..m], Replaced(kind, s, m));
      assert s[i..m] == [s[i]] + s[i + 1..m];
    }
  }

  lemma Regrouped(c: char, a: string, b: string)
    ensures [c] + (a + b) == ([c] + a) + b
  {
  }

  // Inside a word no label starts.
  lemma InsideWord(s: string, i: nat)
    requires 0 < i < |s| && IsWord(s[i - 1]) && IsWord(s[i])
    ensures CredentialEnd(s, i) == None
  {
  }

  lemma PasswordLabel(s: string)
    requires |s| > 10 && s[..10] == "password: "
    ensures LabelEnd(s, 0) == Some(8) && Boundary(s, 0) && Boundary(s, 8) && SkipSpaces(s, 8) == 8 && s[8] == ':'
    ensures !IsSpace(s[10]) ==> SkipSpaces(s, 9) == 10
    ensures forall k :: 1 <= k < 10 ==> CredentialEnd(s, k) == None
  {
    assert s[0] == 'p' && s[1] == 'a' && s[2] == 's' && s[3] == 's' && s[4] == 'w' && s[5] == 'o' && s[6] == 'r' && s[7] == 'd'
           && s[8] == ':' && s[9] == ' ' by { assert forall k :: 0 <= k < 10 ==> s[k] == s[..10][k]; }
    FirstLetter(s, 0, "api");
    FirstLetter(s, 0, "secret");
    assert s[0..8] == "password" && Lower("password") == "password";
    forall k | 1 <= k < 10 ensures CredentialEnd(s, k) == None {
      if k < 8 { InsideWord(s, k); } else { NoLabel(s, k); }
    }
  }

  // The text after the label: no letter that a label starts with.
  lemma NoLabelAfter(s: string, k: nat)
    requires 10 <= k < |LABELLED_CARD| && s == LABELLED_CARD
    ensures CredentialEnd(s, k) == None
  {
    hide CredentialEnd;
    assert IsDigit(s[k]) || s[k] == ' ';
    NoLabel(s, k);
  }

  lemma NoCredential()
    ensures !Matches(Credential, LABELLED_CARD, 0)
  {
    hide CredentialEnd, Matches, Replaced;
    var s := LABELLED_CARD;
    PasswordPrefix(s, s[10..]);
    PasswordLabel(s);
    ShortSecret();
    forall k | 0 <= k < |s| ensures End(Credential, s, k) == None {
      if 10 <= k { NoLabelAfter(s, k); }
    }
    NoMatches(Credential, s, 0);
  }

  lemma PasswordPrefix(s: string, rest: string)
    requires s == "password: " + rest
    ensures |s| >= 10 && s[..10] == "password: "
  {
  }

  lemma NoCardBefore(s: string, k: nat)
    requires |s| > 10 && s[..10] == "password: " && k < 10
    ensures CardEnd(s, k) == None
  {
    hide CardEnd;
    assert s[k] == s[..10][k];
    NoDigit(s, k);
  }

  // First pass: the secret is too short for a credential, the card is masked.
  lemma CardIsMasked()
    ensures !Matches(Credential, LABELLED_CARD, 0)
    ensures Matches(PaymentCard, LABELLED_CARD, 0) && Replaced(PaymentCard, LABELLED_CARD, 0) == MASKED_CARD
  {
    hide Matches, Replaced, CardEnd, CredentialEnd;
    var s := LABELLED_CARD;
    NoCredential();
    SixteenDigits();
    forall k | 0 <= k < 10 ensures End(PaymentCard, s, k) == None { NoCardBefore(s, k); }
    KeptBefore(PaymentCard, s, 0, 10);
    MaskedToEnd(PaymentCard, s, 10);
    assert s[0..10] + Mask(PaymentCard) == MASKED_CARD;
  }

  lemma NoDigit(s: string, i: nat)
    requires i < |s| && !IsDigit(s[i])
    ensures CardEnd(s, i) == None
  {
  }

  lemma MaskedToEnd(kind: Kind, s: string, i: nat)
    requires i < |s| && End(kind, s, i) == Some(|s|)
    ensures Replaced(kind, s, i) == Mask(kind)
  {
    hide End;
    assert Replaced(kind, s, |s|) == "" && Mask(kind) + "" == Mask(kind);
  }

  lemma ShortSecret()
    ensures CredentialEnd(LABELLED_CARD, 0) == None
  {
    hide LabelEnd;
    var s := LABELLED_CARD;
    assert s[..10] == "password: ";
    PasswordLabel(s);
    assert SkipSecret(s, 14) == 14 && SkipSecret(s, 13) == 14 && SkipSecret(s, 12) == 14;
    assert SkipSecret(s, 11) == 14 && SkipSecret(s, 10) == 14;
  }

  lemma SixteenDigits()
    ensures CardEnd(LABELLED_CARD, 10) == Some(29)
  {
    var s := LABELLED_CARD;
    assert CardFrom(s, 29, 16) == Some(29);
    assert CardFrom(s, 28, 15) == Some(29);
    assert CardFrom(s, 27, 14) == Some(29);
    assert CardFrom(s, 26, 13) == Some(29);
    assert CardFrom(s, 25, 12) == Some(29);
    assert CardFrom(s, 23, 11) == Some(29);
    assert CardFrom(s, 22, 10) == Some(29);
    assert CardFrom(s, 21, 9) == Some(29);
    assert CardFrom(s, 20, 8) == Some(29);
    assert CardFrom(s, 18, 7) == Some(29);
    assert CardFrom(s, 17, 6) == Some(29);
    assert CardFrom(s, 16, 5) == Some(29);
    assert CardFrom(s, 15, 4) == Some(29);
    assert CardFrom(s, 13, 3) == Some(29);
    assert CardFrom(s, 12, 2) == Some(29);
    assert CardFrom(s, 11, 1) == Some(29);
    assert CardFrom(s, 10, 0) == Some(29);
  }

  lemma {:induction false} SecretToEnd(s: string, i: nat)
    requires i <= |s| && forall k :: i <= k < |s| ==> IsSecretChar(s[k])
    ensures SkipSecret(s, i) == |s|
    decreases |s| - i
  {
    if i < |s| { SecretToEnd(s, i + 1); }
  }

  lemma MaskIsSecret(k: nat)
    requires 10 <= k < |MASKED_CARD|
    ensures IsSecretChar(MASKED_CARD[k])
  {
    var s := MASKED_CARD;
    assert s[k] == '[' || s[k] == ']' || s[k] == ':' || s[k] == '_' || 'A' <= s[k] <= 'Z';
  }

  lemma PasswordCredential(s: string)
    requires |s| > 10 && s[..10] == "password: " && IsSecretChar(s[10]) && SkipSecret(s, 10) >= 16
    ensures CredentialEnd(s, 0) == Some(SkipSecret(s, 10))
  {
    hide LabelEnd, Boundary, SkipSpaces, SkipSecret;
    PasswordLabel(s);
  }

  lemma LongSecret()
    ensures CredentialEnd(MASKED_CARD, 0) == Some(|MASKED_CARD|)
  {
    hide CredentialEnd, SkipSecret, IsSecretChar;
    var s := MASKED_CARD;
    PasswordPrefix(s, s[10..]);
    forall k | 10 <= k < |s| ensures IsSecretChar(s[k]) { MaskIsSecret(k); }
    SecretToEnd(s, 10);
    PasswordCredential(s);
  }

  lemma NoCardIn(s: string)
    requires forall k :: 0 <= k < |s| ==> !IsDigit(s[k])
    ensures !Matches(PaymentCard, s, 0)
  {
    hide Matches, Replaced, CardEnd;
    forall k | 0 <= k < |s| ensures End(PaymentCard, s, k) == None { NoDigit(s, k); }
    NoMatches(PaymentCard, s, 0);
  }

  // Second pass: the mask is long enough a secret, so label and mask go.
  lemma LabelIsMasked()
    ensures Matches(Credential, MASKED_CARD, 0) && Replaced(Credential, MASKED_CARD, 0) == MASKED_LABEL
    ensures !Matches(PaymentCard, MASKED_CARD, 0) && !Matches(PaymentCard, MASKED_LABEL, 0)
  {
    hide Matches, Replaced, CredentialEnd;
    LongSecret();
    KeptBefore(Credential, MASKED_CARD, 0, 0);
    MaskedToEnd(Credential, MASKED_CARD, 0);
    assert MASKED_CARD[0..0] + MASKED_LABEL == MASKED_LABEL;
    NoCardIn(MASKED_CARD);
    NoCardIn(MASKED_LABEL);
  }

  // A pattern list in which the credential comes before the card, as second and
  // ninth of eleven, and the others leave the three texts alone.
  ghost predicate InOrder(ps: seq<Pattern>) {
    && |ps| == 11 && ps[1] == PatternOf(Credential) && ps[8] == PatternOf(PaymentCard)
    && forall k :: 0 <= k < |ps| && k != 1 && k != 8 ==>
         !ps[k].search(LABELLED_CARD) && !ps[k].search(MASKED_CARD) && !ps[k].search(MASKED_LABEL)
  }

  lemma {:induction false} OnlyAt(ps: seq<Pattern>, s: string, m: nat, n: nat)
    requires m < |ps| && n <= |ps| && ps[m].search(s)
    requires forall k :: 0 <= k < m ==> !ps[k].search(s)
    requires forall k :: m < k < |ps| ==> !ps[k].search(ps[m].sub(s))
    ensures CleanString(ps, s, n) == if n <= m then s else ps[m].sub(s)
  {
    if n > 0 { OnlyAt(ps, s, m, n - 1); }
  }

  // sanitize is not idempotent: once the card in a labelled secret is masked, the
  // label and the mask are a credential, which the second pass replaces.
  lemma NotIdempotent(r: Redactor)
    requires InOrder(r.patterns)
    ensures Clean(r, Str(LABELLED_CARD)) == Str(MASKED_CARD)
    ensures Clean(r, Clean(r, Str(LABELLED_CARD))) == Str(MASKED_LABEL) != Clean(r, Str(LABELLED_CARD))
  {
    hide Matches, Replaced, CleanString;
    var ps := r.patterns;
    CardIsMasked();
    LabelIsMasked();
    OnlyAt(ps, LABELLED_CARD, 8, 11);
    OnlyAt(ps, MASKED_CARD, 1, 11);
    assert MASKED_CARD[0] != MASKED_LABEL[0];
  }
}
