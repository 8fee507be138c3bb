/**
 How LND's words are read: statuses up to blanks and case, payment hashes by name or as bytes.
 Everything is stated on the characters and the fields of what LND sends.
 */
module LndWords {
  import opened Prelude
  import opened Json
  import opened LndClient
  import opened LightningPay
  import JsonText

  // ------------------------------------------------------------ letters and blanks

  /** The same character, or the same ASCII letter in the other case. */
  predicate SameLetter(a: char, b: char) {
    || a == b
    || ('A' <= a <= 'Z' && b as int == a as int + 32)
    || ('A' <= b <= 'Z' && a as int == b as int + 32)
  }

  predicate SameUpToCase(a: string, b: string) {
    |a| == |b| && forall i :: 0 <= i < |a| ==> SameLetter(a[i], b[i])
  }

  /** ASCII white space: tab to carriage return, the four separators, and the space. */
  predicate WhiteSpace(c: char) {
    9 <= c as int <= 13 || 28 <= c as int <= 32
  }

  predicate AllWhite(text: string) {
    forall i :: 0 <= i < |text| ==> WhiteSpace(text[i])
  }

  /** The word, in any mix of case, with any white space around it. */
  ghost predicate Spells(text: string, word: string) {
    exists i, j :: 0 <= i <= j <= |text|
      && AllWhite(text[..i]) && SameUpToCase(text[i..j], word) && AllWhite(text[j..])
  }

  // ------------------------------------------------------------ statuses

  lemma BlanksAreWhite(c: char)
    ensures Blank(c) <==> WhiteSpace(c)
  {
  }

  lemma {:induction false} StripLeftDrops(pre: string, rest: string)
    requires AllWhite(pre) && (rest != "" ==> !WhiteSpace(rest[0]))
    ensures StripLeft(pre + rest) == rest
  {
    if pre == "" {
      assert pre + rest == rest;
    } else {
      assert (pre + rest)[1..] == pre[1..] + rest;
      StripLeftDrops(pre[1..], rest);
    }
  }

  lemma {:induction false} StripRightDrops(rest: string, post: string)
    requires AllWhite(post) && (rest != "" ==> !WhiteSpace(rest[|rest| - 1]))
    ensures StripRight(rest + post) == rest
  {
    if post == "" {
      assert rest + post == rest;
    } else {
      var init := post[..|post| - 1];
      assert (rest + post)[..|rest + post| - 1] == rest + init;
      StripRightDrops(rest, init);
    }
  }

  /** A text that begins and ends without white space, and white space around it. */
  lemma StripsTo(pre: string, core: string, post: string)
    requires AllWhite(pre) && AllWhite(post) && core != "" && !WhiteSpace(core[0]) && !WhiteSpace(core[|core| - 1])
    ensures StripRight(StripLeft(pre + core + post)) == core
  {
    assert pre + core + post == pre + (core + post);
    StripLeftDrops(pre, core + post);
    StripRightDrops(core, post);
  }

  lemma {:induction false} LeftPart(text: string) returns (i: nat)
    ensures i <= |text| && AllWhite(text[..i]) && StripLeft(text) == text[i..]
  {
    if text != "" && Blank(text[0]) {
      var k := LeftPart(text[1..]);
      i := k + 1;
      assert text[..i] == [text[0]] + text[1..][..k];
    } else {
      i := 0;
    }
  }

  lemma {:induction false} RightPart(text: string) returns (j: nat)
    ensures j <= |text| && AllWhite(text[j..]) && StripRight(text) == text[..j]
  {
    if text != "" && Blank(text[|text| - 1]) {
      var init := text[..|text| - 1];
      j := RightPart(init);
      assert text[j..] == init[j..] + [text[|text| - 1]];
      assert init[..j] == text[..j];
    } else {
      j := |text|;
    }
  }

  /** A word of the tables: capitals and underscores only. */
  predicate CapitalWord(word: string) {
    word != "" && forall i :: 0 <= i < |word| ==> 'A' <= word[i] <= 'Z' || word[i] == '_'
  }

  lemma UpperSpells(text: string, word: string)
    requires CapitalWord(word)
    ensures Upper(text) == word <==> SameUpToCase(text, word)
  {
    if SameUpToCase(text, word) {
      assert forall i :: 0 <= i < |word| ==> Upper(text)[i] == word[i];
    }
    if Upper(text) == word {
      assert forall i :: 0 <= i < |text| ==> Upper(text)[i] == word[i];
    }
  }

  lemma WordsHaveNoBlanks(core: string, word: string)
    requires CapitalWord(word) && SameUpToCase(core, word)
    ensures core != "" && !WhiteSpace(core[0]) && !WhiteSpace(core[|core| - 1])
  {
    assert SameLetter(core[0], word[0]) && SameLetter(core[|core| - 1], word[|word| - 1]);
  }

  lemma SpelledIsStripped(text: string, word: string)
    requires CapitalWord(word) && Spells(text, word)
    ensures Upper(StripRight(StripLeft(text))) == word
  {
    hide Upper, StripRight, StripLeft, WhiteSpace, SameUpToCase;
    var i, j :| 0 <= i <= j <= |text|
      && AllWhite(text[..i]) && SameUpToCase(text[i..j], word) && AllWhite(text[j..]);
    var core := text[i..j];
    assert core != "" && !WhiteSpace(core[0]) && !WhiteSpace(core[|core| - 1]) by { WordsHaveNoBlanks(core, word); }
    assert text == text[..i] + core + text[j..];
    StripsTo(text[..i], core, text[j..]);
    UpperSpells(core, word);
  }

  lemma StrippedIsSpelled(text: string, word: string)
    requires CapitalWord(word) && Upper(StripRight(StripLeft(text))) == word
    ensures Spells(text, word)
  {
    hide Upper, StripRight, StripLeft, CapitalWord, SameUpToCase, AllWhite;
    var i := LeftPart(text);
    var k := RightPart(text[i..]);
    UpperSpells(text[i..][..k], word);
    assert text[i..][..k] == text[i..i + k] && text[i..][k..] == text[i + k..];
  }

  ghost predicate SpellsOne(text: string, words: set<string>) {
    exists word :: word in words && Spells(text, word)
  }

  /** Which statuses mean what: the tables of the adapter, up to case and surrounding white space. */
  lemma StatusesExactly(status: string)
    ensures StateNamed(status) == SaysSucceeded
      <==> SpellsOne(status, {"SUCCEEDED", "SETTLED", "COMPLETED", "COMPLETE"})
    ensures StateNamed(status) == SaysFailed
      <==> SpellsOne(status, {"FAILED", "FAILURE", "CANCELED", "CANCELLED"})
    ensures StateNamed(status) == SaysInFlight
      <==> SpellsOne(status, {"IN_FLIGHT", "INITIATED", "PENDING", "SUBMITTED"})
    ensures StateNamed(status) in {SaysSucceeded, SaysFailed, SaysInFlight, SaysNothing}
  {
    hide Spells, Upper, StripRight, StripLeft;
    var text := Upper(StripRight(StripLeft(status)));
    forall word | CapitalWord(word)
      ensures text == word <==> Spells(status, word)
    {
      if text == word { StrippedIsSpelled(status, word); }
      if Spells(status, word) { SpelledIsStripped(status, word); }
    }
    WordsAreCapital();
    TablesAreApart();
  }

  const SUCCESS := {"SUCCEEDED", "SETTLED", "COMPLETED", "COMPLETE"}
  const FAILURE := {"FAILED", "FAILURE", "CANCELED", "CANCELLED"}
  const FLIGHT := {"IN_FLIGHT", "INITIATED", "PENDING", "SUBMITTED"}

  lemma WordsAreCapital()
    ensures forall word :: word in SUCCESS + FAILURE + FLIGHT ==> CapitalWord(word)
  {
  }

  lemma TablesAreApart()
    ensures SUCCESS !! FAILURE && SUCCESS !! FLIGHT && FAILURE !! FLIGHT
  {
    forall word | word in SUCCESS ensures word !in FAILURE && word !in FLIGHT { Apart(word); }
    forall word | word in FAILURE ensures word !in FLIGHT { Apart(word); }
  }

  /** A number that tells the tables apart. */
  function TableOf(word: string): nat {
    if |word| < 2 then 0
    else if word[0] == 'S' then (if word[1] == 'U' && |word| > 2 && word[2] == 'B' then 3 else 1)
    else if word[0] == 'C' then (if word[1] == 'O' then 1 else 2)
    else if word[0] == 'F' then 2
    else 3
  }

  lemma Apart(word: string)
    ensures word in SUCCESS ==> TableOf(word) == 1
    ensures word in FAILURE ==> TableOf(word) == 2
    ensures word in FLIGHT ==> TableOf(word) == 3
  {
  }

  // ------------------------------------------------------------ statuses that are no texts

  /** The status is a text that spells one of the words. */
  ghost predicate StatusSays(status: Json, words: set<string>) {
    status.Str? && SpellsOne(status.s, words)
  }

  lemma SpelledStart(text: string, word: string)
    requires CapitalWord(word) && Spells(text, word)
    ensures |text| >= |word| && (WhiteSpace(text[0]) || SameLetter(text[0], word[0]))
  {
  }

  lemma PrintStart(v: Json)
    requires v.Arr? || v.Obj?
    ensures JsonText.Print(v) != "" && JsonText.Print(v)[0] in {'[', '{'}
  {
  }

  lemma OnlyTextsSpell(status: Json, word: string)
    requires CapitalWord(word) && |word| >= 6 && Spells(TextOr(status), word)
    ensures status.Str?
  {
    SpelledStart(TextOr(status), word);
    if status.Arr? || status.Obj? {
      PrintStart(status);
    }
  }

  lemma WordsAreLong()
    ensures forall word :: word in SUCCESS + FAILURE + FLIGHT ==> |word| >= 6
  {
  }

  lemma OnlyTextsSay(status: Json)
    ensures forall word :: word in SUCCESS + FAILURE + FLIGHT ==>
      (Spells(TextOr(status), word) <==> status.Str? && Spells(status.s, word))
  {
    hide Spells;
    WordsAreLong();
    WordsAreCapital();
    forall word | word in SUCCESS + FAILURE + FLIGHT
      ensures Spells(TextOr(status), word) <==> status.Str? && Spells(status.s, word)
    {
      if Spells(TextOr(status), word) { OnlyTextsSpell(status, word); }
      if status == Str("") && Spells("", word) { SpelledStart("", word); }
    }
  }

  /** A status of any kind means success, failure or flight if and only if it is a text that spells such a word. */
  lemma StatusReads(status: Json)
    ensures StateNamed(TextOr(status)) == SaysSucceeded
      <==> StatusSays(status, {"SUCCEEDED", "SETTLED", "COMPLETED", "COMPLETE"})
    ensures StateNamed(TextOr(status)) == SaysFailed
      <==> StatusSays(status, {"FAILED", "FAILURE", "CANCELED", "CANCELLED"})
    ensures StateNamed(TextOr(status)) == SaysInFlight
      <==> StatusSays(status, {"IN_FLIGHT", "INITIATED", "PENDING", "SUBMITTED"})
    ensures StateNamed(TextOr(status)) in {SaysSucceeded, SaysFailed, SaysInFlight, SaysNothing}
  {
    hide Spells, StateNamed;
    StatusesExactly(TextOr(status));
    OnlyTextsSay(status);
  }
}
