/** The temporary password the handler gives a new account (`randomPassword`).
    Each character is taken from a fixed 62-character alphabet; the random
    choice of `Math.random()` is modelled as a supplied sequence of draws, one
    alphabet index per character. */
module Password {

  const Upper1: string := "ABCDEFGH"
  const Upper2: string := "JKLMN"
  const Upper3: string := "PQRSTUVWXYZ"
  const Lower1: string := "abcdefghijk"
  const Lower2: string := "mnopqrstuvwxyz"
  const Digits: string := "23456789"
  const Symbols: string := "!@#$%"

  /** The password alphabet, character for character and in the same order as
      index.js:4: upper case without I and O, lower case without l, digits 2 to 9,
      and five symbols, written as the runs between the characters left out. */
  const Alphabet: string := Upper1 + Upper2 + Upper3 + Lower1 + Lower2 + Digits + Symbols

  /** The length `randomPassword()` uses when called without an argument. */
  const DefaultLength: nat := 24

  /** Characters easily confused with one another, kept out of the alphabet. */
  const Ambiguous: string := "0O1lI"

  /** One random draw: an index into the alphabet. */
  type Pick = i: nat | i < 62

  /** The characters a generated password may contain. */
  predicate SafeChar(c: char) {
    && ('A' <= c <= 'Z' || 'a' <= c <= 'z' || '2' <= c <= '9' || c in "!@#$%")
    && c !in Ambiguous
  }

  /** `randomPassword(|draws|)`: character i is the alphabet entry chosen by draw i. */
  function RandomPassword(draws: seq<Pick>): (pw: string)
    ensures |pw| == |draws|
    ensures forall i :: 0 <= i < |pw| ==> pw[i] == Alphabet[draws[i]]
  {
    if draws == [] then [] else [Alphabet[draws[0]]] + RandomPassword(draws[1..])
  }

  /** The position of a character in the alphabet, or -1 when it is not there.
      Written by character ranges, independently of the alphabet literal. */
  function IndexOf(c: char): int {
    if 'A' <= c <= 'H' then c as int - 'A' as int
    else if 'J' <= c <= 'N' then c as int - 'J' as int + 8
    else if 'P' <= c <= 'Z' then c as int - 'P' as int + 13
    else if 'a' <= c <= 'k' then c as int - 'a' as int + 24
    else if 'm' <= c <= 'z' then c as int - 'm' as int + 35
    else if '2' <= c <= '9' then c as int - '2' as int + 49
    else if c == '!' then 57
    else if c == '@' then 58
    else if c == '#' then 59
    else if c == '$' then 60
    else if c == '%' then 61
    else -1
  }

  /** The draws that a password was generated from, read back character by character. */
  function Draws(pw: string): seq<int> {
    if pw == [] then [] else [IndexOf(pw[0])] + Draws(pw[1..])
  }

  /** The alphabet position of character i of s is offset + i. */
  predicate IndexedFrom(s: string, offset: int) {
    forall i :: 0 <= i < |s| ==> IndexOf(s[i]) == offset + i
  }

  /** Every character `IndexOf` places in the alphabet is safe. */
  lemma IndexedCharIsSafe(c: char)
    requires IndexOf(c) >= 0
    ensures SafeChar(c)
  {
  }

  /** s is the run of consecutive characters starting at `first`. */
  predicate Run(s: string, first: char) {
    forall i :: 0 <= i < |s| ==> s[i] as int == first as int + i
  }

  lemma UpperIndexed()
    ensures IndexedFrom(Upper1, 0) && IndexedFrom(Upper2, 8) && IndexedFrom(Upper3, 13)
  {
    assert Run(Upper1, 'A') && Run(Upper2, 'J') && Run(Upper3, 'P');
  }

  lemma LowerIndexed()
    ensures IndexedFrom(Lower1, 24) && IndexedFrom(Lower2, 35)
  {
    assert Run(Lower1, 'a') && Run(Lower2, 'm');
  }

  lemma DigitsAndSymbolsIndexed()
    ensures IndexedFrom(Digits, 49) && IndexedFrom(Symbols, 57)
  {
    assert Run(Digits, '2');
  }

  lemma IndexedConcat(a: string, b: string, k: int)
    requires IndexedFrom(a, k) && IndexedFrom(b, k + |a|)
    ensures IndexedFrom(a + b, k)
  {
  }

  /** The alphabet has 62 characters, each safe, and `IndexOf` finds each at its own
      position, so no character occurs twice. */
  lemma AlphabetWellFormed()
    ensures |Alphabet| == 62
    ensures forall i :: 0 <= i < |Alphabet| ==> IndexOf(Alphabet[i]) == i && SafeChar(Alphabet[i])
  {
    UpperIndexed();
    LowerIndexed();
    DigitsAndSymbolsIndexed();
    IndexedConcat(Upper1, Upper2, 0);
    IndexedConcat(Upper1 + Upper2, Upper3, 0);
    IndexedConcat(Upper1 + Upper2 + Upper3, Lower1, 0);
    IndexedConcat(Upper1 + Upper2 + Upper3 + Lower1, Lower2, 0);
    IndexedConcat(Upper1 + Upper2 + Upper3 + Lower1 + Lower2, Digits, 0);
    IndexedConcat(Upper1 + Upper2 + Upper3 + Lower1 + Lower2 + Digits, Symbols, 0);
    forall i | 0 <= i < |Alphabet|
      ensures SafeChar(Alphabet[i])
    {
      IndexedCharIsSafe(Alphabet[i]);
    }
  }

  /** No two positions of the alphabet hold the same character. */
  lemma AlphabetDistinct(i: nat, j: nat)
    requires i < |Alphabet| && j < |Alphabet| && i != j
    ensures Alphabet[i] != Alphabet[j]
  {
    AlphabetWellFormed();
  }

  /** Every generated password consists of safe characters only: none of 0, O, 1, l, I. */
  lemma PasswordIsSafe(draws: seq<Pick>)
    ensures forall i :: 0 <= i < |RandomPassword(draws)| ==>
      SafeChar(RandomPassword(draws)[i]) && RandomPassword(draws)[i] !in Ambiguous
  {
    AlphabetWellFormed();
  }

  /** The draws can be read back from the password: each of the 62^n passwords of
      length n comes from exactly one sequence of n draws. */
  lemma {:induction false} DrawsRoundTrip(draws: seq<Pick>)
    ensures Draws(RandomPassword(draws)) == draws
  {
    if draws != [] {
      AlphabetWellFormed();
      DrawsRoundTrip(draws[1..]);
      assert RandomPassword(draws)[1..] == RandomPassword(draws[1..]);
    }
  }

  /** Different draws give different passwords. */
  lemma PasswordInjective(d1: seq<Pick>, d2: seq<Pick>)
    requires RandomPassword(d1) == RandomPassword(d2)
    ensures d1 == d2
  {
    DrawsRoundTrip(d1);
    DrawsRoundTrip(d2);
  }
}
