/** The daily challenge of `src/lib/challenges.ts`: a 32-bit string hash of the
    day's date picks one of fifteen fixed challenges. */
module Challenges {

  const Challenges: seq<string> := [
    "Trinke 2L Wasser",
    "Lies 10 Seiten",
    "Meditiere 5 Minuten",
    "Geh 15 Min spazieren",
    "Räum deinen Schreibtisch auf",
    "Ruf jemanden an, den du magst",
    "Kein Social Media für 1 Stunde",
    "Mach 10 Liegestütze (oder Kniebeugen)",
    "Iss ein Stück Obst",
    "Schreib 3 Dinge auf, für die du dankbar bist",
    "Lerne ein neues Wort",
    "Hör dir einen Podcast an",
    "Mach dein Bett",
    "Plan den morgigen Tag",
    "Atme 2 Min tief durch"
  ]

  const TwoTo31: int := 0x8000_0000
  const TwoTo32: int := 0x1_0000_0000

  /** The JavaScript ToInt32 conversion: the signed 32-bit value congruent to `x`. */
  function Wrap32(x: int): (r: int)
    ensures -TwoTo31 <= r < TwoTo31
    ensures (-TwoTo31 <= x < TwoTo31) ==> r == x
  {
    (x + TwoTo31) % TwoTo32 - TwoTo31
  }

  /** Adding a multiple of 2^32 does not change the 32-bit value. */
  lemma Wrap32Shift(x: int, k: int)
    ensures Wrap32(x + k * TwoTo32) == Wrap32(x)
  {
    var y := x + TwoTo31;
    assert (y + k * TwoTo32) % TwoTo32 == y % TwoTo32 by {
      var q, m := y / TwoTo32, y % TwoTo32;
      assert y == q * TwoTo32 + m && 0 <= m < TwoTo32;
      assert y + k * TwoTo32 == (q + k) * TwoTo32 + m;
    }
  }

  /** Wrapping differs from the value by a multiple of 2^32. */
  lemma Wrap32Decompose(x: int) returns (k: int)
    ensures Wrap32(x) == x + k * TwoTo32
  {
    var y := x + TwoTo31;
    k := -(y / TwoTo32);
    assert y == (y / TwoTo32) * TwoTo32 + y % TwoTo32;
  }

  /** One step of the `reduce`: `((a << 5) - a) + code`, then `a & a`. The shift works on
      the 32-bit value and wraps; the subtraction and addition are exact. */
  function HashStep(a: int, code: int): int
  {
    Wrap32(Wrap32(a * 32) - a + code)
  }

  /** For a hash value the step is `31 * a + code` wrapped to signed 32 bits. */
  lemma HashStepIsTimes31(a: int, code: int)
    ensures HashStep(a, code) == Wrap32(31 * a + code)
  {
    var k := Wrap32Decompose(a * 32);
    assert Wrap32(a * 32) - a + code == (31 * a + code) + k * TwoTo32;
    Wrap32Shift(31 * a + code, k);
  }

  /** The fold from the left over the characters, starting at 0; each character counts
      with its code (`charCodeAt(0)`). */
  function DateHash(s: string): (h: int)
    ensures -TwoTo31 <= h < TwoTo31
  {
    if s == [] then 0 else HashStep(DateHash(s[..|s| - 1]), s[|s| - 1] as int)
  }

  /** The same polynomial without any wrapping: sum of code(s[i]) * 31^(|s|-1-i). */
  function Polynomial(s: string): int
  {
    if s == [] then 0 else 31 * Polynomial(s[..|s| - 1]) + s[|s| - 1] as int
  }

  /** The hash is the base-31 polynomial of the character codes, reduced to signed 32 bits:
      the wrap of every step equals one wrap at the end. */
  lemma {:induction false} DateHashIsPolynomial(s: string)
    ensures DateHash(s) == Wrap32(Polynomial(s))
  {
    if s != [] {
      var init, c := s[..|s| - 1], s[|s| - 1] as int;
      DateHashIsPolynomial(init);
      HashStepIsTimes31(DateHash(init), c);
      var k := Wrap32Decompose(Polynomial(init));
      assert 31 * DateHash(init) + c == Polynomial(s) + (31 * k) * TwoTo32;
      Wrap32Shift(Polynomial(s), 31 * k);
    }
  }

  function Abs(x: int): nat
  {
    if x < 0 then -x else x
  }

  /** `Math.abs(hash) % challenges.length`. */
  function ChallengeIndex(date: string): (i: nat)
    ensures i < |Challenges|
  {
    Abs(DateHash(date)) % |Challenges|
  }

  /** `getDailyChallenge` for the UTC date `date` (YYYY-MM-DD). */
  function DailyChallenge(date: string): (c: string)
    ensures c in Challenges
    ensures c == Challenges[ChallengeIndex(date)]
  {
    Challenges[ChallengeIndex(date)]
  }

  /** A one-character string hashes to its own character code, so it picks challenge
      code % 15. */
  lemma SingleCharacter(ch: char)
    requires (ch as int) < TwoTo31
    ensures DateHash([ch]) == ch as int
    ensures ChallengeIndex([ch]) == (ch as int) % 15
  {
    assert [ch][..0] == [];
  }

  /** The first three characters of every date from 2020 to 2029, "202", fix the hash
      prefix 31^2 * 50 + 31 * 48 + 50. */
  lemma CenturyPrefix()
    ensures DateHash("202") == 50 * 961 + 48 * 31 + 50
  {
    assert "202"[..2] == "20";
    assert "20"[..1] == "2";
    assert "2"[..0] == "";
    DateHashIsPolynomial("202");
  }
}
