/**
 * `modify_text(text, intelligence)`: the reply mutator. The intelligence
 * level selects one of six bands (below 20, 20-49, 50-79, 80-99, exactly
 * 100, above 100); every band keeps the length of the text.
 *
 * The random module is an explicit argument: `Rng` holds three independent
 * streams of natural-number draws, and the k-th step of a loop that needs a
 * draw takes draw k of the stream it needs. Every property below holds for
 * every `Rng`.
 */
module TextModifier {

  /** `string.ascii_letters + " "`: the 52 ASCII letters, lower case first, then a space. */
  const Alphabet: string := "abcdefghijklmnopqrstuvwxyzABCDEFGHIJKLMNOPQRSTUVWXYZ "

  datatype Rng = Rng(coin: nat -> nat, letter: nat -> nat, index: nat -> nat)

  /** `random.randint(0, bound - 1)` on a draw. */
  function Pick(draw: nat, bound: nat): (i: nat)
    requires bound > 0
    ensures i < bound
  {
    draw % bound
  }

  /** `random.choice(string.ascii_letters + " ")` on a draw. */
  function RandomLetter(draw: nat): (c: char)
    ensures c in Alphabet
  {
    Alphabet[Pick(draw, |Alphabet|)]
  }

  /**
   * `random.random() < (50 - intelligence) / 30`, with the draw read as
   * `floor(30 * random.random())`: since `50 - intelligence` is an integer,
   * the two comparisons agree.
   */
  predicate Replaces(draw: nat, intelligence: int)
    ensures intelligence <= 20 ==> Replaces(draw, intelligence)
    ensures intelligence >= 50 ==> !Replaces(draw, intelligence)
  {
    draw % 30 < 50 - intelligence
  }

  // ---------------------------------------------------------------------
  // Band 0 (and every level below 20): a fresh random string

  /** `''.join(random.choice(ascii_letters + " ") for _ in range(n))`. */
  function Scramble(n: nat, rng: Rng): (r: string)
    ensures |r| == n
    ensures forall k :: 0 <= k < n ==> r[k] in Alphabet
  {
    var r := seq(n, k requires 0 <= k < n => RandomLetter(rng.letter(k)));
    assert forall k :: 0 <= k < n ==> r[k] == RandomLetter(rng.letter(k));
    r
  }

  // ---------------------------------------------------------------------
  // Band 20-49: each character is replaced independently

  /** The character the corrupting loop emits at position `k`. */
  function CorruptedAt(text: string, intelligence: int, rng: Rng, k: nat): (c: char)
    requires k < |text|
    ensures c == text[k] || c in Alphabet
    ensures intelligence <= 20 ==> c in Alphabet
    ensures intelligence >= 50 ==> c == text[k]
  {
    if Replaces(rng.coin(k), intelligence) then RandomLetter(rng.letter(k)) else text[k]
  }

  method Corrupt(text: string, intelligence: int, rng: Rng) returns (r: string)
    requires 20 <= intelligence < 50
    ensures |r| == |text|
    ensures forall k :: 0 <= k < |text| ==> r[k] == CorruptedAt(text, intelligence, rng, k)
    ensures forall k :: 0 <= k < |text| ==> r[k] == text[k] || r[k] in Alphabet
    ensures intelligence == 20 ==> forall k :: 0 <= k < |text| ==> r[k] in Alphabet
  {
    r := "";
    var k := 0;
    while k < |text|
      invariant k <= |text| && |r| == k
      invariant forall j :: 0 <= j < k ==> r[j] == CorruptedAt(text, intelligence, rng, j)
    {
      if Replaces(rng.coin(k), intelligence) {
        r := r + [RandomLetter(rng.letter(k))];
      } else {
        r := r + [text[k]];
      }
      k := k + 1;
    }
  }

  // ---------------------------------------------------------------------
  // Band 50-79: adjacent transpositions

  /** `max(1, int((80 - intelligence) / 30 * len(text) / 2))`, in exact arithmetic. */
  function SwapCount(intelligence: int, length: nat): (n: nat)
    requires 50 <= intelligence < 80
    ensures n >= 1
  {
    var computed := (80 - intelligence) * length / 60;
    if computed < 1 then 1 else computed
  }

  /** `s` with positions `i` and `i + 1` exchanged. */
  function SwapAdjacent(s: string, i: nat): (r: string)
    requires i + 1 < |s|
    ensures |r| == |s|
  {
    s[i := s[i + 1]][i + 1 := s[i]]
  }

  lemma SwapAdjacentIsPermutation(s: string, i: nat)
    requires i + 1 < |s|
    ensures multiset(SwapAdjacent(s, i)) == multiset(s)
  {
    assert s == s[..i] + [s[i], s[i + 1]] + s[i + 2..];
    assert SwapAdjacent(s, i) == s[..i] + [s[i + 1], s[i]] + s[i + 2..];
  }

  /** The text after the first `n` swaps, swap k at `randint(0, len(text) - 2)` on draw k. */
  function Swapped(s: string, rng: Rng, n: nat): (r: string)
    requires |s| >= 2
    ensures |r| == |s|
  {
    if n == 0 then s
    else SwapAdjacent(Swapped(s, rng, n - 1), Pick(rng.index(n - 1), |s| - 1))
  }

  /** However many swaps are made, the result is a permutation of the text. */
  lemma {:induction false} SwappedIsPermutation(s: string, rng: Rng, n: nat)
    requires |s| >= 2
    ensures multiset(Swapped(s, rng, n)) == multiset(s)
  {
    if n > 0 {
      SwappedIsPermutation(s, rng, n - 1);
      SwapAdjacentIsPermutation(Swapped(s, rng, n - 1), Pick(rng.index(n - 1), |s| - 1));
    }
  }

  /** `list(text)`: a fresh array holding the characters of the text. */
  method CopyInto(a: array<char>, s: string)
    requires a.Length == |s|
    modifies a
    ensures a[..] == s
  {
    forall j | 0 <= j < |s| {
      a[j] := s[j];
    }
  }

  /** `text_list[i], text_list[i + 1] = text_list[i + 1], text_list[i]`. */
  method SwapInPlace(a: array<char>, i: nat)
    requires i + 1 < a.Length
    modifies a
    ensures a[..] == SwapAdjacent(old(a[..]), i)
  {
    a[i], a[i + 1] := a[i + 1], a[i];
  }

  method Transpose(text: string, intelligence: int, rng: Rng) returns (r: string)
    requires 50 <= intelligence < 80
    ensures |text| < 2 ==> r == text
    ensures |text| >= 2 ==> r == Swapped(text, rng, SwapCount(intelligence, |text|))
    ensures multiset(r) == multiset(text) && |r| == |text|
  {
    var a := new char[|text|];
    CopyInto(a, text);
    var n := SwapCount(intelligence, |text|);
    var k := 0;
    while k < n
      invariant k <= n && a.Length == |text|
      invariant |text| < 2 ==> a[..] == text
      invariant |text| >= 2 ==> a[..] == Swapped(text, rng, k)
    {
      if a.Length < 2 {
        break;
      }
      SwapInPlace(a, Pick(rng.index(k), a.Length - 1));
      k := k + 1;
    }
    r := a[..];
    if |text| >= 2 {
      SwappedIsPermutation(text, rng, n);
    }
  }

  // ---------------------------------------------------------------------
  // Band 80-99: single-position overwrites

  /** `max(1, int((100 - intelligence) / 20))`: one for every level of the band. */
  function ChangeCount(intelligence: int): (n: nat)
    requires 80 <= intelligence < 100
    ensures n == 1
  {
    var computed := (100 - intelligence) / 20;
    if computed < 1 then 1 else computed
  }

  /** The text after the first `n` overwrites, overwrite k at `randint(0, len(text) - 1)` on draw k. */
  function Overwritten(s: string, rng: Rng, n: nat): (r: string)
    ensures |r| == |s|
  {
    if n == 0 || |s| == 0 then s
    else
      var t := Overwritten(s, rng, n - 1);
      t[Pick(rng.index(n - 1), |t|) := RandomLetter(rng.letter(n - 1))]
  }

  /** The number of positions at which two texts of equal length differ. */
  function DiffCount(a: string, b: string): nat
    requires |a| == |b|
  {
    if |a| == 0 then 0
    else (if a[0] != b[0] then 1 else 0) + DiffCount(a[1..], b[1..])
  }

  /** Overwriting one position adds at most one difference. */
  lemma {:induction false} DiffCountUpdate(a: string, b: string, i: nat, c: char)
    requires |a| == |b| && i < |a|
    ensures DiffCount(a[i := c], b) <= DiffCount(a, b) + 1
  {
    if i > 0 {
      assert a[i := c][1..] == a[1..][i - 1 := c];
      DiffCountUpdate(a[1..], b[1..], i - 1, c);
    } else {
      assert a[i := c][1..] == a[1..];
    }
  }

  /** After `n` overwrites, at most `n` positions differ, and each differing one holds a letter of the alphabet. */
  lemma {:induction false} OverwrittenChanges(s: string, rng: Rng, n: nat)
    ensures DiffCount(Overwritten(s, rng, n), s) <= n
    ensures forall k :: 0 <= k < |s| ==> Overwritten(s, rng, n)[k] == s[k] || Overwritten(s, rng, n)[k] in Alphabet
  {
    if n == 0 || |s| == 0 {
      DiffCountSame(s);
    } else {
      OverwrittenChanges(s, rng, n - 1);
      var t := Overwritten(s, rng, n - 1);
      DiffCountUpdate(t, s, Pick(rng.index(n - 1), |t|), RandomLetter(rng.letter(n - 1)));
    }
  }

  lemma {:induction false} DiffCountSame(s: string)
    ensures DiffCount(s, s) == 0
  {
    if |s| > 0 {
      DiffCountSame(s[1..]);
    }
  }

  /** Two texts of equal length differ nowhere exactly when they are equal. */
  lemma {:induction false} DiffCountZeroIffEqual(a: string, b: string)
    requires |a| == |b|
    ensures DiffCount(a, b) == 0 <==> a == b
  {
    if a == b {
      DiffCountSame(a);
    } else if |a| > 0 {
      if a[0] == b[0] {
        DiffCountZeroIffEqual(a[1..], b[1..]);
        assert a == [a[0]] + a[1..] && b == [b[0]] + b[1..];
      }
    }
  }

  method Overwrite(text: string, intelligence: int, rng: Rng) returns (r: string)
    requires 80 <= intelligence < 100
    ensures r == Overwritten(text, rng, ChangeCount(intelligence))
    ensures |r| == |text| && DiffCount(r, text) <= ChangeCount(intelligence)
    ensures forall k :: 0 <= k < |text| ==> r[k] == text[k] || r[k] in Alphabet
  {
    var a := new char[|text|];
    CopyInto(a, text);
    var n := ChangeCount(intelligence);
    var k := 0;
    while k < n
      invariant k <= n
      invariant a[..] == Overwritten(text, rng, k)
    {
      if a.Length == 0 {
        break;
      }
      var i := Pick(rng.index(k), a.Length);
      a[i] := RandomLetter(rng.letter(k));
      k := k + 1;
    }
    r := a[..];
    OverwrittenChanges(text, rng, n);
  }

  // ---------------------------------------------------------------------
  // The dispatcher

  method ModifyText(text: string, intelligence: int, rng: Rng) returns (r: string)
    decreases if intelligence == 0 then 0 else 1
    ensures |r| == |text|
    ensures intelligence < 20 ==> r == Scramble(|text|, rng)
    ensures 20 <= intelligence < 50 ==> forall k :: 0 <= k < |text| ==> r[k] == text[k] || r[k] in Alphabet
    ensures 50 <= intelligence < 80 ==> multiset(r) == multiset(text) && (|text| < 2 ==> r == text)
    ensures 80 <= intelligence < 100 ==> DiffCount(r, text) <= 1
    ensures intelligence >= 100 ==> r == text
  {
    if intelligence == 0 {
      r := Scramble(|text|, rng);
    } else if intelligence == 100 {
      r := text;
    } else if intelligence < 20 {
      r := ModifyText(text, 0, rng);
    } else if intelligence < 50 {
      r := Corrupt(text, intelligence, rng);
    } else if intelligence < 80 {
      r := Transpose(text, intelligence, rng);
    } else if intelligence < 100 {
      r := Overwrite(text, intelligence, rng);
    } else {
      r := text;
    }
  }
}
