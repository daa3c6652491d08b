/**
 The Uzbek Latin to Cyrillic transliterator: an index-driven scanner that looks one rune back and
 up to two runes ahead. The Unicode tables are a parameter; all that is asked of them is that a
 rune which is not a letter does not lower-case to one of a..z.
 */
module Cyrillic {
  import opened Options

  datatype Tables = Tables(isLetter: char -> bool, isUpper: char -> bool, toLower: char -> char, toUpper: string -> string)

  ghost predicate Sane(u: Tables) { forall c: char :: !u.isLetter(c) ==> !('a' <= u.toLower(c) <= 'z') }

  predicate IsLatinVowel(u: Tables, r: char) {
    var c := u.toLower(r);
    c == 'a' || c == 'e' || c == 'i' || c == 'o' || c == 'u'
  }

  predicate IsLatinConsonant(u: Tables, r: char) { u.isLetter(r) && !IsLatinVowel(u, r) }

  /** Neither a letter nor an apostrophe. */
  predicate Separator(u: Tables, c: char) { !u.isLetter(c) && c != '\'' }

  function Cap(u: Tables, lower: string, isUpper: bool): string { if isUpper then u.toUpper(lower) else lower }

  /** Single letters; e, w and everything outside a..z have no entry. */
  function Single(lc: char): (r: Option<string>)
    ensures r.Some? ==> 'a' <= lc <= 'z'
  {
    match lc
    case 'a' => Some("а") case 'b' => Some("б") case 'c' => Some("ц") case 'd' => Some("д")
    case 'f' => Some("ф") case 'g' => Some("г") case 'h' => Some("ҳ") case 'i' => Some("и")
    case 'j' => Some("ж") case 'k' => Some("к") case 'l' => Some("л") case 'm' => Some("м")
    case 'n' => Some("н") case 'o' => Some("о") case 'p' => Some("п") case 'q' => Some("қ")
    case 'r' => Some("р") case 's' => Some("с") case 't' => Some("т") case 'u' => Some("у")
    case 'v' => Some("в") case 'x' => Some("х") case 'y' => Some("й") case 'z' => Some("з")
    case _ => None
  }

  /** The lower-cased rune after position i, or NUL. */
  function NextLower(u: Tables, r: string, i: nat): char { if i + 1 < |r| then u.toLower(r[i + 1]) else '\0' }

  predicate ApostropheAt(r: string, i: nat) { i < |r| && r[i] == '\'' }

  predicate AfterConsonant(u: Tables, r: string, i: nat)
    requires i <= |r|
  {
    i > 0 && IsLatinConsonant(u, r[i - 1])
  }

  /** A word start, or a place after a vowel, where e becomes э. */
  predicate HardE(u: Tables, r: string, i: nat)
    requires i <= |r|
  {
    i == 0 || Separator(u, r[i - 1]) || IsLatinVowel(u, r[i - 1])
  }

  function Iotated(u: Tables, r: string, i: nat, ln: char): string
    requires i <= |r|
  {
    if ln == 'a' then "я" else if ln == 'o' then "ё" else if ln == 'u' then "ю"
    else if AfterConsonant(u, r, i) then "ъе" else "е"
  }

  /** What the scanner writes at position i, and how many runes it consumes. */
  function Emit(u: Tables, r: string, i: nat): (e: (string, nat))
    requires i < |r|
    ensures 1 <= e.1 <= 2 && i + e.1 <= |r|
  {
    var isUpper, lc, ln := u.isUpper(r[i]), u.toLower(r[i]), NextLower(u, r, i);
    if ApostropheAt(r, i + 1) && (lc == 'o' || lc == 'g') then (Cap(u, if lc == 'o' then "ў" else "ғ", isUpper), 2)
    else if lc == 's' && ln == 'h' then (Cap(u, "ш", isUpper), 2)
    else if lc == 'c' && ln == 'h' then (Cap(u, "ч", isUpper), 2)
    else if lc == 't' && ln == 's' then (Cap(u, "ц", isUpper), 2)
    else if lc == 'y' && (ln == 'a' || ln == 'u' || ln == 'e' || (ln == 'o' && !ApostropheAt(r, i + 2)))
    then (Cap(u, Iotated(u, r, i, ln), isUpper), 2)
    else if r[i] == '\'' then ("ъ", 1)
    else if lc == 'e' then (Cap(u, if HardE(u, r, i) then "э" else "е", isUpper), 1)
    else if Single(lc).Some? then (Cap(u, Single(lc).value, isUpper), 1)
    else ([r[i]], 1)
  }

  function Scan(u: Tables, r: string, i: nat): string
    decreases |r| - i
  {
    if i >= |r| then "" else Emit(u, r, i).0 + Scan(u, r, i + Emit(u, r, i).1)
  }

  lemma ScanOnce(u: Tables, r: string, i: nat)
    requires i < |r|
    ensures Scan(u, r, i) == Emit(u, r, i).0 + Scan(u, r, i + Emit(u, r, i).1)
  {}

  lemma Regroup(a: string, b: string, c: string)
    ensures a + (b + c) == (a + b) + c
  {}

  /** One turn of the loop: the cases in the order they are tried. */
  method EmitAt(u: Tables, r: string, i: nat) returns (piece: string, width: nat)
    requires i < |r|
    ensures (piece, width) == Emit(u, r, i)
  {
    var c := r[i];
    var isUpper, lc := u.isUpper(c), u.toLower(c);
    var ln := '\0';
    if i + 1 < |r| {
      ln := u.toLower(r[i + 1]);
    }
    if i + 1 < |r| && r[i + 1] == '\'' && (lc == 'o' || lc == 'g') {
      return Cap(u, if lc == 'o' then "ў" else "ғ", isUpper), 2;
    }
    if lc == 's' && ln == 'h' {
      return Cap(u, "ш", isUpper), 2;
    }
    if lc == 'c' && ln == 'h' {
      return Cap(u, "ч", isUpper), 2;
    }
    if lc == 't' && ln == 's' {
      return Cap(u, "ц", isUpper), 2;
    }
    if lc == 'y' && (ln == 'a' || ln == 'o' || ln == 'u' || ln == 'e') {
      var startsApostrophe := ln == 'o' && i + 2 < |r| && r[i + 2] == '\'';
      if !startsApostrophe {
        return Cap(u, Iotated(u, r, i, ln), isUpper), 2;
      }
    }
    if c == '\'' {
      return "ъ", 1;
    }
    if lc == 'e' {
      return Cap(u, if HardE(u, r, i) then "э" else "е", isUpper), 1;
    }
    var m := Single(lc);
    if m.Some? {
      return Cap(u, m.value, isUpper), 1;
    }
    return [c], 1;
  }

  /** The scanner as a loop that advances by one or two runes. */
  method ToCyrillic(u: Tables, r: string) returns (out: string)
    ensures out == Scan(u, r, 0)
  {
    out := "";
    var i := 0;
    while i < |r|
      invariant 0 <= i <= |r|
      invariant out + Scan(u, r, i) == Scan(u, r, 0)
    {
      var piece, width := EmitAt(u, r, i);
      ScanOnce(u, r, i);
      Regroup(out, piece, Scan(u, r, i + width));
      out := out + piece;
      i := i + width;
    }
    assert out + "" == out;
  }

  // ---------------------------------------------------------------- words do not see each other

  lemma EmitBeforeSeparator(u: Tables, s: string, c: char, t: string, i: nat)
    requires Sane(u) && Separator(u, c) && i < |s|
    ensures Emit(u, s + [c] + t, i) == Emit(u, s, i)
  {
    var r := s + [c] + t;
    assert forall k :: 0 <= k < |s| ==> r[k] == s[k];
    assert r[|s|] == c;
    assert i > 0 ==> r[i - 1] == s[i - 1];
  }

  lemma EmitAtSeparator(u: Tables, s: string, c: char, t: string)
    requires Sane(u) && Separator(u, c)
    ensures Emit(u, s + [c] + t, |s|) == ([c], 1)
  {
    assert (s + [c] + t)[|s|] == c;
  }

  /** The scanner looks at the runes from i on and, behind it, only for a word start, a vowel or a consonant. */
  lemma EmitIsLocal(u: Tables, r: string, i: nat, t: string, j: nat)
    requires i < |r| && j < |t| && |r| - i == |t| - j && r[i..] == t[j..]
    requires HardE(u, r, i) == HardE(u, t, j) && AfterConsonant(u, r, i) == AfterConsonant(u, t, j)
    ensures Emit(u, r, i) == Emit(u, t, j)
  {
    assert forall k: nat :: i + k < |r| ==> r[i..][k] == r[i + k] && t[j..][k] == t[j + k];
    assert r[i..][0] == t[j..][0];
    assert i + 1 < |r| ==> r[i..][1] == t[j..][1];
    assert i + 2 < |r| ==> r[i..][2] == t[j..][2];
  }

  lemma EmitAfterSeparator(u: Tables, s: string, c: char, t: string, j: nat)
    requires Sane(u) && Separator(u, c) && j < |t|
    ensures Emit(u, s + [c] + t, |s| + 1 + j) == Emit(u, t, j)
  {
    var r := s + [c] + t;
    assert r[|s| + j] == if j == 0 then c else t[j - 1];
    assert r[|s| + 1 + j..] == t[j..];
    EmitIsLocal(u, r, |s| + 1 + j, t, j);
  }

  lemma {:induction false} ScanAfterSeparator(u: Tables, s: string, c: char, t: string, j: nat)
    requires Sane(u) && Separator(u, c)
    ensures Scan(u, s + [c] + t, |s| + 1 + j) == Scan(u, t, j)
    decreases |t| - j
  {
    if j < |t| {
      EmitAfterSeparator(u, s, c, t, j);
      ScanAfterSeparator(u, s, c, t, j + Emit(u, t, j).1);
    }
  }

  lemma ScanFromSeparator(u: Tables, s: string, c: char, t: string)
    requires Sane(u) && Separator(u, c)
    ensures Scan(u, s + [c] + t, |s|) == [c] + Scan(u, t, 0)
  {
    EmitAtSeparator(u, s, c, t);
    ScanOnce(u, s + [c] + t, |s|);
    ScanAfterSeparator(u, s, c, t, 0);
  }

  /** Where every rune of s is written in r as in s, the scanner writes s and goes on from its end. */
  lemma {:induction false} ScanUpTo(u: Tables, r: string, s: string, i: nat)
    requires i <= |s| <= |r| && forall k :: 0 <= k < |s| ==> Emit(u, r, k) == Emit(u, s, k)
    ensures Scan(u, r, i) == Scan(u, s, i) + Scan(u, r, |s|)
    decreases |s| - i
  {
    if i < |s| {
      var next := i + Emit(u, s, i).1;
      ScanUpTo(u, r, s, next);
      Prepend(Emit(u, s, i).0, Scan(u, r, next), Scan(u, s, next), Scan(u, r, |s|));
    }
  }

  lemma Prepend(e: string, whole: string, front: string, rest: string)
    requires whole == front + rest
    ensures e + whole == e + front + rest
  {}

  lemma ScanUpToSeparator(u: Tables, s: string, c: char, t: string)
    requires Sane(u) && Separator(u, c)
    ensures Scan(u, s + [c] + t, 0) == Scan(u, s, 0) + Scan(u, s + [c] + t, |s|)
  {
    forall k | 0 <= k < |s| ensures Emit(u, s + [c] + t, k) == Emit(u, s, k) { EmitBeforeSeparator(u, s, c, t, k); }
    ScanUpTo(u, s + [c] + t, s, 0);
  }

  /** Transliteration is compositional: a separator splits the text into parts that do not affect each other. */
  lemma SeparatorsSplit(u: Tables, s: string, c: char, t: string)
    requires Sane(u) && Separator(u, c)
    ensures Scan(u, s + [c] + t, 0) == Scan(u, s, 0) + [c] + Scan(u, t, 0)
  {
    ScanUpToSeparator(u, s, c, t);
    ScanFromSeparator(u, s, c, t);
    Regroup(Scan(u, s, 0), [c], Scan(u, t, 0));
  }

  function Join(words: seq<string>, c: char): string
    requires words != []
  {
    if |words| == 1 then words[0] else words[0] + [c] + Join(words[1..], c)
  }

  function ScanAll(u: Tables, words: seq<string>): (r: seq<string>)
    ensures |r| == |words|
  {
    if words == [] then [] else [Scan(u, words[0], 0)] + ScanAll(u, words[1..])
  }

  /** Any number of words: the text is transliterated word by word. */
  lemma {:induction false} WordByWord(u: Tables, words: seq<string>, c: char)
    requires Sane(u) && Separator(u, c) && words != []
    ensures Scan(u, Join(words, c), 0) == Join(ScanAll(u, words), c)
  {
    if |words| > 1 {
      WordByWord(u, words[1..], c);
      SeparatorsSplit(u, words[0], c, Join(words[1..], c));
      assert ScanAll(u, words)[1..] == ScanAll(u, words[1..]);
    }
  }

  // ---------------------------------------------------------------- what comes out

  /** A Latin letter the transliterator has a letter for: all of a..z but w. */
  predicate Latin(c: char) { 'a' <= c <= 'z' && c != 'w' }

  predicate NoLatin(s: string) { forall k :: 0 <= k < |s| ==> !Latin(s[k]) }

  ghost predicate CaseFits(u: Tables) {
    && (forall c: char :: 'a' <= c <= 'z' ==> u.toLower(c) == c)
    && (forall s: string :: NoLatin(s) ==> NoLatin(u.toUpper(s)))
  }

  lemma EmitLeavesNoLatin(u: Tables, r: string, i: nat)
    requires CaseFits(u) && i < |r|
    ensures NoLatin(Emit(u, r, i).0)
  {
    var lc := u.toLower(r[i]);
    SingleIsCyrillic(lc);
    if Single(lc).Some? { CapLeavesNoLatin(u, Single(lc).value, u.isUpper(r[i])); }
    IotatedIsCyrillic(u, r, i, NextLower(u, r, i));
    CapLeavesNoLatin(u, Iotated(u, r, i, NextLower(u, r, i)), u.isUpper(r[i]));
  }

  lemma CapLeavesNoLatin(u: Tables, lower: string, isUpper: bool)
    requires CaseFits(u) && NoLatin(lower)
    ensures NoLatin(Cap(u, lower, isUpper))
  {}

  lemma SingleIsCyrillic(lc: char)
    ensures Single(lc).Some? ==> NoLatin(Single(lc).value)
  {}

  lemma IotatedIsCyrillic(u: Tables, r: string, i: nat, ln: char)
    requires i <= |r|
    ensures NoLatin(Iotated(u, r, i, ln))
  {}

  /** Every lower-case Latin letter but w is gone from the output, wherever it stood. */
  lemma {:induction false} ScanLeavesNoLatin(u: Tables, r: string, i: nat)
    requires CaseFits(u)
    ensures NoLatin(Scan(u, r, i))
    decreases |r| - i
  {
    if i < |r| {
      EmitLeavesNoLatin(u, r, i);
      ScanLeavesNoLatin(u, r, i + Emit(u, r, i).1);
    }
  }

  // ---------------------------------------------------------------- y begins a letter of its own

  /** A y, of either case, stands at i; apostrophes are not letters. */
  ghost predicate YAt(u: Tables, r: string, i: nat) {
    Sane(u) && !u.isLetter('\'') && i < |r| && u.toLower(r[i]) == 'y'
  }

  lemma EmitBeforeY(u: Tables, r: string, i: nat, j: nat)
    requires YAt(u, r, i) && j < i
    ensures Emit(u, r, j) == Emit(u, r[..i], j)
  {}

  /** No digraph reaches over a y: whatever stands before it, the scanner starts afresh there. */
  lemma ScanUpToY(u: Tables, r: string, i: nat, j: nat)
    requires YAt(u, r, i) && j <= i
    ensures Scan(u, r, j) == Scan(u, r[..i], j) + Scan(u, r, i)
  {
    forall k | 0 <= k < i ensures Emit(u, r, k) == Emit(u, r[..i], k) { EmitBeforeY(u, r, i, k); }
    ScanUpTo(u, r, r[..i], j);
  }

  lemma EmitYod(u: Tables, r: string, i: nat)
    requires YAt(u, r, i) && i + 2 < |r| && u.toLower(r[i + 1]) == 'o' && r[i + 2] == '\''
    ensures Emit(u, r, i) == (Cap(u, "й", u.isUpper(r[i])), 1)
    ensures Emit(u, r, i + 1) == (Cap(u, "ў", u.isUpper(r[i + 1])), 2)
  {}

  lemma EmitYe(u: Tables, r: string, i: nat)
    requires YAt(u, r, i) && i + 1 < |r| && u.toLower(r[i + 1]) == 'e'
    ensures Emit(u, r, i) == (Cap(u, if AfterConsonant(u, r, i) then "ъе" else "е", u.isUpper(r[i])), 2)
  {}

  /** Anywhere in any text, yo' is й and ў: the two runes ahead keep the y from becoming ё. */
  lemma YodBeforeApostrophe(u: Tables, r: string, i: nat)
    requires YAt(u, r, i) && i + 2 < |r| && u.toLower(r[i + 1]) == 'o' && r[i + 2] == '\''
    ensures Scan(u, r, 0) ==
              Scan(u, r[..i], 0) + (Cap(u, "й", u.isUpper(r[i])) + (Cap(u, "ў", u.isUpper(r[i + 1])) + Scan(u, r, i + 3)))
  {
    ScanUpToY(u, r, i, 0);
    EmitYod(u, r, i);
    ScanOnce(u, r, i);
    ScanOnce(u, r, i + 1);
  }

  /** Anywhere in any text, ye takes the hard sign exactly after a consonant. */
  lemma HardSignInLoanwords(u: Tables, r: string, i: nat)
    requires YAt(u, r, i) && i + 1 < |r| && u.toLower(r[i + 1]) == 'e'
    ensures var hard := i > 0 && IsLatinConsonant(u, r[i - 1]);
            Scan(u, r, 0) == Scan(u, r[..i], 0) + (Cap(u, if hard then "ъе" else "е", u.isUpper(r[i])) + Scan(u, r, i + 2))
  {
    ScanUpToY(u, r, i, 0);
    EmitYe(u, r, i);
    ScanOnce(u, r, i);
  }

  // ---------------------------------------------------------------- letter by letter

  /** Where the scanner stops on its way from i. */
  function Stops(u: Tables, r: string, i: nat): seq<nat>
    decreases |r| - i
  {
    if i >= |r| then [] else [i] + Stops(u, r, i + Emit(u, r, i).1)
  }

  function Pieces(u: Tables, r: string, stops: seq<nat>): string
    requires forall k :: 0 <= k < |stops| ==> stops[k] < |r|
  {
    if stops == [] then "" else Emit(u, r, stops[0]).0 + Pieces(u, r, stops[1..])
  }

  lemma {:induction false} StopsInside(u: Tables, r: string, i: nat)
    ensures forall k :: 0 <= k < |Stops(u, r, i)| ==> i <= Stops(u, r, i)[k] < |r|
    decreases |r| - i
  {
    if i < |r| { StopsInside(u, r, i + Emit(u, r, i).1); }
  }

  /** A text is what is written at the scanner's stops, in order. */
  lemma {:induction false} ScanIsPieces(u: Tables, r: string, i: nat)
    ensures forall k :: 0 <= k < |Stops(u, r, i)| ==> Stops(u, r, i)[k] < |r|
    ensures Scan(u, r, i) == Pieces(u, r, Stops(u, r, i))
    decreases |r| - i
  {
    StopsInside(u, r, i);
    if i < |r| {
      var next := i + Emit(u, r, i).1;
      ScanIsPieces(u, r, next);
      ScanOnce(u, r, i);
      assert Stops(u, r, i)[1..] == Stops(u, r, next);
    }
  }

  /** The pair of runes at i, lower-cased, is x and y. */
  ghost predicate Pair(u: Tables, r: string, i: nat, x: char, y: char) {
    i + 1 < |r| && u.toLower(r[i]) == x && u.toLower(r[i + 1]) == y
  }

  /** The rune at i, lower-cased, is x, and an apostrophe follows. */
  ghost predicate Marked(u: Tables, r: string, i: nat, x: char) {
    i + 1 < |r| && u.toLower(r[i]) == x && r[i + 1] == '\''
  }

  /** A y before a, u, e, or an o without an apostrophe. */
  ghost predicate Iotates(u: Tables, r: string, i: nat) {
    || Pair(u, r, i, 'y', 'a') || Pair(u, r, i, 'y', 'u') || Pair(u, r, i, 'y', 'e')
    || (Pair(u, r, i, 'y', 'o') && !(i + 2 < |r| && r[i + 2] == '\''))
  }

  /** Exactly these pairs are one letter; everything else is taken rune by rune. */
  ghost predicate TwoRunes(u: Tables, r: string, i: nat) {
    || Marked(u, r, i, 'o') || Marked(u, r, i, 'g')
    || Pair(u, r, i, 's', 'h') || Pair(u, r, i, 'c', 'h') || Pair(u, r, i, 't', 's') || Iotates(u, r, i)
  }

  ghost predicate Ordinary(u: Tables) { Sane(u) && !u.isLetter('\'') }

  lemma WidthLaw(u: Tables, r: string, i: nat)
    requires Ordinary(u) && i < |r|
    ensures Emit(u, r, i).1 == if TwoRunes(u, r, i) then 2 else 1
  {}

  /** What the pairs become, in the case of their first rune. */
  lemma PairLaws(u: Tables, r: string, i: nat)
    requires Ordinary(u) && i < |r|
    ensures Marked(u, r, i, 'o') ==> Emit(u, r, i).0 == Cap(u, "ў", u.isUpper(r[i]))
    ensures Marked(u, r, i, 'g') ==> Emit(u, r, i).0 == Cap(u, "ғ", u.isUpper(r[i]))
    ensures Pair(u, r, i, 's', 'h') ==> Emit(u, r, i).0 == Cap(u, "ш", u.isUpper(r[i]))
    ensures Pair(u, r, i, 'c', 'h') ==> Emit(u, r, i).0 == Cap(u, "ч", u.isUpper(r[i]))
    ensures Pair(u, r, i, 't', 's') ==> Emit(u, r, i).0 == Cap(u, "ц", u.isUpper(r[i]))
    ensures Pair(u, r, i, 'y', 'a') ==> Emit(u, r, i).0 == Cap(u, "я", u.isUpper(r[i]))
    ensures Pair(u, r, i, 'y', 'u') ==> Emit(u, r, i).0 == Cap(u, "ю", u.isUpper(r[i]))
    ensures Pair(u, r, i, 'y', 'o') && Iotates(u, r, i) ==> Emit(u, r, i).0 == Cap(u, "ё", u.isUpper(r[i]))
  {}

  /** One of a, e, i, o, u, of either case. */
  ghost predicate Vowel(u: Tables, c: char) { u.toLower(c) in {'a', 'e', 'i', 'o', 'u'} }

  /** A lone e is э exactly at the start of a word, that is after no rune or one that is neither letter nor apostrophe, or after a vowel. */
  lemma LoneE(u: Tables, r: string, i: nat)
    requires Ordinary(u) && i < |r| && u.toLower(r[i]) == 'e'
    ensures var hard := i == 0 || (!u.isLetter(r[i - 1]) && r[i - 1] != '\'') || Vowel(u, r[i - 1]);
            Emit(u, r, i) == (Cap(u, if hard then "э" else "е", u.isUpper(r[i])), 1)
  {}

  const LATIN := "abcdfghijklmnopqrstuvxyz"
  const CYRILLIC := "абцдфгҳижклмнопқрстувхйз"

  /** Every other lone letter becomes the letter below it in the alphabet's two rows. */
  lemma LoneLetter(u: Tables, r: string, i: nat, k: nat)
    requires Ordinary(u) && i < |r| && !TwoRunes(u, r, i) && k < 24 && u.toLower(r[i]) == LATIN[k]
    ensures Emit(u, r, i) == (Cap(u, [CYRILLIC[k]], u.isUpper(r[i])), 1)
  {
    RowsMatch(k);
    OneRune(u, r, i);
  }

  lemma RowsMatch(k: nat)
    requires k < 24
    ensures Single(LATIN[k]) == Some([CYRILLIC[k]]) && LATIN[k] != 'e'
  {}

  lemma OneRune(u: Tables, r: string, i: nat)
    requires Ordinary(u) && i < |r| && !TwoRunes(u, r, i) && Single(u.toLower(r[i])).Some? && u.toLower(r[i]) != 'e'
    ensures Emit(u, r, i) == (Cap(u, Single(u.toLower(r[i])).value, u.isUpper(r[i])), 1)
  {}

  /** A lone apostrophe is the hard sign, and what is no letter of the alphabet stays as it is. */
  lemma OtherRunes(u: Tables, r: string, i: nat)
    requires Ordinary(u) && i < |r|
    ensures r[i] == '\'' ==> Emit(u, r, i) == ("ъ", 1)
    ensures r[i] != '\'' && !('a' <= u.toLower(r[i]) <= 'z' && u.toLower(r[i]) != 'w') ==> Emit(u, r, i) == ([r[i]], 1)
  {}
}
