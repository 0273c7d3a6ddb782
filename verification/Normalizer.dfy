/**
 Text normalisation. The Unicode tables are parameters; the ranges and the
 letter map the code spells out are written out here.
 */
module Normalizer {
  const CLITIC_LETTERS: string := "\U{0648}\U{0641}\U{0628}\U{0644}\U{0643}\U{0627}"

  predicate Arabic(c: char) { '\U{0600}' <= c <= '\U{06FF}' }

  predicate Latin(c: char) { 'A' <= c <= 'Z' || 'a' <= c <= 'z' }

  predicate Diacritic(c: char) { '\U{064B}' <= c <= '\U{065F}' || c == '\U{0670}' }

  predicate NotDiacritic(c: char) { !Diacritic(c) }

  predicate Tatweel(c: char) { c == '\U{0640}' }

  predicate NotTatweel(c: char) { !Tatweel(c) }

  predicate Separator(c: char) { c == '-' || c == '_' || c == '/' || c == '\\' || c == '|' }

  /** ARABIC_TRANSLATION. */
  function Translate(c: char): char {
    match c
    case '\U{0623}' => '\U{0627}'
    case '\U{0625}' => '\U{0627}'
    case '\U{0622}' => '\U{0627}'
    case '\U{0671}' => '\U{0627}'
    case '\U{0649}' => '\U{064A}'
    case '\U{0624}' => '\U{0648}'
    case '\U{0626}' => '\U{064A}'
    case '\U{0629}' => '\U{0647}'
    case _ => c
  }

  /** What \w, \s and lower() say of each character. */
  datatype Alphabet = Alphabet(word: char -> bool, space: char -> bool, lower: char -> string) {
    ghost predicate Valid() {
      && space(' ') && space('\n')
      && (forall c :: space(c) ==> !word(c) && !Arabic(c) && !Latin(c) && !Separator(c) && lower(c) == [c])
      && (forall c :: c in CLITIC_LETTERS ==> word(c))
      && (forall c, d :: d in lower(c) ==> lower(Translate(d)) == [Translate(d)])
    }
  }

  // ---- the pipeline, stage by stage ----

  function Lowered(a: Alphabet, t: string): string {
    if t == [] then [] else a.lower(t[0]) + Lowered(a, t[1..])
  }

  function Mapped(f: char -> char, t: string): string {
    if t == [] then [] else [f(t[0])] + Mapped(f, t[1..])
  }

  function Kept(f: char -> bool, t: string): string {
    if t == [] then [] else (if f(t[0]) then [t[0]] else []) + Kept(f, t[1..])
  }

  /** A space goes in wherever a character of the first kind meets one of the second. */
  function Parted(left: char -> bool, right: char -> bool, t: string): string {
    if |t| < 2 then t
    else (if left(t[0]) && right(t[1]) then [t[0], ' '] else [t[0]]) + Parted(left, right, t[1..])
  }

  function Unseparated(c: char): char { if Separator(c) then ' ' else c }

  function Unpunctuated(a: Alphabet): char -> char { c => if a.word(c) || a.space(c) then c else ' ' }

  function Collapsed(a: Alphabet, t: string): string {
    if t == [] then []
    else if !a.space(t[0]) then [t[0]] + Collapsed(a, t[1..])
    else if |t| > 1 && a.space(t[1]) then Collapsed(a, t[1..])
    else [' '] + Collapsed(a, t[1..])
  }

  function StrippedLeft(a: Alphabet, t: string): string {
    if t != [] && a.space(t[0]) then StrippedLeft(a, t[1..]) else t
  }

  function StrippedRight(a: Alphabet, t: string): string {
    if t != [] && a.space(t[|t| - 1]) then StrippedRight(a, t[..|t| - 1]) else t
  }

  function Letters(a: Alphabet, t: string): string {
    Kept(NotTatweel, Kept(NotDiacritic, Mapped(Translate, Lowered(a, t))))
  }

  function ScriptsParted(t: string): string { Parted(Arabic, Latin, Parted(Latin, Arabic, t)) }

  function Wiped(a: Alphabet, t: string): string { Mapped(Unpunctuated(a), Mapped(Unseparated, t)) }

  /** Everything before the whitespace clean-up. */
  function Cleared(a: Alphabet, t: string): string {
    Wiped(a, ScriptsParted(Letters(a, t)))
  }

  function Normalize(a: Alphabet, t: string): string {
    StrippedRight(a, StrippedLeft(a, Collapsed(a, Cleared(a, t))))
  }

  // ---- whitespace: the words of a text, one space apart ----

  function Tidy(a: Alphabet, t: string): string {
    if t == [] then []
    else if a.space(t[0]) then Tidy(a, t[1..])
    else if |t| == 1 || !a.space(t[1]) then [t[0]] + Tidy(a, t[1..])
    else Glue([t[0]], Tidy(a, t[1..]))
  }

  function Glue(x: string, y: string): string {
    if x == [] then y else if y == [] then x else x + " " + y
  }

  lemma {:induction false} TidyEnds(a: Alphabet, t: string)
    requires a.Valid()
    ensures Tidy(a, t) != [] ==> !a.space(Tidy(a, t)[0]) && !a.space(Tidy(a, t)[|Tidy(a, t)| - 1])
    ensures Tidy(a, t) == [] <==> forall c <- t :: a.space(c)
  {
    if t != [] {
      TidyEnds(a, t[1..]);
      assert t == [t[0]] + t[1..];
    }
  }

  /** The words one space apart, with one space where the text begins or ends with some. */
  function Padded(a: Alphabet, t: string): string {
    if Tidy(a, t) == [] then (if t == [] then "" else " ")
    else (if t != [] && a.space(t[0]) then " " else "") + Tidy(a, t) + (if t != [] && a.space(t[|t| - 1]) then " "
        else "")
  }

  lemma {:induction false} CollapsedForm(a: Alphabet, t: string)
    requires a.Valid()
    ensures Collapsed(a, t) == Padded(a, t)
    decreases |t|
  {
    if |t| == 1 {
      PaddedSingle(a, t);
    } else if t != [] {
      CollapsedForm(a, t[1..]);
      if !a.space(t[0]) {
        PaddedWord(a, t);
      } else if a.space(t[1]) {
        PaddedRun(a, t);
      } else {
        PaddedSpace(a, t);
      }
    }
  }

  lemma PaddedSingle(a: Alphabet, t: string)
    requires a.Valid() && |t| == 1
    ensures Collapsed(a, t) == Padded(a, t) == if a.space(t[0]) then " " else t
  {
    assert t[1..] == [] && Tidy(a, []) == [] && Collapsed(a, []) == [];
    assert Tidy(a, t) == if a.space(t[0]) then [] else [t[0]];
    assert Collapsed(a, t) == if a.space(t[0]) then [' '] else [t[0]];
  }

  lemma PaddedRun(a: Alphabet, t: string)
    requires a.Valid() && |t| > 1 && a.space(t[0]) && a.space(t[1])
    ensures Padded(a, t) == Padded(a, t[1..])
  {
    assert Tidy(a, t) == Tidy(a, t[1..]);
  }

  lemma PaddedSpace(a: Alphabet, t: string)
    requires a.Valid() && |t| > 1 && a.space(t[0]) && !a.space(t[1])
    ensures Padded(a, t) == [' '] + Padded(a, t[1..])
  {
    TidyEnds(a, t[1..]);
    assert t[1..][0] in t[1..];
    assert Tidy(a, t) == Tidy(a, t[1..]);
  }

  /** The space at the end of a padded text, if any. */
  function Trail(a: Alphabet, t: string): string { if t != [] && a.space(t[|t| - 1]) then " " else "" }

  lemma PaddedWord(a: Alphabet, t: string)
    requires a.Valid() && |t| > 1 && !a.space(t[0])
    ensures Padded(a, t) == [t[0]] + Padded(a, t[1..])
  {
    if a.space(t[1]) {
      PaddedLastWord(a, t);
    } else {
      PaddedInWord(a, t);
    }
  }

  lemma PaddedInWord(a: Alphabet, t: string)
    requires a.Valid() && |t| > 1 && !a.space(t[0]) && !a.space(t[1])
    ensures Padded(a, t) == [t[0]] + Padded(a, t[1..])
  {
    var rest := t[1..];
    TidyFrom(a, rest);
    var words, trail := Tidy(a, rest), Trail(a, rest);
    assert Padded(a, rest) == words + trail;
    assert Padded(a, t) == [t[0]] + words + trail;
  }

  lemma PaddedLastWord(a: Alphabet, t: string)
    requires a.Valid() && |t| > 1 && !a.space(t[0]) && a.space(t[1])
    ensures Padded(a, t) == [t[0]] + Padded(a, t[1..])
  {
    var rest := t[1..];
    TidyEnds(a, rest);
    var words, trail := Tidy(a, rest), Trail(a, rest);
    assert Tidy(a, t) == Glue([t[0]], words);
    if words == [] {
      assert rest[|rest| - 1] in rest;
      assert Padded(a, t) == [t[0]] + " ";
    } else {
      assert Padded(a, rest) == " " + words + trail;
      assert Padded(a, t) == [t[0]] + " " + words + trail;
      assert [t[0]] + (" " + words + trail) == [t[0]] + " " + words + trail;
    }
  }

  lemma LeadStripped(a: Alphabet, t: string, lead: string)
    requires a.Valid() && t != [] && !a.space(t[0]) && (lead == "" || lead == " ")
    ensures StrippedLeft(a, lead + t) == t
  {
    if lead == " " {
      assert (lead + t)[1..] == t;
    } else {
      assert lead + t == t;
    }
  }

  lemma TrailStripped(a: Alphabet, t: string, trail: string)
    requires a.Valid() && t != [] && !a.space(t[|t| - 1]) && (trail == "" || trail == " ")
    ensures StrippedRight(a, t + trail) == t
  {
    if trail == " " {
      assert (t + trail)[..|t|] == t;
    } else {
      assert t + trail == t;
    }
  }

  lemma StrippedForm(a: Alphabet, t: string, lead: string, trail: string)
    requires a.Valid() && t != [] && !a.space(t[0]) && !a.space(t[|t| - 1])
    requires lead == "" || lead == " "
    requires trail == "" || trail == " "
    ensures StrippedRight(a, StrippedLeft(a, lead + t + trail)) == t
  {
    assert lead + t + trail == lead + (t + trail);
    LeadStripped(a, t + trail, lead);
    TrailStripped(a, t, trail);
  }

  lemma PaddedStripped(a: Alphabet, c: string)
    requires a.Valid() && Tidy(a, c) != []
    ensures StrippedRight(a, StrippedLeft(a, Padded(a, c))) == Tidy(a, c)
  {
    TidyEnds(a, c);
    StrippedForm(a, Tidy(a, c), if a.space(c[0]) then " " else "", if a.space(c[|c| - 1]) then " " else "");
  }

  lemma NormalizeIsTidy(a: Alphabet, t: string)
    requires a.Valid()
    ensures Normalize(a, t) == Tidy(a, Cleared(a, t))
  {
    var c := Cleared(a, t);
    CollapsedForm(a, c);
    if Tidy(a, c) == [] {
      assert StrippedLeft(a, " ") == "";
      assert Normalize(a, t) == "";
    } else {
      PaddedStripped(a, c);
    }
  }

  lemma TidyStep(a: Alphabet, t: string, rest: string)
    requires t != [] && rest == t[1..]
    ensures Tidy(a, t) ==
            if a.space(t[0]) then Tidy(a, rest)
            else if rest == [] || !a.space(rest[0]) then [t[0]] + Tidy(a, rest)
            else Glue([t[0]], Tidy(a, rest))
  {
  }

  lemma GlueFront(first: string, x: string, y: string)
    requires first != []
    ensures x != [] ==> first + Glue(x, y) == Glue(first + x, y)
    ensures Glue(first, Glue(x, y)) == Glue(Glue(first, x), y)
  {
    if x != [] && y != [] {
      assert first + (x + " " + y) == first + x + " " + y;
      assert first + " " + (x + " " + y) == first + " " + x + " " + y;
    }
  }

  lemma {:induction false} TidyAround(a: Alphabet, x: string, c: char, y: string)
    requires a.Valid() && a.space(c)
    ensures Tidy(a, x + [c] + y) == Glue(Tidy(a, x), Tidy(a, y))
  {
    var whole := x + [c] + y;
    if x == [] {
      TidyStep(a, whole, y);
    } else {
      var rest := x[1..];
      TidyAround(a, rest, c, y);
      TidyStep(a, whole, rest + [c] + y);
      TidyStep(a, x, rest);
      GlueFront([x[0]], Tidy(a, rest), Tidy(a, y));
      if rest != [] && !a.space(rest[0]) {
        TidyFrom(a, rest);
      }
    }
  }

  // ---- the stages before it treat the two sides of a space apart ----

  lemma {:induction false} LoweredAround(a: Alphabet, x: string, y: string)
    ensures Lowered(a, x + y) == Lowered(a, x) + Lowered(a, y)
  {
    if x == [] {
      assert x + y == y;
    } else {
      assert (x + y)[1..] == x[1..] + y;
      LoweredAround(a, x[1..], y);
    }
  }

  lemma {:induction false} MappedAround(f: char -> char, x: string, y: string)
    ensures Mapped(f, x + y) == Mapped(f, x) + Mapped(f, y)
  {
    if x == [] {
      assert x + y == y;
    } else {
      assert (x + y)[1..] == x[1..] + y;
      MappedAround(f, x[1..], y);
    }
  }

  lemma {:induction false} KeptAround(f: char -> bool, x: string, y: string)
    ensures Kept(f, x + y) == Kept(f, x) + Kept(f, y)
  {
    if x == [] {
      assert x + y == y;
    } else {
      assert (x + y)[0] == x[0] && (x + y)[1..] == x[1..] + y;
      KeptAround(f, x[1..], y);
      var first := if f(x[0]) then [x[0]] else [];
      assert Kept(f, x + y) == first + Kept(f, x[1..] + y);
      assert first + (Kept(f, x[1..]) + Kept(f, y)) == first + Kept(f, x[1..]) + Kept(f, y);
    }
  }

  /** What the character becomes in front of the other one. */
  function Head(left: char -> bool, right: char -> bool, c: char, next: char): string {
    if left(c) && right(next) then [c, ' '] else [c]
  }

  lemma PartedSplits(left: char -> bool, right: char -> bool, t: string)
    requires |t| >= 2
    ensures Parted(left, right, t) == Head(left, right, t[0], t[1]) + Parted(left, right, t[1..])
  {
  }

  lemma JoinAround(head: string, x: string, c: char, y: string)
    ensures head + (x + [c] + y) == head + x + [c] + y
  {
  }

  lemma {:induction false} PartedAround(left: char -> bool, right: char -> bool, x: string, c: char, y: string)
    requires !left(c) && !right(c)
    ensures Parted(left, right, x + [c] + y) == Parted(left, right, x) + [c] + Parted(left, right, y)
    decreases |x|
  {
    if x == [] {
      PartedAfter(left, right, c, y);
      assert x + [c] + y == [c] + y;
    } else {
      var rest := x[1..];
      PartedAround(left, right, rest, c, y);
      assert (x + [c] + y)[1..] == rest + [c] + y;
      PartedSplits(left, right, x + [c] + y);
      var head := if |x| == 1 then [x[0]] else Head(left, right, x[0], x[1]);
      PartedFirst(left, right, x);
      JoinAround(head, Parted(left, right, rest), c, Parted(left, right, y));
    }
  }

  lemma PartedFirst(left: char -> bool, right: char -> bool, x: string)
    requires x != []
    ensures Parted(left, right, x) ==
            (if |x| == 1 then [x[0]] else Head(left, right, x[0], x[1])) + Parted(left, right, x[1..])
  {
    if |x| >= 2 {
      PartedSplits(left, right, x);
    }
  }

  lemma PartedAfter(left: char -> bool, right: char -> bool, c: char, y: string)
    requires !left(c)
    ensures Parted(left, right, [c] + y) == [c] + Parted(left, right, y)
  {
    assert ([c] + y)[1..] == y;
  }

  lemma MappedSpace(f: char -> char, x: string, c: char, y: string)
    requires f(c) == c
    ensures Mapped(f, x + [c] + y) == Mapped(f, x) + [c] + Mapped(f, y)
  {
    MappedAround(f, x + [c], y);
    MappedAround(f, x, [c]);
  }

  lemma KeptSpace(f: char -> bool, x: string, c: char, y: string)
    requires f(c)
    ensures Kept(f, x + [c] + y) == Kept(f, x) + [c] + Kept(f, y)
  {
    KeptAround(f, x + [c], y);
    KeptAround(f, x, [c]);
  }

  lemma ClearedAround(a: Alphabet, x: string, c: char, y: string)
    requires a.Valid() && a.space(c)
    ensures Cleared(a, x + [c] + y) == Cleared(a, x) + [c] + Cleared(a, y)
  {
    LoweredAround(a, x + [c], y);
    LoweredAround(a, x, [c]);
    var x1, y1 := Lowered(a, x), Lowered(a, y);
    assert Lowered(a, [c]) == [c];
    MappedSpace(Translate, x1, c, y1);
    var x2, y2 := Mapped(Translate, x1), Mapped(Translate, y1);
    KeptSpace(NotDiacritic, x2, c, y2);
    var x3, y3 := Kept(NotDiacritic, x2), Kept(NotDiacritic, y2);
    KeptSpace(NotTatweel, x3, c, y3);
    var x4, y4 := Kept(NotTatweel, x3), Kept(NotTatweel, y3);
    PartedAround(Latin, Arabic, x4, c, y4);
    var x5, y5 := Parted(Latin, Arabic, x4), Parted(Latin, Arabic, y4);
    PartedAround(Arabic, Latin, x5, c, y5);
    var x6, y6 := Parted(Arabic, Latin, x5), Parted(Arabic, Latin, y5);
    MappedSpace(Unseparated, x6, c, y6);
    MappedSpace(Unpunctuated(a), Mapped(Unseparated, x6), c, Mapped(Unseparated, y6));
  }

  /** Normalising two texts joined by a space, a newline say, joins what each becomes. */
  lemma NormalizeAround(a: Alphabet, x: string, c: char, y: string)
    requires a.Valid() && a.space(c)
    ensures Normalize(a, x + [c] + y) == Glue(Normalize(a, x), Normalize(a, y))
  {
    NormalizeIsTidy(a, x + [c] + y);
    NormalizeIsTidy(a, x);
    NormalizeIsTidy(a, y);
    ClearedAround(a, x, c, y);
    TidyAround(a, Cleared(a, x), c, Cleared(a, y));
  }

  // ---- which texts come out ----

  /** A character that every stage leaves as it is. */
  ghost predicate Settled(a: Alphabet, c: char) {
    a.word(c) && !Diacritic(c) && !Tatweel(c) && !Separator(c) && Translate(c) == c && a.lower(c) == [c]
  }

  ghost predicate NeverMeet(left: char -> bool, right: char -> bool, t: string) {
    forall i | 0 <= i < |t| - 1 :: !(left(t[i]) && right(t[i + 1]))
  }

  /** Words of word characters, one space apart. */
  ghost predicate Spaced(a: Alphabet, t: string) {
    && (forall c <- t :: a.word(c) || c == ' ')
    && (t != [] ==> t[0] != ' ' && t[|t| - 1] != ' ')
    && (forall i | 0 <= i < |t| - 1 :: !(t[i] == ' ' && t[i + 1] == ' '))
  }

  ghost predicate NormalForm(a: Alphabet, t: string) {
    && Spaced(a, t)
    && (forall c <- t :: c == ' ' || Settled(a, c))
    && NeverMeet(Latin, Arabic, t) && NeverMeet(Arabic, Latin, t)
  }

  lemma {:induction false} LoweredLetters(a: Alphabet, t: string)
    requires a.Valid()
    ensures forall c <- Mapped(Translate, Lowered(a, t)) :: Translate(c) == c && a.lower(c) == [c]
  {
    if t != [] {
      LoweredLetters(a, t[1..]);
      MappedAround(Translate, a.lower(t[0]), Lowered(a, t[1..]));
      TranslatedLetters(a, t[0], a.lower(t[0]));
    }
  }

  lemma {:induction false} TranslatedLetters(a: Alphabet, from: char, t: string)
    requires a.Valid() && forall c <- t :: c in a.lower(from)
    ensures forall c <- Mapped(Translate, t) :: Translate(c) == c && a.lower(c) == [c]
  {
    if t != [] {
      assert t[0] in a.lower(from);
      TranslatedLetters(a, from, t[1..]);
    }
  }

  lemma {:induction false} KeptLetters(f: char -> bool, t: string)
    ensures forall c :: c in Kept(f, t) <==> c in t && f(c)
  {
    if t != [] {
      KeptLetters(f, t[1..]);
      assert t == [t[0]] + t[1..];
    }
  }

  lemma {:induction false} PartedLetters(left: char -> bool, right: char -> bool, t: string)
    ensures forall c <- Parted(left, right, t) :: c in t || c == ' '
  {
    if |t| >= 2 {
      PartedLetters(left, right, t[1..]);
      assert t == [t[0]] + t[1..];
    }
  }

  lemma {:induction false} PartedNeverMeet(left: char -> bool, right: char -> bool, t: string)
    requires !left(' ') && !right(' ')
    ensures Parted(left, right, t) != [] <==> t != []
    ensures t != [] ==> Parted(left, right, t)[0] == t[0]
    ensures NeverMeet(left, right, Parted(left, right, t))
  {
    if |t| >= 2 {
      PartedNeverMeet(left, right, t[1..]);
      var rest, whole := Parted(left, right, t[1..]), Parted(left, right, t);
      var d := |whole| - |rest|;
      assert whole[d..] == rest;
      forall i | 0 <= i < |whole| - 1 ensures !(left(whole[i]) && right(whole[i + 1])) {
        if i >= d {
          assert whole[i] == rest[i - d] && whole[i + 1] == rest[i - d + 1];
        }
      }
    }
  }

  /** A space put between some pairs makes no new meeting of others. */
  lemma {:induction false} PartedKeepsApart(left: char -> bool, right: char -> bool, l: char -> bool, r: char -> bool,
      t: string)
    requires !l(' ') && !r(' ') && NeverMeet(l, r, t)
    ensures Parted(left, right, t) != [] <==> t != []
    ensures t != [] ==> Parted(left, right, t)[0] == t[0]
    ensures NeverMeet(l, r, Parted(left, right, t))
  {
    if |t| >= 2 {
      PartedKeepsApart(left, right, l, r, t[1..]);
      var rest := Parted(left, right, t[1..]);
      var whole := Parted(left, right, t);
      var d := |whole| - |rest|;
      assert whole[d..] == rest;
      assert !(l(t[0]) && r(t[1]));
      forall i | 0 <= i < |whole| - 1 ensures !(l(whole[i]) && r(whole[i + 1])) {
        if i >= d {
          assert whole[i] == rest[i - d] && whole[i + 1] == rest[i - d + 1];
        }
      }
    }
  }

  lemma {:induction false} MappedIsPointwise(f: char -> char, t: string)
    ensures |Mapped(f, t)| == |t| && forall i | 0 <= i < |t| :: Mapped(f, t)[i] == f(t[i])
  {
    if t != [] {
      MappedIsPointwise(f, t[1..]);
    }
  }

  lemma {:induction false} TidyFrom(a: Alphabet, t: string)
    requires a.Valid()
    ensures t != [] && !a.space(t[0]) ==> Tidy(a, t) != [] && Tidy(a, t)[0] == t[0]
    ensures forall c <- Tidy(a, t) :: c == ' ' || (c in t && !a.space(c))
  {
    if t != [] {
      TidyFrom(a, t[1..]);
      assert t == [t[0]] + t[1..];
    }
  }

  lemma {:induction false} TidyGaps(a: Alphabet, t: string)
    requires a.Valid()
    ensures forall i | 0 <= i < |Tidy(a, t)| - 1 :: !(Tidy(a, t)[i] == ' ' && Tidy(a, t)[i + 1] == ' ')
  {
    if t != [] {
      var rest := Tidy(a, t[1..]);
      TidyGaps(a, t[1..]);
      TidyEnds(a, t[1..]);
      if a.space(t[0]) {
        assert Tidy(a, t) == rest;
      } else if rest == [] {
        assert Tidy(a, t) == [t[0]];
      } else if !a.space(t[1]) {
        assert Tidy(a, t) == [t[0]] + rest;
      } else {
        assert Tidy(a, t) == [t[0], ' '] + rest;
      }
    }
  }

  lemma {:induction false} TidyKeepsApart(a: Alphabet, l: char -> bool, r: char -> bool, t: string)
    requires a.Valid() && !l(' ') && !r(' ') && NeverMeet(l, r, t)
    ensures NeverMeet(l, r, Tidy(a, t))
  {
    if t != [] {
      TidyKeepsApart(a, l, r, t[1..]);
      if |t| > 1 {
        assert !(l(t[0]) && r(t[1]));
        TidyFrom(a, t[1..]);
      }
    }
  }

  lemma WipedLetters(a: Alphabet, t: string)
    requires a.Valid() && NeverMeet(Latin, Arabic, t) && NeverMeet(Arabic, Latin, t)
    requires forall c <- t :: c == ' ' || (NotDiacritic(c) && NotTatweel(c) && Translate(c) == c && a.lower(c) == [c])
    ensures forall c <- Wiped(a, t) :: a.space(c) || Settled(a, c)
    ensures NeverMeet(Latin, Arabic, Wiped(a, t)) && NeverMeet(Arabic, Latin, Wiped(a, t))
  {
    MappedIsPointwise(Unseparated, t);
    MappedIsPointwise(Unpunctuated(a), Mapped(Unseparated, t));
    var wiped := Wiped(a, t);
    forall i | 0 <= i < |wiped|
      ensures a.space(wiped[i]) || (Settled(a, wiped[i]) && wiped[i] == t[i])
    {
      assert t[i] in t;
    }
    forall i | 0 <= i < |wiped| - 1
      ensures !(Latin(wiped[i]) && Arabic(wiped[i + 1])) && !(Arabic(wiped[i]) && Latin(wiped[i + 1]))
    {
      assert !(Latin(t[i]) && Arabic(t[i + 1])) && !(Arabic(t[i]) && Latin(t[i + 1]));
    }
  }

  lemma ScriptsNeverMeet(t: string)
    ensures forall c <- ScriptsParted(t) :: c in t || c == ' '
    ensures NeverMeet(Latin, Arabic, ScriptsParted(t)) && NeverMeet(Arabic, Latin, ScriptsParted(t))
  {
    PartedLetters(Latin, Arabic, t);
    PartedNeverMeet(Latin, Arabic, t);
    var once := Parted(Latin, Arabic, t);
    PartedLetters(Arabic, Latin, once);
    PartedNeverMeet(Arabic, Latin, once);
    PartedKeepsApart(Arabic, Latin, Latin, Arabic, once);
  }

  lemma ClearedLetters(a: Alphabet, t: string)
    requires a.Valid()
    ensures forall c <- Cleared(a, t) :: a.space(c) || Settled(a, c)
    ensures NeverMeet(Latin, Arabic, Cleared(a, t)) && NeverMeet(Arabic, Latin, Cleared(a, t))
  {
    LoweredLetters(a, t);
    var translated := Mapped(Translate, Lowered(a, t));
    KeptLetters(NotDiacritic, translated);
    KeptLetters(NotTatweel, Kept(NotDiacritic, translated));
    ScriptsNeverMeet(Letters(a, t));
    WipedLetters(a, ScriptsParted(Letters(a, t)));
  }

  /** Whatever comes in, a text in normal form comes out. */
  lemma NormalizeYieldsNormalForm(a: Alphabet, t: string)
    requires a.Valid()
    ensures NormalForm(a, Normalize(a, t))
  {
    NormalizeIsTidy(a, t);
    var c := Cleared(a, t);
    ClearedLetters(a, t);
    TidyFrom(a, c);
    TidyGaps(a, c);
    TidyEnds(a, c);
    TidyKeepsApart(a, Latin, Arabic, c);
    TidyKeepsApart(a, Arabic, Latin, c);
  }

  // ---- a text in normal form stays as it is ----

  lemma {:induction false} LoweredFixed(a: Alphabet, t: string)
    requires forall c <- t :: a.lower(c) == [c]
    ensures Lowered(a, t) == t
  {
    if t != [] {
      assert t[0] in t;
      LoweredFixed(a, t[1..]);
    }
  }

  lemma {:induction false} MappedFixed(f: char -> char, t: string)
    requires forall c <- t :: f(c) == c
    ensures Mapped(f, t) == t
  {
    MappedIsPointwise(f, t);
    forall i | 0 <= i < |t| ensures Mapped(f, t)[i] == t[i] {
      assert t[i] in t;
    }
  }

  lemma {:induction false} KeptFixed(f: char -> bool, t: string)
    requires forall c <- t :: f(c)
    ensures Kept(f, t) == t
  {
    if t != [] {
      assert t[0] in t;
      KeptFixed(f, t[1..]);
    }
  }

  lemma {:induction false} PartedFixed(left: char -> bool, right: char -> bool, t: string)
    requires NeverMeet(left, right, t)
    ensures Parted(left, right, t) == t
  {
    if |t| >= 2 {
      assert !(left(t[0]) && right(t[1]));
      PartedFixed(left, right, t[1..]);
    }
  }

  /** No space but ' ', no two in a row and none at the end. */
  ghost predicate SingleSpaced(a: Alphabet, t: string) {
    && (forall c <- t :: a.space(c) ==> c == ' ')
    && (forall i | 0 <= i < |t| - 1 :: !(t[i] == ' ' && t[i + 1] == ' '))
    && (t != [] ==> t[|t| - 1] != ' ')
  }

  lemma SingleSpacedRest(a: Alphabet, t: string)
    requires a.Valid() && SingleSpaced(a, t) && |t| > 1
    ensures SingleSpaced(a, t[1..])
    ensures a.space(t[0]) <==> t[0] == ' '
    ensures a.space(t[1]) <==> t[1] == ' '
    ensures !(t[0] == ' ' && t[1] == ' ') && (t[1] == ' ' ==> |t| > 2)
  {
    assert t[0] in t && t[1] in t && forall c <- t[1..] :: c in t;
    forall i | 0 <= i < |t[1..]| - 1 ensures !(t[1..][i] == ' ' && t[1..][i + 1] == ' ') {
      assert !(t[i + 1] == ' ' && t[i + 2] == ' ');
    }
  }

  lemma {:induction false} TidyFixed(a: Alphabet, t: string)
    requires a.Valid() && SingleSpaced(a, t)
    ensures Tidy(a, t) == if t != [] && t[0] == ' ' then t[1..] else t
    decreases |t|
  {
    if |t| == 1 {
      assert t[0] in t && t[1..] == [];
    } else if t != [] {
      var rest := t[1..];
      SingleSpacedRest(a, t);
      TidyFixed(a, rest);
      if t[0] != ' ' && t[1] == ' ' {
        assert Tidy(a, t) == Glue([t[0]], rest[1..]);
        assert rest == " " + rest[1..];
      }
    }
  }

  /** The texts normalisation leaves alone are exactly those in normal form; with the lemma above, it is idempotent. */
  lemma FixedIffNormalForm(a: Alphabet, t: string)
    requires a.Valid()
    ensures Normalize(a, t) == t <==> NormalForm(a, t)
  {
    NormalizeYieldsNormalForm(a, t);
    if NormalForm(a, t) {
      ClearedFixed(a, t);
      NormalizeIsTidy(a, t);
      TidyFixed(a, t);
    }
  }

  lemma LettersSettled(a: Alphabet, t: string)
    requires a.Valid() && NormalForm(a, t)
    ensures forall c <- t :: a.lower(c) == [c]
    ensures forall c <- t :: Translate(c) == c
    ensures forall c <- t :: NotDiacritic(c)
    ensures forall c <- t :: NotTatweel(c)
  {
    forall c | c in t ensures a.lower(c) == [c] && Translate(c) == c && NotDiacritic(c) && NotTatweel(c) {
      assert c == ' ' || Settled(a, c);
    }
  }

  lemma LettersFixed(a: Alphabet, t: string)
    requires a.Valid() && NormalForm(a, t)
    ensures Letters(a, t) == t
  {
    LettersSettled(a, t);
    LoweredFixed(a, t);
    assert Lowered(a, t) == t;
    MappedFixed(Translate, t);
    assert Mapped(Translate, t) == t;
    KeptFixed(NotDiacritic, t);
    assert Kept(NotDiacritic, t) == t;
    KeptFixed(NotTatweel, t);
  }

  lemma ClearedFixed(a: Alphabet, t: string)
    requires a.Valid() && NormalForm(a, t)
    ensures Cleared(a, t) == t
  {
    LettersFixed(a, t);
    PartedFixed(Latin, Arabic, t);
    PartedFixed(Arabic, Latin, t);
    MappedFixed(Unseparated, t);
    MappedFixed(Unpunctuated(a), t);
  }

  // ---- what becomes of each character ----

  ghost function FlatMap(f: char -> string, t: string): string {
    if t == [] then [] else f(t[0]) + FlatMap(f, t[1..])
  }

  /** A character of a text without its whitespace. */
  ghost function Shown(a: Alphabet): char -> string { c => if a.space(c) then [] else [c] }

  /** A lower-case character after translation: kept if it is a word character and no mark, tatweel or separator. */
  ghost function Letter(a: Alphabet): char -> string {
    d =>
      var e := Translate(d);
      if a.word(e) && !Diacritic(e) && !Tatweel(e) && !Separator(e) then [e] else []
  }

  /** What is left of a character by the last two clean-ups. */
  ghost function Plain(a: Alphabet): char -> string { c => if a.word(c) && !Separator(c) then [c] else [] }

  ghost function LettersOf(a: Alphabet): char -> string { c => FlatMap(Letter(a), a.lower(c)) }

  lemma {:induction false} FlatMapAround(f: char -> string, x: string, y: string)
    ensures FlatMap(f, x + y) == FlatMap(f, x) + FlatMap(f, y)
  {
    if x == [] {
      assert x + y == y;
    } else {
      assert (x + y)[1..] == x[1..] + y;
      FlatMapAround(f, x[1..], y);
    }
  }

  lemma {:induction false} FlatMapMapped(g: char -> string, f: char -> char, h: char -> string, t: string)
    requires forall c :: h(c) == g(f(c))
    ensures FlatMap(g, Mapped(f, t)) == FlatMap(h, t)
  {
    if t != [] {
      FlatMapMapped(g, f, h, t[1..]);
    }
  }

  lemma {:induction false} FlatMapKept(g: char -> string, f: char -> bool, h: char -> string, t: string)
    requires forall c :: h(c) == if f(c) then g(c) else []
    ensures FlatMap(g, Kept(f, t)) == FlatMap(h, t)
  {
    if t != [] {
      FlatMapKept(g, f, h, t[1..]);
      assert Kept(f, t) == (if f(t[0]) then [t[0]] else []) + Kept(f, t[1..]);
      FlatMapAround(g, if f(t[0]) then [t[0]] else [], Kept(f, t[1..]));
    }
  }

  lemma {:induction false} FlatMapLowered(a: Alphabet, g: char -> string, h: char -> string, t: string)
    requires forall c :: h(c) == FlatMap(g, a.lower(c))
    ensures FlatMap(g, Lowered(a, t)) == FlatMap(h, t)
  {
    if t != [] {
      FlatMapLowered(a, g, h, t[1..]);
      FlatMapAround(g, a.lower(t[0]), Lowered(a, t[1..]));
    }
  }

  lemma {:induction false} FlatMapParted(g: char -> string, left: char -> bool, right: char -> bool, t: string)
    requires g(' ') == []
    ensures FlatMap(g, Parted(left, right, t)) == FlatMap(g, t)
  {
    if |t| >= 2 {
      FlatMapParted(g, left, right, t[1..]);
      PartedSplits(left, right, t);
      var head := Head(left, right, t[0], t[1]);
      FlatMapAround(g, head, Parted(left, right, t[1..]));
      FlatMapAround(g, [t[0]], head[1..]);
      assert head == [t[0]] + head[1..];
      assert FlatMap(g, head[1..]) == [];
    }
  }

  lemma {:induction false} FlatMapTidy(a: Alphabet, t: string)
    requires a.Valid()
    ensures FlatMap(Shown(a), Tidy(a, t)) == FlatMap(Shown(a), t)
  {
    if t != [] {
      FlatMapTidy(a, t[1..]);
      var rest := Tidy(a, t[1..]);
      FlatMapAround(Shown(a), [t[0]], rest);
      FlatMapAround(Shown(a), [t[0]] + " ", rest);
      FlatMapAround(Shown(a), [t[0]], " ");
    }
  }

  lemma WipedShown(a: Alphabet, t: string)
    requires a.Valid()
    ensures FlatMap(Shown(a), Wiped(a, t)) == FlatMap(Plain(a), t)
  {
    var unpunctuated := c => Shown(a)(Unpunctuated(a)(c));
    FlatMapMapped(Shown(a), Unpunctuated(a), unpunctuated, Mapped(Unseparated, t));
    FlatMapMapped(unpunctuated, Unseparated, Plain(a), t);
  }

  lemma LettersShown(a: Alphabet, t: string)
    ensures FlatMap(Plain(a), Letters(a, t)) == FlatMap(LettersOf(a), t)
  {
    var f2 := c => if NotTatweel(c) then Plain(a)(c) else [];
    var f3 := c => if NotDiacritic(c) then f2(c) else [];
    var translated := Mapped(Translate, Lowered(a, t));
    FlatMapKept(Plain(a), NotTatweel, f2, Kept(NotDiacritic, translated));
    FlatMapKept(f2, NotDiacritic, f3, translated);
    FlatMapMapped(f3, Translate, Letter(a), Lowered(a, t));
    FlatMapLowered(a, Letter(a), LettersOf(a), t);
  }

  /**
   Main result: apart from its spaces the result is made character by character, each
   one lower-cased, translated, and dropped unless it is a letter that stays.
   */
  lemma NormalizeLetters(a: Alphabet, t: string)
    requires a.Valid()
    ensures FlatMap(Shown(a), Normalize(a, t)) == FlatMap(LettersOf(a), t)
  {
    var letters := Letters(a, t);
    NormalizeIsTidy(a, t);
    FlatMapTidy(a, Cleared(a, t));
    WipedShown(a, ScriptsParted(letters));
    FlatMapParted(Plain(a), Arabic, Latin, Parted(Latin, Arabic, letters));
    FlatMapParted(Plain(a), Latin, Arabic, letters);
    LettersShown(a, t);
  }

  /** What a character comes to when lower() gives one for it. */
  ghost function Single(a: Alphabet, c: char): char
    requires a.lower(c) != []
  {
    Translate(a.lower(c)[0])
  }

  /** One word, of letters that stay, as lower() and the translation leave it. */
  ghost predicate OneWord(a: Alphabet, t: string, word: string) {
    && |word| == |t| && NeverMeet(Latin, Arabic, word) && NeverMeet(Arabic, Latin, word)
    && forall i | 0 <= i < |t| :: |a.lower(t[i])| == 1 && word[i] == Single(a, t[i]) && Plain(a)(word[i]) != []
                                  && NotDiacritic(word[i]) && NotTatweel(word[i])
  }

  lemma {:induction false} LoweredSingles(a: Alphabet, t: string)
    requires forall i | 0 <= i < |t| :: |a.lower(t[i])| == 1
    ensures |Lowered(a, t)| == |t| && forall i | 0 <= i < |t| :: Lowered(a, t)[i] == a.lower(t[i])[0]
  {
    if t != [] {
      LoweredSingles(a, t[1..]);
    }
  }

  /** The letters of one word, each in its place. */
  lemma OneWordIsKept(a: Alphabet, t: string, word: string)
    requires a.Valid() && OneWord(a, t, word)
    ensures Normalize(a, t) == word
  {
    LoweredSingles(a, t);
    MappedIsPointwise(Translate, Lowered(a, t));
    assert Mapped(Translate, Lowered(a, t)) == word;
    KeptFixed(NotDiacritic, word);
    KeptFixed(NotTatweel, word);
    PartedFixed(Latin, Arabic, word);
    PartedFixed(Arabic, Latin, word);
    MappedFixed(Unseparated, word);
    MappedFixed(Unpunctuated(a), word);
    assert Cleared(a, t) == word;
    NormalizeIsTidy(a, t);
    TidyFixed(a, word);
  }

  // ---- which texts come to nothing ----

  lemma {:induction false} PartedKeepsAll(left: char -> bool, right: char -> bool, t: string)
    ensures forall c <- t :: c in Parted(left, right, t)
  {
    if |t| >= 2 {
      PartedKeepsAll(left, right, t[1..]);
      assert t == [t[0]] + t[1..];
    }
  }

  /** The character that separator and punctuation clean-up leave. */
  function Wipe(a: Alphabet, c: char): char { Unpunctuated(a)(Unseparated(c)) }

  lemma WipedPointwise(a: Alphabet, t: string)
    ensures |Wiped(a, t)| == |t| && forall i | 0 <= i < |t| :: Wiped(a, t)[i] == Wipe(a, t[i])
  {
    MappedIsPointwise(Unseparated, t);
    MappedIsPointwise(Unpunctuated(a), Mapped(Unseparated, t));
  }

  lemma NormalizeEmptyIff(a: Alphabet, t: string)
    requires a.Valid()
    ensures Normalize(a, t) == "" <==> forall c <- Letters(a, t) :: a.space(Wipe(a, c))
  {
    var letters := Letters(a, t);
    var parted := ScriptsParted(letters);
    NormalizeIsTidy(a, t);
    TidyEnds(a, Cleared(a, t));
    WipedPointwise(a, parted);
    ScriptsNeverMeet(letters);
    PartedKeepsAll(Latin, Arabic, letters);
    PartedKeepsAll(Arabic, Latin, Parted(Latin, Arabic, letters));
    if Normalize(a, t) == "" {
      forall c | c in letters ensures a.space(Wipe(a, c)) {
        var i :| 0 <= i < |parted| && parted[i] == c;
        assert Wiped(a, parted)[i] in Cleared(a, t);
      }
    } else {
      var d :| d in Cleared(a, t) && !a.space(d);
      var i :| 0 <= i < |parted| && Wiped(a, parted)[i] == d;
      assert parted[i] in parted && parted[i] != ' ';
    }
  }

  lemma LettersAround(a: Alphabet, x: string, y: string)
    ensures Letters(a, x + y) == Letters(a, x) + Letters(a, y)
  {
    LoweredAround(a, x, y);
    MappedAround(Translate, Lowered(a, x), Lowered(a, y));
    var x1, y1 := Mapped(Translate, Lowered(a, x)), Mapped(Translate, Lowered(a, y));
    KeptAround(NotDiacritic, x1, y1);
    KeptAround(NotTatweel, Kept(NotDiacritic, x1), Kept(NotDiacritic, y1));
  }

  /** More text never normalises to nothing if a beginning of it does not. */
  lemma PrefixNotEmpty(a: Alphabet, x: string, y: string)
    requires a.Valid() && Normalize(a, x) != ""
    ensures Normalize(a, x + y) != ""
  {
    NormalizeEmptyIff(a, x);
    NormalizeEmptyIff(a, x + y);
    LettersAround(a, x, y);
  }
}
