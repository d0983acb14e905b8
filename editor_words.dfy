/** How the editor finds the word just typed: runs of two or more white-space characters
    become one space, the text is trimmed and split on spaces, and the last piece, stripped
    of non-word characters, is the word, provided the text ends in exactly one space. */
module EditorWords {
  import opened Wrappers
  import opened Text
  import opened Lists

  /** The number of white-space characters `s` starts with. */
  function SpaceRun(s: string): (n: nat)
    ensures n <= |s|
    ensures forall i :: 0 <= i < n ==> IsSpace(s[i])
    ensures n < |s| ==> !IsSpace(s[n])
  {
    if s != [] && IsSpace(s[0]) then 1 + SpaceRun(s[1..]) else 0
  }

  /** How much of non-empty `s` one step of the replacement consumes: a run of two or
      more white-space characters, or else one character. */
  function StepLength(s: string): (k: nat)
    requires s != []
    ensures 1 <= k <= |s|
  {
    var n := SpaceRun(s);
    if n >= 2 then n else 1
  }

  /** What one step of the replacement emits for the consumed part. */
  function StepOutput(s: string): string
    requires s != []
  {
    if SpaceRun(s) >= 2 then [' '] else [s[0]]
  }

  /** `replace(/\s{2,}/g, ' ')`. */
  function CollapseSpaces(s: string): string
    decreases |s|
  {
    if s == [] then [] else StepOutput(s) + CollapseSpaces(s[StepLength(s)..])
  }

  /** The last element of `split(' ')`: what follows the last space. */
  function LastPiece(s: string): (r: string)
    ensures |r| <= |s| && r == s[|s| - |r|..]
    ensures forall i :: 0 <= i < |r| ==> r[i] != ' '
    decreases |s|
  {
    if s == [] || s[|s| - 1] == ' ' then [] else LastPiece(s[..|s| - 1]) + [s[|s| - 1]]
  }

  /** `replace(/[^\w]/g, '')`. */
  function WordCharsOnly(s: string): (r: string)
    ensures forall i :: 0 <= i < |r| ==> IsWordChar(r[i])
  {
    Filter(s, IsWordChar)
  }

  /** The word `processInput` looks up, if any: only when the text ends with one space and
      not two, and only a word of at least two characters. */
  function ExtractWord(text: string): (r: Option<string>)
    ensures r.Some? ==> EndsWith(text, " ") && !EndsWith(text, "  ")
    ensures r.Some? ==> |r.value| >= 2 && forall i :: 0 <= i < |r.value| ==> IsWordChar(r.value[i])
  {
    if EndsWith(text, " ") && !EndsWith(text, "  ") then
      var word := WordCharsOnly(LastPiece(Trim(CollapseSpaces(text))));
      if |word| < 2 then None else Some(word)
    else None
  }

  predicate NoSpace(w: string) {
    forall i :: 0 <= i < |w| ==> !IsSpace(w[i])
  }

  lemma {:induction false} SpaceRunAppend(a: string, b: string)
    requires b != [] && !IsSpace(b[0])
    ensures SpaceRun(a + b) == SpaceRun(a)
    decreases |a|
  {
    if a != [] && IsSpace(a[0]) {
      assert (a + b)[1..] == a[1..] + b;
      SpaceRunAppend(a[1..], b);
    } else if a == [] {
      assert a + b == b;
    }
  }

  /** Collapsing works piece by piece across a boundary that starts a word. */
  lemma {:induction false} CollapseAppend(a: string, b: string)
    requires b != [] && !IsSpace(b[0])
    ensures CollapseSpaces(a + b) == CollapseSpaces(a) + CollapseSpaces(b)
    decreases |a|
  {
    if a == [] {
      assert a + b == b;
    } else {
      SpaceRunAppend(a, b);
      var k := StepLength(a);
      assert StepLength(a + b) == k && StepOutput(a + b) == StepOutput(a);
      DropAppend(a, b, k);
      CollapseAppend(a[k..], b);
    }
  }

  lemma {:induction false} CollapseWordThenSpace(w: string)
    requires NoSpace(w)
    ensures CollapseSpaces(w + " ") == w + " "
    decreases |w|
  {
    if w == [] {
      assert SpaceRun(" ") == 1;
    } else {
      assert (w + " ")[1..] == w[1..] + " ";
      CollapseWordThenSpace(w[1..]);
    }
  }

  /** Text that ends in a space still ends in a space after collapsing. */
  lemma {:induction false} CollapseKeepsFinalSpace(a: string)
    ensures var c := CollapseSpaces(a + " "); c != [] && c[|c| - 1] == ' '
    decreases |a|
  {
    var s := a + " ";
    var k := StepLength(s);
    var out := StepOutput(s);
    var rest := CollapseSpaces(s[k..]);
    assert CollapseSpaces(s) == out + rest;
    if k < |s| {
      assert s[k..] == a[k..] + " ";
      CollapseKeepsFinalSpace(a[k..]);
      EndsLikeItsTail(out, rest);
    } else {
      assert s[k..] == [];
      assert SpaceRun(s) < 2 ==> s == " ";
      assert out + rest == out;
    }
  }

  lemma EndsLikeItsTail(x: string, y: string)
    requires y != []
    ensures (x + y)[|x + y| - 1] == y[|y| - 1]
  {
  }

  lemma {:induction false} TrimStartAppend(a: string, b: string)
    requires b != [] && !IsSpace(b[0])
    ensures TrimStart(a + b) == TrimStart(a) + b
    decreases |a|
  {
    if a == [] {
      assert a + b == b;
    } else if IsSpace(a[0]) {
      assert (a + b)[1..] == a[1..] + b;
      TrimStartAppend(a[1..], b);
    }
  }

  lemma {:induction false} LastPieceAfterSpace(y: string, w: string)
    requires y == [] || y[|y| - 1] == ' '
    requires forall i :: 0 <= i < |w| ==> w[i] != ' '
    ensures LastPiece(y + w) == w
    decreases |w|
  {
    if w == [] {
      assert y + w == y;
    } else {
      var u := w[..|w| - 1];
      var s := y + w;
      assert s[|s| - 1] == w[|w| - 1] != ' ';
      DropLastAppend(y, w);
      LastPieceAfterSpace(y, u);
      assert LastPiece(s) == LastPiece(y + u) + [w[|w| - 1]];
      assert u + [w[|w| - 1]] == w;
    }
  }

  lemma CollapseTyped(prefix: string, w: string)
    requires w != [] && NoSpace(w)
    ensures var x := CollapseSpaces(prefix + " ");
      && CollapseSpaces((prefix + " ") + (w + " ")) == x + (w + " ")
      && x != [] && x[|x| - 1] == ' '
  {
    CollapseAppend(prefix + " ", w + " ");
    CollapseWordThenSpace(w);
    CollapseKeepsFinalSpace(prefix);
  }

  lemma LastOfConcat(a: string, b: string)
    requires b != [] && !IsSpace(b[|b| - 1])
    ensures !IsSpace((a + b)[|a + b| - 1])
  {
  }

  lemma TrimEndWordSpace(y: string, w: string)
    requires w != [] && !IsSpace(w[|w| - 1])
    ensures TrimEnd(y + (w + " ")) == y + w
  {
    var t := y + (w + " ");
    assert IsSpace(t[|t| - 1]);
    assert t[..|t| - 1] == y + w;
    LastOfConcat(y, w);
  }

  lemma TrimStartKeepsLast(x: string)
    requires x != []
    ensures var y := TrimStart(x); y == [] || y[|y| - 1] == x[|x| - 1]
  {
  }

  lemma TrimTyped(x: string, w: string)
    requires x != [] && x[|x| - 1] == ' '
    requires w != [] && !IsSpace(w[0]) && !IsSpace(w[|w| - 1])
    ensures var y := TrimStart(x);
      && Trim(x + (w + " ")) == y + w
      && (y == [] || y[|y| - 1] == ' ')
  {
    TrimStartAppend(x, w + " ");
    TrimEndWordSpace(TrimStart(x), w);
    TrimStartKeepsLast(x);
  }

  /** Typing a word of word characters and then one space, after anything ending in a
      space, looks up exactly that word. */
  lemma ExtractsLastWord(prefix: string, w: string)
    requires |w| >= 2 && forall i :: 0 <= i < |w| ==> IsWordChar(w[i])
    ensures ExtractWord(prefix + " " + w + " ") == Some(w)
  {
    assert prefix + " " + w + " " == (prefix + " ") + (w + " ");
    ExtractsTyped(prefix, w);
  }

  lemma ExtractsTyped(prefix: string, w: string)
    requires |w| >= 2 && forall i :: 0 <= i < |w| ==> IsWordChar(w[i])
    ensures ExtractWord((prefix + " ") + (w + " ")) == Some(w)
  {
    var text := (prefix + " ") + (w + " ");
    WordCharsAreNotSpace(w);
    TypedPiece(prefix, w);
    FilterKeepsAll(w, IsWordChar);
    assert WordCharsOnly(LastPiece(Trim(CollapseSpaces(text)))) == w;
    EndsInOneSpace(prefix + " ", w);
  }

  lemma WordCharsAreNotSpace(w: string)
    requires forall i :: 0 <= i < |w| ==> IsWordChar(w[i])
    ensures forall i :: 0 <= i < |w| ==> w[i] != ' ' && !IsSpace(w[i])
  {
    forall i | 0 <= i < |w|
      ensures w[i] != ' ' && !IsSpace(w[i])
    {
      assert IsWordChar(w[i]);
    }
  }

  lemma EndsInOneSpace(a: string, w: string)
    requires w != [] && w[|w| - 1] != ' '
    ensures EndsWith(a + (w + " "), " ") && !EndsWith(a + (w + " "), "  ")
  {
    var text := a + (w + " ");
    assert text[|text| - 1..] == " ";
    assert text[|text| - 2..][0] == w[|w| - 1];
  }

  lemma TypedPiece(prefix: string, w: string)
    requires w != [] && forall i :: 0 <= i < |w| ==> w[i] != ' ' && !IsSpace(w[i])
    ensures LastPiece(Trim(CollapseSpaces((prefix + " ") + (w + " ")))) == w
  {
    CollapseTyped(prefix, w);
    PieceAfterSpace(CollapseSpaces(prefix + " "), w);
  }

  lemma PieceAfterSpace(x: string, w: string)
    requires x != [] && x[|x| - 1] == ' '
    requires w != [] && forall i :: 0 <= i < |w| ==> w[i] != ' ' && !IsSpace(w[i])
    ensures LastPiece(Trim(x + (w + " "))) == w
  {
    TrimTyped(x, w);
    LastPieceAfterSpace(TrimStart(x), w);
  }

  /** Two trailing spaces, or none, look nothing up. */
  lemma OnlyASingleTrailingSpaceTriggers(text: string)
    requires !EndsWith(text, " ") || EndsWith(text, "  ")
    ensures ExtractWord(text) == None
  {
  }
}
