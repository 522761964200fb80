/**
 * `InstructionsComponent.paragraphs`: instruction text given as a list is shown
 * as it is; given as one string it is cut at every newline and at every comma
 * not preceded by a backslash, and the trimmed non-empty pieces are shown.
 */
module Instructions {
  import opened Text
  import Seqs

  /** The `text` input: `string | string[]`, or any other value at run time. */
  datatype InstructionsText = Lines(lines: seq<string>) | Plain(text: string) | Other

  /** `s[i]` is matched by `/\n|(?<!\\),/`. */
  predicate IsSeparator(s: string, i: nat)
    requires i < |s|
  {
    s[i] == '\n' || (s[i] == ',' && (i == 0 || s[i - 1] != '\\'))
  }

  /** The separator characters of `s` from position `i` on, in order. */
  function SeparatorsFrom(s: string, i: nat): seq<char>
    requires i <= |s|
    decreases |s| - i
  {
    if i == |s| then []
    else if IsSeparator(s, i) then [s[i]] + SeparatorsFrom(s, i + 1)
    else SeparatorsFrom(s, i + 1)
  }

  /**
   * The pieces of `s[start..]` when the current piece began at `start` and
   * `s[start..i]` holds no separator.
   */
  function PiecesFrom(s: string, start: nat, i: nat): (r: seq<string>)
    requires start <= i <= |s|
    ensures |r| == |SeparatorsFrom(s, i)| + 1
    decreases |s| - i
  {
    if i == |s| then [s[start..]]
    else if IsSeparator(s, i) then [s[start..i]] + PiecesFrom(s, i + 1, i + 1)
    else PiecesFrom(s, start, i + 1)
  }

  /** `text.split(/\n|(?<!\\),/)`. */
  function Split(s: string): (r: seq<string>)
    ensures |r| == |SeparatorsFrom(s, 0)| + 1
  {
    PiecesFrom(s, 0, 0)
  }

  /** The pieces, glued back together with the separators between them. */
  function Join(parts: seq<string>, seps: seq<char>): string
    requires |parts| == |seps| + 1
    decreases |seps|
  {
    if |seps| == 0 then parts[0] else parts[0] + [seps[0]] + Join(parts[1..], seps[1..])
  }

  /** Splitting loses nothing: the pieces and the separators rebuild the text. */
  lemma SplitJoin(s: string)
    ensures Join(Split(s), SeparatorsFrom(s, 0)) == s
  {
    PiecesJoin(s, 0, 0);
  }

  lemma {:induction false} PiecesJoin(s: string, start: nat, i: nat)
    requires start <= i <= |s|
    ensures Join(PiecesFrom(s, start, i), SeparatorsFrom(s, i)) == s[start..]
    decreases |s| - i
  {
    if i == |s| {
    } else if IsSeparator(s, i) {
      PiecesJoin(s, i + 1, i + 1);
      SeparatorJoin(s, start, i);
    } else {
      PiecesJoin(s, start, i + 1);
    }
  }

  /** A separator closes the current piece; the rest is rebuilt from the pieces after it. */
  lemma SeparatorJoin(s: string, start: nat, i: nat)
    requires start <= i < |s| && IsSeparator(s, i)
    requires Join(PiecesFrom(s, i + 1, i + 1), SeparatorsFrom(s, i + 1)) == s[i + 1..]
    ensures Join(PiecesFrom(s, start, i), SeparatorsFrom(s, i)) == s[start..]
  {
    var p, ps, ss := s[start..i], PiecesFrom(s, i + 1, i + 1), SeparatorsFrom(s, i + 1);
    assert PiecesFrom(s, start, i) == [p] + ps;
    assert SeparatorsFrom(s, i) == [s[i]] + ss;
    JoinCons(p, ps, s[i], ss);
    SliceAround(s, start, i);
  }

  /** `s[start..]` is the part before index `i`, the character at `i`, and the part after it. */
  lemma SliceAround(s: string, start: nat, i: nat)
    requires start <= i < |s|
    ensures s[start..] == s[start..i] + [s[i]] + s[i + 1..]
  {
  }

  /** Joining a first piece and separator in front of the others. */
  lemma JoinCons(p: string, ps: seq<string>, c: char, ss: seq<char>)
    requires |ps| == |ss| + 1
    ensures Join([p] + ps, [c] + ss) == p + [c] + Join(ps, ss)
  {
    assert ([p] + ps)[1..] == ps && ([c] + ss)[1..] == ss;
  }

  /**
   * A piece holds no separator of its own: no newline, and every comma in it
   * follows a backslash.
   */
  ghost predicate NoSeparator(p: string) {
    && (forall k :: 0 <= k < |p| ==> p[k] != '\n')
    && (|p| > 0 ==> p[0] != ',')
    && (forall i, k :: 0 <= i < k < |p| && k == i + 1 && p[k] == ',' ==> p[i] == '\\')
  }

  /** Every piece of the split is free of separators. */
  lemma SplitPiecesClean(s: string)
    ensures AllNoSeparator(Split(s))
  {
    PiecesClean(s, 0, 0);
  }

  lemma {:induction false} PiecesClean(s: string, start: nat, i: nat)
    requires start <= i <= |s|
    requires start == 0 || IsSeparator(s, start - 1)
    requires forall k :: start <= k < i ==> !IsSeparator(s, k)
    ensures forall j :: 0 <= j < |PiecesFrom(s, start, i)| ==> NoSeparator(PiecesFrom(s, start, i)[j])
    decreases |s| - i
  {
    if i == |s| {
      PieceClean(s, start, i);
      assert s[start..] == s[start..i];
    } else if IsSeparator(s, i) {
      PieceClean(s, start, i);
      PiecesClean(s, i + 1, i + 1);
    } else {
      PiecesClean(s, start, i + 1);
    }
  }

  lemma PieceClean(s: string, start: nat, end: nat)
    requires start <= end <= |s|
    requires start == 0 || IsSeparator(s, start - 1)
    requires forall k :: start <= k < end ==> !IsSeparator(s, k)
    ensures NoSeparator(s[start..end])
  {
    var p := s[start..end];
    forall k | 0 <= k < |p|
      ensures p[k] != '\n'
    {
      assert p[k] == s[start + k] && !IsSeparator(s, start + k);
    }
    if |p| > 0 {
      assert p[0] == s[start] && !IsSeparator(s, start);
    }
    forall i, k | 0 <= i && k == i + 1 && k < |p| && p[k] == ','
      ensures p[i] == '\\'
    {
      assert p[k] == s[start + k] && !IsSeparator(s, start + k);
      assert p[i] == s[start + i];
    }
  }

  /** A non-empty piece that neither starts nor ends with whitespace. */
  predicate Trimmed(p: string) {
    p != [] && !IsWhitespace(p[0]) && !IsWhitespace(p[|p| - 1])
  }

  predicate AllTrimmed(ps: seq<string>) {
    forall j :: 0 <= j < |ps| ==> Trimmed(ps[j])
  }

  lemma TrimmedCons(p: string, rest: seq<string>)
    requires Trimmed(p) && AllTrimmed(rest)
    ensures AllTrimmed([p] + rest)
  {
    forall j | 0 <= j < |rest| + 1
      ensures Trimmed(([p] + rest)[j])
    {
      if j > 0 {
        assert ([p] + rest)[j] == rest[j - 1];
      }
    }
  }

  /** Trimmed pieces that are empty are dropped (`.map(trim).filter(Boolean)`). */
  function CleanPieces(pieces: seq<string>): (r: seq<string>)
    ensures |r| <= |pieces|
    ensures AllTrimmed(r)
  {
    if |pieces| == 0 then []
    else
      var p := Trim(pieces[0]);
      var rest := CleanPieces(pieces[1..]);
      if p == [] then rest
      else
        TrimmedCons(p, rest);
        [p] + rest
  }

  /** `.map(p => p.trim())`. */
  function TrimAll(pieces: seq<string>): (r: seq<string>)
    ensures |r| == |pieces| && forall i :: 0 <= i < |pieces| ==> r[i] == Trim(pieces[i])
  {
    seq(|pieces|, i requires 0 <= i < |pieces| => Trim(pieces[i]))
  }

  /** `Boolean` as a filter on strings: only the empty string is falsy. */
  predicate NonBlank(p: string) {
    p != ""
  }

  /**
   * Trimming and dropping the empty pieces is the `map` followed by the
   * `filter`: every non-empty trimmed piece is kept, in order, and nothing else.
   */
  lemma {:induction false} CleanPiecesFilter(pieces: seq<string>)
    ensures CleanPieces(pieces) == Seqs.Filter(TrimAll(pieces), NonBlank)
  {
    if |pieces| > 0 {
      CleanPiecesFilter(pieces[1..]);
      var t := TrimAll(pieces);
      assert t[1..] == TrimAll(pieces[1..]);
      assert t[0] == Trim(pieces[0]);
    }
  }

  /** `paragraphs`. */
  function Paragraphs(text: InstructionsText): (r: seq<string>)
    ensures text.Lines? ==> r == text.lines
    ensures text.Plain? ==> r == Seqs.Filter(TrimAll(Split(text.text)), NonBlank)
    ensures text.Other? ==> r == []
  {
    match text
    case Lines(lines) => lines
    case Plain(s) =>
      CleanPiecesFilter(Split(s));
      CleanPieces(Split(s))
    case Other => []
  }

  /** An infix that does not start right after a backslash keeps a piece separator-free. */
  lemma InfixNoSeparator(p: string, a: nat, r: string)
    requires a + |r| <= |p| && r == p[a..a + |r|] && NoSeparator(p)
    requires a == 0 || p[a - 1] != '\\'
    ensures NoSeparator(r)
  {
    forall k | 0 <= k < |r|
      ensures r[k] != '\n'
    {
      assert r[k] == p[a + k];
    }
    if |r| > 0 {
      assert r[0] == p[a];
    }
    forall i, k | 0 <= i && k == i + 1 && k < |r| && r[k] == ','
      ensures r[i] == '\\'
    {
      assert r[k] == p[a + k] && r[i] == p[a + i];
    }
  }

  /** Trimming a separator-free piece leaves it separator-free. */
  lemma TrimKeepsNoSeparator(p: string)
    requires NoSeparator(p)
    ensures NoSeparator(Trim(p))
  {
    TrimInfix(p);
    InfixNoSeparator(p, LeadingWhitespace(p), Trim(p));
  }

  ghost predicate AllNoSeparator(ps: seq<string>) {
    forall j :: 0 <= j < |ps| ==> NoSeparator(ps[j])
  }

  lemma NoSeparatorCons(p: string, rest: seq<string>)
    requires NoSeparator(p) && AllNoSeparator(rest)
    ensures AllNoSeparator([p] + rest)
  {
    forall j | 0 <= j < |rest| + 1
      ensures NoSeparator(([p] + rest)[j])
    {
      if j > 0 {
        assert ([p] + rest)[j] == rest[j - 1];
      }
    }
  }

  lemma {:induction false} CleanPiecesNoSeparator(pieces: seq<string>)
    requires AllNoSeparator(pieces)
    ensures AllNoSeparator(CleanPieces(pieces))
  {
    if |pieces| > 0 {
      var p := Trim(pieces[0]);
      TrimKeepsNoSeparator(pieces[0]);
      CleanPiecesNoSeparator(pieces[1..]);
      if p != [] {
        NoSeparatorCons(p, CleanPieces(pieces[1..]));
      }
    }
  }

  /**
   * The paragraphs of a string are non-empty, neither start nor end with
   * whitespace, hold no newline, and keep a comma only behind its backslash.
   */
  lemma ParagraphsClean(s: string)
    ensures AllTrimmed(Paragraphs(Plain(s))) && AllNoSeparator(Paragraphs(Plain(s)))
  {
    SplitPiecesClean(s);
    CleanPiecesNoSeparator(Split(s));
  }

  /** Every piece of an all-whitespace text is all whitespace. */
  lemma {:induction false} WhitespacePieces(s: string, start: nat, i: nat)
    requires start <= i <= |s| && AllWhitespace(s)
    ensures forall j :: 0 <= j < |PiecesFrom(s, start, i)| ==> AllWhitespace(PiecesFrom(s, start, i)[j])
    decreases |s| - i
  {
    if i == |s| {
      assert forall k :: 0 <= k < |s| - start ==> s[start..][k] == s[start + k];
    } else if IsSeparator(s, i) {
      assert forall k :: 0 <= k < i - start ==> s[start..i][k] == s[start + k];
      WhitespacePieces(s, i + 1, i + 1);
    } else {
      WhitespacePieces(s, start, i + 1);
    }
  }

  lemma {:induction false} CleanWhitespacePieces(pieces: seq<string>)
    requires forall j :: 0 <= j < |pieces| ==> AllWhitespace(pieces[j])
    ensures CleanPieces(pieces) == []
  {
    if |pieces| > 0 {
      var rest := pieces[1..];
      forall j | 0 <= j < |rest|
        ensures AllWhitespace(rest[j])
      {
        assert rest[j] == pieces[j + 1];
      }
      CleanWhitespacePieces(rest);
      TrimSpec(pieces[0]);
    }
  }

  /** Empty or whitespace-only text has no paragraphs. */
  lemma BlankTextHasNoParagraphs(s: string)
    requires AllWhitespace(s)
    ensures Paragraphs(Plain(s)) == []
  {
    WhitespacePieces(s, 0, 0);
    CleanWhitespacePieces(Split(s));
  }
}
