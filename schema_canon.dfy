/**
 * The request schema's alias layer: `_canon` folds free text (case, the letter ё, hyphens and
 * underscores, runs of white space) and the alias tables map the folded text to an enum value.
 */
module SchemaCanon {
  import opened Wrappers
  import opened Text

  /** The non-space characters of a text, in order. */
  function NonSpace(s: string): string {
    if s == [] then []
    else if IsSpace(s[0]) then NonSpace(s[1..])
    else [s[0]] + NonSpace(s[1..])
  }

  /** A character is kept exactly when it occurs in the text and is not white space. */
  lemma {:induction false} NonSpaceMembers(s: string, c: char)
    ensures c in NonSpace(s) <==> c in s && !IsSpace(c)
  {
    if s != [] {
      NonSpaceMembers(s[1..], c);
      assert s == [s[0]] + s[1..];
    }
  }

  lemma {:induction false} NonSpaceConcat(x: string, y: string)
    ensures NonSpace(x + y) == NonSpace(x) + NonSpace(y)
  {
    if x == [] {
      assert x + y == y;
    } else {
      assert (x + y)[0] == x[0];
      assert (x + y)[1..] == x[1..] + y;
      NonSpaceConcat(x[1..], y);
    }
  }

  lemma {:induction false} NonSpaceOfSpaces(s: string)
    requires forall i :: 0 <= i < |s| ==> IsSpace(s[i])
    ensures NonSpace(s) == []
  {
    if s != [] {
      NonSpaceOfSpaces(s[1..]);
    }
  }

  /** Dropping leading white space keeps the non-space characters. */
  lemma NonSpaceSkipLeft(s: string, a: nat)
    requires a <= |s| && forall i :: 0 <= i < a ==> IsSpace(s[i])
    ensures NonSpace(s[a..]) == NonSpace(s)
  {
    assert s == s[..a] + s[a..];
    NonSpaceConcat(s[..a], s[a..]);
    NonSpaceOfSpaces(s[..a]);
  }

  /** Dropping trailing white space keeps the non-space characters. */
  lemma NonSpaceSkipRight(s: string, b: nat)
    requires b <= |s| && forall i :: b <= i < |s| ==> IsSpace(s[i])
    ensures NonSpace(s[..b]) == NonSpace(s)
  {
    assert s == s[..b] + s[b..];
    NonSpaceConcat(s[..b], s[b..]);
    NonSpaceOfSpaces(s[b..]);
  }

  /** Dropping white space at either end of a text keeps its non-space characters. */
  lemma NonSpaceStrip(s: string)
    ensures NonSpace(Strip(s)) == NonSpace(s)
  {
    var l := TrimLeft(s);
    NonSpaceSkipLeft(s, |s| - |l|);
    var r := TrimRight(l);
    NonSpaceSkipRight(l, |r|);
  }

  /**
   * `re.sub(r"\s+", " ", s)`: every run of white space becomes one space. The result's white space
   * is single plain spaces, and its other characters are the input's, in order.
   */
  function Collapse(s: string): (r: string)
    ensures forall i :: 0 <= i < |r| && IsSpace(r[i]) ==> r[i] == ' '
    ensures forall i, j :: 0 <= i && j == i + 1 && j < |r| ==> !IsSpace(r[i]) || !IsSpace(r[j])
    ensures s != [] ==> r != [] && (IsSpace(r[0]) <==> IsSpace(s[0]))
    ensures NonSpace(r) == NonSpace(s)
    decreases |s|
  {
    if s == [] then []
    else if IsSpace(s[0]) then
      var t := TrimLeft(s);
      assert |t| < |s| by {
        assert t != s;
      }
      NonSpaceSkipLeft(s, |s| - |t|);
      var rest := Collapse(t);
      [' '] + rest
    else
      var rest := Collapse(s[1..]);
      [s[0]] + rest
  }

  /** Text whose white space is already single plain spaces is left alone. */
  lemma {:induction false} CollapseKeeps(s: string)
    requires forall i :: 0 <= i < |s| && IsSpace(s[i]) ==> s[i] == ' '
    requires forall i, j :: 0 <= i && j == i + 1 && j < |s| ==> !IsSpace(s[i]) || !IsSpace(s[j])
    ensures Collapse(s) == s
  {
    if s != [] {
      var t := s[1..];
      assert forall i :: 0 <= i < |t| ==> t[i] == s[i + 1];
      CollapseKeeps(t);
      if IsSpace(s[0]) {
        assert t == [] || !IsSpace(t[0]);
        assert TrimLeft(t) == t;
        assert TrimLeft(s) == t;
      }
    }
  }

  /** `lower`, then ё to е, then hyphen and underscore to a space: one character at a time. */
  function FoldChar(c: char): (r: char)
    ensures r != '-' && r != '_' && r != 'ё' && r != 'Ё'
    ensures !('A' <= r <= 'Z') && !('А' <= r <= 'Я')
    ensures IsSpace(c) ==> r == c
  {
    var l := LowerChar(c);
    if l == 'ё' then 'е' else if l == '-' || l == '_' then ' ' else l
  }

  function Fold(s: string): (r: string)
    ensures |r| == |s|
    ensures forall i :: 0 <= i < |s| ==> r[i] == FoldChar(s[i])
  {
    seq(|s|, i requires 0 <= i < |s| => FoldChar(s[i]))
  }

  /** A text with no white space at either end folds to one with none either. */
  lemma NonSpaceFoldSlice(s: string, a: int, b: int)
    requires 0 <= a <= b <= |s|
    requires forall i :: 0 <= i < a ==> IsSpace(s[i])
    requires forall i :: b <= i < |s| ==> IsSpace(s[i])
    ensures NonSpace(Fold(s[a..b])) == NonSpace(Fold(s))
  {
    var f := Fold(s);
    var g := f[..b];
    assert Fold(s[a..b]) == g[a..];
    NonSpaceSkipRight(f, b);
    NonSpaceSkipLeft(g, a);
  }

  /** `_canon`. */
  function AliasCanon(s: string): string {
    Collapse(Fold(Strip(s)))
  }

  /** The canonical text has no upper-case letter, no ё, no hyphen or underscore. */
  lemma CanonFolded(s: string)
    ensures var r := AliasCanon(s);
      forall i :: 0 <= i < |r| ==>
        r[i] != '-' && r[i] != '_' && r[i] != 'ё' && r[i] != 'Ё' && !('A' <= r[i] <= 'Z') && !('А' <= r[i] <= 'Я')
  {
    var f := Fold(Strip(s));
    var r := Collapse(f);
    forall i | 0 <= i < |r|
      ensures r[i] != '-' && r[i] != '_' && r[i] != 'ё' && r[i] != 'Ё' && !('A' <= r[i] <= 'Z') && !('А' <= r[i] <= 'Я')
    {
      if !IsSpace(r[i]) {
        NonSpaceMembers(r, r[i]);
        NonSpaceMembers(f, r[i]);
        var j :| 0 <= j < |f| && f[j] == r[i];
      }
    }
  }

  /**
   * The canonical text's white space is single plain spaces, and apart from white space it is the
   * input folded character by character.
   */
  lemma CanonSpacing(s: string)
    ensures var r := AliasCanon(s);
      && (forall i :: 0 <= i < |r| && IsSpace(r[i]) ==> r[i] == ' ')
      && (forall i, j :: 0 <= i && j == i + 1 && j < |r| ==> !IsSpace(r[i]) || !IsSpace(r[j]))
      && NonSpace(r) == NonSpace(Fold(s))
  {
    var a, b := StripIsSlice(s);
    NonSpaceFoldSlice(s, a, b);
  }

  /** `str.strip()` keeps a slice of the text with only white space around it. */
  lemma StripIsSlice(s: string) returns (a: nat, b: nat)
    ensures a <= b <= |s| && Strip(s) == s[a..b]
    ensures forall i :: 0 <= i < a ==> IsSpace(s[i])
    ensures forall i :: b <= i < |s| ==> IsSpace(s[i])
  {
    var l := TrimLeft(s);
    a := |s| - |l|;
    var t := TrimRight(l);
    b := a + |t|;
    forall i | b <= i < |s|
      ensures IsSpace(s[i])
    {
      assert s[i] == l[i - a];
    }
  }

  predicate IsWordChar(c: char) { 'a' <= c <= 'z' || c == '_' }

  /**
   * A lower-case ASCII word whose underscores are single and inside it canonicalises to itself with
   * every underscore turned into a space.
   */
  lemma CanonOfSnakeWord(w: string)
    requires |w| > 0 && forall i :: 0 <= i < |w| ==> IsWordChar(w[i])
    requires w[0] != '_' && w[|w| - 1] != '_'
    requires forall i, j :: 0 <= i && j == i + 1 && j < |w| ==> w[i] != '_' || w[j] != '_'
    ensures |AliasCanon(w)| == |w|
    ensures forall i :: 0 <= i < |w| ==> AliasCanon(w)[i] == if w[i] == '_' then ' ' else w[i]
  {
    StripKeeps(w);
    var f := Fold(w);
    forall i | 0 <= i < |w|
      ensures f[i] == (if w[i] == '_' then ' ' else w[i])
    {
      assert IsWordChar(w[i]);
    }
    CollapseKeeps(f);
    assert AliasCanon(w) == Collapse(f);
  }

  // ---------------------------------------------------------------------------------------------
  // Alias tables
  // ---------------------------------------------------------------------------------------------

  const TypeAliases: map<string, string> := map["диван" := "sofa", "софа" := "sofa", "sofa" := "sofa"]

  const StyleAliases: map<string, string> := map[
    "сканди" := "scandi", "скандинавский" := "scandi", "scandi" := "scandi",
    "лофт" := "loft", "loft" := "loft",
    "современный" := "modern", "модерн" := "modern", "modern" := "modern",
    "минимализм" := "minimal", "минимальный" := "minimal", "minimal" := "minimal",
    "классический" := "classic", "классика" := "classic", "classic" := "classic"]

  const LayoutAliases: map<string, string> := map[
    "прямой" := "straight", "прямая" := "straight", "straight" := "straight",
    "угловой" := "corner", "угловая" := "corner", "corner" := "corner",
    "п образный" := "u_shape", "побразный" := "u_shape", "u образный" := "u_shape",
    "u shape" := "u_shape", "u_shape" := "u_shape",
    "секционный" := "modular", "модульный" := "modular", "modular" := "modular"]

  const LegAliases: map<string, string> := map[
    "конусные" := "tapered_cone", "конус" := "tapered_cone", "tapered cone" := "tapered_cone",
    "tapered_cone" := "tapered_cone",
    "пирамида" := "tapered_prism", "призма" := "tapered_prism", "скошенная пирамида" := "tapered_prism",
    "tapered prism" := "tapered_prism", "tapered_prism" := "tapered_prism",
    "цилиндрические" := "cylindrical", "цилиндр" := "cylindrical", "cylindrical" := "cylindrical",
    "блочные" := "block", "кубики" := "block", "block" := "block",
    "hairpin" := "hairpin", "шпильки" := "hairpin",
    "sled" := "sled", "полозья" := "sled",
    "frame" := "frame", "рамные" := "frame"]

  /**
   * The `mode="before"` alias validators: `None` passes through; otherwise the canonical text's
   * table entry, or the input unchanged when the table has none.
   */
  function Alias(table: map<string, string>, v: Option<string>): (r: Option<string>)
    ensures r.None? <==> v.None?
    ensures r == v || (v.Some? && r.Some? && r.value in table.Values)
  {
    match v
    case None => None
    case Some(s) => if AliasCanon(s) in table then Some(table[AliasCanon(s)]) else v
  }

  /** `w` is found again under its own canonical text. */
  predicate Found(table: map<string, string>, w: string) {
    AliasCanon(w) in table && table[AliasCanon(w)] == w
  }

  /** Every table value is found again under its own canonical text. */
  predicate Closed(table: map<string, string>) {
    forall k :: k in table ==> Found(table, table[k])
  }

  /** Over a closed table, applying an alias validator a second time changes nothing. */
  lemma AliasIdempotent(table: map<string, string>, v: Option<string>)
    requires Closed(table)
    ensures Alias(table, Alias(table, v)) == Alias(table, v)
  {
    if v.Some? && AliasCanon(v.value) in table {
      assert Found(table, table[AliasCanon(v.value)]);
    }
  }

  lemma FoundVia(table: map<string, string>, w: string, key: string)
    requires AliasCanon(w) == key && key in table && table[key] == w
    ensures Found(table, w)
  {
  }

  lemma CanonOfPlainWord(w: string)
    requires |w| > 0 && forall i :: 0 <= i < |w| ==> 'a' <= w[i] <= 'z'
    ensures AliasCanon(w) == w
  {
    assert forall i :: 0 <= i < |w| ==> IsWordChar(w[i]) && w[i] != '_';
    CanonOfSnakeAs(w, w);
  }

  /** A snake-case word canonicalises to the spaced text `r`. */
  lemma CanonOfSnakeAs(w: string, r: string)
    requires |w| > 0 && forall i :: 0 <= i < |w| ==> IsWordChar(w[i])
    requires w[0] != '_' && w[|w| - 1] != '_'
    requires forall i, j :: 0 <= i && j == i + 1 && j < |w| ==> w[i] != '_' || w[j] != '_'
    requires |r| == |w| && forall i :: 0 <= i < |w| ==> r[i] == if w[i] == '_' then ' ' else w[i]
    ensures AliasCanon(w) == r
  {
    CanonOfSnakeWord(w);
  }

  lemma TypeLookups()
    ensures forall k :: k in TypeAliases ==> TypeAliases[k] in {"sofa"}
    ensures "sofa" in TypeAliases && TypeAliases["sofa"] == "sofa"
  {
  }

  lemma FoundTypeSofa(w: string)
    requires w == "sofa"
    ensures Found(TypeAliases, w)
  {
    TypeLookups();
    CanonOfPlainWord(w);
    FoundVia(TypeAliases, w, "sofa");
  }

  lemma TypeAliasesClosed()
    ensures Closed(TypeAliases)
  {
    TypeLookups();
    forall k | k in TypeAliases
      ensures Found(TypeAliases, TypeAliases[k])
    {
      var w := TypeAliases[k];
      FoundTypeSofa(w);
    }
  }

  lemma StyleLookups()
    ensures forall k :: k in StyleAliases ==> StyleAliases[k] in {"scandi", "loft", "modern", "minimal", "classic"}
    ensures "scandi" in StyleAliases && StyleAliases["scandi"] == "scandi"
    ensures "loft" in StyleAliases && StyleAliases["loft"] == "loft"
    ensures "modern" in StyleAliases && StyleAliases["modern"] == "modern"
    ensures "minimal" in StyleAliases && StyleAliases["minimal"] == "minimal"
    ensures "classic" in StyleAliases && StyleAliases["classic"] == "classic"
  {
  }

  lemma FoundStyleScandi(w: string)
    requires w == "scandi"
    ensures Found(StyleAliases, w)
  {
    StyleLookups();
    CanonOfPlainWord(w);
    FoundVia(StyleAliases, w, "scandi");
  }

  lemma FoundStyleLoft(w: string)
    requires w == "loft"
    ensures Found(StyleAliases, w)
  {
    StyleLookups();
    CanonOfPlainWord(w);
    FoundVia(StyleAliases, w, "loft");
  }

  lemma FoundStyleModern(w: string)
    requires w == "modern"
    ensures Found(StyleAliases, w)
  {
    StyleLookups();
    CanonOfPlainWord(w);
    FoundVia(StyleAliases, w, "modern");
  }

  lemma FoundStyleMinimal(w: string)
    requires w == "minimal"
    ensures Found(StyleAliases, w)
  {
    StyleLookups();
    CanonOfPlainWord(w);
    FoundVia(StyleAliases, w, "minimal");
  }

  lemma FoundStyleClassic(w: string)
    requires w == "classic"
    ensures Found(StyleAliases, w)
  {
    StyleLookups();
    CanonOfPlainWord(w);
    FoundVia(StyleAliases, w, "classic");
  }

  lemma StyleAliasesClosed()
    ensures Closed(StyleAliases)
  {
    StyleLookups();
    forall k | k in StyleAliases
      ensures Found(StyleAliases, StyleAliases[k])
    {
      var w := StyleAliases[k];
      if w == "scandi" {
        FoundStyleScandi(w);
      } else if w == "loft" {
        FoundStyleLoft(w);
      } else if w == "modern" {
        FoundStyleModern(w);
      } else if w == "minimal" {
        FoundStyleMinimal(w);
      } else {
        FoundStyleClassic(w);
      }
    }
  }

  lemma LayoutLookups()
    ensures forall k :: k in LayoutAliases ==> LayoutAliases[k] in {"straight", "corner", "u_shape", "modular"}
    ensures "straight" in LayoutAliases && LayoutAliases["straight"] == "straight"
    ensures "corner" in LayoutAliases && LayoutAliases["corner"] == "corner"
    ensures "u shape" in LayoutAliases && LayoutAliases["u shape"] == "u_shape"
    ensures "modular" in LayoutAliases && LayoutAliases["modular"] == "modular"
  {
  }

  lemma FoundLayoutStraight(w: string)
    requires w == "straight"
    ensures Found(LayoutAliases, w)
  {
    LayoutLookups();
    CanonOfPlainWord(w);
    FoundVia(LayoutAliases, w, "straight");
  }

  lemma FoundLayoutCorner(w: string)
    requires w == "corner"
    ensures Found(LayoutAliases, w)
  {
    LayoutLookups();
    CanonOfPlainWord(w);
    FoundVia(LayoutAliases, w, "corner");
  }

  lemma FoundLayoutUShape(w: string)
    requires w == "u_shape"
    ensures Found(LayoutAliases, w)
  {
    LayoutLookups();
    CanonOfSnakeAs(w, "u shape");
    FoundVia(LayoutAliases, w, "u shape");
  }

  lemma FoundLayoutModular(w: string)
    requires w == "modular"
    ensures Found(LayoutAliases, w)
  {
    LayoutLookups();
    CanonOfPlainWord(w);
    FoundVia(LayoutAliases, w, "modular");
  }

  lemma LayoutAliasesClosed()
    ensures Closed(LayoutAliases)
  {
    LayoutLookups();
    forall k | k in LayoutAliases
      ensures Found(LayoutAliases, LayoutAliases[k])
    {
      var w := LayoutAliases[k];
      if w == "straight" {
        FoundLayoutStraight(w);
      } else if w == "corner" {
        FoundLayoutCorner(w);
      } else if w == "u_shape" {
        FoundLayoutUShape(w);
      } else {
        FoundLayoutModular(w);
      }
    }
  }

  lemma LegLookups()
    ensures forall k :: k in LegAliases ==> LegAliases[k] in {"tapered_cone", "tapered_prism", "cylindrical", "block", "hairpin", "sled", "frame"}
    ensures "tapered cone" in LegAliases && LegAliases["tapered cone"] == "tapered_cone"
    ensures "tapered prism" in LegAliases && LegAliases["tapered prism"] == "tapered_prism"
    ensures "cylindrical" in LegAliases && LegAliases["cylindrical"] == "cylindrical"
    ensures "block" in LegAliases && LegAliases["block"] == "block"
    ensures "hairpin" in LegAliases && LegAliases["hairpin"] == "hairpin"
    ensures "sled" in LegAliases && LegAliases["sled"] == "sled"
    ensures "frame" in LegAliases && LegAliases["frame"] == "frame"
  {
  }

  lemma FoundLegTaperedCone(w: string)
    requires w == "tapered_cone"
    ensures Found(LegAliases, w)
  {
    LegLookups();
    CanonOfSnakeAs(w, "tapered cone");
    FoundVia(LegAliases, w, "tapered cone");
  }

  lemma FoundLegTaperedPrism(w: string)
    requires w == "tapered_prism"
    ensures Found(LegAliases, w)
  {
    LegLookups();
    CanonOfSnakeAs(w, "tapered prism");
    FoundVia(LegAliases, w, "tapered prism");
  }

  lemma FoundLegCylindrical(w: string)
    requires w == "cylindrical"
    ensures Found(LegAliases, w)
  {
    LegLookups();
    CanonOfPlainWord(w);
    FoundVia(LegAliases, w, "cylindrical");
  }

  lemma FoundLegBlock(w: string)
    requires w == "block"
    ensures Found(LegAliases, w)
  {
    LegLookups();
    CanonOfPlainWord(w);
    FoundVia(LegAliases, w, "block");
  }

  lemma FoundLegHairpin(w: string)
    requires w == "hairpin"
    ensures Found(LegAliases, w)
  {
    LegLookups();
    CanonOfPlainWord(w);
    FoundVia(LegAliases, w, "hairpin");
  }

  lemma FoundLegSled(w: string)
    requires w == "sled"
    ensures Found(LegAliases, w)
  {
    LegLookups();
    CanonOfPlainWord(w);
    FoundVia(LegAliases, w, "sled");
  }

  lemma FoundLegFrame(w: string)
    requires w == "frame"
    ensures Found(LegAliases, w)
  {
    LegLookups();
    CanonOfPlainWord(w);
    FoundVia(LegAliases, w, "frame");
  }

  lemma LegAliasesClosed()
    ensures Closed(LegAliases)
  {
    LegLookups();
    forall k | k in LegAliases
      ensures Found(LegAliases, LegAliases[k])
    {
      var w := LegAliases[k];
      if w == "tapered_cone" {
        FoundLegTaperedCone(w);
      } else if w == "tapered_prism" {
        FoundLegTaperedPrism(w);
      } else if w == "cylindrical" {
        FoundLegCylindrical(w);
      } else if w == "block" {
        FoundLegBlock(w);
      } else if w == "hairpin" {
        FoundLegHairpin(w);
      } else if w == "sled" {
        FoundLegSled(w);
      } else {
        FoundLegFrame(w);
      }
    }
  }
}
