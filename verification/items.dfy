/** The crafting catalogue's logic (lib/items.ts): the record types, the
    crafting-materials text parser, the de-duplicated material list, the
    guarded cost sums and the attribute colours. The static tables live in
    module Catalogue. */
module Items {
  import opened Common

  datatype ItemRequirement = ItemRequirement(name: string, quantity: nat)

  datatype ChildMercenary = ChildMercenary(
    id: int,
    name: string,
    attributesName: string,
    countryName: string,
    items: seq<ItemRequirement>,
    classTypeName: string)

  datatype Mercenary = Mercenary(
    id: int,
    name: string,
    attributesName: string,
    countryName: string,
    items: seq<ItemRequirement>,
    classTypeName: string,
    childMercenaries: seq<ChildMercenary>)

  datatype PriceListing = PriceListing(price: int, quantity: int, sellerName: string)

  /** The live price of one material; `lastUpdated` is a timestamp in
      milliseconds. */
  datatype PriceInfo = PriceInfo(
    itemName: string,
    minPrice: int,
    maxPrice: int,
    avgPrice: int,
    quantity: int,
    listings: seq<PriceListing>,
    lastUpdated: int)

  /** Class of the modified mercenaries, whose materials cannot be bought. */
  const MODIFIED_CLASS: string := "개조장수"

  // ---------------------------------------------------------------------
  // Splitting on ", "
  // ---------------------------------------------------------------------

  const SEPARATOR: string := ", "

  /** `p` holds no ", ". */
  predicate NoSeparator(p: string) {
    forall i :: 0 <= i < |p| - 1 ==> !(p[i] == ',' && p[i + 1] == ' ')
  }

  /** `Array.prototype.join(", ")`. */
  function Join(pieces: seq<string>): string {
    if |pieces| == 0 then ""
    else if |pieces| == 1 then pieces[0]
    else pieces[0] + SEPARATOR + Join(pieces[1..])
  }

  /** `String.prototype.split(", ")`: cuts at every occurrence of the
      separator, scanning left to right. */
  function Split(s: string): (r: seq<string>)
    ensures |r| >= 1
    ensures r[0] <= s
    ensures Join(r) == s
    ensures forall i :: 0 <= i < |r| ==> NoSeparator(r[i])
    decreases |s|
  {
    if |s| < 2 then [s]
    else if s[0] == ',' && s[1] == ' ' then
      var t := Split(s[2..]);
      assert ([""] + t)[1..] == t;
      assert s == SEPARATOR + s[2..];
      [""] + t
    else
      var t := Split(s[1..]);
      SplitPrepend(s[0], s[1..], t);
      assert s == [s[0]] + s[1..];
      [[s[0]] + t[0]] + t[1..]
  }

  /** A character that does not start a separator joins the first piece. */
  lemma SplitPrepend(c: char, rest: string, t: seq<string>)
    requires |t| >= 1 && t[0] <= rest && Join(t) == rest
    requires forall i :: 0 <= i < |t| ==> NoSeparator(t[i])
    requires !(c == ',' && |rest| > 0 && rest[0] == ' ')
    ensures var r := [[c] + t[0]] + t[1..];
            && r[0] <= [c] + rest && Join(r) == [c] + rest
            && forall i :: 0 <= i < |r| ==> NoSeparator(r[i])
  {
    var head := [c] + t[0];
    var r := [head] + t[1..];
    assert forall i :: 1 <= i < |head| ==> head[i] == t[0][i - 1];
    assert NoSeparator(head);
    if |t| > 1 {
      assert Join(t) == t[0] + SEPARATOR + Join(t[1..]);
      assert r[1..] == t[1..];
      assert Join(r) == head + SEPARATOR + Join(t[1..]);
    }
    assert forall i :: 1 <= i < |r| ==> r[i] == t[i];
  }

  lemma {:induction false} SplitSingle(p: string)
    requires NoSeparator(p)
    ensures Split(p) == [p]
    decreases |p|
  {
    if |p| >= 2 {
      assert NoSeparator(p[1..]);
      SplitSingle(p[1..]);
      assert [p[0]] + p[1..] == p;
    }
  }

  lemma {:induction false} SplitAfterPiece(p: string, rest: string)
    requires NoSeparator(p)
    ensures Split(p + SEPARATOR + rest) == [p] + Split(rest)
    decreases |p|
  {
    var s := p + SEPARATOR + rest;
    if |p| == 0 {
      assert s == SEPARATOR + rest;
      assert s[2..] == rest;
    } else {
      assert NoSeparator(p[1..]);
      SplitAfterPiece(p[1..], rest);
      assert s[1..] == p[1..] + SEPARATOR + rest;
      assert s[0] == p[0];
      assert |p| == 1 ==> s[1] == ',';
      assert |p| > 1 ==> s[1] == p[1];
      assert [p[0]] + p[1..] == p;
    }
  }

  /** Splitting undoes joining pieces that hold no separator. */
  lemma {:induction false} SplitJoin(pieces: seq<string>)
    requires |pieces| >= 1
    requires forall i :: 0 <= i < |pieces| ==> NoSeparator(pieces[i])
    ensures Split(Join(pieces)) == pieces
    decreases |pieces|
  {
    if |pieces| == 1 {
      SplitSingle(pieces[0]);
    } else {
      SplitJoin(pieces[1..]);
      SplitAfterPiece(pieces[0], Join(pieces[1..]));
      assert [pieces[0]] + pieces[1..] == pieces;
    }
  }

  // ---------------------------------------------------------------------
  // The pattern /(.+?)\s+(\d+)개/
  // ---------------------------------------------------------------------

  /** JavaScript's `\s`: white space and line terminators. */
  predicate IsSpace(c: char) {
    || c == '\t' || c == '\n' || c == '\U{000B}' || c == '\U{000C}' || c == '\r' || c == ' '
    || c == '\U{00A0}' || c == '\U{1680}' || ('\U{2000}' <= c <= '\U{200A}')
    || c == '\U{2028}' || c == '\U{2029}' || c == '\U{202F}' || c == '\U{205F}'
    || c == '\U{3000}' || c == '\U{FEFF}'
  }

  /** The characters `.` does not match. */
  predicate IsLineTerminator(c: char) {
    c == '\n' || c == '\r' || c == '\U{2028}' || c == '\U{2029}'
  }

  /** JavaScript's `\d`. */
  predicate IsDigit(c: char) {
    '0' <= c <= '9'
  }

  /** The counter word that closes a quantity. */
  const UNIT: char := '개'

  /** End of the maximal run of white space starting at `i`. */
  function SpaceEnd(s: string, i: nat): (j: nat)
    requires i <= |s|
    ensures i <= j <= |s|
    ensures forall k :: i <= k < j ==> IsSpace(s[k])
    ensures j == |s| || !IsSpace(s[j])
    decreases |s| - i
  {
    if i == |s| || !IsSpace(s[i]) then i else SpaceEnd(s, i + 1)
  }

  /** End of the maximal run of digits starting at `i`. */
  function DigitEnd(s: string, i: nat): (j: nat)
    requires i <= |s|
    ensures i <= j <= |s|
    ensures forall k :: i <= k < j ==> IsDigit(s[k])
    ensures j == |s| || !IsDigit(s[j])
    decreases |s| - i
  {
    if i == |s| || !IsDigit(s[i]) then i else DigitEnd(s, i + 1)
  }

  /** `\s+(\d+)개` matches at `p`. White space and digits are disjoint, so
      backtracking never helps: only the maximal runs can be followed by
      the counter word. */
  predicate QuantityRunAt(s: string, p: nat) {
    && p < |s|
    && IsSpace(s[p])
    && var q := SpaceEnd(s, p);
    var r := DigitEnd(s, q);
    q < r < |s| && s[r] == UNIT
  }

  /** What `(\d+)` captures when the quantity run matches at `p`. */
  function QuantityDigits(s: string, p: nat): (d: string)
    requires QuantityRunAt(s, p)
    ensures |d| > 0
    ensures forall k :: 0 <= k < |d| ==> IsDigit(d[k])
  {
    s[SpaceEnd(s, p)..DigitEnd(s, SpaceEnd(s, p))]
  }

  ghost predicate NoLineTerminatorIn(s: string, i: nat, j: nat)
    requires i <= j <= |s|
  {
    forall k :: i <= k < j ==> !IsLineTerminator(s[k])
  }

  /** The whole pattern matches with its first group spanning s[b..e]. */
  ghost predicate MatchAt(s: string, b: nat, e: nat) {
    b < e < |s| && NoLineTerminatorIn(s, b, e) && QuantityRunAt(s, e)
  }

  /** The lazy group `(.+?)` anchored at `b` has consumed s[b..p]; it tries
      to stop at `p`, then at `p + 1`, and so on, and gives up at a line
      terminator, which `.` does not match. What it finds is stated by
      `LazyEndMeaning`. */
  function LazyEnd(s: string, b: nat, p: nat): (r: Option<nat>)
    requires b < p <= |s|
    ensures r.Some? ==> p <= r.value < |s| && QuantityRunAt(s, r.value)
    decreases |s| - p
  {
    if IsLineTerminator(s[p - 1]) then None
    else if QuantityRunAt(s, p) then Some(p)
    else if p == |s| then None
    else LazyEnd(s, b, p + 1)
  }

  /** The lazy group stops at the first position where the rest of the
      pattern matches, and finds none when there is none. */
  lemma {:induction false} LazyEndMeaning(s: string, b: nat, p: nat)
    requires b < p <= |s|
    requires NoLineTerminatorIn(s, b, p - 1)
    ensures var r := LazyEnd(s, b, p);
      && (r.Some? ==> MatchAt(s, b, r.value))
      && (r.Some? ==> forall e: nat :: p <= e < r.value ==> !MatchAt(s, b, e))
      && (r.None? ==> forall e: nat :: p <= e ==> !MatchAt(s, b, e))
    decreases |s| - p
  {
    if IsLineTerminator(s[p - 1]) {
      forall e: nat | p <= e
        ensures !MatchAt(s, b, e)
      {
        if e < |s| {
          assert !NoLineTerminatorIn(s, b, e);
        }
      }
    } else if QuantityRunAt(s, p) {
    } else if p < |s| {
      LazyEndMeaning(s, b, p + 1);
    }
  }

  /** The unanchored search: tries each start in turn, leftmost first.
      What it finds is stated by `SearchFromFound` and `SearchFromNone`. */
  function SearchFrom(s: string, b: nat): (r: Option<(nat, nat)>)
    ensures r.Some? ==> b <= r.value.0 < r.value.1 < |s| && QuantityRunAt(s, r.value.1)
    decreases |s| - b
  {
    if b + 1 >= |s| then None
    else match LazyEnd(s, b, b + 1)
      case Some(e) => Some((b, e))
      case None => SearchFrom(s, b + 1)
  }

  /** The search finds nothing only when nothing matches from `b` on. */
  lemma {:induction false} SearchFromNone(s: string, b: nat)
    requires SearchFrom(s, b).None?
    ensures forall b': nat, e: nat :: b <= b' ==> !MatchAt(s, b', e)
    decreases |s| - b
  {
    if b + 1 < |s| {
      assert NoLineTerminatorIn(s, b, b);
      LazyEndMeaning(s, b, b + 1);
      SearchFromNone(s, b + 1);
      forall b': nat, e: nat | b <= b'
        ensures !MatchAt(s, b', e)
      {
        if b' == b && e <= b {
          assert !(b' < e);
        }
      }
    }
  }

  /** The search finds the leftmost start with a match and, at that start,
      the shortest first group. */
  lemma {:induction false} SearchFromFound(s: string, b: nat)
    requires SearchFrom(s, b).Some?
    ensures var (b0, e0) := SearchFrom(s, b).value;
      && MatchAt(s, b0, e0)
      && (forall e: nat :: e < e0 ==> !MatchAt(s, b0, e))
      && (forall b': nat, e: nat :: b <= b' < b0 ==> !MatchAt(s, b', e))
    decreases |s| - b
  {
    assert b + 1 < |s|;
    assert NoLineTerminatorIn(s, b, b);
    LazyEndMeaning(s, b, b + 1);
    if LazyEnd(s, b, b + 1).Some? {
      assert SearchFrom(s, b).value == (b, LazyEnd(s, b, b + 1).value);
    } else {
      assert SearchFrom(s, b) == SearchFrom(s, b + 1);
      SearchFromFound(s, b + 1);
      forall b': nat, e: nat | b == b'
        ensures !MatchAt(s, b', e)
      {
        if e <= b {
          assert !(b' < e);
        }
      }
    }
  }

  function DigitValue(c: char): nat
    requires IsDigit(c)
  {
    (c as int) - ('0' as int)
  }

  /** `parseInt` of a run of decimal digits. */
  function DigitsValue(d: string): nat
    requires forall k :: 0 <= k < |d| ==> IsDigit(d[k])
  {
    if |d| == 0 then 0 else DigitsValue(d[..|d| - 1]) * 10 + DigitValue(d[|d| - 1])
  }

  /** The first position where a quantity run follows a non-empty name. */
  ghost predicate FirstRunAt(s: string, e: nat) {
    0 < e < |s| && QuantityRunAt(s, e) && forall e': nat :: 0 < e' < e ==> !QuantityRunAt(s, e')
  }

  /** One ", "-separated piece: the first match of the pattern gives the
      name and the quantity, no match gives the whole piece with quantity 1.
      What this means for a piece on one line is `ParsePieceMeaning`. */
  function ParsePiece(piece: string): ItemRequirement {
    match SearchFrom(piece, 0)
    case Some((b, e)) => ItemRequirement(piece[b..e], DigitsValue(QuantityDigits(piece, e)))
    case None => ItemRequirement(piece, 1)
  }

  /** A piece on one line reads as `name N개` when a quantity run follows a
      non-empty name: the name is everything before the first such run and
      N is the run's digits. Without such a run the whole piece is the name
      and the quantity is 1. */
  lemma ParsePieceMeaning(piece: string)
    requires NoLineTerminatorIn(piece, 0, |piece|)
    ensures var r := ParsePiece(piece);
      || (exists e: nat :: FirstRunAt(piece, e) && r.name == piece[..e]
                       && r.quantity == DigitsValue(QuantityDigits(piece, e)))
      || ((forall e: nat :: 0 < e < |piece| ==> !QuantityRunAt(piece, e)) && r == ItemRequirement(piece, 1))
  {
    match SearchFrom(piece, 0)
    case Some((b, e)) =>
      SearchFromFound(piece, 0);
      assert MatchAt(piece, b, e);
      assert MatchAt(piece, 0, e);
      forall e' | 0 < e' < e
        ensures !QuantityRunAt(piece, e')
      {
        assert !MatchAt(piece, 0, e');
      }
      assert FirstRunAt(piece, e);
    case None =>
      SearchFromNone(piece, 0);
      forall e | 0 < e < |piece|
        ensures !QuantityRunAt(piece, e)
      {
        assert !MatchAt(piece, 0, e);
      }
  }

  function ParsePieces(pieces: seq<string>): (r: seq<ItemRequirement>)
    ensures |r| == |pieces|
    ensures forall i :: 0 <= i < |pieces| ==> r[i] == ParsePiece(pieces[i])
  {
    if |pieces| == 0 then [] else [ParsePiece(pieces[0])] + ParsePieces(pieces[1..])
  }

  /** `parseCraftingMaterials`: the empty text lists nothing; otherwise one
      requirement per ", "-separated piece, in order. */
  function ParseCraftingMaterials(materials: string): (r: seq<ItemRequirement>)
    ensures materials == "" ==> r == []
    ensures materials != "" ==> |r| == |Split(materials)|
  {
    if materials == "" then [] else ParsePieces(Split(materials))
  }

  // Rendering: the inverse of the parser on well-formed requirements.

  function DigitChar(k: nat): (c: char)
    requires k < 10
    ensures IsDigit(c) && DigitValue(c) == k
  {
    (('0' as int) + k) as char
  }

  /** Decimal notation of `n`, without leading zeros. */
  function NatToDigits(n: nat): (d: string)
    ensures |d| > 0
    ensures forall k :: 0 <= k < |d| ==> IsDigit(d[k])
    ensures DigitsValue(d) == n
  {
    if n < 10 then [DigitChar(n)]
    else
      var d := NatToDigits(n / 10) + [DigitChar(n % 10)];
      assert d[..|d| - 1] == NatToDigits(n / 10);
      d
  }

  /** `name N개`. */
  function RenderRequirement(req: ItemRequirement): string {
    req.name + " " + NatToDigits(req.quantity) + [UNIT]
  }

  function RenderPieces(reqs: seq<ItemRequirement>): (r: seq<string>)
    ensures |r| == |reqs|
    ensures forall i :: 0 <= i < |reqs| ==> r[i] == RenderRequirement(reqs[i])
  {
    if |reqs| == 0 then [] else [RenderRequirement(reqs[0])] + RenderPieces(reqs[1..])
  }

  /** The text a crafting-materials string would have for `reqs`. */
  function RenderMaterials(reqs: seq<ItemRequirement>): string {
    Join(RenderPieces(reqs))
  }

  /** Names the parser gives back unchanged: non-empty, on one line, free
      of the separator and of the counter word, and not ending in white
      space or a comma. */
  ghost predicate WellFormedName(name: string) {
    && |name| > 0
    && NoLineTerminatorIn(name, 0, |name|)
    && NoSeparator(name)
    && UNIT !in name
    && !IsSpace(name[|name| - 1])
    && name[|name| - 1] != ','
  }

  /** No quantity run starts inside a well-formed name. */
  lemma NoRunInsideName(name: string, d: string, e: nat)
    requires WellFormedName(name)
    requires |d| > 0 && forall k :: 0 <= k < |d| ==> IsDigit(d[k])
    requires 0 < e < |name|
    ensures !QuantityRunAt(name + " " + d + [UNIT], e)
  {
    var s := name + " " + d + [UNIT];
    var n := |name|;
    var q := SpaceEnd(s, e);
    var r := DigitEnd(s, q);
    assert s[n] == ' ';
    assert s[n - 1] == name[n - 1];
    assert forall k :: 0 <= k < n ==> s[k] == name[k];
    assert forall k :: 0 <= k < n ==> s[k] != UNIT;
    assert !IsDigit(s[n]);
    assert !IsSpace(s[n - 1]);
  }

  /** In a rendered requirement the first quantity run starts right after
      the name and captures the rendered digits. */
  lemma RenderedRun(name: string, d: string)
    requires WellFormedName(name)
    requires |d| > 0 && forall k :: 0 <= k < |d| ==> IsDigit(d[k])
    ensures var s := name + " " + d + [UNIT];
      && NoLineTerminatorIn(s, 0, |s|)
      && FirstRunAt(s, |name|)
      && QuantityDigits(s, |name|) == d
  {
    var s := name + " " + d + [UNIT];
    var n := |name|;
    assert forall k :: 0 <= k < n ==> s[k] == name[k];
    assert forall k :: n + 1 <= k < n + 1 + |d| ==> s[k] == d[k - n - 1];
    assert s[n] == ' ' && s[n + 1 + |d|] == UNIT;
    assert NoLineTerminatorIn(s, 0, |s|);
    assert SpaceEnd(s, n + 1) == n + 1;
    assert SpaceEnd(s, n) == n + 1;
    DigitRun(s, n + 1, n + 1 + |d|);
    assert QuantityRunAt(s, n);
    forall e': nat | 0 < e' < n
      ensures !QuantityRunAt(s, e')
    {
      NoRunInsideName(name, d, e');
    }
    assert s[n + 1..n + 1 + |d|] == d;
  }

  /** A piece on one line whose first quantity run is at `e` reads as its
      first `e` characters and the run's value. */
  lemma ParsePieceAtRun(piece: string, e: nat)
    requires NoLineTerminatorIn(piece, 0, |piece|)
    requires FirstRunAt(piece, e)
    ensures ParsePiece(piece) == ItemRequirement(piece[..e], DigitsValue(QuantityDigits(piece, e)))
  {
    ParsePieceMeaning(piece);
    var r := ParsePiece(piece);
    assert !(forall e': nat :: 0 < e' < |piece| ==> !QuantityRunAt(piece, e'));
    var e': nat :| FirstRunAt(piece, e') && r.name == piece[..e'] && r.quantity == DigitsValue(QuantityDigits(piece, e'));
    assert e' == e;
  }

  /** The parser recovers a rendered requirement. */
  lemma ParseRenderedPiece(req: ItemRequirement)
    requires WellFormedName(req.name)
    ensures ParsePiece(RenderRequirement(req)) == req
  {
    var name := req.name;
    var d := NatToDigits(req.quantity);
    var s := RenderRequirement(req);
    assert s == name + " " + d + [UNIT];
    RenderedRun(name, d);
    ParsePieceAtRun(s, |name|);
    assert s[..|name|] == name;
  }

  lemma {:induction false} DigitRun(s: string, i: nat, j: nat)
    requires i <= j < |s|
    requires forall k :: i <= k < j ==> IsDigit(s[k])
    requires !IsDigit(s[j])
    ensures DigitEnd(s, i) == j
    decreases j - i
  {
    if i < j {
      DigitRun(s, i + 1, j);
    }
  }

  /** Round trip: parsing the rendered text of well-formed requirements
      gives them back, in order. */
  lemma ParseRendered(reqs: seq<ItemRequirement>)
    requires forall i :: 0 <= i < |reqs| ==> WellFormedName(reqs[i].name)
    ensures ParseCraftingMaterials(RenderMaterials(reqs)) == reqs
  {
    var pieces := RenderPieces(reqs);
    if |reqs| > 0 {
      forall i | 0 <= i < |pieces|
        ensures NoSeparator(pieces[i])
      {
        var name := reqs[i].name;
        var p := pieces[i];
        assert p == name + " " + NatToDigits(reqs[i].quantity) + [UNIT];
        forall k | 0 <= k < |p| - 1
          ensures !(p[k] == ',' && p[k + 1] == ' ')
        {
          if k < |name| - 1 {
            assert p[k] == name[k] && p[k + 1] == name[k + 1];
          } else if k == |name| - 1 {
            assert p[k] == name[|name| - 1];
          }
        }
      }
      SplitJoin(pieces);
      assert RenderMaterials(reqs) != "" by {
        assert |pieces[0]| > 0;
        assert |Join(pieces)| >= |pieces[0]|;
      }
      forall i | 0 <= i < |reqs|
        ensures ParsePiece(pieces[i]) == reqs[i]
      {
        ParseRenderedPiece(reqs[i]);
      }
    }
  }

  /** A text written as its ", "-separated pieces parses piece by piece;
      only the single empty piece, the falsy empty text, is excluded. */
  lemma ParseJoined(pieces: seq<string>)
    requires |pieces| > 1 || (|pieces| == 1 && |pieces[0]| > 0)
    requires forall i :: 0 <= i < |pieces| ==> NoSeparator(pieces[i])
    ensures ParseCraftingMaterials(Join(pieces)) == ParsePieces(pieces)
  {
    SplitJoin(pieces);
    assert |Join(pieces)| >= |pieces[0]| by {
      assert Split(Join(pieces))[0] <= Join(pieces);
    }
  }

  // ---------------------------------------------------------------------
  // getAllUniqueItems: an insertion-ordered set of material names
  // ---------------------------------------------------------------------

  ghost predicate NameIn(x: string, reqs: seq<ItemRequirement>) {
    exists i :: 0 <= i < |reqs| && reqs[i].name == x
  }

  /** A child mercenary whose materials are listed: any class but the
      modified one. */
  ghost predicate ChildSupplies(c: ChildMercenary, x: string) {
    c.classTypeName != MODIFIED_CLASS && NameIn(x, c.items)
  }

  ghost predicate Supplies(m: Mercenary, x: string) {
    || NameIn(x, m.items)
    || exists j :: 0 <= j < |m.childMercenaries| && ChildSupplies(m.childMercenaries[j], x)
  }

  /** `Set.prototype.add` on an insertion-ordered set. */
  function AddName(acc: seq<string>, x: string): (r: seq<string>)
    ensures NoDuplicates(acc) ==> NoDuplicates(r)
    ensures forall y :: y in r <==> y in acc || y == x
    ensures acc <= r
  {
    if x in acc then acc else acc + [x]
  }

  function AddNames(acc: seq<string>, reqs: seq<ItemRequirement>): (r: seq<string>)
    ensures NoDuplicates(acc) ==> NoDuplicates(r)
    ensures forall y :: y in r <==> y in acc || NameIn(y, reqs)
    ensures acc <= r
    decreases |reqs|
  {
    if |reqs| == 0 then acc
    else
      var r := AddNames(AddName(acc, reqs[0].name), reqs[1..]);
      assert forall y :: NameIn(y, reqs[1..]) ==> NameIn(y, reqs) by {
        forall y | NameIn(y, reqs[1..])
          ensures NameIn(y, reqs)
        {
          var i :| 0 <= i < |reqs[1..]| && reqs[1..][i].name == y;
          assert reqs[i + 1].name == y;
        }
      }
      assert forall y :: NameIn(y, reqs) ==> y == reqs[0].name || NameIn(y, reqs[1..]) by {
        forall y | NameIn(y, reqs)
          ensures y == reqs[0].name || NameIn(y, reqs[1..])
        {
          var i :| 0 <= i < |reqs| && reqs[i].name == y;
          if i > 0 {
            assert reqs[1..][i - 1].name == y;
          }
        }
      }
      assert NameIn(reqs[0].name, reqs);
      r
  }

  function AddChildren(acc: seq<string>, children: seq<ChildMercenary>): (r: seq<string>)
    ensures NoDuplicates(acc) ==> NoDuplicates(r)
    ensures forall y :: y in r <==> y in acc || exists j :: 0 <= j < |children| && ChildSupplies(children[j], y)
    ensures acc <= r
    decreases |children|
  {
    if |children| == 0 then acc
    else
      var c := children[0];
      var next := if c.classTypeName != MODIFIED_CLASS then AddNames(acc, c.items) else acc;
      var r := AddChildren(next, children[1..]);
      assert forall j :: 0 <= j < |children[1..]| ==> children[1..][j] == children[j + 1];
      assert forall y :: (exists j :: 0 <= j < |children| && ChildSupplies(children[j], y)) ==>
          ChildSupplies(c, y) || exists j :: 0 <= j < |children[1..]| && ChildSupplies(children[1..][j], y) by {
        forall y | exists j :: 0 <= j < |children| && ChildSupplies(children[j], y)
          ensures ChildSupplies(c, y) || exists j :: 0 <= j < |children[1..]| && ChildSupplies(children[1..][j], y)
        {
          var j :| 0 <= j < |children| && ChildSupplies(children[j], y);
          if j > 0 {
            assert ChildSupplies(children[1..][j - 1], y);
          }
        }
      }
      r
  }

  function AddMercenaries(acc: seq<string>, mercs: seq<Mercenary>): (r: seq<string>)
    ensures NoDuplicates(acc) ==> NoDuplicates(r)
    ensures forall y :: y in r <==> y in acc || exists i :: 0 <= i < |mercs| && Supplies(mercs[i], y)
    ensures acc <= r
    decreases |mercs|
  {
    if |mercs| == 0 then acc
    else
      var m := mercs[0];
      var next := AddChildren(AddNames(acc, m.items), m.childMercenaries);
      var r := AddMercenaries(next, mercs[1..]);
      SuppliedByHeadOrTail(mercs);
      assert forall y :: y in next <==> y in acc || Supplies(m, y);
      r
  }

  /** A name some mercenary of a list supplies is supplied by its first
      mercenary or by one of the rest. */
  lemma SuppliedByHeadOrTail(mercs: seq<Mercenary>)
    requires |mercs| > 0
    ensures forall y :: (exists i :: 0 <= i < |mercs| && Supplies(mercs[i], y)) <==>
              Supplies(mercs[0], y) || exists i :: 0 <= i < |mercs[1..]| && Supplies(mercs[1..][i], y)
  {
    assert forall i :: 0 <= i < |mercs[1..]| ==> mercs[1..][i] == mercs[i + 1];
    forall y | exists i :: 0 <= i < |mercs| && Supplies(mercs[i], y)
      ensures Supplies(mercs[0], y) || exists i :: 0 <= i < |mercs[1..]| && Supplies(mercs[1..][i], y)
    {
      var i :| 0 <= i < |mercs| && Supplies(mercs[i], y);
      if i > 0 {
        assert Supplies(mercs[1..][i - 1], y);
      }
    }
  }

  /** `getAllUniqueItems` over a mercenary list: each name once, and exactly
      the main materials plus the materials of children that are not
      modified mercenaries. */
  function UniqueItems(mercs: seq<Mercenary>): (r: seq<string>)
    ensures NoDuplicates(r)
    ensures forall y :: y in r <==> exists i :: 0 <= i < |mercs| && Supplies(mercs[i], y)
  {
    AddMercenaries([], mercs)
  }

  // ---------------------------------------------------------------------
  // calculateTotalCost
  // ---------------------------------------------------------------------

  /** A material counts when it has a price entry with a positive minimum. */
  predicate HasPositivePrice(prices: map<string, PriceInfo>, name: string) {
    name in prices && prices[name].minPrice > 0
  }

  /** What one requirement adds to a cost sum. */
  function Contribution(item: ItemRequirement, prices: map<string, PriceInfo>): int {
    if HasPositivePrice(prices, item.name) then prices[item.name].minPrice * item.quantity else 0
  }

  /** Reference definition: the sum of the contributions. */
  function ItemsCost(items: seq<ItemRequirement>, prices: map<string, PriceInfo>): (c: int)
    ensures c >= 0
  {
    if |items| == 0 then 0 else Contribution(items[0], prices) + ItemsCost(items[1..], prices)
  }

  function ChildrenCost(children: seq<ChildMercenary>, prices: map<string, PriceInfo>): (c: int)
    ensures c >= 0
  {
    if |children| == 0 then 0
    else ItemsCost(children[0].items, prices) + ChildrenCost(children[1..], prices)
  }

  /** `items.reduce((sum, item) => ..., sum)`, as written: a left fold. */
  function ReduceItemsCost(items: seq<ItemRequirement>, prices: map<string, PriceInfo>, sum: int): (r: int)
    ensures r == sum + ItemsCost(items, prices)
    decreases |items|
  {
    if |items| == 0 then sum
    else ReduceItemsCost(items[1..], prices, sum + Contribution(items[0], prices))
  }

  function ReduceChildrenCost(children: seq<ChildMercenary>, prices: map<string, PriceInfo>, sum: int): (r: int)
    ensures r == sum + ChildrenCost(children, prices)
    decreases |children|
  {
    if |children| == 0 then sum
    else ReduceChildrenCost(children[1..], prices, sum + ReduceItemsCost(children[0].items, prices, 0))
  }

  datatype TotalCost = TotalCost(mainCost: int, childCost: int, totalCost: int)

  /** `calculateTotalCost`: the main materials' cost, the children's cost and
      their sum; unpriced materials add nothing. */
  function CalculateTotalCost(mercenary: Mercenary, prices: map<string, PriceInfo>): (r: TotalCost)
    ensures r.mainCost == ItemsCost(mercenary.items, prices) && r.mainCost >= 0
    ensures r.childCost == ChildrenCost(mercenary.childMercenaries, prices) && r.childCost >= 0
    ensures r.totalCost == r.mainCost + r.childCost
  {
    var mainCost := ReduceItemsCost(mercenary.items, prices, 0);
    var childCost := ReduceChildrenCost(mercenary.childMercenaries, prices, 0);
    TotalCost(mainCost, childCost, mainCost + childCost)
  }

  /** The cost of a concatenation is the sum of the costs. */
  lemma {:induction false} ItemsCostAppend(a: seq<ItemRequirement>, b: seq<ItemRequirement>, prices: map<string, PriceInfo>)
    ensures ItemsCost(a + b, prices) == ItemsCost(a, prices) + ItemsCost(b, prices)
    decreases |a|
  {
    if |a| == 0 {
      assert a + b == b;
    } else {
      assert (a + b)[1..] == a[1..] + b;
      assert (a + b)[0] == a[0];
      ItemsCostAppend(a[1..], b, prices);
    }
  }

  /** A cost is positive exactly when some material has a positive price and
      a positive quantity. */
  lemma {:induction false} ItemsCostPositive(items: seq<ItemRequirement>, prices: map<string, PriceInfo>)
    ensures ItemsCost(items, prices) > 0 <==>
      exists i :: 0 <= i < |items| && HasPositivePrice(prices, items[i].name) && items[i].quantity > 0
    decreases |items|
  {
    if |items| > 0 {
      ItemsCostPositive(items[1..], prices);
      var it := items[0];
      assert forall i :: 1 <= i < |items| ==> items[i] == items[1..][i - 1];
      if HasPositivePrice(prices, it.name) && it.quantity > 0 {
        assert prices[it.name].minPrice * it.quantity > 0;
      }
    }
  }

  /** Dropping every price entry that is not positive changes no cost:
      those entries never contribute. */
  lemma {:induction false} ItemsCostIgnoresUnpriced(items: seq<ItemRequirement>, prices: map<string, PriceInfo>)
    ensures ItemsCost(items, prices) ==
            ItemsCost(items, map k | k in prices && prices[k].minPrice > 0 :: prices[k])
    decreases |items|
  {
    if |items| > 0 {
      ItemsCostIgnoresUnpriced(items[1..], prices);
      var positive := map k | k in prices && prices[k].minPrice > 0 :: prices[k];
      var name := items[0].name;
      assert HasPositivePrice(prices, name) <==> HasPositivePrice(positive, name);
      assert HasPositivePrice(prices, name) ==> prices[name] == positive[name];
    }
  }

  // ---------------------------------------------------------------------
  // getAttributeColor
  // ---------------------------------------------------------------------

  const DEFAULT_COLOR: string := "#737373"

  /** The five attribute glyphs. */
  const ATTRIBUTES: seq<string> := ["火", "水", "風", "雷", "地"]

  /** `getAttributeColor`: a colour of its own for each of the five
      attributes, the fallback grey for anything else. */
  function AttributeColor(attr: string): (color: string)
    ensures |color| == 7 && color[0] == '#'
    ensures attr !in ATTRIBUTES <==> color == DEFAULT_COLOR
  {
    if attr == "火" then "#ef4444"
    else if attr == "水" then "#3b82f6"
    else if attr == "風" then "#22c55e"
    else if attr == "雷" then "#eab308"
    else if attr == "地" then "#a855f7"
    else DEFAULT_COLOR
  }

  /** Each attribute has its own colour, and none of them is the fallback
      grey. */
  lemma AttributeColorsDistinct()
    ensures forall i, j :: 0 <= i < j < |ATTRIBUTES| ==> AttributeColor(ATTRIBUTES[i]) != AttributeColor(ATTRIBUTES[j])
    ensures forall i :: 0 <= i < |ATTRIBUTES| ==> AttributeColor(ATTRIBUTES[i]) != DEFAULT_COLOR
  {
  }
}
