/** The string operations the app borrows from Foundation, restricted to ASCII:
    trimming a character set, lower/upper-casing, substring search,
    `split(separator: " ")` (which omits empty pieces) and `joined(separator:)`. */
module Text {
  import opened Basics

  /** Foundation's `.whitespaces` and `.whitespacesAndNewlines`, ASCII members only. */
  datatype CharSet = Whitespaces | WhitespacesAndNewlines

  predicate InSet(c: char, cs: CharSet)
  {
    c == ' ' || c == '\t' ||
    (cs == WhitespacesAndNewlines && (c == '\n' || c == '\r' || c == '\U{0B}' || c == '\U{0C}'))
  }

  /** Every character of `s` belongs to `cs`; the empty string qualifies. */
  predicate AllIn(s: string, cs: CharSet)
  {
    forall i :: 0 <= i < |s| ==> InSet(s[i], cs)
  }

  function TrimLeading(s: string, cs: CharSet): (r: string)
    ensures |r| <= |s| && r == s[|s| - |r|..]
    ensures r == [] || !InSet(r[0], cs)
    ensures AllIn(s[..|s| - |r|], cs)
  {
    if |s| == 0 || !InSet(s[0], cs) then s
    else
      var r := TrimLeading(s[1..], cs);
      assert s[..|s| - |r|] == [s[0]] + s[1..][..|s| - 1 - |r|];
      r
  }

  function TrimTrailing(s: string, cs: CharSet): (r: string)
    ensures |r| <= |s| && r == s[..|r|]
    ensures r == [] || !InSet(r[|r| - 1], cs)
    ensures AllIn(s[|r|..], cs)
  {
    if |s| == 0 || !InSet(s[|s| - 1], cs) then s
    else
      var r := TrimTrailing(s[..|s| - 1], cs);
      assert s[|r|..] == s[..|s| - 1][|r|..] + [s[|s| - 1]];
      r
  }

  /** `trimmingCharacters(in:)`: drops members of `cs` from both ends. */
  function Trim(s: string, cs: CharSet): (r: string)
    ensures r == [] || (!InSet(r[0], cs) && !InSet(r[|r| - 1], cs))
  {
    TrimTrailing(TrimLeading(s, cs), cs)
  }

  /** A string trims to nothing exactly when it consists only of characters of the set. */
  lemma TrimEmptyIff(s: string, cs: CharSet)
    ensures Trim(s, cs) == [] <==> AllIn(s, cs)
  {
    var l := TrimLeading(s, cs);
    if Trim(s, cs) == [] {
      assert AllIn(l, cs) by {
        assert l[0..] == l;
      }
      assert s == s[..|s| - |l|] + l;
    }
    if AllIn(s, cs) {
      TrimLeadingAll(s, cs);
    }
  }

  lemma {:induction false} TrimLeadingAll(s: string, cs: CharSet)
    requires AllIn(s, cs)
    ensures TrimLeading(s, cs) == []
    decreases |s|
  {
    if |s| > 0 {
      TrimLeadingAll(s[1..], cs);
    }
  }

  function LowerChar(c: char): char
  {
    if 'A' <= c <= 'Z' then (c as int + 32) as char else c
  }

  function UpperChar(c: char): char
  {
    if 'a' <= c <= 'z' then (c as int - 32) as char else c
  }

  /** `lowercased()`, character by character. */
  function Lower(s: string): (r: string)
    ensures |r| == |s|
    ensures forall i :: 0 <= i < |s| ==> r[i] == LowerChar(s[i])
  {
    seq(|s|, i requires 0 <= i < |s| => LowerChar(s[i]))
  }

  /** `uppercased()`, character by character. */
  function Upper(s: string): (r: string)
    ensures |r| == |s|
    ensures forall i :: 0 <= i < |s| ==> r[i] == UpperChar(s[i])
  {
    seq(|s|, i requires 0 <= i < |s| => UpperChar(s[i]))
  }

  lemma LowerNoUpper(s: string)
    ensures forall i :: 0 <= i < |Lower(s)| ==> !('A' <= Lower(s)[i] <= 'Z')
  {
  }

  /** `needle` occurs in `hay` starting at position `i`. */
  predicate OccursAt(hay: string, needle: string, i: int)
  {
    0 <= i && i + |needle| <= |hay| && hay[i..i + |needle|] == needle
  }

  /** `contains(_:)` on strings: a recursive scan, proved equal to the existence of an occurrence. */
  function Contains(hay: string, needle: string): (b: bool)
    ensures b <==> exists i :: OccursAt(hay, needle, i)
    decreases |hay|
  {
    if |needle| <= |hay| && hay[..|needle|] == needle then
      assert OccursAt(hay, needle, 0);
      true
    else if |hay| == 0 then
      assert forall i :: !OccursAt(hay, needle, i);
      false
    else
      var b := Contains(hay[1..], needle);
      if b then
        var i :| OccursAt(hay[1..], needle, i);
        assert OccursAt(hay, needle, i + 1) by {
          assert hay[i + 1..i + 1 + |needle|] == hay[1..][i..i + |needle|];
        }
        b
      else
        assert forall i :: !OccursAt(hay, needle, i) by {
          forall i | OccursAt(hay, needle, i)
            ensures false
          {
            if i > 0 {
              assert hay[1..][i - 1..i - 1 + |needle|] == hay[i..i + |needle|];
              assert OccursAt(hay[1..], needle, i - 1);
            }
          }
        }
        b
  }

  lemma ContainsEmpty(hay: string)
    ensures Contains(hay, [])
  {
    assert OccursAt(hay, [], 0);
  }

  predicate NotSpace(c: char) { c != ' ' }

  /** The characters of `s` other than spaces, in order. */
  function WithoutSpaces(s: string): string
  {
    Filter(s, NotSpace)
  }

  /** The longest space-free prefix of `s`. */
  function LeadingWord(s: string): (w: string)
    ensures |w| <= |s| && w == s[..|w|]
    ensures forall i :: 0 <= i < |w| ==> w[i] != ' '
    ensures |w| < |s| ==> s[|w|] == ' '
  {
    if |s| == 0 || s[0] == ' ' then []
    else [s[0]] + LeadingWord(s[1..])
  }

  /** Concatenation of a list of strings. */
  function Concat(ws: seq<string>): string
  {
    if |ws| == 0 then [] else ws[0] + Concat(ws[1..])
  }

  /** `split(separator: " ")`: maximal space-free runs, empty pieces omitted. */
  function Words(s: string): (ws: seq<string>)
    ensures forall i :: 0 <= i < |ws| ==> |ws[i]| > 0 && forall j :: 0 <= j < |ws[i]| ==> ws[i][j] != ' '
    ensures Concat(ws) == WithoutSpaces(s)
    decreases |s|
  {
    if |s| == 0 then []
    else if s[0] == ' ' then
      assert s == [s[0]] + s[1..];
      FilterAppend([s[0]], s[1..], NotSpace);
      Words(s[1..])
    else
      var w := LeadingWord(s);
      var rest := Words(s[|w|..]);
      assert s == w + s[|w|..];
      FilterAppend(w, s[|w|..], NotSpace);
      FilterAll(w, NotSpace);
      [w] + rest
  }

  /** A string splits into no words exactly when it holds nothing but spaces. */
  lemma WordsEmptyIff(s: string)
    ensures Words(s) == [] <==> forall i :: 0 <= i < |s| ==> s[i] == ' '
  {
    if Words(s) == [] {
      forall i | 0 <= i < |s| && s[i] != ' '
        ensures s[i] in WithoutSpaces(s)
      {
      }
    } else {
      var w := Words(s)[0];
      assert Concat(Words(s)) == w + Concat(Words(s)[1..]);
      assert w[0] in WithoutSpaces(s);
    }
  }

  /** `joined(separator:)`. */
  function Join(parts: seq<string>, sep: string): string
  {
    if |parts| == 0 then []
    else if |parts| == 1 then parts[0]
    else parts[0] + sep + Join(parts[1..], sep)
  }

  function TotalLength(parts: seq<string>): nat
  {
    if |parts| == 0 then 0 else |parts[0]| + TotalLength(parts[1..])
  }

  /** The joined string holds every part and one separator between each pair of neighbours. */
  lemma {:induction false} JoinLength(parts: seq<string>, sep: string)
    requires |parts| > 0
    ensures |Join(parts, sep)| == TotalLength(parts) + (|parts| - 1) * |sep|
    decreases |parts|
  {
    if |parts| > 1 {
      JoinLength(parts[1..], sep);
    }
  }

  /** Joining non-empty parts yields the empty string only for the empty list. */
  lemma {:induction false} JoinEmptyIff(parts: seq<string>, sep: string)
    requires forall i :: 0 <= i < |parts| ==> |parts[i]| > 0
    ensures Join(parts, sep) == [] <==> |parts| == 0
  {
    if |parts| > 0 {
      JoinLength(parts, sep);
      assert TotalLength(parts) >= |parts[0]|;
    }
  }

  /** `s.isEmpty ? nil : s`: the empty string is stored as nil. */
  function NilIfEmpty(s: string): (r: Option<string>)
    ensures r.None? <==> s == []
    ensures r.Some? ==> r.value == s
  {
    if s == [] then None else Some(s)
  }

  /** `(s?.isEmpty == false) ? s : nil`: nil and the empty string are both stored as nil. */
  function NilIfEmptyOpt(o: Option<string>): (r: Option<string>)
    ensures r.None? <==> (o.None? || o.value == [])
    ensures r.Some? ==> r == o
  {
    match o
    case None => None
    case Some(s) => NilIfEmpty(s)
  }
}
